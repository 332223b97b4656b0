/** The foundry section of the App component: the state it holds (weapon, skin,
    control tab, part chosen for painting) and the click handlers that
    overwrite it. */
module Foundry {
  import opened Catalog
  import opened Paint
  import Geometry

  /** The two control panels. */
  datatype Tab = PresetsTab | ManualTab

  class Configurator {
    var currentWeapon: WeaponId
    var activeTab: Tab
    var manualPart: Part
    var currentSkin: Skin

    /** The held skin always has exactly the keys body, stock, barrel, grip and name. */
    ghost predicate Valid()
      reads this
    {
      WellFormed(currentSkin)
    }

    /** Initial state: the rifle, the presets panel, the body part, the default skin. */
    constructor ()
      ensures Valid()
      ensures currentWeapon == Ar && activeTab == PresetsTab && manualPart == Body
      ensures currentSkin == DefaultSkin()
    {
      currentWeapon := Ar;
      activeTab := PresetsTab;
      manualPart := Body;
      currentSkin := DefaultSkin();
    }

    /** The reset button: back to the default skin; the weapon stays. */
    method ResetSkin()
      requires Valid()
      modifies this`currentSkin
      ensures Valid()
      ensures currentSkin == DefaultSkin()
      ensures currentSkin[NameKey] == DefaultName
      ensures currentWeapon == old(currentWeapon)
    {
      currentSkin := DefaultSkin();
    }

    /** A chassis button: only the weapon changes, so the paint job follows. */
    method SelectWeapon(w: WeaponId)
      requires Valid()
      modifies this`currentWeapon
      ensures Valid()
      ensures currentWeapon == w
      ensures currentSkin == old(currentSkin)
    {
      currentWeapon := w;
    }

    /** A preset button (shown on the presets panel only): the skin becomes a
        copy of the preset's configuration. */
    method ApplyPreset(i: nat)
      requires Valid() && activeTab == PresetsTab && i < |Presets()|
      modifies this`currentSkin
      ensures Valid()
      ensures currentSkin == Presets()[i].config
      ensures IsActive(currentSkin, Presets()[i]) && PatternLabel(currentSkin) == "LEGENDARY"
      ensures currentWeapon == old(currentWeapon)
    {
      PresetsWellFormed();
      PresetHighlightsItself(i, i);
      currentSkin := Presets()[i].config;
    }

    /** The tab buttons: only the visible panel changes. */
    method SwitchTab(t: Tab)
      requires Valid()
      modifies this`activeTab
      ensures Valid()
      ensures activeTab == t
      ensures currentSkin == old(currentSkin) && currentWeapon == old(currentWeapon)
    {
      activeTab := t;
    }

    /** A component button (manual panel only). */
    method SelectPart(p: Part)
      requires Valid() && activeTab == ManualTab
      modifies this`manualPart
      ensures Valid()
      ensures manualPart == p
      ensures currentSkin == old(currentSkin)
    {
      manualPart := p;
    }

    /** A swatch (manual panel only): paints the selected part and renames the
        skin "Custom Forged"; the other three parts keep their fills. */
    method PaintSelected(c: nat)
      requires Valid() && activeTab == ManualTab && c < |ManualColors()|
      modifies this`currentSkin
      ensures Valid()
      ensures currentSkin == Painted(old(currentSkin), manualPart, ManualColors()[c].hex)
      ensures currentSkin[PartKey(manualPart)] == ManualColors()[c].hex
      ensures currentSkin[NameKey] == CustomName && PatternLabel(currentSkin) == "CUSTOM"
      ensures forall q: Part :: q != manualPart ==> currentSkin[PartKey(q)] == old(currentSkin)[PartKey(q)]
      ensures forall i :: 0 <= i < |Presets()| ==> !IsActive(currentSkin, Presets()[i])
      ensures currentWeapon == old(currentWeapon)
    {
      PaintedWellFormed(currentSkin, manualPart, ManualColors()[c].hex);
      PaintedIsCustom(currentSkin, manualPart, ManualColors()[c].hex);
      currentSkin := Painted(currentSkin, manualPart, ManualColors()[c].hex);
    }

    /** What GunPreview draws for the current state. */
    function Scene(): seq<Geometry.Drawn>
      reads this
    {
      Geometry.Render(Id(currentWeapon), currentSkin)
    }
  }

  /** Walk-through: sniper, then "Zeus's Wrath", then a Ruby Red grip. */
  method SniperThunderRubyGrip()
  {
    var f := new Configurator();
    f.SelectWeapon(Sniper);
    Geometry.TemplateSizes(f.currentSkin);
    assert |f.Scene()| == 6;
    f.ApplyPreset(0);
    assert f.currentSkin[NameKey] == "Zeus's Wrath";
    assert f.currentSkin[PartKey(Body)] == "url(#thunderPat)";
    f.SwitchTab(ManualTab);
    f.SelectPart(Grip);
    f.PaintSelected(3);
    assert f.currentSkin[PartKey(Grip)] == "#DC2626";
    assert f.currentSkin[NameKey] == "Custom Forged";
    assert f.currentSkin[PartKey(Body)] == "url(#thunderPat)";
    assert Presets()[0].config[PartKey(Grip)] == "#1e3a8a";
    assert Presets()[0].config[NameKey] == "Zeus's Wrath";
  }

  /** Walk-through: pistol then rifle without touching the skin renders the
      rifle template with the default skin's fills. */
  method PistolThenRifle()
  {
    var f := new Configurator();
    f.SelectWeapon(Pistol);
    f.SelectWeapon(Ar);
    assert f.currentSkin == DefaultSkin();
    assert f.Scene() == Geometry.Render("ar", DefaultSkin());
    assert f.Scene()[1].fill == Geometry.Some("url(#carbonFiber)");
  }
}
