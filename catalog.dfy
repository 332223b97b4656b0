/** The skin record and the fixed tables of the GunMint foundry: the default
    skin, the weapon chassis list, the legendary presets and the paint palette. */
module Catalog {

  /** The four paintable regions every weapon template knows about. */
  datatype Part = Body | Stock | Barrel | Grip

  /** The keys of a skin object: one per part, plus its display name. */
  datatype Key = PartKey(part: Part) | NameKey

  /** A skin object, keyed like the JavaScript literal it models. Fills
      ('#1f2937', 'url(#camoPat)', ...) are opaque strings. */
  type Skin = map<Key, string>

  const AllKeys: set<Key> := {PartKey(Body), PartKey(Stock), PartKey(Barrel), PartKey(Grip), NameKey}

  /** Display name the paint editor stamps on every hand-painted skin. */
  const CustomName: string := "Custom Forged"

  /** Display name of the skin the foundry starts with. */
  const DefaultName: string := "Default Issue"

  /** A skin has every key: body, stock, barrel, grip and name. */
  ghost predicate WellFormed(s: Skin) {
    forall k: Key :: k in s
  }

  /** AllKeys lists every key there is. */
  lemma AllKeysComplete()
    ensures forall k: Key :: k in AllKeys
  {
    forall k: Key ensures k in AllKeys {
      match k
      case NameKey =>
      case PartKey(p) => match p { case Body => case Stock => case Barrel => case Grip => }
    }
  }

  /** Holding every key is holding exactly the five keys of AllKeys. */
  lemma WellFormedKeys(s: Skin)
    ensures WellFormed(s) <==> s.Keys == AllKeys
  {
    AllKeysComplete();
  }

  /** The object literal `{ body, stock, barrel, grip, name }`. */
  function MakeSkin(body: string, stock: string, barrel: string, grip: string, name: string): (s: Skin)
    ensures WellFormed(s)
    ensures s[PartKey(Body)] == body && s[PartKey(Stock)] == stock
    ensures s[PartKey(Barrel)] == barrel && s[PartKey(Grip)] == grip
    ensures s[NameKey] == name
  {
    var s := map[PartKey(Body) := body, PartKey(Stock) := stock, PartKey(Barrel) := barrel,
                 PartKey(Grip) := grip, NameKey := name];
    WellFormedKeys(s);
    s
  }

  /** The skin the foundry starts with and returns to on reset. */
  function DefaultSkin(): Skin {
    MakeSkin("url(#carbonFiber)", "#1f2937", "#111827", "#374151", DefaultName)
  }

  /** The weapon chassis ids the selector offers. */
  datatype WeaponId = Ar | Sniper | Smg | Shotgun | Pistol

  /** The string id each chassis carries in the selector and hands to the renderer. */
  function Id(w: WeaponId): string {
    match w
    case Ar => "ar"
    case Sniper => "sniper"
    case Smg => "smg"
    case Shotgun => "shotgun"
    case Pistol => "pistol"
  }

  /** Every id string the renderer's switch has a case for. */
  const KnownIds: set<string> := {"ar", "sniper", "smg", "shotgun", "pistol"}

  datatype WeaponEntry = WeaponEntry(id: WeaponId, name: string)

  /** The chassis selector, in display order. */
  function Weapons(): seq<WeaponEntry> {
    [ WeaponEntry(Ar, "Assault Rifle"),
      WeaponEntry(Sniper, "Sniper AWP"),
      WeaponEntry(Smg, "Vector SMG"),
      WeaponEntry(Shotgun, "Heavy Shotgun"),
      WeaponEntry(Pistol, "Tac Pistol") ]
  }

  /** A legendary preset; the icon element is not modelled. */
  datatype Preset = Preset(id: string, name: string, desc: string, config: Skin)

  /** The legendary presets, in display order. */
  function Presets(): seq<Preset> {
    [ Preset("thunder", "Zeus's Wrath", "Animated Lightning",
             MakeSkin("url(#thunderPat)", "#1e3a8a", "#facc15", "#1e3a8a", "Zeus's Wrath")),
      Preset("ninja", "Dragon's Breath", "Ancient Scales",
             MakeSkin("url(#scalesPat)", "#7f1d1d", "#450a0a", "#ea580c", "Dragon's Breath")),
      Preset("military", "Forest Phantom", "Digital Camo",
             MakeSkin("url(#camoPat)", "#14532d", "#3f6212", "#14532d", "Forest Phantom")),
      Preset("tech", "Cyber Protocol", "Carbon Fiber",
             MakeSkin("url(#carbonFiber)", "#1f2937", "#06b6d4", "#111827", "Cyber Protocol")) ]
  }

  datatype Swatch = Swatch(name: string, hex: string)

  /** The solid colours offered by the manual paint panel. */
  function ManualColors(): seq<Swatch> {
    [ Swatch("Matte Black", "#111827"), Swatch("Titanium White", "#F3F4F6"),
      Swatch("Gold", "#F59E0B"), Swatch("Ruby Red", "#DC2626"),
      Swatch("Neon Green", "#10B981"), Swatch("Cyber Blue", "#2563EB"),
      Swatch("Hot Pink", "#EC4899"), Swatch("Purple Haze", "#9333EA") ]
  }

  /** The component buttons of the manual paint panel, in display order. */
  function PartButtons(): seq<Part> {
    [Body, Barrel, Stock, Grip]
  }

  /** The default skin is well formed and carries the "Default Issue" name. */
  lemma DefaultSkinShape()
    ensures WellFormed(DefaultSkin())
    ensures DefaultSkin()[NameKey] == DefaultName
    ensures DefaultSkin()[PartKey(Body)] == "url(#carbonFiber)"
  {
  }

  /** The position of a chassis' button in the selector. */
  function SelectorIndex(w: WeaponId): nat {
    match w
    case Ar => 0
    case Sniper => 1
    case Smg => 2
    case Shotgun => 3
    case Pistol => 4
  }

  /** The selector offers every chassis exactly once, and every id it hands
      out is one the renderer's switch names; distinct chassis get distinct ids. */
  lemma WeaponsTableComplete()
    ensures |Weapons()| == 5
    ensures forall w: WeaponId ::
      SelectorIndex(w) < |Weapons()| && Weapons()[SelectorIndex(w)].id == w
    ensures forall i, j :: 0 <= i < j < |Weapons()| ==> Weapons()[i].id != Weapons()[j].id
    ensures forall w: WeaponId :: Id(w) in KnownIds
    ensures forall v, w: WeaponId :: Id(v) == Id(w) ==> v == w
  {
  }

  /** Every preset's configuration is a complete skin whose name is the
      preset's own name; preset names are pairwise distinct and none is the
      custom or the default name. */
  lemma PresetsWellFormed()
    ensures |Presets()| == 4
    ensures forall i :: 0 <= i < |Presets()| ==>
      WellFormed(Presets()[i].config) && Presets()[i].config[NameKey] == Presets()[i].name
    ensures forall i, j :: 0 <= i < j < |Presets()| ==> Presets()[i].name != Presets()[j].name
    ensures forall i :: 0 <= i < |Presets()| ==>
      Presets()[i].name != CustomName && Presets()[i].name != DefaultName
  {
  }

  predicate IsHexDigit(c: char) {
    '0' <= c <= '9' || 'a' <= c <= 'f' || 'A' <= c <= 'F'
  }

  /** A colour written '#rrggbb'. */
  predicate IsHexColour(h: string) {
    |h| == 7 && h[0] == '#' && forall j :: 1 <= j < 7 ==> IsHexDigit(h[j])
  }

  /** The palette holds eight distinct '#rrggbb' colours. */
  lemma ManualColorsDistinct()
    ensures |ManualColors()| == 8
    ensures forall i :: 0 <= i < |ManualColors()| ==> IsHexColour(ManualColors()[i].hex)
    ensures forall i, j :: 0 <= i < j < |ManualColors()| ==> ManualColors()[i].hex != ManualColors()[j].hex
  {
    var cs := ManualColors();
    forall i | 0 <= i < |cs| ensures IsHexColour(cs[i].hex) {
      var h := cs[i].hex;
      assert |h| == 7 && h[0] == '#';
      assert IsHexDigit(h[1]) && IsHexDigit(h[2]) && IsHexDigit(h[3]);
      assert IsHexDigit(h[4]) && IsHexDigit(h[5]) && IsHexDigit(h[6]);
    }
  }

  /** The component buttons list each of the four parts once. */
  lemma PartButtonsComplete()
    ensures |PartButtons()| == 4
    ensures forall p: Part :: p in PartButtons()
  {
    forall p: Part ensures p in PartButtons() {
      match p
      case Body => assert PartButtons()[0] == p;
      case Barrel => assert PartButtons()[1] == p;
      case Stock => assert PartButtons()[2] == p;
      case Grip => assert PartButtons()[3] == p;
    }
  }
}
