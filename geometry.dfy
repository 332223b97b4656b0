/** The weapon renderer of GunPreview: a switch from the weapon-type string to
    a fixed, back-to-front list of shapes, each either bound to a skin part or
    carrying a fixed fill. Coordinates and transforms are not modelled. */
module Geometry {
  import opened Catalog

  datatype Option<T> = None | Some(value: T)

  /** SVG element kind: `<path>` or `<rect>`. */
  datatype Kind = PathShape | RectShape

  /** The entrance animation class of a shape. */
  datatype Entrance = FlyInLeft | FlyInTop | FlyInBottom | FlyInRight | FadeScale

  /** Where a shape's fill comes from. */
  datatype Binding = Bound(part: Part) | Fixed(fill: string)

  /** One shape of a template; `delay` is the animation delay in tenths of a second. */
  datatype Shape = Shape(kind: Kind, entrance: Entrance, delay: nat, binding: Binding, stroke: Option<string>)

  /** One shape as drawn: a `None` fill is an attribute React leaves out. */
  datatype Drawn = Drawn(kind: Kind, entrance: Entrance, delay: nat, fill: Option<string>, stroke: Option<string>)

  function SniperTemplate(): seq<Shape> {
    [ Shape(PathShape, FlyInLeft, 1, Bound(Stock), Some("#111")),
      Shape(PathShape, FlyInTop, 0, Bound(Body), Some("#111")),
      Shape(PathShape, FlyInBottom, 2, Bound(Grip), Some("#111")),
      Shape(PathShape, FlyInRight, 3, Bound(Barrel), Some("#111")),
      Shape(RectShape, FadeScale, 4, Fixed("#111"), Some("#333")),
      Shape(PathShape, FlyInBottom, 3, Fixed("#1a1a1a"), Some("#333")) ]
  }

  function SmgTemplate(): seq<Shape> {
    [ Shape(PathShape, FlyInLeft, 1, Bound(Stock), Some("#111")),
      Shape(PathShape, FlyInTop, 0, Bound(Body), Some("#111")),
      Shape(PathShape, FlyInBottom, 2, Bound(Grip), Some("#111")),
      Shape(PathShape, FlyInBottom, 3, Bound(Grip), Some("#111")),
      Shape(PathShape, FlyInRight, 3, Bound(Barrel), Some("#111")),
      Shape(RectShape, FlyInBottom, 4, Fixed("#1a1a1a"), Some("#333")) ]
  }

  function PistolTemplate(): seq<Shape> {
    [ Shape(PathShape, FlyInBottom, 0, Bound(Grip), Some("#111")),
      Shape(PathShape, FlyInTop, 1, Bound(Body), Some("#111")),
      Shape(RectShape, FlyInRight, 2, Bound(Barrel), Some("#111")),
      Shape(PathShape, FadeScale, 3, Fixed("none"), Some("#333")) ]
  }

  function ShotgunTemplate(): seq<Shape> {
    [ Shape(PathShape, FlyInLeft, 1, Bound(Stock), Some("#111")),
      Shape(PathShape, FlyInTop, 0, Bound(Body), Some("#111")),
      Shape(PathShape, FlyInBottom, 2, Bound(Grip), Some("#111")),
      Shape(PathShape, FlyInRight, 3, Bound(Barrel), Some("#111")),
      Shape(PathShape, FlyInBottom, 4, Fixed("#222"), Some("#111")) ]
  }

  function ArTemplate(): seq<Shape> {
    [ Shape(PathShape, FlyInLeft, 1, Bound(Stock), Some("#111")),
      Shape(PathShape, FlyInTop, 0, Bound(Body), Some("#111")),
      Shape(PathShape, FlyInBottom, 2, Bound(Grip), Some("#111")),
      Shape(PathShape, FlyInBottom, 3, Fixed("#1a1a1a"), Some("#333")),
      Shape(PathShape, FlyInRight, 4, Bound(Barrel), Some("#111")),
      Shape(RectShape, FadeScale, 5, Fixed("#0f0f0f"), Some("#333")),
      Shape(RectShape, FadeScale, 5, Fixed("#333"), None),
      Shape(RectShape, FadeScale, 5, Fixed("#333"), None) ]
  }

  /** The switch on the weapon type; anything unrecognised falls to the rifle. */
  function Template(weaponType: string): seq<Shape> {
    if weaponType == "sniper" then SniperTemplate()
    else if weaponType == "smg" then SmgTemplate()
    else if weaponType == "pistol" then PistolTemplate()
    else if weaponType == "shotgun" then ShotgunTemplate()
    else ArTemplate()
  }

  /** The template of each chassis, by chassis rather than by string. */
  function TemplateOf(w: WeaponId): seq<Shape> {
    match w
    case Ar => ArTemplate()
    case Sniper => SniperTemplate()
    case Smg => SmgTemplate()
    case Shotgun => ShotgunTemplate()
    case Pistol => PistolTemplate()
  }

  /** `fill={skinConfig[part]}` or the shape's literal fill. */
  function ResolveFill(b: Binding, skin: Skin): Option<string> {
    match b
    case Bound(p) => if PartKey(p) in skin then Some(skin[PartKey(p)]) else None
    case Fixed(f) => Some(f)
  }

  function Draw(sh: Shape, skin: Skin): Drawn {
    Drawn(sh.kind, sh.entrance, sh.delay, ResolveFill(sh.binding, skin), sh.stroke)
  }

  /** The scene: the template's shapes in declaration (back-to-front) order,
      each with its fill resolved against the skin. */
  function Render(weaponType: string, skin: Skin): seq<Drawn> {
    var t := Template(weaponType);
    seq(|t|, i requires 0 <= i < |t| => Draw(t[i], skin))
  }

  /** The parts a list of shapes takes its fills from. */
  function BoundParts(shapes: seq<Shape>): (ps: set<Part>)
    ensures forall i :: 0 <= i < |shapes| && shapes[i].binding.Bound? ==> shapes[i].binding.part in ps
  {
    if shapes == [] then {}
    else (if shapes[0].binding.Bound? then {shapes[0].binding.part} else {}) + BoundParts(shapes[1..])
  }

  /** Every part named in BoundParts is the binding of some shape. */
  lemma {:induction false} BoundPartsAreBindings(shapes: seq<Shape>, p: Part)
    requires p in BoundParts(shapes)
    ensures exists i :: 0 <= i < |shapes| && shapes[i].binding == Bound(p)
  {
    if shapes[0].binding == Bound(p) {
      assert shapes[0].binding == Bound(p);
    } else {
      BoundPartsAreBindings(shapes[1..], p);
      var i :| 0 <= i < |shapes[1..]| && shapes[1..][i].binding == Bound(p);
      assert shapes[i + 1].binding == Bound(p);
    }
  }

  /** Each chassis id selects its own template, and every string that is not
      one of the five ids renders the rifle template. */
  lemma TemplateSelection(w: WeaponId, other: string)
    ensures Template(Id(w)) == TemplateOf(w)
    ensures other !in KnownIds ==> Template(other) == ArTemplate()
  {
  }

  /** Unknown weapon types render exactly what "ar" renders, for any skin. */
  lemma UnknownTypeRendersRifle(weaponType: string, skin: Skin)
    requires weaponType !in KnownIds
    ensures Render(weaponType, skin) == Render("ar", skin)
  {
  }

  /** Shape counts per template: rifle 8, sniper 6, smg 6, shotgun 5, pistol 4. */
  lemma TemplateSizes(skin: Skin)
    ensures |Render("ar", skin)| == 8 && |Render("sniper", skin)| == 6
    ensures |Render("smg", skin)| == 6 && |Render("shotgun", skin)| == 5
    ensures |Render("pistol", skin)| == 4
  {
  }

  /** A part-bound shape is drawn in the skin's fill for that part; a fixed
      shape in its own fill; kind, animation, delay and stroke come from the
      template whatever the skin. */
  lemma RenderAt(weaponType: string, skin: Skin, i: nat)
    requires i < |Template(weaponType)|
    ensures |Render(weaponType, skin)| == |Template(weaponType)|
    ensures var sh, d := Template(weaponType)[i], Render(weaponType, skin)[i];
      d.kind == sh.kind && d.entrance == sh.entrance && d.delay == sh.delay && d.stroke == sh.stroke &&
      (sh.binding.Fixed? ==> d.fill == Some(sh.binding.fill)) &&
      (sh.binding.Bound? && PartKey(sh.binding.part) in skin ==> d.fill == Some(skin[PartKey(sh.binding.part)]))
  {
  }

  /** With a complete skin every shape gets a fill. */
  lemma CompleteSkinFillsEveryShape(weaponType: string, skin: Skin)
    requires WellFormed(skin)
    ensures forall i :: 0 <= i < |Render(weaponType, skin)| ==> Render(weaponType, skin)[i].fill.Some?
  {
  }

  /** Two skins that agree on every part a template reads render the same scene. */
  lemma {:induction false} RenderReadsOnlyBoundParts(weaponType: string, s1: Skin, s2: Skin)
    requires forall p :: p in BoundParts(Template(weaponType)) ==>
      (PartKey(p) in s1 <==> PartKey(p) in s2) && (PartKey(p) in s1 ==> s1[PartKey(p)] == s2[PartKey(p)])
    ensures Render(weaponType, s1) == Render(weaponType, s2)
  {
    var t := Template(weaponType);
    forall i | 0 <= i < |t| ensures Draw(t[i], s1) == Draw(t[i], s2) {
      if t[i].binding.Bound? {
        assert t[i].binding.part in BoundParts(t);
      }
    }
  }

  /** The parts each template reads: the pistol never reads the stock, and
      the smg's grip is drawn by two shapes, its third and fourth. */
  lemma TemplateReads()
    ensures forall i :: 0 <= i < |SmgTemplate()| ==>
      (SmgTemplate()[i].binding == Bound(Grip) <==> i == 2 || i == 3)
    ensures BoundParts(PistolTemplate()) == {Grip, Body, Barrel}
    ensures BoundParts(ArTemplate()) == {Stock, Body, Grip, Barrel}
    ensures BoundParts(SniperTemplate()) == {Stock, Body, Grip, Barrel}
    ensures BoundParts(SmgTemplate()) == {Stock, Body, Grip, Barrel}
    ensures BoundParts(ShotgunTemplate()) == {Stock, Body, Grip, Barrel}
  {
    assert PistolTemplate()[1..][1..][1..][1..] == [];
    assert ArTemplate()[1..][1..][1..][1..][1..][1..][1..][1..] == [];
    assert SniperTemplate()[1..][1..][1..][1..][1..][1..] == [];
    assert SmgTemplate()[1..][1..][1..][1..][1..][1..] == [];
    assert ShotgunTemplate()[1..][1..][1..][1..][1..] == [];
  }

  /** Repainting the stock leaves the pistol's scene unchanged. */
  lemma PistolIgnoresStock(skin: Skin, fill: string)
    ensures Render("pistol", skin) == Render("pistol", skin[PartKey(Stock) := fill])
  {
    TemplateReads();
    RenderReadsOnlyBoundParts("pistol", skin, skin[PartKey(Stock) := fill]);
  }

  /** The skin's display name never reaches the scene. */
  lemma NameNotRendered(weaponType: string, skin: Skin, name: string)
    ensures Render(weaponType, skin) == Render(weaponType, skin[NameKey := name])
  {
    RenderReadsOnlyBoundParts(weaponType, skin, skin[NameKey := name]);
  }

  /** The fixed fills of all templates are drawn from six literal values. */
  lemma FixedFillsPalette(weaponType: string, i: nat)
    requires i < |Template(weaponType)| && Template(weaponType)[i].binding.Fixed?
    ensures Template(weaponType)[i].binding.fill in {"#111", "#1a1a1a", "#222", "#0f0f0f", "#333", "none"}
  {
  }
}
