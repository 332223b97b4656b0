/** The manual paint derivation and the two labels derived from a skin's
    display name: the pattern label and the active-preset highlight. */
module Paint {
  import opened Catalog

  /** The skin `{...prev, [part]: hex, name: 'Custom Forged'}`: a new object,
      `prev` itself is left as it was. */
  function Painted(prev: Skin, part: Part, hex: string): (r: Skin)
    ensures r.Keys == prev.Keys + {PartKey(part), NameKey}
    ensures r[PartKey(part)] == hex && r[NameKey] == CustomName
    ensures forall k :: k in prev && k != PartKey(part) && k != NameKey ==> r[k] == prev[k]
  {
    prev[PartKey(part) := hex][NameKey := CustomName]
  }

  /** The pattern label under the mint panel. */
  function PatternLabel(s: Skin): string {
    if NameKey in s && s[NameKey] == CustomName then "CUSTOM" else "LEGENDARY"
  }

  /** A preset button is highlighted when the skin's name equals the preset's name. */
  predicate IsActive(s: Skin, preset: Preset) {
    NameKey in s && s[NameKey] == preset.name
  }

  /** Painting keeps a skin complete: it only writes keys a complete skin already has. */
  lemma PaintedWellFormed(prev: Skin, part: Part, hex: string)
    requires WellFormed(prev)
    ensures WellFormed(Painted(prev, part, hex))
    ensures forall q: Part :: q != part ==> Painted(prev, part, hex)[PartKey(q)] == prev[PartKey(q)]
  {
  }

  /** Painting one part twice is painting it once with the second colour. */
  lemma PaintLastWriteWins(prev: Skin, part: Part, first: string, second: string)
    ensures Painted(Painted(prev, part, first), part, second) == Painted(prev, part, second)
  {
  }

  /** Paint applied to two different parts lands the same in either order. */
  lemma PaintDistinctPartsCommute(prev: Skin, p: Part, q: Part, a: string, b: string)
    requires p != q
    ensures Painted(Painted(prev, p, a), q, b) == Painted(Painted(prev, q, b), p, a)
  {
  }

  /** The label reads "CUSTOM" exactly when the skin is named "Custom Forged",
      and "LEGENDARY" otherwise. */
  lemma PatternLabelCases(s: Skin)
    ensures PatternLabel(s) == "CUSTOM" <==> (NameKey in s && s[NameKey] == CustomName)
    ensures PatternLabel(s) != "CUSTOM" ==> PatternLabel(s) == "LEGENDARY"
  {
  }

  /** Every painted skin shows "CUSTOM" and highlights no preset. */
  lemma PaintedIsCustom(prev: Skin, part: Part, hex: string)
    ensures PatternLabel(Painted(prev, part, hex)) == "CUSTOM"
    ensures forall i :: 0 <= i < |Presets()| ==> !IsActive(Painted(prev, part, hex), Presets()[i])
  {
    PresetsWellFormed();
  }

  /** Applying preset i highlights preset i and no other, and shows "LEGENDARY". */
  lemma PresetHighlightsItself(i: nat, j: nat)
    requires i < |Presets()| && j < |Presets()|
    ensures IsActive(Presets()[i].config, Presets()[j]) <==> i == j
    ensures PatternLabel(Presets()[i].config) == "LEGENDARY"
  {
    PresetsWellFormed();
  }

  /** The default skin shows "LEGENDARY" and highlights no preset. */
  lemma DefaultHighlightsNothing()
    ensures PatternLabel(DefaultSkin()) == "LEGENDARY"
    ensures forall i :: 0 <= i < |Presets()| ==> !IsActive(DefaultSkin(), Presets()[i])
  {
    PresetsWellFormed();
  }
}
