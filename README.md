# GunMint foundry: weapon-skin configurator

This project models the weapon-skin configurator of the GunMint landing page (`gunmint/src/App.jsx`). The model has four modules:

- `Catalog` (catalog.dfy) holds the skin record and the fixed tables. A skin is a map from `Key` to a fill string. The keys are `PartKey(Body | Stock | Barrel | Grip)` and `NameKey`. The tables are the default skin "Default Issue", the five weapon chassis (`ar`, `sniper`, `smg`, `shotgun`, `pistol`), the four legendary presets and the eight-colour manual palette. Fills such as `url(#thunderPat)` are opaque strings.
- `Paint` (paint.dfy) holds the manual paint derivation `{...prev, [part]: hex, name: 'Custom Forged'}` as a map update. It also holds the two labels derived from the skin's name: the "CUSTOM"/"LEGENDARY" pattern label and the active-preset highlight.
- `Geometry` (geometry.dfy) holds `GunPreview`'s `renderWeaponGeometry`. It is a switch on the weapon-type string, and any unrecognised string falls through to the rifle. Each case yields a fixed, ordered list of shapes. A shape records its SVG element kind, entrance animation class, delay in tenths of a second, stroke colour, and either the skin part its fill is bound to or its own fixed fill. `Render` resolves each fill against a skin.
- `Foundry` (foundry.dfy) holds the `App` state: `currentWeapon`, `activeTab`, `manualPart` and `currentSkin`. It is a class whose methods are the click handlers. Each method overwrites one field. `Valid()` is the invariant that the skin holds all five keys, and every handler keeps it. Two client methods replay the walk-throughs "sniper, Zeus's Wrath, Ruby Red grip" and "pistol then rifle".

The model follows the code literally on three points where a reader might expect otherwise:

- The sniper template has six shapes (App.jsx lines 124-129).
- A bound shape whose part is missing from the skin gets no fill attribute. React drops `fill={undefined}`, and the model writes this as `None`. The code has no per-template default fill. With a well-formed skin this case never arises (`Geometry.CompleteSkinFillsEveryShape`).
- The preset highlight compares display names, not preset ids.

The paint and part buttons exist only while the manual panel is shown, and the preset buttons only while the presets panel is shown (the conditional at line 396). The matching methods therefore require that tab.

Skins are values, so applying a preset copies its configuration, as the spread in `{...preset.config}` does. `Presets()` is a function, so no later paint can change the catalogue. `PaintSelected` also modifies only `currentSkin`.

## Model

| member | source | states |
|---|---|---|
| Catalog.AllKeysComplete | gunmint/src/App.jsx:231 | the five keys body, stock, barrel, grip and name are every key a skin can have |
| Catalog.WellFormedKeys | gunmint/src/App.jsx:231 | a skin holds every key iff its key set is exactly {body, stock, barrel, grip, name} |
| Catalog.MakeSkin | gunmint/src/App.jsx:243-246 | a skin object literal is well formed and each key reads back the value written for it |
| Catalog.DefaultSkinShape | gunmint/src/App.jsx:231 | the default skin is complete, is named "Default Issue" and has the carbon-fibre body |
| Catalog.WeaponsTableComplete | gunmint/src/App.jsx:234-240 | the selector lists each of the five chassis exactly once; every id is a case of the renderer's switch; distinct chassis have distinct ids |
| Catalog.PresetsWellFormed | gunmint/src/App.jsx:242-247 | four presets, each config complete and named after its preset; names pairwise distinct and never "Custom Forged" or "Default Issue" |
| Catalog.ManualColorsDistinct | gunmint/src/App.jsx:249-254 | the palette holds eight distinct colours, each '#' followed by six hex digits |
| Catalog.PartButtonsComplete | gunmint/src/App.jsx:419 | the component buttons offer each of the four parts |
| Paint.Painted | gunmint/src/App.jsx:423 | the painted skin has the chosen hex on the chosen part and the name "Custom Forged"; every other key keeps its old value; it adds no key other than those two |
| Paint.PaintedWellFormed | gunmint/src/App.jsx:423 | painting a complete skin yields a complete skin, and the three other parts are unchanged |
| Paint.PaintLastWriteWins | gunmint/src/App.jsx:423 | painting a part twice equals painting it once with the second colour |
| Paint.PaintDistinctPartsCommute | gunmint/src/App.jsx:423 | painting two different parts gives the same skin in either order |
| Paint.PatternLabelCases | gunmint/src/App.jsx:431 | the label is "CUSTOM" iff the skin is named "Custom Forged", otherwise "LEGENDARY" |
| Paint.PaintedIsCustom | gunmint/src/App.jsx:403 | after any paint the label is "CUSTOM" and no preset is highlighted |
| Paint.PresetHighlightsItself | gunmint/src/App.jsx:402-403 | after applying preset i, preset j is highlighted iff j = i, and the label is "LEGENDARY" |
| Paint.DefaultHighlightsNothing | gunmint/src/App.jsx:431 | the default skin shows "LEGENDARY" and highlights no preset |
| Geometry.BoundParts | gunmint/src/App.jsx:124-173 | every part some shape of the list is bound to is in the set |
| Geometry.BoundPartsAreBindings | gunmint/src/App.jsx:124-173 | every part in the set is the binding of some shape (the converse) |
| Geometry.TemplateSelection | gunmint/src/App.jsx:120-175 | each chassis id selects that chassis' template; any string outside the five ids selects the rifle template |
| Geometry.UnknownTypeRendersRifle | gunmint/src/App.jsx:162-163 | an unknown weapon type renders exactly the "ar" scene, for every skin |
| Geometry.TemplateSizes | gunmint/src/App.jsx:120-175 | scenes have 8 (ar), 6 (sniper), 6 (smg), 5 (shotgun) and 4 (pistol) shapes |
| Geometry.RenderAt | gunmint/src/App.jsx:124-173 | shape i of the scene keeps the template's kind, animation, delay and stroke; a bound shape takes the skin's fill for its part, a fixed shape its own fill |
| Geometry.CompleteSkinFillsEveryShape | gunmint/src/App.jsx:124-173 | with a complete skin every drawn shape has a fill |
| Geometry.RenderReadsOnlyBoundParts | gunmint/src/App.jsx:119-177 | two skins that agree on the parts a template reads render the same scene |
| Geometry.TemplateReads | gunmint/src/App.jsx:124-173 | the pistol reads grip, body and barrel only; every other template reads all four parts; exactly the smg's third and fourth shapes take the grip's fill |
| Geometry.PistolIgnoresStock | gunmint/src/App.jsx:145-150 | repainting the stock never changes the pistol's scene |
| Geometry.NameNotRendered | gunmint/src/App.jsx:119-177 | the skin's display name never changes the scene |
| Geometry.FixedFillsPalette | gunmint/src/App.jsx:128-173 | unbound shapes use only the fills #111, #1a1a1a, #222, #0f0f0f, #333 and none |
| Foundry.Configurator.constructor | gunmint/src/App.jsx:227-232 | starts with weapon ar, the presets tab, part body and the default skin |
| Foundry.Configurator.ResetSkin | gunmint/src/App.jsx:362 | the skin becomes exactly the default skin named "Default Issue"; the weapon is unchanged |
| Foundry.Configurator.SelectWeapon | gunmint/src/App.jsx:372 | only the weapon changes; the skin is kept across weapon switches |
| Foundry.Configurator.ApplyPreset | gunmint/src/App.jsx:402 | the skin becomes preset i's config, preset i is highlighted and the label reads "LEGENDARY"; the weapon is unchanged |
| Foundry.Configurator.SwitchTab | gunmint/src/App.jsx:391-392 | only the tab changes; skin and weapon are untouched |
| Foundry.Configurator.SelectPart | gunmint/src/App.jsx:419 | only the selected part changes; the skin is untouched |
| Foundry.Configurator.PaintSelected | gunmint/src/App.jsx:423 | the selected part gets the swatch's hex and the name becomes "Custom Forged"; the other three parts are unchanged; the label reads "CUSTOM", no preset is highlighted and the skin stays complete |

## Left out

- The decorative star field (lines 28-74): canvas drawing, random positions, floating point and animation frames.
- The `Button`, `Badge` and `Section` components, the navigation, mobile menu, hero, ecosystem and footer markup, and the scroll listener with its `isScrolled`/`mobileMenuOpen` state. These are presentation and DOM events only.
- SVG coordinates, transforms, stroke widths, filters and the `<pattern>` definitions (lines 183-212). Pattern fills such as `url(#thunderPat)` are kept as plain strings.
- CSS keyframes and easing, and the remount keyed on the weapon type that replays entrance animations (lines 117, 182, 268-288). Only the static animation class and delay of each shape are modelled.
- Preset icons, the `toUpperCase` status and caption text (lines 215, 356-359), mint price, the mint button and wallet connect. They carry no logic.
- The highlight classes of the weapon, tab and part buttons (lines 373, 391-392, 419). Each is a plain equality with the corresponding field.
