# cylindrical-objects-svg in Dafny

A verified model of `cylinders.py`, which draws lidar housings and similar
solids of revolution as flat SVG side views. Each object is a stack of
conical-frustum segments `(start radius, end radius, height, material)` plus a
dictionary of materials `(r, g, b, glossiness)`. The model covers the
arithmetic beneath the SVG string building:

- **Shading** (`shading.dfy`): the colour shader `rgb`,
  `min(255, 255 * (c * mult + add))` per channel, and `render_materials`. For
  each material, `render_materials` emits a seven-stop linear gradient with id
  `name + key`, whose stop colours and offsets depend on the glossiness.
- **Flat** (`flat.dfy`): `render_flat` draws every segment as a trapezoid.
  - It works in storage order, keeping a running vertical offset.
  - The trapezoid runs from `v_offset - 0.5` to `v_offset + h`, with corners at `±r1` and `±r2`.
  - The whole drawing is shifted right by the largest radius.
  - It returns (markup, total height, width).
  - `render_revolve` returns exactly that result when the angle is zero and `None` otherwise.
- **Layout** (`layout.dfy`): `render_all` renders every object.
  - It places the renderings left to right with the running offset `h_offset += width + padding`.
  - It bottom-aligns them in a row of height `2 * padding + max height`.
  - It puts a caption at `total_height` under each one.
- **Catalogue** (`catalogue.dfy`): two entries of `THINGS`, the Hockey Puck and
  the Ouster OS1, as concrete instances. The layout uses the default padding
  of 20 and text size of 10.

The model works on values:
- Markup is structured: a path is its corner points, a fill id and a translation; a gradient is an id, seven colours and seven offsets.
- Floats are Dafny `real`.
- Python dictionaries become sequences in iteration order.
- The namespace key `str(hash(str(geometry)))` is a string parameter.
- The two loops of the source, in `render_flat` and `render_all`, are methods.
  - Their invariants tie `v_offset` and `h_offset` to prefix sums (`Rise`, `Advance`).
  - Each method is proved equal to a closed-form specification function (`FlatRender`, `LayoutOf`).
  - The properties are lemmas about those functions.

The name `render_revolve` and its unreachable lines (cylinders.py:149-159)
suggest a tilted projection of the solids, but the code implements none:
`render_revolve` returns right after its angle test, so the model has only
the flat view.

## Model

| member | source | states |
|---|---|---|
| Shading.Channel | cylinders.py:124 | a channel never exceeds 255; it equals 255·(c·mult+add) exactly when that value is at most 255 and is 255 exactly when that value is at least 255; it is non-negative whenever c·mult+add is (there is no lower clamp) |
| Shading.Shade | cylinders.py:123-124 | `rgb` shades only the first three components of the material tuple; each channel is at most 255 and equals its unclamped value exactly when that is at most 255 |
| Shading.ShadeIgnoresGloss | cylinders.py:124 | the glossiness (fourth component) never influences a shaded colour |
| Shading.MaterialGradient | cylinders.py:127-139 | a material's gradient carries the given id, seven stop colours and seven offsets, with fixed 0%, 70% and 100% stops and every channel at most 255 |
| Shading.RenderMaterials | cylinders.py:126-140 | exactly one gradient per material, in dictionary order: gradient i is material i's seven-stop gradient under id `name + key` |
| Shading.EmittedGradientsInRange | cylinders.py:126-140 | for unit-range materials every gradient `render_materials` emits runs from offset 0 to 100 with non-decreasing offsets, and every stop channel lies in [0,255] |
| Shading.StopOrdering | cylinders.py:135-139 | for glossiness in [0,1]: 0 < s1 ≤ s2 < s3 = 70 < s4 ≤ s5 < 100, with s1 ∈ [42,52], s2 ∈ [52,62], s4 ∈ [78,88], s5 ∈ [88,98], and all seven offsets non-decreasing |
| Shading.StopPairsOrderedIff | cylinders.py:135-139 | the inner pairs are ordered (s1 ≤ s2, s4 ≤ s5) if and only if the glossiness is at most 1 |
| Shading.StopSpread | cylinders.py:135-139 | the pairs are symmetric about 52% and 88%, each with spread 20·(1−g): 20 when matte, collapsing to 0 when fully glossy |
| Shading.ChannelInRange | cylinders.py:124 | non-negative colour, multiplier and additive give a channel in [0,255] |
| Shading.StopsInRange | cylinders.py:128-134 | with colour and glossiness in [0,1], all multipliers (the least is 0.3−0.2g ≥ 0.1) and additives are non-negative, so every stop channel lies in [0,255] |
| Shading.SuffixCancel | cylinders.py:127 | two names with the same key give the same id only if the names are equal |
| Shading.GradientIdsDistinct | cylinders.py:126-140 | distinct material names under one key give pairwise distinct gradient ids |
| Shading.GradientDefinedIff | cylinders.py:126-140 | `name + key` is a defined gradient id if and only if `name` is a material name |
| Shading.IdDeterminesNameAndKey | cylinders.py:163 | with names free of digits and '-', and keys that are the decimal text of an integer, an id determines both the material name and the key |
| Shading.IdsCollideWithoutPlainNames | cylinders.py:127 | without that restriction two different (name, key) pairs can yield one id |
| Shading.KeysIsolate | cylinders.py:163-166 | two objects rendered under different keys never share a gradient id (for plain material names) |
| Flat.Outer | cylinders.py:165 | `max(r1, r2)` is at least both radii and equals one of them |
| Flat.Widest | cylinders.py:165 | the running maximum over the first n segments bounds every one of their outer radii |
| Flat.WidestAttained | cylinders.py:165 | that maximum is the outer radius of one of those segments |
| Flat.SegmentPath | cylinders.py:168-172 | a segment's path is a closed five-point outline, mirror-symmetric about x = 0, with one horizontal edge at y = v−0.5 and the other at y = v+h (SVG's y axis points down, so the v−0.5 edge is the upper one on screen). It is filled with `material + key` and translated by the horizontal offset. Its corners lie within ±max(r1,r2) for non-negative radii and within [v−0.5, v+h] for non-negative height |
| Flat.RenderFlat | cylinders.py:162-174 | the loop keeps `v_offset` equal to the sum of the heights drawn so far. Its result is the closed-form rendering: the gradients, then path i at the summed height of segments 0..i−1, then the total height and twice the largest radius |
| Flat.RenderRevolve | cylinders.py:144-147 | angle 0 yields exactly the flat rendering; any other angle yields `None` without inspecting the geometry |
| Flat.RiseMonotone | cylinders.py:164-173 | with non-negative heights the running vertical offset is non-negative and never decreases |
| Flat.FlatStacking | cylinders.py:166-173 | path i belongs to segment i, in storage order, and is filled with `mat + key`. Its x-corners are r1 and r2. It spans y from (Σ_{j<i} h_j) − 0.5 to Σ_{j≤i} h_j, so consecutive paths overlap by 0.5. The first path starts at −0.5 and the last ends at the returned height |
| Flat.FlatWidth | cylinders.py:165-174 | for non-negative radii, the width is twice the largest radius: it bounds 2·max(r1,r2) of every segment and equals it for some segment. Every translated x-corner lies in [0, width] |
| Flat.FlatHeight | cylinders.py:164-174 | for non-negative heights the returned height is non-negative and every corner's y lies in [−0.5, height] |
| Flat.FlatDrawn | cylinders.py:164-174 | for non-negative radii and heights every drawn corner, after translation, lies in [0, width] across and [−0.5, height] down; the first path starts at −0.5, half a unit above the reported box |
| Flat.FlatFillsDefined | cylinders.py:166-172 | when every segment names a material, every fill a path references is a gradient id defined by the same rendering |
| Layout.Tallest | cylinders.py:180 | the running maximum over the first n renderings bounds each of their heights |
| Layout.TallestAttained | cylinders.py:180 | that maximum is the height of one of those renderings |
| Layout.PlaceAll | cylinders.py:180-195 | the loop keeps `h_offset` equal to padding + Σ(width + padding) over the renderings placed so far. The document is the closed-form layout: object i at x = padding + Σ_{j<i}(width_j + padding) and y = total_height − height_i − padding, its caption at (x, total_height). The width is the final offset and the height is total_height + padding + textsize |
| Layout.RenderAll | cylinders.py:177-195 | every object is rendered with `render_flat` under its own key, in order, and the renderings are laid out as above |
| Layout.AdvanceMonotone | cylinders.py:181-190 | with non-negative widths and padding, the offset before object j is at least the offset before object i plus width_i + padding, for i < j |
| Layout.AdvanceNonNegative | cylinders.py:181-190 | with non-negative widths and padding the running offset is never negative |
| Layout.LayoutSpacing | cylinders.py:181-195 | the first object starts at x = padding, each next one starts padding after the previous one's right edge, and the document ends padding after the last one |
| Layout.LayoutNoOverlap | cylinders.py:184-190 | with non-negative widths and padding an object ends at least padding before any later object starts |
| Layout.LayoutBottomAligned | cylinders.py:180-189 | every group's reported box ends at total_height − padding, with its caption anchored at (x, total_height) and its own markup. No group origin lies above y = padding, the tallest object's origin is at padding, and the document height is total_height + padding + textsize |
| Layout.LayoutFits | cylinders.py:180-195 | with non-negative sizes every group's reported box lies inside the document, and every caption anchor lies no lower than its bottom |
| Layout.LayoutDrawn | cylinders.py:180-190 | when each rendering draws within its box and the half unit above it, every drawn corner of every placed path lies across the document's width and between padding − 0.5 and its height |
| Layout.CatalogueFits | cylinders.py:177-195 | for objects with non-negative radii and heights, every reported box lies inside the document. Every drawn corner lies across the width and between padding − 0.5 and the height, and the tallest object's first path reaches padding − 0.5 exactly. So the drawing is inside the document exactly when padding ≥ 0.5 |
| Catalogue.OusterExtent | cylinders.py:17-26 | the Ouster OS1 renders 72 high and 80 wide, and each of its paths has a defined fill |
| Catalogue.PuckAndOusterLayout | cylinders.py:14-26 | the Hockey Puck and the Ouster OS1 side by side at the default padding land at x = 20 and x = 116.2. The puck's group origin is at y = 66.6, its first path at y = 66.1, and the document measures 216.2 by 142 |
| Catalogue.PuckOvershootsWithoutPadding | cylinders.py:14-16 | laid out alone with padding 0, the Hockey Puck's first path starts at y = −0.5, above the document's top edge |
| Catalogue.OusterStops | cylinders.py:17-20 | both Ouster OS1 materials give channels in [0,255] and ordered inner stops |

## Left out

- The tilted projection. `render_revolve` returns `None` for every non-zero angle, and cylinders.py:149-159 is unreachable. That dead code would also fail if reached: it calls `render_materials` with one argument and builds paths without a move-to. No tilted projection exists to model.
- The flat-colour swatch, elliptical end caps and gap sealing. None of them occur in the code.
- String templating and number formatting. The `PATH`, `GROUP`, `GRADIENT`, `SVG` and `TEXT` templates and the `.format` calls become structured values.
- Python's float-to-text conversion. It is a formatting concern outside the arithmetic.
- `print` and the SVG document wrapper. Only the two document numbers are modelled: width = final `h_offset`, height = `total_height + padding + textsize`.
- `hash('{}'.format(geometry))`. Python's string hash is randomised per process and is a foreign call, so the key is a parameter.
- IEEE rounding. All arithmetic is over `real`.
- Dictionary iteration order. Materials and objects are sequences, and where uniqueness of material names matters it is an explicit precondition.
- RenderAll: fixes the renderer to `render_flat`. `render_all` calls `renderer(*thing)` with two arguments, which `render_revolve` (three parameters) cannot accept. `main` passes `render_flat`.
- RenderFlat: an empty geometry makes Python's `max` raise `ValueError`. The model requires a non-empty geometry instead of modelling the exception. `render_all` on an empty catalogue is handled the same way.
- KeysIsolate: isolation between objects is proved only for material names without digits or '-'. With arbitrary names, two different name/key pairs can concatenate to the same id (`IdsCollideWithoutPlainNames`). Two objects with identical geometry text also share a key.
- LayoutFits: bounds only each caption's anchor point. How far the text extends depends on font metrics, which are outside the model.
- CatalogueFits: the drawing stays inside the document only for padding ≥ 0.5. The first path of every object starts half a unit above the box `render_flat` reports, so a smaller padding lets the tallest object cross the top edge. `PuckOvershootsWithoutPadding` shows this.
- SegmentPath: the source writes each mirrored corner by putting a literal '-' in front of the formatted radius (cylinders.py:169). The model negates the number instead, so it matches the source only for non-negative radii. For a negative radius the source emits `--r`, which is invalid path data, while the model still draws a mirrored corner.
- The rest of the `THINGS` catalogue is static data. Only the Hockey Puck and Ouster OS1 are used, as concrete instances.
