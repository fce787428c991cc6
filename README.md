# Solid of revolution plotter: sampling, filtering and mesh lifecycle

This project models the computational core of `solido_revolucion.js`, a
browser page that plots up to two formulas f(x) over an interval [A, B].
It draws them as a 2D curve and as two solids of revolution: one lathed
about the X axis and one about the Y axis. The model covers:

- **Interval.** `getLimits` defaults an unparseable endpoint to -1 (A) or 3 (B), then orders the two.
- **Evaluation.** `evaluateFunction` rewrites commas to periods, evaluates, and turns an exception into the value 0.
- **Sampling loops.** `segments + 1` equally spaced abscissae `x = A + i * step`, computed exactly over `real`.
- **Filters.**
  - The single curve keeps every sample.
  - The multi-curve plot drops NaN samples.
  - The X profile keeps samples that are not NaN and are `y >= 0`, as `(|y|, x)`.
  - The Y profile keeps samples that are not NaN, as `(|x|, y)`.
  - A profile of fewer than two points makes no solid.
- **Multi-curve builder.** A line is drawn only for a formula with more than one defined vertex, coloured `colors[index % 4]`. The group is installed only if a line was drawn.
- **Views.**
  - `viewStates.graph2D` is a `CurveView`: one mesh slot.
  - `viewStates.graph3DX` and `graph3DY` are `SolidView`s: an accumulating mesh list.
  - Each view tracks its scene and its meshes. As ghost state it also tracks which meshes were disposed and, for the 2D view, which were leaked.
  - `graficarTodo`, `limpiarTodo` and `seleccionarEjemplo` are the operations over the three views.

JavaScript numbers are `Finite(real) | PosInf | NegInf | NaN`. The
filters test `isNaN`, not finiteness, so the infinities matter. The
expression evaluator (`math.evaluate`) is a parameter of type
`(string, real) -> Outcome`: a deterministic oracle (formulas calling math.js's random functions are outside the model) that returns a number
or throws. A three.js object is a `Mesh`: a fresh object per `new` that
records the shape it was built from (a polyline, a group of polylines, or
a lathe).

Each 3D view's `Valid()` states the no-leak invariant: every mesh ever
drawn is either in use or disposed, and none in use is disposed. The 2D
view's `Valid()` is the weaker invariant the code keeps: every mesh ever
drawn is in use, disposed or leaked. A mesh leaks only as a line of a
released group (see "## Findings"). The 2D operations release the way the
code does (`ReleaseMesh`), and their contracts say exactly which lines
leak. The corrected release (`ReleaseMeshCorrected`) leaks nothing. The sampling
loops and the view operations are methods proved against specification
functions (`Samples`, `ProfileAboutX`, `CurveLines`, `SolidsAboutX`, ...).
The properties the source promises are proved about those functions as
lemmas.

The model follows the code in these behaviours, which a reader might not expect:

- The filters test `isNaN` only. `Infinity` and `-Infinity` therefore reach the curves, and `+Infinity` reaches the X profile (`Infinity >= 0`).
- A collapsed interval (A = B) is not rejected. Every sample then repeats one point, so a profile has 61 points or none, and a solid is still built whenever that one sample passes the filter (`CollapsedIntervalAllOrNothing`, `CollapsedIntervalSolids`).
- The value 0 that replaces an exception is not NaN, so no filter ever removes it (`SentinelIsNeverFiltered`).
- `evaluateFunction` rewrites every comma, including the one separating the arguments of a two-argument call, so `pow(x,2)` is evaluated as `pow(x.2)` (`ReplaceCommasRewritesArgumentSeparators`).

## Model

| member | source | states |
|---|---|---|
| Limits.GetLimits | solido_revolucion.js:19-37 | the interval is ordered (A <= B) and holds exactly the two endpoints after an unparseable first one became -1 and an unparseable second one became 3 |
| Text.TrimStart | solido_revolucion.js:345-346 | the front-trimmed string is no longer than the input (its content is characterised by `TrimStartCutsLeadingSpace`) |
| Text.TrimEnd | solido_revolucion.js:345-346 | the back-trimmed string is no longer than the input (its content is characterised by `TrimEndCutsTrailingSpace`) |
| Text.Trim | solido_revolucion.js:345-346 | `trim()` is no longer than its input (its content is characterised by `TrimIsMiddle`) |
| Text.TrimStartCutsLeadingSpace | solido_revolucion.js:345-346 | trimming the start keeps a suffix, cuts only ECMAScript whitespace and line terminators, and leaves none in front |
| Text.TrimEndCutsTrailingSpace | solido_revolucion.js:345-346 | trimming the end keeps a prefix, cuts only whitespace, and leaves none at the back |
| Text.LeadingIsLeadingSpace | solido_revolucion.js:345-346 | the count of characters trimmed from the front is exactly the leading run of whitespace |
| Text.TrimIsMiddle | solido_revolucion.js:345-346 | `trim()` is the contiguous middle after the leading whitespace, neither end whitespace; everything after it is whitespace; it is empty exactly when every character is whitespace |
| Text.TrimIdempotent | solido_revolucion.js:269 | trimming an already trimmed formula again (`!formula.trim()` in the solid generators) changes nothing |
| Text.ReplaceCommas | solido_revolucion.js:41 | `replace(/,/g, '.')` keeps the length (its content is characterised by `ReplaceCommasPointwise`) |
| Text.ReplaceCommasPointwise | solido_revolucion.js:41 | every comma becomes a period, every other character is kept, and no comma is left |
| Text.ReplaceCommasIdempotent | solido_revolucion.js:234 | replacing the commas a second time changes nothing |
| Text.ReplaceCommasRewritesArgumentSeparators | solido_revolucion.js:41 | the argument separator of `pow(x,2)` is rewritten too, giving `pow(x.2)` |
| Numbers.Abs | solido_revolucion.js:278 | `Math.abs` is NaN exactly for NaN, otherwise non-negative; it keeps non-negative values, keeps finiteness, and only flips a finite value's sign |
| Evaluation.EvaluateFunction | solido_revolucion.js:39-47 | the wrapper never fails: the evaluator's value on the comma-rewritten formula, or 0 when it throws |
| Evaluation.EvaluationIgnoresPriorNormalisation | solido_revolucion.js:234-240 | rewriting commas before calling the wrapper, as the multi-curve builder does, yields the same value |
| Sampling.SamplesSpanInterval | solido_revolucion.js:204-206 | a loop visits exactly n + 1 abscissae, the first A and the last B; strictly increasing when A < B, all equal when A = B |
| Sampling.SamplesIgnorePriorNormalisation | solido_revolucion.js:234-240 | the samples of the comma-rewritten formula equal those of the formula |
| Sampling.SampleCurve | solido_revolucion.js:203-209 | the loop of `generarCurva2D` pushes every one of the n + 1 samples, in order, unfiltered |
| Sampling.SampleDefined | solido_revolucion.js:235-244 | the loop of `generarCurvas2D` pushes exactly the samples whose y is not NaN, in order |
| Filtering.KeepMapLength | solido_revolucion.js:241-243 | a filter keeps as many elements as it does not drop |
| Filtering.KeepMapMembership | solido_revolucion.js:277-279 | an element is in a filtered-and-mapped sequence exactly when it is the image of a kept input element |
| Filtering.KeepMapAll | solido_revolucion.js:310-312 | when every element is kept, the result is the mapped input |
| Filtering.FilterAll | solido_revolucion.js:241-243 | when every element is kept, the filter returns its input |
| Filtering.KeepMapNone | solido_revolucion.js:277-279 | when no element is kept, the result is empty |
| Filtering.KeepMapOrdered | solido_revolucion.js:274-280 | elements of the result keep the order of the inputs they come from |
| Profiles.ProfileAboutXMembership | solido_revolucion.js:274-280 | every X profile point is (y, x) for a sample whose y is not NaN and is `>= 0`, and every such sample gives a point |
| Profiles.ProfileAboutXRadii | solido_revolucion.js:277-278 | every radius of the X profile is a non-negative number (possibly `Infinity`) and every axial position is finite |
| Profiles.ProfileAboutXOrdered | solido_revolucion.js:274-280 | over increasing abscissae, the axial coordinates of the X profile strictly increase |
| Profiles.DroppedAboutYCountsNaN | solido_revolucion.js:310 | the Y filter drops exactly the samples whose y is NaN |
| Profiles.ProfileAboutYLength | solido_revolucion.js:307-313 | the Y profile has exactly one point per sample whose y is not NaN |
| Profiles.ProfileAboutYMembership | solido_revolucion.js:307-313 | every Y profile point is (abs x, y) for a sample whose y is not NaN, and every such sample gives a point |
| Profiles.ProfileAboutYRadii | solido_revolucion.js:311 | every radius of the Y profile is finite and `>= 0` |
| Profiles.ProfileAboutYIgnoresSign | solido_revolucion.js:309-312 | mirroring every abscissa leaves the Y profile unchanged: the sign of x never drops a point |
| Profiles.SentinelIsNeverFiltered | solido_revolucion.js:43-46 | a formula that always throws is sampled as 0 everywhere, and every filter keeps all n + 1 samples |
| Profiles.CollapsedIntervalAllOrNothing | solido_revolucion.js:272-282 | when A = B, a profile holds all n + 1 copies of the one sample or nothing |
| Profiles.SampleProfileX | solido_revolucion.js:271-280 | the loop of `generarSolidoX` builds exactly the X profile of the samples |
| Profiles.SampleProfileY | solido_revolucion.js:304-313 | the loop of `generarSolidoY` builds exactly the Y profile of the samples |
| Generators.SingleCurveShape | solido_revolucion.js:203-214 | the single curve has exactly 101 vertices from A to B, each at the wrapper's value |
| Generators.ColorsCycle | solido_revolucion.js:230 | the palette colour of index k + 4 is that of index k, and index 4 is coloured like index 0 |
| Generators.CurveLines | solido_revolucion.js:233-256 | the multi-curve builder draws at most one line per formula, and every line it draws is a polyline of more than one vertex |
| Generators.CurveLinesMembership | solido_revolucion.js:233-256 | a line is drawn exactly for each formula with more than one defined vertex, with those vertices and the colour of its index |
| Generators.CurveLinesCount | solido_revolucion.js:233-263 | at most one line per formula, and none exactly when every formula has at most one defined vertex |
| Generators.SolidAboutX | solido_revolucion.js:266-297 | a blank formula gives no solid; a solid about X is a lathe about X in the given colour, 60 steps, with at least two profile points |
| Generators.SolidAboutY | solido_revolucion.js:299-328 | a blank formula gives no solid; a solid about Y is a lathe about Y in the given colour, 60 steps, with at least two profile points |
| Generators.SolidAboutXProfile | solido_revolucion.js:266-297 | a solid about X comes from a non-blank formula: a lathe of >= 2 points in 60 steps, in the given colour; every point is (y, x) of a non-NaN sample with y >= 0; the axial order is strict over A < B |
| Generators.SolidAboutYProfile | solido_revolucion.js:299-328 | a solid about Y comes from a non-blank formula: a lathe in 60 steps, in the given colour, with one point per non-NaN sample (>= 2) and non-negative radii |
| Generators.CollapsedIntervalSolids | solido_revolucion.js:269-282 | when A = B, a solid is built exactly when the formula is not blank and its single repeated sample passes the filter |
| Generators.SolidsPerFormula | solido_revolucion.js:360-367 | a regeneration leaves at most one solid per present formula, at most two per 3D view |
| Scene.Mesh.constructor | solido_revolucion.js:212-213 | `new THREE.Line`, `new THREE.Group` or `new THREE.Mesh` gives a fresh object that records the shape it was built from |
| Scene.DisposedBySource | solido_revolucion.js:222-227 | `geometry?.dispose()` and `material?.dispose()` reach only what the mesh owns: all of it for a line or a lathe, none of a group's lines |
| Views.CurveView.constructor | solido_revolucion.js:10 | the 2D view starts with a null scene and an empty slot |
| Views.CurveView.InitScene | solido_revolucion.js:55 | creating the scene gives an empty scene and keeps the invariant |
| Views.CurveView.ReleaseMesh | solido_revolucion.js:196-201 | the slot is emptied and the mesh removed from the scene; only the mesh's own geometry and material are disposed, so every line of a released group is leaked: drawn, and neither in use nor disposed |
| Views.CurveView.ReleaseMeshCorrected | solido_revolucion.js:222-227 | with the leak corrected, everything the mesh owns (a group's lines included) is disposed and nothing new leaks |
| Views.CurveView.DrawCurve | solido_revolucion.js:192-215 | with a scene, the old mesh is released the code's way (a group's lines leaked) and the slot holds a fresh line of the 101 samples; without one nothing changes |
| Views.CurveView.NewCurveLines | solido_revolucion.js:233-256 | the forEach builds fresh lines for exactly the formulas' curve lines, counting them |
| Views.CurveView.DrawCurves | solido_revolucion.js:217-264 | with a scene, the old mesh is released the code's way (a group's lines leaked); the slot holds a fresh group of fresh lines, whose shapes are the formulas' curve lines, exactly when some line was drawn, else the scene is empty |
| Views.SolidView.constructor | solido_revolucion.js:11 | a 3D view starts with a null scene and no meshes |
| Views.SolidView.InitScene | solido_revolucion.js:55 | creating the scene gives an empty scene and keeps the invariant |
| Views.SolidView.Clear | solido_revolucion.js:334-342 | the list is emptied, the scene left empty, and every tracked mesh disposed |
| Views.SolidView.AddSolidX | solido_revolucion.js:266-297 | the existing meshes stay; one fresh mesh of the solid about X is appended when there is a scene and a solid, otherwise nothing changes |
| Views.SolidView.AddSolidY | solido_revolucion.js:299-328 | the existing meshes stay; one fresh mesh of the solid about Y is appended when there is a scene and a solid, otherwise nothing changes |
| Views.SolidView.AddPresentSolidsX | solido_revolucion.js:360-367 | the existing meshes stay, and new meshes of the present formulas' solids about X are appended in field order with the X colours |
| Views.SolidView.AddPresentSolidsY | solido_revolucion.js:360-367 | the existing meshes stay, and new meshes of the present formulas' solids about Y are appended in field order with the Y colours |
| Views.ViewStates.constructor | solido_revolucion.js:9-13 | three distinct views, all with null scenes and nothing drawn |
| Views.ViewStates.RedrawCurves | solido_revolucion.js:345-355 | with no present formula or no scene the 2D view is untouched; one formula draws the single curve; two draw the multi-curve group; the old mesh is released the code's way, leaking a group's lines |
| Views.ViewStates.RedrawSolids | solido_revolucion.js:357-367 | each 3D view ends up holding fresh meshes of exactly the present formulas' solids, its old meshes disposed |
| Views.ViewStates.RegenerateAll | solido_revolucion.js:344-368 | for the trimmed fields: the 2D view is untouched without a formula or a scene, holds the single curve for one formula and the multi-curve group for two, the old mesh released the code's way; each 3D view holds exactly the present formulas' solids, at most two and none of the previous ones, the previous ones disposed; the 2D scene holds at most one mesh |
| Views.ViewStates.ClearAll | solido_revolucion.js:376-385 | the 2D slot and both mesh lists are emptied and the scenes left empty; every removed solid is disposed, and the 2D mesh is released the code's way, leaking a group's lines |
| Views.ViewStates.SelectExample | solido_revolucion.js:392-403 | the second field is empty, so a non-blank preset is drawn alone as the single curve (the old 2D mesh released the code's way) and a blank one leaves the 2D view untouched; each 3D view holds exactly the preset's solids, its old meshes disposed and out of the scene |
| Views.RegenerateTwice | solido_revolucion.js:344-368 | a second regeneration with unchanged inputs leaves each 3D view with the same number of meshes (at most two), for a deterministic evaluator |

## Left out

- `initView`, `animateView`, `createCustomAxes`, `addAxisLabel` and `updateAxisLabels`: cameras, renderers, lights, controls, axes and labels are rendering set-up with no logic here. Only `state.scene = new THREE.Scene()` is modelled, as `InitScene`.
- `math.evaluate` is an arbitrary, deterministic oracle. Its parsing and semantics are not modelled, nor are results that are not numbers. The `console.error` and `console.warn` calls are left out.
- Formulas that call math.js's random functions (`random()`, `randomInt()`, `pickRandom()`) are outside the model: the real evaluator then returns different values on different calls, which a function `(string, real) -> Outcome` cannot express. With such a formula, which samples pass a filter, and so whether a line or a solid is built, can change between regenerations.
- Views.RegenerateTwice: the equal mesh counts rely on the evaluator being deterministic. They do not hold for a formula that calls a random function, for example `random() - 0.9` about X.
- `parseLocalizedNumber` (`trim`, `toLocaleString`, the first-comma replacement, `parseFloat`) is left out. `getLimits` receives each field as already parsed: `None` stands for NaN. An endpoint that parses to an infinity is not modelled.
- Reading and writing the DOM input fields in `graficarTodo`, `limpiarTodo` and `seleccionarEjemplo`: the field values are parameters.
- IEEE double rounding of `A + i * step`: abscissae are exact reals.
- `BufferGeometry`, `LatheGeometry`, materials, line widths, opacity and the `z = 0` of each `Vector3`: a mesh records only its points, colour, segment count and axis. The X solid's rotation by -pi/2 is recorded as its axis tag.
- Views.CurveView.InitScene, Views.SolidView.InitScene: require a null scene, because `initView` runs once per view when the page loads.
- Views.CurveView.DrawCurves: the group is created after its lines, not before, because a mesh's shape is fixed at creation; no other object sees the group in between.
- Views.CurveView.ReleaseMeshCorrected: the 2D operations (`DrawCurve`, `DrawCurves`, `RedrawCurves`, `RegenerateAll`, `ClearAll`) model the code and release with `ReleaseMesh`. Corrected versions of those operations are not written out; they would differ only in calling `ReleaseMeshCorrected`, which keeps the leaked set unchanged.
- Views.ViewStates.RedrawSolids: the source calls X1, Y1, X2, Y2; the model fills the X view and then the Y view. The two views share no state, so the results are the same.

## Findings

| source | as written | input that shows it | evidently intended | confidence | as-written member | corrected member |
|---|---|---|---|---|---|---|
| solido_revolucion.js:196-201 | releasing the 2D mesh disposes only `mesh.geometry` and `mesh.material`; once `generarCurvas2D` has run, that mesh is a `THREE.Group`, which has neither, so its lines' geometries and materials are never disposed | draw two formulas (a group with at least one line), then regenerate with one: `generarCurva2D` removes the group, and its lines are never disposed | traverse the group and dispose each line's geometry and material | high, not executed | Views.CurveView.ReleaseMesh | Views.CurveView.ReleaseMeshCorrected |
| solido_revolucion.js:222-227 | releasing the 2D mesh disposes only `mesh.geometry` and `mesh.material`; once `generarCurvas2D` has run, that mesh is a `THREE.Group`, which has neither, so its lines' geometries and materials are never disposed | draw two formulas (a group with at least one line), then regenerate with two again: `generarCurvas2D` removes the old group, and its lines are never disposed | traverse the group and dispose each line's geometry and material | high, not executed | Views.CurveView.ReleaseMesh | Views.CurveView.ReleaseMeshCorrected |
| solido_revolucion.js:377-382 | releasing the 2D mesh disposes only `mesh.geometry` and `mesh.material`; once `generarCurvas2D` has run, that mesh is a `THREE.Group`, which has neither, so its lines' geometries and materials are never disposed | draw two formulas (a group with at least one line), then clear: `limpiarTodo` removes the group, and its lines are never disposed | traverse the group and dispose each line's geometry and material | high, not executed | Views.CurveView.ReleaseMesh | Views.CurveView.ReleaseMeshCorrected |
