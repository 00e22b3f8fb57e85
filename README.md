# Verified model of the portfolio site's interactive demos

The site's only real logic lives in its demo components under `components/demo/`. This project
models them in Dafny and proves what each promises:

- **TOPIC ordering demo** (`demo_topic.dfy`, module `DemoTopic`). A recorded run of the TOPIC
  algorithm is shown frame by frame.
  - A flat stepper index over `1 + 2·T` frames is decoded into a phase (`initial`, `highlight`,
    `edges`) and an iteration.
  - Prev/next move the index with clamping.
  - The edge set of a frame is rebuilt by replaying each iteration's added edges and then its
    pruned edges into a map keyed by `(from, to)`.
  - The view shows the phase's edges, source, order and remaining candidates.
  - The graph styles each edge as added, pruned or normal.
- **Causal-change demo** (`demo_causal_change.dfy`, module `DemoCausalChange`).
  - A mode picks a Python script and its JSON output.
  - Both are fetched by independent, cancellable effects.
  - The final graph is an explicit snapshot from the last step, or else a replay of all added and
    pruned edges.
  - Edges may come as `[a, b]` pairs or `{from, to}` records.
- **Causal-mixture-model scatter** (`demo_cmm.dfy`, module `DemoCMM`).
  - Min/max over the points and a 5% margin (`expand`) give the window.
  - Two linear scales map the window onto a fixed 360 × 260 box.
  - A reveal toggle colours points by `component % 2`.
- **PrettyPgfPlots demo** (`demo_pretty_pgf_plots.dfy`, module `DemoPrettyPgfPlots`).
  - A variant and a colour scheme pick the LaTeX and SVG assets.
  - The LaTeX text has every `{data/line.tsv}` rewritten to `{data.tsv}`.
  - Two cancellable fetch effects fill the two panels.
- **Dispatcher** (`demo.dfy`, module `Demo`): the demo key decides which component is mounted,
  with which title and data URL.

Shared pieces:

- `wrappers.dfy` (module `Wrappers`): `Option` stands for JavaScript's `null`/`undefined`, and
  `Outcome` is how a request settles (`Ok(payload)` or `Failed`).
- `ordered_map.dfy` (module `OrderedMap`): JavaScript's `Map` as the components use it. It is an
  insertion-ordered sequence of entries.
  - `set` replaces a present key's value in place and appends a new key.
  - `delete` removes a key.
  - The string key `` `${from}->${to}` `` is the pair `(from, to)`. Distinct integer pairs give
    distinct strings.

How the model is written:

- **Edge replay.** Functions (`AddAll`, `PruneAll`, `ApplyStep`, `Replay`) specify the replay as
  left folds.
  - The `forEach`/`for` loops of `useEdgesForPhase` and `deriveFinalEdges` are methods with
    `while` loops, proved equal to those folds.
  - Key-by-key lemmas give an independent description of one step: pruned keys are absent,
    otherwise the latest added edge wins, otherwise the key is untouched.
  - Invariant lemmas show every map holds each `(from, to)` once, under its own key.
- **Component state.** Each component is a class whose fields are its `useState` variables.
  - An effect with a `cancelled` flag becomes a token (the number of its latest invocation) plus a
    flag saying that invocation is still awaited.
  - A request settles with the token of the invocation that issued it.
  - It writes only if that token is the latest and the invocation is still awaited. Cleanup
    (unmount, or a changed URL) and settlement both clear the flag.
  - The TOPIC and CMM loaders have no such guard, and the model does not add one.
- **Geometry.** It is over `real`, idealised arithmetic with no rounding.

Two consequences of the code are worth stating on their own:

- With two iterations, flat index 3 decodes to iteration 1 in phase `highlight`
  (`DemoTopic.TwoIterationsFrameThree`).
- A trace with no iterations never leaves the loading placeholder, because `data.steps[0]` is
  undefined (`DemoTopic.NoStepsStaysLoading`).

## Model

| member | source | states |
|---|---|---|
| OrderedMap.Values | components/demo/DemoTopic.tsx:354 | one value per entry, in entry (insertion) order |
| OrderedMap.Set | components/demo/DemoTopic.tsx:344-347 | a present key keeps its place in the key order; a new key is appended at the end |
| OrderedMap.Delete | components/demo/DemoTopic.tsx:348-351 | the key is absent afterwards; the surviving keys keep their insertion order; deleting an absent key leaves the map exactly as it was |
| OrderedMap.GetSet | components/demo/DemoTopic.tsx:346 | after `set(k, v)` the key `k` reads `v` and every other key reads what it read before |
| OrderedMap.GetDelete | components/demo/DemoTopic.tsx:350 | after `delete(k)` the key `k` is missing and every other key reads what it read before |
| OrderedMap.SetDistinct | components/demo/DemoTopic.tsx:342-351 | `set` keeps one entry per key |
| OrderedMap.DeleteDistinct | components/demo/DemoTopic.tsx:342-351 | `delete` keeps one entry per key and introduces no key |
| OrderedMap.SetEntries | components/demo/DemoTopic.tsx:346 | every entry after `set(k, v)` is an entry that was there before or the new `k → v` entry |
| OrderedMap.DeleteEntries | components/demo/DemoTopic.tsx:350 | every entry after `delete` was there before: `delete` only removes entries, never creates one |
| DemoTopic.FlatStepState | components/demo/DemoTopic.tsx:288-312 | there are `1 + 2·T` frames; the phase is `initial` exactly when there are no steps or the index is ≤ 0; the initial phase is iteration 0; the iteration always lies in `[0, T−1]` |
| DemoTopic.FlatStepRoundTrip | components/demo/DemoTopic.tsx:281-312 | every frame `k` in `[0, 1+2T)` decodes to the phase and iteration that the documented layout (0; `1+2i` highlight; `2+2i` edges) places at `k` |
| DemoTopic.FlatIndexDecodes | components/demo/DemoTopic.tsx:281-312 | conversely, the frame of `(highlight, i)` or `(edges, i)` decodes back to that pair |
| DemoTopic.FlatIndexPastEnd | components/demo/DemoTopic.tsx:304-305 | an index past the last frame decodes to the last iteration (the iteration is clamped) |
| DemoTopic.TwoIterationsFrameThree | components/demo/DemoTopic.tsx:298-310 | with two iterations there are 5 frames; frame 3 is `(highlight, 1)` and frame 4 is `(edges, 1)` |
| DemoTopic.NextIndex | components/demo/DemoTopic.tsx:107-109 | next advances by one and never passes `total−1`; from inside `[0, total)` it stays inside |
| DemoTopic.PrevIndex | components/demo/DemoTopic.tsx:111-113 | prev goes back by one and never below 0; it never increases a non-negative index |
| DemoTopic.AddAllAt | components/demo/DemoTopic.tsx:344-347 | after the adds, a key holds the last added edge with that key (`from`, `to`, `gain`), or what it held before if none has it |
| DemoTopic.PruneAllAt | components/demo/DemoTopic.tsx:348-351 | after the prunes, a pruned key is absent whether or not it was present; other keys are untouched |
| DemoTopic.ApplyStepAt | components/demo/DemoTopic.tsx:343-351 | one iteration, key by key: pruned keys are gone, else the latest added edge wins, else the key keeps its value |
| DemoTopic.PruneAbsentIsNoOp | components/demo/DemoTopic.tsx:348-351 | pruning a key that is not present leaves the map unchanged |
| DemoTopic.AddAllWellKeyed | components/demo/DemoTopic.tsx:344-347 | the adds keep every key unique and every edge under its own `(from, to)` key |
| DemoTopic.SetUnderOwnKeys | components/demo/DemoTopic.tsx:346 | one `set` keeps every edge under its own key |
| DemoTopic.DeleteWellKeyed | components/demo/DemoTopic.tsx:350 | one `delete` keeps keys unique and edges under their own keys |
| DemoTopic.PruneAllWellKeyed | components/demo/DemoTopic.tsx:348-351 | the prunes keep keys unique and edges under their own keys |
| DemoTopic.ApplyStepWellKeyed | components/demo/DemoTopic.tsx:343-351 | one iteration keeps keys unique and edges under their own keys |
| DemoTopic.AddAll | components/demo/DemoTopic.tsx:344-347 | after the adds every added key is present, every earlier key is still present, and no other key appears |
| DemoTopic.PruneAll | components/demo/DemoTopic.tsx:348-351 | after the prunes no pruned key is present and no key appears |
| DemoTopic.ApplyStep | components/demo/DemoTopic.tsx:343-351 | after one iteration its pruned keys are absent, and every key was present before or is one the iteration adds |
| DemoTopic.Replay | components/demo/DemoTopic.tsx:342-365 | after a replay nothing the last iteration pruned survives |
| DemoTopic.ReplayProvenance | components/demo/DemoTopic.tsx:342-365 | every key of a replayed map is the key of an edge some iteration added |
| DemoTopic.ReplayWellKeyed | components/demo/DemoTopic.tsx:342-365 | every replayed map holds each `(from, to)` at most once, under its own key |
| DemoTopic.Clamp | components/demo/DemoTopic.tsx:340 | the clamped iteration lies in `[0, last]` and is the index itself when that is already in range |
| DemoTopic.SetEach | components/demo/DemoTopic.tsx:344-347 | the `set` loop over an added list computes the add fold |
| DemoTopic.DeleteEach | components/demo/DemoTopic.tsx:348-351 | the `delete` loop over a pruned list computes the prune fold |
| DemoTopic.EdgesForPhase | components/demo/DemoTopic.tsx:319-380 | the hook's loops compute the replay specification: `before` is the replay of the iterations before the clamped one, `at` is one more iteration applied to a copy |
| DemoTopic.NoStepsNoEdges | components/demo/DemoTopic.tsx:330-337 | without data or steps, all four edge lists are empty |
| DemoTopic.EdgesForPhaseOf | components/demo/DemoTopic.tsx:319-380 | without data or steps all four lists are empty; in phase `edges` the "before" list is the "at" list |
| DemoTopic.AddedBefore | components/demo/DemoTopic.tsx:339-365 | every edge of the replay through an iteration, or of the replay before it, has a key that iteration or an earlier one added |
| DemoTopic.EdgesNeverAhead | components/demo/DemoTopic.tsx:319-380 | the hook never looks ahead: each edge it returns carries a key added by the current iteration or an earlier one |
| DemoTopic.EdgesForPhaseShape | components/demo/DemoTopic.tsx:339-378 | the added/pruned lists are exactly the clamped iteration's; `at` is the replay through that iteration; in phase `edges` the returned `before` list equals `at` |
| DemoTopic.ValuesDistinct | components/demo/DemoTopic.tsx:354 | the values of a map with unique keys repeat no `(from, to)` |
| DemoTopic.PrunedAbsentAtIteration | components/demo/DemoTopic.tsx:356-367 | no edge in the `at` list has the key of an edge the iteration prunes; neither returned list repeats a key |
| DemoTopic.Render | components/demo/DemoTopic.tsx:115-133 | the error screen shows exactly when the error is a non-empty text; a frame shows exactly when there is no error, there is data and there is at least one iteration |
| DemoTopic.NoStepsStaysLoading | components/demo/DemoTopic.tsx:124-133 | a trace with no iterations renders the loading placeholder at every index |
| DemoTopic.ViewSelection | components/demo/DemoTopic.tsx:186-210 | the initial frame draws no edges and shows no source, no added/pruned edges, an empty order and every node remaining; other frames show the current iteration's source, order and remaining candidates |
| DemoTopic.StyleOf | components/demo/DemoTopic.tsx:587-601 | an edge is drawn green exactly when the step adds its key, and red dashed exactly when the step prunes but does not add its key |
| DemoTopic.PrunedStyleNeverDrawn | components/demo/DemoTopic.tsx:505-601 | no drawn edge ever gets the pruned style: the pruned list is empty outside phase `edges`, and in that phase the drawn `at` edges exclude every pruned key |
| DemoTopic.TopicDemo.constructor | components/demo/DemoTopic.tsx:62-65 | no data, no error, index 0, truth hidden |
| DemoTopic.TopicDemo.Load | components/demo/DemoTopic.tsx:68-72 | a new data URL resets error, data, index and the truth toggle |
| DemoTopic.TopicDemo.Loaded | components/demo/DemoTopic.tsx:74-87 | success stores the trace; failure sets `Could not load TOPIC demo data.`; the index and toggle are untouched |
| DemoTopic.TopicDemo.Next | components/demo/DemoTopic.tsx:107-109 | the index becomes `min(prev+1, total−1)` and stays in range |
| DemoTopic.TopicDemo.Prev | components/demo/DemoTopic.tsx:111-113 | the index becomes `max(prev−1, 0)` and stays in range |
| DemoTopic.TopicDemo.ToggleTruth | components/demo/DemoTopic.tsx:223 | the ground-truth toggle flips and nothing else changes |
| DemoCausalChange.Stem | components/demo/DemoCausalChange.tsx:46-49 | the script stem is `run_` followed by the folder name, for each mode |
| DemoCausalChange.PyUrl | components/demo/DemoCausalChange.tsx:51 | the Python URL starts with the base path and ends in `.py` |
| DemoCausalChange.JsonUrl | components/demo/DemoCausalChange.tsx:51-52 | the JSON URL is the Python URL with `.json` in place of `.py` |
| DemoCausalChange.ContinuousUrls | components/demo/DemoCausalChange.tsx:45-54 | mode `continuous` fetches `continuous/run_continuous.py` and `.json` under the base path |
| DemoCausalChange.ContextUrls | components/demo/DemoCausalChange.tsx:45-54 | mode `context` fetches `context/run_context.py` and `.json` |
| DemoCausalChange.TimeUrls | components/demo/DemoCausalChange.tsx:45-54 | mode `time` fetches `time/run_time.py` and `.json` |
| DemoCausalChange.ModeUrlsDistinct | components/demo/DemoCausalChange.tsx:45-54 | different modes give different Python URLs and different JSON URLs |
| DemoCausalChange.UrlsMoveWithMode | components/demo/DemoCausalChange.tsx:45-54 | the Python URL changes, and the JSON URL changes, if and only if the mode changes |
| DemoCausalChange.NormalizeEdges | components/demo/DemoCausalChange.tsx:190-197 | length and order are kept; a pair `[a, b]` becomes `{from: a, to: b}` and a record keeps its `from`/`to` |
| DemoCausalChange.PairAndRecordFormsAgree | components/demo/DemoCausalChange.tsx:190-197 | the same edges given as pairs or as records normalise identically |
| DemoCausalChange.NormalizeIdempotent | components/demo/DemoCausalChange.tsx:190-197 | normalising normalised edges changes nothing |
| DemoCausalChange.NormalizeExample | components/demo/DemoCausalChange.tsx:190-197 | `[[0,1],[1,2]]` and `[{from:0,to:1},{from:1,to:2}]` both give `[{0→1},{1→2}]` |
| DemoCausalChange.SnapshotIsTwoWay | components/demo/DemoCausalChange.tsx:171-172 | the four-way `??` chain is `graph_edges ?? edges`: present exactly when either is, and `graph_edges` when that is present |
| DemoCausalChange.NormalizedNames | components/demo/DemoCausalChange.tsx:190-197 | a raw list names a key exactly when its normalised form has an edge with that key |
| DemoCausalChange.AddAll | components/demo/DemoCausalChange.tsx:180-182 | after the adds every added key is present, every earlier key is still present, and no other key appears |
| DemoCausalChange.PruneAll | components/demo/DemoCausalChange.tsx:183-185 | after the prunes no pruned key is present and no key appears |
| DemoCausalChange.ApplyStep | components/demo/DemoCausalChange.tsx:179-186 | after one step its pruned keys are absent, and every key was present before or is one the step adds |
| DemoCausalChange.Replay | components/demo/DemoCausalChange.tsx:178-186 | after the replay nothing the last step pruned survives |
| DemoCausalChange.ReplayProvenance | components/demo/DemoCausalChange.tsx:178-186 | every key of the replayed map is one some step added |
| DemoCausalChange.FinalEdgesOf | components/demo/DemoCausalChange.tsx:166-188 | no steps give no edges; without a snapshot no returned edge has a key the last step prunes |
| DemoCausalChange.FinalEdgesProvenance | components/demo/DemoCausalChange.tsx:178-187 | without a snapshot every returned edge has a key some step added |
| DemoCausalChange.SetEach | components/demo/DemoCausalChange.tsx:180-182 | the `set` loop over normalised added edges computes the add fold |
| DemoCausalChange.DeleteEach | components/demo/DemoCausalChange.tsx:183-185 | the `delete` loop over normalised pruned edges computes the prune fold |
| DemoCausalChange.DeriveFinalEdges | components/demo/DemoCausalChange.tsx:166-188 | the function's loops compute the specification: snapshot if present, else the values of the full replay |
| DemoCausalChange.NoStepsNoEdges | components/demo/DemoCausalChange.tsx:167-168 | missing or empty `steps` gives no edges |
| DemoCausalChange.SnapshotWins | components/demo/DemoCausalChange.tsx:170-176 | a last-step snapshot, even an empty one, is the answer (`graph_edges` before `edges`), and the earlier steps do not matter |
| DemoCausalChange.AddAllAt | components/demo/DemoCausalChange.tsx:180-182 | after the adds, an added key holds its edge and other keys are untouched |
| DemoCausalChange.PruneAllAt | components/demo/DemoCausalChange.tsx:183-185 | after the prunes, a pruned key is absent and other keys are untouched |
| DemoCausalChange.ApplyStepAt | components/demo/DemoCausalChange.tsx:179-186 | one step, key by key: pruned keys are gone, else added keys are present, else unchanged; a missing list is skipped |
| DemoCausalChange.SetWellKeyed | components/demo/DemoCausalChange.tsx:181 | one `set` keeps keys unique and records under their own key |
| DemoCausalChange.AddAllWellKeyed | components/demo/DemoCausalChange.tsx:180-182 | the adds keep keys unique |
| DemoCausalChange.PruneAllWellKeyed | components/demo/DemoCausalChange.tsx:183-185 | the prunes keep keys unique |
| DemoCausalChange.ReplayWellKeyed | components/demo/DemoCausalChange.tsx:178-186 | the replay over all steps holds each `(from, to)` once |
| DemoCausalChange.ReplayFallback | components/demo/DemoCausalChange.tsx:178-187 | without a snapshot the result is the replay over all steps; it lists each `(from, to)` once and holds nothing the last step prunes |
| DemoCausalChange.CausalChangeDemo.constructor | components/demo/DemoCausalChange.tsx:35-43 | mode `continuous`, empty code, no data, nothing loading, no errors |
| DemoCausalChange.CausalChangeDemo.StartCodeFetch | components/demo/DemoCausalChange.tsx:56-59 | a new code invocation is the latest, awaited, loading, with the error cleared |
| DemoCausalChange.CausalChangeDemo.StartDataFetch | components/demo/DemoCausalChange.tsx:83-86 | a new data invocation is the latest, awaited, loading, with the error cleared |
| DemoCausalChange.CausalChangeDemo.Mount | components/demo/DemoCausalChange.tsx:56-108 | both effects start; code, data and mode are untouched |
| DemoCausalChange.CausalChangeDemo.SetMode | components/demo/DemoCausalChange.tsx:45-108 | a different mode restarts both fetches; the current mode changes no fetch state |
| DemoCausalChange.CausalChangeDemo.CodeSettled | components/demo/DemoCausalChange.tsx:65-76 | only the latest, uncancelled invocation writes; success stores the text and stops loading; failure sets `Could not load python file.`, empties the code and stops loading |
| DemoCausalChange.CausalChangeDemo.DataSettled | components/demo/DemoCausalChange.tsx:92-103 | the same for the JSON: success stores it; failure sets `Could not load json output.` and clears the data |
| DemoCausalChange.CausalChangeDemo.Unmount | components/demo/DemoCausalChange.tsx:78-107 | after cleanup no late response writes |
| DemoCausalChange.StaleAndIndependentFetches | components/demo/DemoCausalChange.tsx:56-156 | after a mode switch, stale responses are dropped; a failed JSON fetch shows its message and no graph, while the code panel still shows the code |
| DemoCMM.MinOf | components/demo/DemoCMM.tsx:167-169 | `Math.min` over a non-empty list is an element no larger than any other |
| DemoCMM.MaxOf | components/demo/DemoCMM.tsx:168-170 | `Math.max` over a non-empty list is an element no smaller than any other |
| DemoCMM.Expand | components/demo/DemoCMM.tsx:172-176 | equal margins on both sides, of 5% of the range (or 0.05 when the range is 0); for `min ≤ max` the result strictly contains `[min, max]` |
| DemoCMM.ScatterLayout | components/demo/DemoCMM.tsx:151-201 | no layout exactly when there is no data or no points; otherwise a non-degenerate window holding every point strictly inside |
| DemoCMM.XScale | components/demo/DemoCMM.tsx:181-183 | a value inside the window is drawn between the left and right paddings |
| DemoCMM.YScale | components/demo/DemoCMM.tsx:185-188 | a value inside the window is drawn between the top and bottom paddings |
| DemoCMM.ScaleEndpoints | components/demo/DemoCMM.tsx:181-188 | `xScale(x0) = 35`, `xScale(x1) = 340`, `yScale(y0) = 230`, `yScale(y1) = 20` |
| DemoCMM.ScaleMonotone | components/demo/DemoCMM.tsx:181-188 | `xScale` is strictly increasing and `yScale` strictly decreasing |
| DemoCMM.PointsInsidePlotArea | components/demo/DemoCMM.tsx:151-188 | every point is drawn strictly inside the box between the axes |
| DemoCMM.DistinctPointsApart | components/demo/DemoCMM.tsx:121-123 | two points with different coordinates are drawn at different positions |
| DemoCMM.XScaleSymmetric | components/demo/DemoCMM.tsx:181-183 | values equally far inside the window from either end land equally far inside the axis from either end |
| DemoCMM.HorizontalMarginsBalanced | components/demo/DemoCMM.tsx:172-183 | the gaps left of the leftmost and right of the rightmost point are equal; points sharing one x sit at the centre, 187.5 |
| DemoCMM.JsRem | components/demo/DemoCMM.tsx:125 | JavaScript's `%` truncates: for a non-negative dividend it is the Euclidean remainder in `[0, n)`; for a negative one it lies in `(−n, 0]` and is the Euclidean remainder minus `n`, or 0 when that remainder is 0 |
| DemoCMM.Fill | components/demo/DemoCMM.tsx:124-126 | the fill is grey or one of the two palette colours; it is undefined only when colours are revealed and the component is negative |
| DemoCMM.FillCases | components/demo/DemoCMM.tsx:124-126 | hidden: grey; revealed: `colors[component % 2]` for a non-negative component, the first colour for a negative even one, undefined for a negative odd one; colours repeat every two components |
| DemoCMM.Marks | components/demo/DemoCMM.tsx:121-139 | one circle per point, in data order |
| DemoCMM.ToggleKeepsPositions | components/demo/DemoCMM.tsx:121-139 | revealing moves no circle; hidden circles are grey at opacity 0.8, revealed ones at 0.9 |
| DemoCMM.Render | components/demo/DemoCMM.tsx:58-72 | the error shows exactly when it is a non-empty text; a plot has one mark per point and the current colour toggle |
| DemoCMM.RenderCases | components/demo/DemoCMM.tsx:58-72 | an error wins; the plot shows exactly when there is no error, there is data and there are points, with one mark per point |
| DemoCMM.CmmDemo.constructor | components/demo/DemoCMM.tsx:31-33 | no data, no error, colours hidden |
| DemoCMM.CmmDemo.Load | components/demo/DemoCMM.tsx:35-38 | a new data URL resets error, data and the toggle, showing the loading text |
| DemoCMM.CmmDemo.Loaded | components/demo/DemoCMM.tsx:40-53 | success stores the data; failure sets `Could not load demo data.` and shows it |
| DemoCMM.CmmDemo.ToggleColor | components/demo/DemoCMM.tsx:76-78 | the toggle flips; the plot stays, with the same number of marks |
| DemoCMM.LoadThenReveal | components/demo/DemoCMM.tsx:35-139 | after loading, a component-1 point is grey; after revealing it is `#E2A432` |
| DemoPrettyPgfPlots.Stem | components/demo/DemoPrettyPgfPlots.tsx:32-51 | a stem has at least 11 characters and starts with `pgf_` exactly for variant `pgf` |
| DemoPrettyPgfPlots.Urls | components/demo/DemoPrettyPgfPlots.tsx:29-52 | the SVG and LaTeX URLs share everything but their `.svg`/`.tex` suffix, and are longer than the base path |
| DemoPrettyPgfPlots.StemsDistinct | components/demo/DemoPrettyPgfPlots.tsx:32-51 | two choices share a stem exactly when they are the same variant and, for prettyplots, the same colours |
| DemoPrettyPgfPlots.UrlsFollowStem | components/demo/DemoPrettyPgfPlots.tsx:29-52 | the SVG URL and the LaTeX URL change together, exactly when the stem does; `dataUrl` is always `basePath/data.tsv` |
| DemoPrettyPgfPlots.PgfIgnoresColors | components/demo/DemoPrettyPgfPlots.tsx:32-38 | variant `pgf` selects `pgf_default.svg`/`.tex` whatever the colours |
| DemoPrettyPgfPlots.PrettyDefaultUrls | components/demo/DemoPrettyPgfPlots.tsx:40-51 | prettyplots with default colours selects `pretty_default.svg`/`.tex` |
| DemoPrettyPgfPlots.PrettyCustomUrls | components/demo/DemoPrettyPgfPlots.tsx:40-51 | custom colours select `pretty_custom.svg`/`.tex` |
| DemoPrettyPgfPlots.PrettyCycleListUrls | components/demo/DemoPrettyPgfPlots.tsx:40-51 | the cycle list selects `pretty_cyclelist.svg`/`.tex` |
| DemoPrettyPgfPlots.RewriteTex | components/demo/DemoPrettyPgfPlots.tsx:66 | the rewrite never lengthens the text |
| DemoPrettyPgfPlots.SplitAtBrace | components/demo/DemoPrettyPgfPlots.tsx:66 | text can be rewritten in two pieces split just before a `{`, and the results joined |
| DemoPrettyPgfPlots.RewriteWithoutOccurrence | components/demo/DemoPrettyPgfPlots.tsx:66 | a text that never names `{data/line.tsv}` is shown unchanged |
| DemoPrettyPgfPlots.BracelessPrefixCopied | components/demo/DemoPrettyPgfPlots.tsx:66 | a stretch at the start of the rewritten text without `{` was copied unchanged from the input |
| DemoPrettyPgfPlots.ReplacementFrontNone | components/demo/DemoPrettyPgfPlots.tsx:66 | `{data.tsv}` in front of a text without the path does not create one |
| DemoPrettyPgfPlots.CopiedFrontOccurs | components/demo/DemoPrettyPgfPlots.tsx:66 | a path at a copied character would have been a path in the input |
| DemoPrettyPgfPlots.CopiedFrontNone | components/demo/DemoPrettyPgfPlots.tsx:66 | a copied character does not start a path in the output |
| DemoPrettyPgfPlots.RewriteLeavesNone | components/demo/DemoPrettyPgfPlots.tsx:66 | the rewritten text never contains `{data/line.tsv}` |
| DemoPrettyPgfPlots.RewriteAtPath | components/demo/DemoPrettyPgfPlots.tsx:66 | a path at the front becomes `{data.tsv}` and the scan resumes after it |
| DemoPrettyPgfPlots.RewriteCopiesBraceless | components/demo/DemoPrettyPgfPlots.tsx:66 | text before the first `{` is copied unchanged |
| DemoPrettyPgfPlots.RewriteIdempotent | components/demo/DemoPrettyPgfPlots.tsx:66 | rewriting twice is rewriting once |
| DemoPrettyPgfPlots.RewriteExample | components/demo/DemoPrettyPgfPlots.tsx:66 | `{data/line.tsv};` becomes `{data.tsv};` |
| DemoPrettyPgfPlots.PgfPlotsDemo.constructor | components/demo/DemoPrettyPgfPlots.tsx:21-27 | `pgf`, default colours, empty text and preview, nothing loading, no error |
| DemoPrettyPgfPlots.PgfPlotsDemo.StartTexFetch | components/demo/DemoPrettyPgfPlots.tsx:54-57 | a new LaTeX invocation is the latest, awaited, loading, with the error cleared |
| DemoPrettyPgfPlots.PgfPlotsDemo.StartSvgFetch | components/demo/DemoPrettyPgfPlots.tsx:81-83 | a new SVG invocation is the latest and awaited, and the preview is blanked |
| DemoPrettyPgfPlots.PgfPlotsDemo.Mount | components/demo/DemoPrettyPgfPlots.tsx:54-100 | both effects start |
| DemoPrettyPgfPlots.PgfPlotsDemo.Choose | components/demo/DemoPrettyPgfPlots.tsx:29-100 | a choice with a new stem restarts both fetches; one with the same stem changes no fetch state |
| DemoPrettyPgfPlots.PgfPlotsDemo.SetVariant | components/demo/DemoPrettyPgfPlots.tsx:107-112 | the variant buttons, with that restart rule |
| DemoPrettyPgfPlots.PgfPlotsDemo.SetColors | components/demo/DemoPrettyPgfPlots.tsx:124-129 | the pills, offered only for prettyplots: a different scheme restarts both fetches, the same one nothing |
| DemoPrettyPgfPlots.PgfPlotsDemo.TexSettled | components/demo/DemoPrettyPgfPlots.tsx:64-74 | only the latest, uncancelled invocation writes; success stores the rewritten text; failure sets `Could not load LaTeX source.` and empties the text; the shown text never names `{data/line.tsv}` |
| DemoPrettyPgfPlots.PgfPlotsDemo.SvgSettled | components/demo/DemoPrettyPgfPlots.tsx:90-95 | only the latest, uncancelled invocation writes; success stores the SVG, failure leaves it empty |
| DemoPrettyPgfPlots.PgfPlotsDemo.Unmount | components/demo/DemoPrettyPgfPlots.tsx:76-99 | after cleanup no late response writes |
| DemoPrettyPgfPlots.SwitchBeforeResponses | components/demo/DemoPrettyPgfPlots.tsx:54-153 | a stale LaTeX response is dropped while the preview shows "Loading preview…"; the latest responses are shown |
| Demo.Dispatch | components/demo/Demo.tsx:25-36 | a component is mounted exactly for the keys with a table entry; it gets the entry's title and data URL unchanged; the CMM renderer is mounted exactly for `causal-mixture-models` |
| Demo.DispatchTable | components/demo/Demo.tsx:7-36 | `causal-mixture-models` mounts CMM with its title and `/demos/cmm_tcga_colon_x3_y3.json`; `topic-ordering` mounts TOPIC with `/demos/topic_history_synthetic_n5.json`; the other two keys render nothing |
| Demo.DispatchInjective | components/demo/Demo.tsx:7-36 | different keys never mount the same renderer or load the same file |

## Left out

- Network and parsing. `fetch`, `res.ok`, `res.json()` and `res.text()` are not modelled. Each request settles as an `Outcome` event, delivered with the token of the invocation that issued it. A malformed JSON payload is treated as a failure.
- React scheduling. Memo dependency tracking and batched re-renders are not modelled. Derived values are pure functions of the state, and each effect is a method call at the point it would run.
- Stale results in the TOPIC and CMM loaders. Those effects have no cancellation flag, so a response for an earlier URL can overwrite newer state. The model keeps that behaviour and claims no guard. Through the dispatcher each loader only ever gets one fixed URL.
- Layout geometry that needs square roots, trigonometry or float formatting: the curved edge paths, the circular graph preview, `toFixed` in the ranking panel. `useNodeLayout` is not modelled either; it is only null when there is no data, and the render covers that case.
- Presentational markup. The step and phase labels, the ranking panel, the order strip's markup, the ground-truth graph, the node styling and the subtitle prop are not modelled.
- `Number(...)` in `normalizeEdges`. It converts JSON values to numbers; the model takes edge endpoints as integers already.
- Unused JSON fields: the `it` and `source` fields of causal-change steps, the CMM `bic`, `meta` and `soft` fields, and the score fields of TOPIC steps.
- A changing `basePath` prop. It is fixed for the life of a causal-change or PrettyPgfPlots instance, since both are mounted with the default.
- DemoCMM.Fill: JavaScript's `-0` index, and non-integer components, are not modelled. Components are integers; a negative even component gives index 0, as `-0` does in JavaScript.
- DemoTopic.TopicDemo.Next and DemoTopic.TopicDemo.Prev: disabling the buttons at the ends is not modelled. The clamping already makes a click there leave the index unchanged.
- Clipboard copying and the "copied" timers in the code boxes.
