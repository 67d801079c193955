# Project-Iris core in Dafny

This project models three parts of the Project-Iris trajectory-prediction code base.

- **Context maps** (`maps.dfy`, module `Maps`) model the prediction models' `MapManager`:
  - `init_guidance_map` builds the bounding-box void map and the scale and offset of the real-to-grid transform;
  - `real2grid` maps positions to grid cells;
  - `_add_one_traj` stamps one trajectory as windows of a square mask. It uses a fresh `array2` layer, optional amplitude decay through `np.interp`, a strict bounds test and an optional `np.sign`;
  - `_add_to_map` folds `_add_one_traj` over trajectories. It fills the module-wide `MASKS` cache, modelled as the class `MaskCache`;
  - `build_guidance_map` and `build_social_map` are the two builders. The social one assembles the stamp lists, prunes to the nearest `max_neighbor + 1` trajectories with an `argsort` (NumPy's default quicksort; the model sorts stably, ties by index), and optionally regulates the result to [0, 1];
  - `cut_map` makes local crops with clamped centres;
  - `get_trajectories` flattens agents into one point list, with optional movement flags.
- **Two-stage vertical inference** (`viris.dfy`, module `Viris`):
  - `BatchIndex` is modelled as a class whose constructor runs the `get_new` loop;
  - `post_process` has three branches: training returns the proposals; linear-interpolation mode anchors the proposals on the last observation; otherwise the beta model refines the proposals chunk by chunk, and the chunk results are reshaped back;
  - the constructor's choice of second stage from `loada` / `loadb`.
- **Training arguments** (`args.dfy`, module `Args`):
  - the sorted list of public argument names;
  - the conversion of a namespace into a command line;
  - the three-source `_get` lookup and the `test_set` override;
  - `__str__`.

`wrappers.dfy` holds the `Option` type shared by the three modules.

NumPy arrays are modelled as sequences of rows of `real`. `int()` and `astype(np.int32)` become explicit truncation toward zero (`Maps.Trunc`). Python slices follow Python's rules for negative and out-of-range bounds (`Maps.PySlice`). `zip` stops at its shortest argument everywhere it is used.

Code that is not part of this model becomes function parameters:
- `calculate_length`, and `calculate_cosine` followed by `activation`;
- `cv2.resize`;
- `U.LinearInterpolation` and the beta network;
- `ArgParse.parse` and `ArgParse.load`.

The one thing assumed about the resize is that it turns a non-negative image into a non-negative (2r+1) x (2r+1) mask (`Maps.ResizeGivesMasks`).

Reproduced as written:
- The third component of a `BatchIndex` entry is `end` minus the advanced cursor, not the chunk length.
- Pruning in `build_social_map` reorders the trajectories but not the amplitude and radius lists.
- The upper bounds test of `_add_one_traj` is strict, so a window touching the last row or column is skipped.
- A missing mask radius is resized from whichever mask was used last.
- The docstring of `real2grid_paras` gives `xr * W + b`, but the code computes `(traj - b) * W`. The model follows the code.

## Model

| member | source | states |
|---|---|---|
| Maps.Zeros | modules/models/prediction/__maps.py:114-119 | `np.zeros`: an h x w map, every cell 0 |
| Maps.Trunc | modules/models/prediction/__maps.py:307 | `astype(int32)` / `int()` truncate toward zero: the result lies in the unit interval below a non-negative input and above a negative one |
| Maps.PySlice | modules/models/prediction/__maps.py:257-258 | Python slicing never yields more elements than the sequence has, and agrees with the plain slice for in-range bounds |
| Maps.Sign | modules/models/prediction/__maps.py:335-336 | `np.sign` yields -1, 0 or 1, positive exactly for positive inputs and negative exactly for negative ones |
| Maps.LinspacePoint | modules/models/prediction/__maps.py:319 | every point of `np.linspace(0, 1, n)` lies in [0, 1] |
| Maps.Interp | modules/models/prediction/__maps.py:319-321 | `np.interp(x, xp, fp)`: the first value at or before the first knot (and for a single knot), linear between neighbouring knots, the last value beyond; its knot property is `InterpAtKnot` |
| Maps.InterpAtKnot | modules/models/prediction/__maps.py:319-321 | `np.interp` at a knot returns that knot's value |
| Maps.DecayClosedForm | modules/models/prediction/__maps.py:316-321 | the decay weight through (0,1), (0.7,1), (1,0.5) is 1 up to progress 0.7 and then falls linearly to 0.5 |
| Maps.DecayProfile | modules/models/prediction/__maps.py:316-321 | the weight lies in [0.5, 1]; the first point and every point up to 70% progress keep full amplitude |
| Maps.DecayLast | modules/models/prediction/__maps.py:316-321 | the last point of a trajectory of two or more points gets half the amplitude |
| Maps.DecayNonIncreasing | modules/models/prediction/__maps.py:316-321 | later points never weigh more than earlier ones |
| Maps.PointAmps | modules/models/prediction/__maps.py:318-321 | with decay, point i's amplitude is the base amplitude times the decay weight of i; without decay, the given per-point amplitudes are used unchanged |
| Maps.Accepted | modules/models/prediction/__maps.py:325-328 | the bounds test: `pos - r >= 0` on both axes and strictly `pos + r + 1 < dim` |
| Maps.Contribution | modules/models/prediction/__maps.py:324-333 | what one zipped point adds at (i, j): `a * mask` inside its window when it passes the bounds test, 0 otherwise |
| Maps.Layer | modules/models/prediction/__maps.py:323-333 | the `new_map` cell (i, j) after the first n zipped points: the sum of their contributions; its properties are `LayerConcat`, `LayerPrefix`, `RejectedPointIrrelevant`, `LayerUncovered` and `LayerNonNeg` |
| Maps.Decayed | modules/models/prediction/__maps.py:318-321 | one amplitude per point, each the base amplitude times the decay weight |
| Maps.AddOneTrajSpec | modules/models/prediction/__maps.py:323-338 | the result has the source's shape |
| Maps.Stamp | modules/models/prediction/__maps.py:330-333 | adds `a * mask` onto the point's window and leaves every other cell as it was |
| Maps.AddOneTraj | modules/models/prediction/__maps.py:309-338 | the array loop computes the source plus the (optionally signed) sum of the accepted windows, as the specification function does |
| Maps.LayerConcat | modules/models/prediction/__maps.py:324-333 | the stamp layer is additive over concatenated point lists |
| Maps.LayerPrefix | modules/models/prediction/__maps.py:324 | the layer after n points depends only on the first n points and amplitudes |
| Maps.RejectedPointIrrelevant | modules/models/prediction/__maps.py:324-328 | a point failing the bounds test (`pos - r >= 0`, strict `pos + r + 1 < dim`) contributes nothing: dropping it leaves the layer unchanged |
| Maps.LayerUncovered | modules/models/prediction/__maps.py:323-333 | the layer is 0 wherever no accepted window reaches |
| Maps.OutsideWindowsUnchanged | modules/models/prediction/__maps.py:323-338 | every cell outside all accepted windows keeps its source value |
| Maps.StampsAccumulate | modules/models/prediction/__maps.py:323-338 | without `max_limit`, each cell is the source plus the sum of its accepted windows' values, so overlapping stamps add up |
| Maps.MaxLimitUnitSteps | modules/models/prediction/__maps.py:335-338 | with `max_limit`, every cell of result minus source is -1, 0 or 1 |
| Maps.LayerNonNeg | modules/models/prediction/__maps.py:323-333 | non-negative amplitudes give a non-negative layer |
| Maps.AddOneTrajNonNeg | modules/models/prediction/__maps.py:309-338 | non-negative amplitudes on a non-negative map keep it non-negative and keep its shape |
| Maps.SeqMax | modules/models/prediction/__maps.py:106-109 | `np.max` of a list bounds every element and is one of them |
| Maps.SeqMin | modules/models/prediction/__maps.py:106-109 | `np.min` of a list is below every element and is one of them |
| Maps.GridMax | modules/models/prediction/__maps.py:150 | `np.max` of a map bounds every cell and is attained |
| Maps.GridMin | modules/models/prediction/__maps.py:230-234 | `np.min` of a map is below every cell and is attained |
| Maps.AgentPoints | modules/models/prediction/__maps.py:355-361 | a prediction agent gives its whole trajectory; an entire trajectory gives its `[start_frame, end_frame)` slice when no destination is asked for, and with destinations the last `destination_steps` points of that slice, or the whole slice for 0 steps (`[-0:]`) or at least as many steps as points |
| Maps.AllPoints | modules/models/prediction/__maps.py:352-372 | the `all_trajs` list of `get_trajectories`: every agent's points in agent order; `GetTrajectories` is proved to compute it |
| Maps.GetTrajectories | modules/models/prediction/__maps.py:341-374 | the loop appends every agent's points in agent order and, for a non-zero movement threshold, one flag per point |
| Maps.AllPointsConcat | modules/models/prediction/__maps.py:354-372 | flattening distributes over concatenation of agent lists |
| Maps.MovementAligned | modules/models/prediction/__maps.py:363-368 | there are exactly as many movement flags as points |
| Maps.PredictionPoints | modules/models/prediction/__maps.py:355-356 | for prediction agents the point list is the concatenation of their trajectories |
| Maps.InitGuidanceMap | modules/models/prediction/__maps.py:85-119 | the void map is all zeros with `trunc((max - min + 2e) * a) + 1` cells per axis; `W = (a, a)` and `b = (x_min - e, y_min - e)` |
| Maps.Extent | modules/models/prediction/__maps.py:114-115 | one side of the void map, `int((max - min + 2e) * a) + 1`: at least 1 when the scaled extent is not negative |
| Maps.Real2Grid | modules/models/prediction/__maps.py:303-307 | `((p - b) * W).astype(int32)` for one point, truncated toward zero per axis; its properties are `CellContainsPoint`, `AxisInside` and `CellInside` |
| Maps.Real2GridAll | modules/models/prediction/__maps.py:303-307 | `real2grid` converts each point on its own, keeping the order |
| Maps.CellContainsPoint | modules/models/prediction/__maps.py:307 | a point with a non-negative scaled offset lands in the cell whose unit square contains `(p - b) * W` |
| Maps.AxisInside | modules/models/prediction/__maps.py:114-117 | along one axis, a coordinate inside the bounding box lands on an index inside the void map |
| Maps.Real2GridInside | modules/models/prediction/__maps.py:106-119 | with `a >= 0` and `e >= 0`, every point the void map was built from lands on a cell inside it |
| Maps.CellInside | modules/models/prediction/__maps.py:114-117 | any point inside the bounding box lands on a cell inside the void map |
| Maps.MaskCache.constructor | modules/models/prediction/__maps.py:23 | the mask cache starts empty |
| Maps.StampAmps | modules/models/prediction/__maps.py:278-281 | a scalar amplitude gives one amplitude row per trajectory; per-trajectory amplitudes are kept one for one |
| Maps.StampRadii | modules/models/prediction/__maps.py:282-290 | one truncated radius per trajectory, or one per given radius |
| Maps.StampCount | modules/models/prediction/__maps.py:289 | `zip` stamps no more trajectories than there are trajectories, amplitudes or radii |
| Maps.FetchMask | modules/models/prediction/__maps.py:290-294 | a cached radius keeps its mask; a new radius gets a valid mask resized from the current one; no other entry changes |
| Maps.StampAll | modules/models/prediction/__maps.py:289-299 | the fold from trajectory `from` on keeps the map's shape and keeps every cached mask valid |
| Maps.StampAllCache | modules/models/prediction/__maps.py:289-294 | cached radii keep their mask, and every new key is a radius that was stamped |
| Maps.AddToMapSpec | modules/models/prediction/__maps.py:262-301 | `_add_to_map` as a function: the map keeps its shape and the cache stays valid |
| Maps.StampLoop | modules/models/prediction/__maps.py:289-299 | the loop over the zipped lists gives the final map and cache of the stamping fold |
| Maps.AddToMap | modules/models/prediction/__maps.py:262-301 | truncates the lists to what `zip` pairs and gives the map and cache that `_add_to_map`'s specification function gives |
| Maps.AmpsFit | modules/models/prediction/__maps.py:278-281 | every stamped trajectory gets an amplitude of a fitting size |
| Maps.StampAllNonNeg | modules/models/prediction/__maps.py:289-299 | non-negative amplitudes folded onto a non-negative map keep it non-negative |
| Maps.ResizeFromLastMask | modules/models/prediction/__maps.py:291-294 | with two new radii in a row, the second mask is resized from the first resized mask, not from the original |
| Maps.GuidanceTrajs | modules/models/prediction/__maps.py:136-143 | the guidance trajectories form a rectangular batch |
| Maps.GuidanceSourceReady | modules/models/prediction/__maps.py:136-142 | `agents[0]` exists; agents start with a prediction agent and give at least one point; a point list is not empty; a batch is rectangular, with possibly empty trajectories |
| Maps.GuidanceStamp | modules/models/prediction/__maps.py:136-147 | the guidance stamping keeps the base map's shape and the cache valid |
| Maps.GuidanceStampNonNeg | modules/models/prediction/__maps.py:136-147 | stamping amplitude 1 onto a non-negative base map keeps it non-negative |
| Maps.Inverted | modules/models/prediction/__maps.py:150 | cell by cell `1 - c / max` |
| Maps.Clamp30 | modules/models/prediction/__maps.py:149 | `np.minimum(source, 30)` cell by cell, keeping the shape |
| Maps.InvertedCell | modules/models/prediction/__maps.py:150 | for 0 <= x <= m, `1 - x / m` lies in [0, 1]; it is 1 at 0 and 0 at m |
| Maps.NormaliseGuidance | modules/models/prediction/__maps.py:149-150 | `np.minimum(source, 30)` and then `1 - source / np.max(source)`, with `None` where the maximum is 0; its properties are `NormaliseGuidanceNone` and `NormaliseGuidanceRange` |
| Maps.NormaliseGuidanceNone | modules/models/prediction/__maps.py:149-150 | for a non-negative map, normalisation divides by zero exactly when every cell is 0 |
| Maps.NormaliseGuidanceRange | modules/models/prediction/__maps.py:149-150 | otherwise the result keeps the shape and lies in [0, 1]; empty cells become 1 and cells at the clamped maximum become 0 |
| Maps.BuildGuidanceMap | modules/models/prediction/__maps.py:121-155 | stamps with amplitude 1 and radius 7, no decay and no `max_limit`, onto the given or the void map, then clamps and normalises; a non-negative base map gives a result in [0, 1] |
| Maps.Range | modules/models/prediction/__maps.py:218 | the indices 0 .. n-1 in order |
| Maps.InsertByKey | modules/models/prediction/__maps.py:218 | inserting an index adds exactly that index to the multiset |
| Maps.InsertSorted | modules/models/prediction/__maps.py:218 | inserting an index larger than all present keeps ascending key order with ties by index |
| Maps.ArgSortPrefix | modules/models/prediction/__maps.py:218 | the argsort of the first n keys is a permutation of 0 .. n-1 in ascending key order |
| Maps.ArgSort | modules/models/prediction/__maps.py:218 | `np.argsort` is a permutation of the indices in ascending key order, ties by index |
| Maps.ArgSortHas | modules/models/prediction/__maps.py:218 | every index occurs in the argsort |
| Maps.NeighborAmps | modules/models/prediction/__maps.py:197-209 | one amplitude per neighbour, -2 each when the target moved less than 0.05 |
| Maps.StartDistances | modules/models/prediction/__maps.py:217 | one start-point distance per trajectory |
| Maps.Pick | modules/models/prediction/__maps.py:219 | `trajs[index]`: entry k is trajectory `index[k]` |
| Maps.KeptIndex | modules/models/prediction/__maps.py:215-219 | the kept indices are valid trajectory indices |
| Maps.SocialPlan | modules/models/prediction/__maps.py:179-219 | every planned trajectory is as long as the target's prediction |
| Maps.SocialLists | modules/models/prediction/__maps.py:183-213 | the target comes first with amplitude -2 and radius `interest_size`; every neighbour has radius `avoid_size`; a standing target gives every neighbour -2, and a moving one gives the cosine-velocity term |
| Maps.SocialUnpruned | modules/models/prediction/__maps.py:215 | with at most `max_neighbor + 1` trajectories the list is the target followed by the neighbours |
| Maps.SocialPruned | modules/models/prediction/__maps.py:215-219 | pruning keeps the `max_neighbor + 1` nearest by start distance, and no dropped one is nearer than a kept one; the amplitude and radius lists stay in their original order |
| Maps.SocialTargetFirst | modules/models/prediction/__maps.py:215-219 | for a distance with length(0) = 0 and no negative values, the target stays first after pruning |
| Maps.PlanCells | modules/models/prediction/__maps.py:221-222 | the grid trajectories keep the plan's number and lengths |
| Maps.SocialStamp | modules/models/prediction/__maps.py:221-227 | the social stamping keeps the base map's shape and the cache valid |
| Maps.Filled | modules/models/prediction/__maps.py:231 | `0.5 * np.ones_like` gives the value at every cell |
| Maps.Scaled | modules/models/prediction/__maps.py:233-234 | `(g - min) / (max - min)` cell by cell |
| Maps.Regulate | modules/models/prediction/__maps.py:229-234 | `regulation`: 0.5 everywhere for a value range of at most 0.01, min-max scaling otherwise; its properties are `RegulateRange`, `RegulateFlat` and `RegulateSpread` |
| Maps.RegulateRange | modules/models/prediction/__maps.py:229-234 | regulation always lands in [0, 1] and keeps the shape |
| Maps.RegulateFlat | modules/models/prediction/__maps.py:230-231 | a value range of at most 0.01 gives 0.5 everywhere |
| Maps.RegulateSpread | modules/models/prediction/__maps.py:232-234 | otherwise the minimum cells become 0, the maximum cells 1, and the map lies in [0, 1] |
| Maps.ScaledRange | modules/models/prediction/__maps.py:233-234 | min-max scaling of a map between mn and mx lies in [0, 1], and sends mn to 0 and mx to 1 |
| Maps.ScaledCell | modules/models/prediction/__maps.py:233-234 | one cell of min-max scaling lies in [0, 1] |
| Maps.BuildSocialMap | modules/models/prediction/__maps.py:157-236 | stamps the pruned plan with decay onto the given or the void map, and regulates on request; a regulated result lies in [0, 1] |
| Maps.Crop | modules/models/prediction/__maps.py:257-258 | a crop never has more rows than the map |
| Maps.ClampCenter | modules/models/prediction/__maps.py:249-253 | one centre: `astype(int32)`, raised to at least h, lowered to at most `a - h` on rows and `b - h` on columns; its properties are `ClampBounds` and `ClampKeepsInnerCenter` |
| Maps.ClampAll | modules/models/prediction/__maps.py:249-253 | every centre is truncated, raised to at least h and lowered to at most `dim - h` |
| Maps.CropEach | modules/models/prediction/__maps.py:255-258 | the loop over `zip(maps, centers)` gives crop k of map k around centre k, as many as both lists have |
| Maps.CutMap | modules/models/prediction/__maps.py:238-260 | one crop per (map, centre) pair in batch order, around the centre clamped first to at least h and then to at most `dim - h` |
| Maps.CropWindow | modules/models/prediction/__maps.py:248-258 | with 0 <= h and 2h within both sides, the clamped centre keeps the window inside the map; each crop is 2h x 2h and `crop[i][j] = m[c0 - h + i][c1 - h + j]` |
| Maps.ClampBounds | modules/models/prediction/__maps.py:251-253 | with room for the window, a clamped centre is at least h from every side |
| Maps.CropAt | modules/models/prediction/__maps.py:257-258 | a centre at least h from every side keeps the window inside the map and gives a 2h x 2h crop with `crop[i][j] = m[c0 - h + i][c1 - h + j]` |
| Maps.ClampKeepsInnerCenter | modules/models/prediction/__maps.py:251-253 | a centre whose window already fits is not moved |
| Viris.BatchIndex.constructor | modules/Vertical/_Viris.py:159-171 | the loop of `get_new` calls builds the whole chunk index and leaves the cursor past the end |
| Viris.EntryAt | modules/Vertical/_Viris.py:186-193 | the entry `get_new` returns at cursor s: `[s, min(s + bs, l), min(s + bs, l) - (s + bs)]`; its properties are `EntryShape` and `ChunkEntry` |
| Viris.Chunks | modules/Vertical/_Viris.py:159-171 | the whole index the constructor builds: the entries from cursor 0 on, one per `get_new` call, until the cursor reaches `l`; its properties are `ChunkCount`, `ChunksTile`, `ChunksCover` and `ChunksWithin` |
| Viris.BatchIndex.Fill | modules/Vertical/_Viris.py:170-171 | the `get_new` loop, started from the empty index, ends with the whole chunk index and the cursor past the end |
| Viris.IndexStep | modules/Vertical/_Viris.py:170-171 | one `get_new` call and append keep the loop invariant: the entries built followed by the ones still to come form the whole index |
| Viris.IndexDone | modules/Vertical/_Viris.py:170-171 | once the cursor reaches the length, the entries built are the whole index and `end` is the length (or 0 if nothing was built) |
| Viris.BatchIndex.Init | modules/Vertical/_Viris.py:173-175 | resets the cursor and keeps the index |
| Viris.BatchIndex.GetNew | modules/Vertical/_Viris.py:177-193 | yields nothing once the cursor reaches `l`; otherwise yields `[start, min(start + bs, l), end - (start + bs)]` and advances the cursor by bs |
| Viris.NoProgressWithoutPositiveSize | modules/Vertical/_Viris.py:170-191 | with a chunk size of zero or less and a positive length the cursor never reaches the length, so the constructor's loop would not end |
| Viris.ChunksFromCount | modules/Vertical/_Viris.py:170-171 | from cursor s there are ceil((l - s) / bs) entries still to come |
| Viris.ChunkCount | modules/Vertical/_Viris.py:159-193 | the index has ceil(l / bs) entries, and none for l <= 0 |
| Viris.ChunksFromAt | modules/Vertical/_Viris.py:183-193 | entry i from cursor s is the entry computed at cursor `s + i * bs` |
| Viris.ChunkEntry | modules/Vertical/_Viris.py:186-193 | entry i covers [i * bs, min((i + 1) * bs, l)), and its third component is `end - (i + 1) * bs` |
| Viris.ChunksLast | modules/Vertical/_Viris.py:170-184 | the index is empty exactly when l <= 0; otherwise the last entry starts at the last multiple of bs below l |
| Viris.EntryShape | modules/Vertical/_Viris.py:186-193 | an entry is never empty or longer than bs; its third component is 0 for a full chunk and negative otherwise |
| Viris.NextEntry | modules/Vertical/_Viris.py:186-193 | every entry but the last is full and ends where the next one starts |
| Viris.ChunksTile | modules/Vertical/_Viris.py:159-193 | the entries tile [0, l) from left to right |
| Viris.Span | modules/Vertical/_Viris.py:76 | the integers from start up to end |
| Viris.SpanSplit | modules/Vertical/_Viris.py:76 | adjacent ranges concatenate |
| Viris.CoveredFrom | modules/Vertical/_Viris.py:170-193 | the entries from cursor s cover s, s + 1, ..., l - 1 in order |
| Viris.ChunksCover | modules/Vertical/_Viris.py:159-193 | the entries' ranges concatenate to 0 .. l - 1: no gap, no overlap, no reordering |
| Viris.ChunksWithin | modules/Vertical/_Viris.py:75-78 | every entry lies within [0, l] |
| Viris.Repeat | modules/Vertical/_Viris.py:76 | `tf.repeat(x, k, axis=0)` has k rows per input row |
| Viris.RepeatAt | modules/Vertical/_Viris.py:76 | row j of the repeated tensor is row j div k of the input |
| Viris.FlattenAt | modules/Vertical/_Viris.py:71 | after reshaping to `(batch * Kc, ...)`, candidate c of agent b is row b * Kc + c |
| Viris.FlattenLength | modules/Vertical/_Viris.py:71 | the reshape has batch * Kc rows |
| Viris.ChopAt | modules/Vertical/_Viris.py:86 | after reshaping back to `(batch, Kc, ...)`, group b, row c is flat row b * Kc + c |
| Viris.ChopShape | modules/Vertical/_Viris.py:86 | the reshape back has batch groups of Kc rows |
| Viris.FlattenChop | modules/Vertical/_Viris.py:71-86 | reshaping to groups and back is the identity |
| Viris.ChopFlatten | modules/Vertical/_Viris.py:71-86 | flattening the groups and regrouping is the identity |
| Viris.ChunkInput | modules/Vertical/_Viris.py:75-78 | a chunk's beta input is well shaped, with (end - start) * Kc proposal rows |
| Viris.ChunkPairing | modules/Vertical/_Viris.py:75-78 | inside a chunk, beta row j pairs agent `start + j div Kc` with that agent's candidate `j mod Kc` |
| Viris.ChunkRowAt | modules/Vertical/_Viris.py:75-78 | beta row j of a chunk is flat proposal row `start * Kc + j` next to the context of agent `start + j div Kc` |
| Viris.Refined | modules/Vertical/_Viris.py:73-85 | the chunk results in chunk order, concatenated: the beta model applied to each chunk's repeated context and proposal rows; its properties are `RefinedPrefix` and `RefinedWhole` |
| Viris.PostProcessSpec | modules/Vertical/_Viris.py:36-87 | the value `post_process` returns: the proposals in training, the interpolation of the anchored proposals in linear mode, and otherwise the reshaped chunk results, with `None` when there is no chunk result to concatenate or the reshape fails |
| Viris.PostProcess | modules/Vertical/_Viris.py:36-87 | the three branches and the chunk loop compute the specification value, with `None` for a `tf.concat` of no chunk results and for the failing final reshape |
| Viris.Unchunked | modules/Vertical/_Viris.py:71-78 | the beta input without chunking is well shaped |
| Viris.ChunkIsSlice | modules/Vertical/_Viris.py:74-83 | for a row-wise beta model, one chunk's output is the matching slice of the unchunked output |
| Viris.UnchunkedRowAt | modules/Vertical/_Viris.py:71-78 | row J of the unchunked input belongs to agent J div Kc |
| Viris.RefinedPrefix | modules/Vertical/_Viris.py:74-85 | the first m chunk outputs concatenate to the prefix of the unchunked output up to entry m - 1's end |
| Viris.RefinedWhole | modules/Vertical/_Viris.py:74-85 | all chunk outputs together equal one unchunked call |
| Viris.UnchunkedOutputAt | modules/Vertical/_Viris.py:71-86 | row b * Kc + k of the unchunked output is computed from agent b's context and its k-th proposal |
| Viris.RefinementPreservesOrder | modules/Vertical/_Viris.py:65-87 | for a row-wise beta model the refinement succeeds exactly when the batch is not empty; it then keeps batch x Kc, and candidate k of agent b depends only on agent b's context and proposal k |
| Viris.OtherBranches | modules/Vertical/_Viris.py:43-63 | training returns the proposals unchanged; linear mode asks the interpolation for knots -1 followed by `p_index`, with each proposal prefixed by its agent's last observed position |
| Viris.ChooseSecondStage | modules/Vertical/_Viris.py:116-129 | construction fails when either path is `null`; otherwise linear interpolation replaces the beta model exactly when `loadb` starts with `l` |
| Args.Lookup | modules/models/_base/args/args.py:165-169 | `getattr` on a namespace finds nothing exactly when no attribute has the name, and otherwise returns a stored value of that name |
| Args.LookupEntry | modules/models/_base/args/args.py:165-169 | in a dictionary, looking up a key returns the value stored under it |
| Args.Digits | modules/models/_base/args/args.py:44 | decimal rendering gives a non-empty string of digits |
| Args.DigitsRoundTrip | modules/models/_base/args/args.py:44 | the decimal digits read back as the number |
| Args.ShowIntRoundTrip | modules/models/_base/args/args.py:44 | `'{}'.format` of an integer reads back as that integer |
| Args.Flags | modules/models/_base/args/args.py:42-44 | two strings per dictionary entry, `--key` and the value's text |
| Args.Argv | modules/models/_base/args/args.py:40-45 | `['main.py']` followed by the flags: 1 + 2n strings starting with `main.py` |
| Args.FlagsSnoc | modules/models/_base/args/args.py:42-44 | one more entry appends one `'--key', 'value'` pair |
| Args.FlagsAt | modules/models/_base/args/args.py:42-44 | entry k becomes `--key` at slot 2k and its value's text at slot 2k + 1 |
| Args.ArgvRoundTrip | modules/models/_base/args/args.py:40-45 | the flag list reads back, pair by pair, as the namespace's keys with their values' text |
| Args.NamespaceToArgv | modules/models/_base/args/args.py:40-45 | the loop gives `['main.py']` followed by `'--key', 'value'` per entry in order, 1 + 2n strings in all |
| Args.PublicElements | modules/models/_base/args/args.py:34 | a name is kept exactly when it is listed and does not start with `_` |
| Args.LeTotal | modules/models/_base/args/args.py:35 | Python's string order is total |
| Args.LeTrans | modules/models/_base/args/args.py:35 | Python's string order is transitive |
| Args.Insert | modules/models/_base/args/args.py:35 | inserting into a sorted list keeps it sorted and adds exactly that name |
| Args.SortNames | modules/models/_base/args/args.py:35 | `list.sort()` yields a sorted permutation of the names |
| Args.ArgList | modules/models/_base/args/args.py:34-35 | the argument list is sorted, a permutation of the public names, and holds exactly the listed names not starting with `_` |
| Args.Get | modules/models/_base/args/args.py:162-174 | `_get`: the value under the name in the selected namespace, or the default when it has none; its cases are `GetPrecedence`, `GetStored`, `GetMissing` and `GetIgnores` |
| Args.GetPrecedence | modules/models/_base/args/args.py:162-174 | a fixed argument reads the loaded args when they exist, a changeable one the forced args when they exist, and otherwise the parsed args are read; any of them falls back to the default |
| Args.GetStored | modules/models/_base/args/args.py:162-174 | the value stored under the name in the selected namespace is returned |
| Args.GetMissing | modules/models/_base/args/args.py:171-174 | a name missing from the selected namespace gives the default, whatever the other namespaces hold |
| Args.GetIgnores | modules/models/_base/args/args.py:164-169 | a changeable argument never depends on the loaded args, and a fixed one never on the forced args |
| Args.TestSet | modules/models/_base/args/args.py:152-160 | the `test_set` property: `force_set` unless it is `null`, otherwise `_get('test_set', 'zara1', changeable=False)`; its cases are `TestSetCases`, `ForcedTestSet` and `DefaultTestSet` |
| Args.TestSetCases | modules/models/_base/args/args.py:157-160 | `test_set` is `force_set` when that is not `null`, and otherwise the fixed `test_set` with default `zara1` |
| Args.ForcedTestSet | modules/models/_base/args/args.py:157-158 | a forced `force_set` other than `null` is the test set, whatever the loaded and parsed args hold |
| Args.DefaultTestSet | modules/models/_base/args/args.py:157-160 | with nothing forced or loaded and no parsed `force_set`, the test set is the parsed `test_set`, or `zara1` |
| Args.Describe | modules/models/_base/args/args.py:70-74 | the `__str__` text of a run of entries: `key: value, ` for each in order; its properties are `DescribeAppend` and `DescribeShape` |
| Args.DescribeAppend | modules/models/_base/args/args.py:70-74 | the text of two runs of entries is the concatenation of their texts |
| Args.DescribeShape | modules/models/_base/args/args.py:70-74 | the text is empty exactly when there are no args, and otherwise ends in `, ` |
| Args.TrainArgs.constructor | modules/models/_base/args/args.py:29-58 | the name list is the sorted public names; the forced args are the defaults given; the parsed args are `parse` applied to the (converted) command line and the name list; args are loaded exactly when `load` is not `null` |
| Args.TrainArgs.ToString | modules/models/_base/args/args.py:70-74 | the loop concatenates `key: value, ` for every parsed argument in order |

## Left out

- Image I/O: `cv2.imread` of the mask image, `cv2.imwrite` of the guidance map, and `cv2.resize` itself. The mask is a parameter, and the resize is a function parameter that is relied on only to give a non-negative mask of the requested size.
- `calculate_length`, `calculate_cosine` and `activation`: their module is not part of this model, so they are function parameters. The squared distance would order neighbours the same way; the model works with whatever distance is passed in.
- `U.LinearInterpolation`, the beta network, TensorFlow tensor semantics and `tqdm` are not part of this model. The first two are function parameters, and tensors are sequences of rows.
- Checkpoint and argument loading:
  - `load_from_checkpoint`, `load_args` and `VArgs` in the vertical model's constructor;
  - `ArgParse.parse` and `ArgParse.load`, which are function parameters;
  - `os.listdir` and the `FileNotFoundError` path;
  - `dir_check`, and the `TIME`-based `log_dir` rewrite. That step touches the file system and the clock.
- Args.TrainArgs.constructor: when the parsed `log_dir` is `null`, the source overwrites it with a path built from the clock and the save directory. The contract's `args == parse(...)` then holds only for the other entries, and the `log_dir` value in the text of Args.TrainArgs.ToString differs accordingly.
- Args.TrainArgs.ToString: for such a namespace the rendered `log_dir` is the rewritten path, which the model does not produce.
- Args.Value: only strings and integers are modelled. A namespace given to the constructor may hold booleans, `None` or floats, which `'{}'.format` renders as `True`, `None` or `0.001`; their text is not modelled.
- Args.TrainArgs.constructor: the list of default values passed to `ArgParse.parse` is not modelled. The property values read before the parsed args exist are left inside the `parse` parameter.
- Args.TrainArgs.constructor: `default_args` given as a `dict` is not modelled; forced args are a namespace or nothing.
- Properties of the base training args other than `force_set`, `load` and `test_set`:
  - they are each one `_get` call with a constant name, default and changeability, listed in `Args.BaseArgs` and read through `Args.Property`;
  - `_print` is logging only.
- `print_test_result_info`, `run_train_or_test` and `create_model` are logging and harness code.
- `modules/satoshi/_args.py` and `modules/Silverballers/__init__.py` are not part of this model. The first only declares defaults and overrides one value; the second only re-exports names.
- `MapManager.__init__` with `init_manager`: copying the three map parameters from another manager is not modelled. The `real2grid_paras` property, which stacks `W` and `b`, is not modelled either.
- Bit-exact `float32` and `int32` arithmetic is not modelled. Values are unbounded reals and integers, with explicit truncation. In particular, an `int32` overflow of a crop centre or grid cell is not represented.
- Maps.NormaliseGuidance: a stamped map whose clamped maximum is 0 divides by zero in NumPy, giving NaN cells (0 / 0) or infinite ones (a negative cell of a caller-given map over 0). The model returns `None` there instead of modelling NaN and infinity.
- Maps.ArgSort: NumPy's default quicksort is stable only for short inputs. The model sorts ties by index at any length, so tie order among more than 16 equidistant trajectories may differ.
- Maps.BuildSocialMap: it requires both truncated radii to be non-negative, even when a radius is used by no stamped trajectory after pruning. The source fails only for a radius that is actually used.
- Maps.BuildSocialMap: it requires at least one neighbour. The default `traj_neighbors=[]` fails in the source when indexing the empty array.
- Maps.BuildGuidanceMap: the input must have a first element, because the source reads `agents[0]`; an agent list must start with a prediction agent, because the source otherwise takes the list itself as raw points, which the point-list and batch inputs model; agents must give at least one point, because `real2grid` of an empty list does not broadcast against `b`. A batch of empty trajectories is accepted, as in the source.
- Ragged NumPy arrays are excluded by preconditions: equally long trajectories, and stacked maps of one shape. NumPy broadcasting of length-1 amplitude rows is not modelled.
- Maps.GetTrajectories: agents of any other type are not modelled. In the source they would reuse the previous agent's points, or fail for the first agent.
- Maps.CutMap: it returns the list of crops. The final `np.array` of crops, which could be ragged, is not modelled, and neither are maps with more than three dimensions (`maps.shape[-3:]`).
- Viris.PostProcess: the vertical model's `raise` of a plain string is modelled as the `MissingModel` outcome of `ChooseSecondStage`, not as an exception.
