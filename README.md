# Sentinel-1 burst map to GeoJSON tiles — Dafny model

This project models the two conversion scripts of S1burstmap_geojsontile:

* `S1burstkmz2geojsontile.py` (tile mode). Each dataset is a list of burst
  footprints produced from one KMZ file. The first three characters of the
  dataset's file name give a relative orbit number. That number selects one of
  five partitions: `mod 5`, with 0 mapped to 5. Each burst's HTML description
  yields three fields: the pass direction, the burst id and the swath. These are
  the 12th, 18th and 24th `>`-delimited pieces, each cut at its first `<`.
  `ASCENDING` is styled blue (`#0000ff`) and `DESCENDING` red (`#ff0000`); any
  other direction aborts the run. A burst whose first vertex lies outside
  latitude ±84 is skipped. Every other burst is appended to the GeoJSON file
  `S1burst<A|D><partition>/<zl>/<x>/<y>.geojson` of the Web-Mercator tile that
  holds its first vertex.
* `S1burstkmz2geojsontile_dissolve.py` (overview mode). This script applies the
  latitude filter first and then the direction check. It collects the polygons
  per direction, dissolves and simplifies them, and appends one overview feature
  per resulting component to `S1burst<A|D><partition>/1/1/0.geojson`.

The file system is modelled as a `FeatureStore.Store` object whose `files` map
sends a path to the list of features in its `FeatureCollection`. `AddFeature`
is the shared `add_feature` helper: it creates the entry when it is missing,
then reads the list, appends to it and writes it back.

The tile-mode burst loop (`TileMode.ProcessDataset`) and the overview component
loop (`DissolveMode.EmitComponents`) are `while` loops that call `AddFeature`.
The overview burst loop (`DissolveMode.CollectRings`) is a `while` loop that
only collects rings in memory, as the script fills `polygonsA`/`polygonsD`. The
per-dataset loops are `TileMode.Run` and `DissolveMode.Run`.

* Each loop is proved against a left-recursive plan function. The burst loops'
  plans are built from the generic `BurstLoop.Scan`, which stops at the first
  error; the component loop's plan is `DissolveMode.OverviewAppends`.
* A Python exception in the middle of a loop leaves the earlier appends on
  disk. The model does the same: the methods return the error, and the store
  holds exactly the appends of the prefix that was processed.
* The plans are related by lemmas to independent right-recursive references
  (`Bursts`, `InBand`, `Routes`, `Survivors`, `SurvivorRings`). This is how the
  model shows which features end up in which file.

Modules:

| file | module | contents |
|---|---|---|
| common.dfy | Common | `Option`, `Result`, error kinds, points, rings, geometries, features |
| text.dfy | Text | Python `str.split` / `'>'.join`, `str(int)` and `int(str)` |
| classifier.dfy | Classifier | styling constants, description fields, direction, latitude band, partition index |
| tile_index.dfy | TileIndex | the x column of `latlon2tileid` |
| feature_store.dfy | FeatureStore | the keyed store and `add_feature` |
| burst_loop.dfy | BurstLoop | a loop over items that may emit, skip or raise |
| tile_mode.dfy | TileMode | tile paths, routing of a burst, per-dataset and whole-run loops |
| dissolve_mode.dfy | DissolveMode | polygon collection, overview emission, per-dataset and whole-run loops |

Some inputs are parameters of the model:

* The y row of a tile is given as `Config.tileY`.
* Shapely's `unary_union` and `simplify` are given as `Shapes.union` and
  `Shapes.simplify`.
* KMZ datasets arrive as a sequence of `Dataset` values, in the order `glob`
  lists them.

## Model

| member | source | states |
|---|---|---|
| Text.SplitLength | S1burstkmz2geojsontile.py:125-127 | `str.split('>')` yields one more piece than there are separators |
| Text.SplitPiecesHaveNoSeparator | S1burstkmz2geojsontile.py:125-127 | no piece of a split contains the separator |
| Text.JoinSplit | S1burstkmz2geojsontile.py:125 | joining the pieces of a split with the separator gives back the text |
| Text.SplitJoin | S1burstkmz2geojsontile.py:125 | splitting a join of separator-free pieces gives back the pieces |
| Text.SplitHeadIsPrefix | S1burstkmz2geojsontile.py:125-127 | the piece before the first `<` is a prefix of the segment |
| Text.SplitWithoutSeparator | S1burstkmz2geojsontile.py:125-127 | a text with no separator splits into itself alone |
| Text.SplitAfterPlainPrefix | S1burstkmz2geojsontile.py:125-127 | a separator after a separator-free prefix starts the second piece |
| Text.DigitsValueOfNatToString | S1burstkmz2geojsontile.py:159-160 | the decimal digits `str` prints read back as the same number |
| Text.ParseNatToString | S1burstkmz2geojsontile.py:110 | `int(str(n)) == n` for every natural number |
| Text.ParseIntToString | S1burstkmz2geojsontile.py:110 | `int(str(n)) == n` for every integer, negatives included |
| Text.ParseNegative | S1burstkmz2geojsontile.py:110 | `int` of a minus sign followed by valid digits is the negated value |
| Text.IntToStringInjective | S1burstkmz2geojsontile.py:159-160 | different tile numbers print differently |
| Text.ParseThreeDigits | S1burstkmz2geojsontile.py:109-110 | `int` of three ASCII digits is their decimal value, leading zeros allowed |
| Text.TrimLeftKeeps | S1burstkmz2geojsontile.py:110 | stripping leading whitespace keeps every non-space character |
| Text.TrimRightKeeps | S1burstkmz2geojsontile.py:110 | stripping trailing whitespace keeps every non-space character |
| Text.ParseIntRejects | S1burstkmz2geojsontile.py:110 | `int` raises when the text holds a character that is not a digit, an underscore, a sign or one of the six ASCII whitespace characters it skips (tab, line feed, vertical tab, form feed, carriage return, space) |
| Text.ParseIntSkipsLeadingSpace | S1burstkmz2geojsontile.py:110 | a leading whitespace character does not change what `int` reads |
| Text.ParseIntRejectsSeparator | S1burstkmz2geojsontile.py:110 | a text starting with one of U+001C..U+001F is rejected: these are not whitespace to `int` |
| Text.Split | S1burstkmz2geojsontile.py:125-127 | `str.split` always yields at least one piece; it is characterised by `JoinSplit`, `SplitJoin`, `SplitLength` and `SplitPiecesHaveNoSeparator` |
| Text.IntToString | S1burstkmz2geojsontile.py:159-160 | `str(n)` is non-empty and starts with `-` exactly for negative n; `ParseIntToString` makes it the inverse of `ParseInt` and `IntToStringInjective` makes it one-to-one |
| Text.ParseInt | S1burstkmz2geojsontile.py:110 | `int(s)` in base 10; characterised by `ParseIntToString`, `ParseNegative`, `ParseThreeDigits`, `ParseIntRejects`, `ParseIntSkipsLeadingSpace` and `ParseIntRejectsSeparator` |
| Classifier.Classify | S1burstkmz2geojsontile.py:129-136 | succeeds exactly for `ASCENDING`/`DESCENDING`, recovering the token, and otherwise raises with the offending token |
| Classifier.Styled | S1burstkmz2geojsontile.py:148-153 | the output properties carry the name, the colour as line and fill colour, opacity 0.4, weight 1, fill opacity 0.1 and the geometry unchanged |
| Classifier.Token | S1burstkmz2geojsontile.py:125 | segment k exists exactly when the description has at least k `>`; the token then holds no `>` and no `<` |
| Classifier.TokenOfMarkup | S1burstkmz2geojsontile.py:125-127 | in a description built from `>`-separated segments, the token of segment k is the text of that segment before its first `<` |
| Classifier.TileFields | S1burstkmz2geojsontile.py:124-127 | the three fields are read exactly when there are at least 24 segments; otherwise the first missing index among 11, 17, 23 is reported |
| Classifier.OrbitToken | S1burstkmz2geojsontile_dissolve.py:128-129 | the direction token is read exactly when there are at least 12 segments, else segment 11 is reported missing |
| Classifier.FirstVertex | S1burstkmz2geojsontile.py:139-141 | the first vertex exists exactly when the outer ring is non-empty, and is its first point |
| Classifier.Prefix3 | S1burstkmz2geojsontile.py:109 | `name[0:3]` is a prefix of the name of length min(3, len) |
| Classifier.PartitionIndex | S1burstkmz2geojsontile.py:109-111 | fails exactly when `int` rejects the prefix; otherwise the index is in 1..5 and congruent to the orbit number mod 5 |
| Classifier.Bucket | S1burstkmz2geojsontile.py:110-111 | `np.mod(n, 5)` with 0 replaced by 5 is in 1..5 and congruent to n |
| Classifier.PartitionExamples | S1burstkmz2geojsontile.py:109-111 | orbits 003 and 008 share partition 3; orbits 010 and 000 go to partition 5 |
| Classifier.PartitionRejectsLetter | S1burstkmz2geojsontile_dissolve.py:105-107 | a file name whose first three characters include a letter raises |
| Classifier.PartitionRejectsSeparator | S1burstkmz2geojsontile.py:109-111 | a file name starting with one of U+001C..U+001F raises |
| TileIndex.Pow2 | S1burstkmz2geojsontile.py:32 | `2**zl` is positive |
| TileIndex.PyPow2 | S1burstkmz2geojsontile.py:32 | `2**zl` as a float is positive for any integer zoom |
| TileIndex.Trunc | S1burstkmz2geojsontile.py:32 | `int()` of a float rounds toward zero |
| TileIndex.TruncMonotone | S1burstkmz2geojsontile.py:32 | truncation is monotone |
| TileIndex.XValueOfNat | S1burstkmz2geojsontile.py:32 | for zl ≥ 0 the x value is (lon+180)/360 · 2^zl |
| TileIndex.TileXRange | S1burstkmz2geojsontile.py:32 | for lon in [-180, 180) the column is in 0 .. 2^zl-1 |
| TileIndex.TileXWestEdge | S1burstkmz2geojsontile.py:32 | lon = -180 is column 0 |
| TileIndex.TileXZoomZero | S1burstkmz2geojsontile.py:32 | at zoom 0 every longitude in range is column 0 |
| TileIndex.TileXEastEdge | S1burstkmz2geojsontile.py:32 | lon = 180 gives column 2^zl, one past the last tile |
| TileIndex.TileXMonotone | S1burstkmz2geojsontile.py:32 | the column never decreases as longitude increases |
| TileIndex.TileXCell | S1burstkmz2geojsontile.py:32 | for zl ≥ 0 and lon ≥ -180, a longitude maps to column x exactly when it lies in [west edge of x, west edge of x+1); west of -180 truncation toward zero breaks this |
| TileIndex.TileX | S1burstkmz2geojsontile.py:32 | the column of a longitude; `TileXCell` characterises it, `TileXRange`, `TileXMonotone` and the edge lemmas bound it |
| FeatureStore.Appended | S1burstkmz2geojsontile.py:39-52 | one append adds the feature at the end of that path's list, creating it if missing; every other path is unchanged |
| FeatureStore.FeaturesForConcat | S1burstkmz2geojsontile.py:39-52 | the features routed to a path by two batches of appends are those of the first batch then those of the second |
| FeatureStore.ApplyAllLookup | S1burstkmz2geojsontile.py:39-52 | after a series of appends a path holds its old list followed by exactly the features sent to it, in order |
| FeatureStore.ApplyAllKeys | S1burstkmz2geojsontile.py:40-43 | a path exists afterwards exactly when it existed before or some append targeted it |
| FeatureStore.ApplyAll | S1burstkmz2geojsontile.py:39-52 | a series of `add_feature` calls; `ApplyAllLookup`, `ApplyAllKeys` and `ApplyAllConcat` characterise it |
| FeatureStore.FirstAndSecondAppend | S1burstkmz2geojsontile.py:39-52 | on a missing file the first append creates `[f1]` and the second gives `[f1, f2]` |
| FeatureStore.Store.constructor | S1burstkmz2geojsontile.py:86-97 | the store starts from whatever files are already on disk |
| FeatureStore.Store.AddFeature | S1burstkmz2geojsontile.py:39-52 | the store becomes `Appended(old, path, f)`: the feature is last in that file and no other file changes |
| TileMode.IntToStringHasNoSlash | S1burstkmz2geojsontile.py:159-160 | a printed integer holds no path separator |
| TileMode.TilePath | S1burstkmz2geojsontile.py:159-160 | the tile file of a direction, partition, zoom, column and row; `TilePathInjective` makes it one-to-one |
| TileMode.TilePathInjective | S1burstkmz2geojsontile.py:159-160 | distinct (direction, partition, zoom, x, y) give distinct output files |
| TileMode.ParseBurst | S1burstkmz2geojsontile.py:124-141 | reading the fields, direction and first vertex of a burst; `ParseBurstMeaning` characterises success and each error |
| TileMode.ParseBurstMeaning | S1burstkmz2geojsontile.py:124-141 | a burst parses exactly when it has 24 segments, a known direction and a first vertex; the direction is checked before the vertex is read |
| TileMode.Route | S1burstkmz2geojsontile.py:138-161 | a burst goes to the tile of its first vertex in its direction's tree, named `<orbit><A/D> <swath> <burst id>`, in its direction's colour, with its own geometry |
| TileMode.TileStep | S1burstkmz2geojsontile.py:123-161 | a parse error propagates; otherwise the burst is emitted exactly when its first latitude is within ±84, and then as its `Route` |
| TileMode.RunPlanAfterError | S1burstkmz2geojsontile.py:101-136 | an error in one dataset means no later dataset is processed |
| TileMode.Bursts | S1burstkmz2geojsontile.py:123-141 | the parsed bursts of a dataset, one per input feature |
| TileMode.InBand | S1burstkmz2geojsontile.py:143-144 | the bursts kept are exactly those within the latitude band |
| TileMode.Routes | S1burstkmz2geojsontile.py:156-161 | one append per kept burst, in order |
| TileMode.TileYields | S1burstkmz2geojsontile.py:123-161 | the loop step succeeds on every burst exactly when all parse, and then emits `Routes(InBand(Bursts))` |
| TileMode.TilePlan | S1burstkmz2geojsontile.py:123-161 | the appends and error of one dataset's burst loop; `TilePlanComplete`, `TilePlanStopsAtError` and `AppendsComeFromBand` characterise it |
| TileMode.DatasetPlan | S1burstkmz2geojsontile.py:105-161 | a dataset without a partition raises before any append, otherwise its burst loop; `ProcessDataset` is proved against it |
| TileMode.RunPlan | S1burstkmz2geojsontile.py:101-161 | the datasets in turn, stopping at the first error; `RunPlanAfterError` and `Run` are about it |
| TileMode.TilePlanComplete | S1burstkmz2geojsontile.py:123-161 | a dataset finishes without error exactly when every burst parses, and its appends are then exactly the routes of the in-band bursts, in input order |
| TileMode.TilePlanStopsAtError | S1burstkmz2geojsontile.py:123-161 | on error there is a first failing burst; the appends made are those of the bursts before it, and that burst's error is the one raised |
| TileMode.AppendsComeFromBand | S1burstkmz2geojsontile.py:140-161 | every append comes from some input burst that parsed and lies in the band |
| TileMode.PolarUnknownOrbitAborts | S1burstkmz2geojsontile.py:129-144 | a burst with an unknown direction aborts the dataset even when it would have been dropped as polar |
| TileMode.TileContents | S1burstkmz2geojsontile.py:156-161 | after a dataset each tile file holds its old features followed by exactly the routed features for that path |
| FeatureStore.ApplyAllConcat | S1burstkmz2geojsontile.py:39-52 | applying two batches of appends equals applying their concatenation |
| TileMode.ProcessDataset | S1burstkmz2geojsontile.py:105-161 | the per-burst loop leaves the store as its plan says, and returns the plan's error |
| TileMode.Run | S1burstkmz2geojsontile.py:101-170 | the per-dataset loop leaves the store as the whole-run plan says, stopping at the first failing dataset |
| BurstLoop.Scan | S1burstkmz2geojsontile.py:123-161 | a loop over items that emit, skip or raise, stopping at the first raise; `ScanFails`, `ScanComplete`, `ScanStops` and `ScanOrigin` characterise it |
| BurstLoop.ScanFails | S1burstkmz2geojsontile.py:123-136 | the loop ends without error exactly when every step succeeds |
| BurstLoop.ScanComplete | S1burstkmz2geojsontile.py:123-161 | a loop without error emits exactly the outputs of its steps, in order |
| BurstLoop.ScanStops | S1burstkmz2geojsontile.py:135-136 | on error, the outputs are those of the prefix before the first failing item |
| BurstLoop.ScanOrigin | S1burstkmz2geojsontile_dissolve.py:122-141 | every output was emitted by some item of the input |
| DissolveMode.DissolveStep | S1burstkmz2geojsontile_dissolve.py:122-141 | one pass of the collection loop; `DissolveStepMeaning` and `StepCollected` characterise it |
| DissolveMode.DissolveStepMeaning | S1burstkmz2geojsontile_dissolve.py:122-141 | an empty geometry raises; a polar first vertex is skipped before the description is read; otherwise the direction decides the polygon list or raises |
| DissolveMode.RingsOfSnoc | S1burstkmz2geojsontile_dissolve.py:130-139 | a new footprint extends only its own direction's list and makes its colour the current one |
| DissolveMode.RingsOfSplit | S1burstkmz2geojsontile_dissolve.py:130-139 | every collected footprint lands in exactly one of the two lists |
| DissolveMode.RingsOfConcat | S1burstkmz2geojsontile_dissolve.py:130-139 | collecting two batches appends their lists |
| DissolveMode.Survivors | S1burstkmz2geojsontile_dissolve.py:123-126 | the bursts kept are exactly the input bursts that lie in the band, and there are no more of them than inputs |
| DissolveMode.StepCollected | S1burstkmz2geojsontile_dissolve.py:122-139 | a successful step collects a footprint exactly when the burst survives the band filter, in the list of its direction |
| DissolveMode.YieldsCollected | S1burstkmz2geojsontile_dissolve.py:122-139 | a dataset that completes collects one footprint per surviving burst, and each list equals the reference |
| DissolveMode.CollectedRings | S1burstkmz2geojsontile_dissolve.py:119-141 | on success `polygonsA`/`polygonsD` are exactly the rings of the in-band ascending/descending bursts, and together count the survivors |
| DissolveMode.UnknownOrbitRaises | S1burstkmz2geojsontile_dissolve.py:140-141 | an in-band burst with an unknown direction makes the loop raise |
| DissolveMode.CollectRings | S1burstkmz2geojsontile_dissolve.py:119-141 | the loop computes the two polygon lists, the leftover colour and the error of the scan |
| DissolveMode.OverviewPathsDiffer | S1burstkmz2geojsontile_dissolve.py:163-164 | the ascending and descending overview files are different paths |
| DissolveMode.OverviewAppends | S1burstkmz2geojsontile_dissolve.py:149-165 | one append per component of a direction; `OverviewAppendsEach` says what each one is |
| DissolveMode.OverviewPlan | S1burstkmz2geojsontile_dissolve.py:145-165 | the overview of a dataset, A then D, raising on an unbound colour; `OverviewFile`, `OverviewColorLeaks` and `ColorAlwaysBound` characterise it |
| DissolveMode.OverviewAppendsEach | S1burstkmz2geojsontile_dissolve.py:149-165 | one append per dissolved component, in component order, to the direction's overview file, named `<orbit><A/D>`, with the simplified ring and the colour given |
| DissolveMode.OverviewFeatures | S1burstkmz2geojsontile_dissolve.py:150-160 | one feature per component with that name, colour and simplified ring |
| DissolveMode.FeaturesForOverview | S1burstkmz2geojsontile_dissolve.py:163-165 | a direction's overview appends reach only its own file |
| DissolveMode.OverviewFile | S1burstkmz2geojsontile_dissolve.py:145-165 | each overview file receives exactly one feature per component of its direction's union, all in the carried colour |
| DissolveMode.OverviewFileOf | S1burstkmz2geojsontile_dissolve.py:145-165 | the same for given component lists |
| DissolveMode.EmitComponents | S1burstkmz2geojsontile_dissolve.py:149-165 | with the colour bound, the store becomes the old store with one overview append per component, in order |
| DissolveMode.EmitDirection | S1burstkmz2geojsontile_dissolve.py:145-165 | with no colour bound and at least one component it raises and writes nothing; otherwise it appends the overview features of one direction to the store |
| DissolveMode.EmitOverview | S1burstkmz2geojsontile_dissolve.py:145-165 | appends the A overview then the D overview, or raises on an unbound colour |
| DissolveMode.OverviewColorLeaks | S1burstkmz2geojsontile_dissolve.py:130-157 | for an ascending burst followed by a descending one, the ascending overview is coloured `#ff0000` |
| DissolveMode.ColorAlwaysBound | S1burstkmz2geojsontile_dissolve.py:145-157 | if union of nothing is nothing, a dataset started with no colour never fails on the unbound colour |
| DissolveMode.ProcessDataset | S1burstkmz2geojsontile_dissolve.py:101-165 | the store, colour and error after one dataset are those of its plan |
| DissolveMode.DatasetPlan | S1burstkmz2geojsontile_dissolve.py:101-165 | a dataset without a partition raises before any append, otherwise collection then overview; `ProcessDataset` is proved against it |
| DissolveMode.RunPlan | S1burstkmz2geojsontile_dissolve.py:97-165 | the datasets in turn, carrying the colour and stopping at the first error; `RunPlanAfterError` and `Run` are about it |
| DissolveMode.RunPlanAfterError | S1burstkmz2geojsontile_dissolve.py:97-141 | an error in one dataset means no later dataset is processed |
| DissolveMode.Run | S1burstkmz2geojsontile_dissolve.py:97-171 | the per-dataset loop carries the colour over and leaves the store as the whole-run plan says |

## Left out

- KMZ to GeoJSON conversion (`ogr2ogr`), `glob`, `os.remove`, `rm -rf` and `os.makedirs` are file-system and process I/O. The datasets are values and the store is a map.
- The reset of the output trees is not modelled. It covers only partitions 1..4 (`range(1, 5)`), so partition 5 keeps stale files. The store therefore starts from an arbitrary map.
- Command-line parsing, timing and `print` output are not modelled.
- JSON (de)serialisation is not modelled: the feature list of a file is the map's value.
- `KeyError`s from missing `properties`/`description`/`geometry` keys are not modelled. A description that is not a string, or a point with fewer than two coordinates, is also not modelled. The feature datatype always holds these fields.
- TileMode.Route: the tile row `y` (line 33, `log`/`tan` on floats) is the parameter `Config.tileY`. It is not computed.
- TileIndex.TileX: floats are idealised as exact reals. Rounding and NaN are not modelled, and a NaN latitude would pass the latitude filter in the source.
- DissolveMode.OverviewAppends: `unary_union`, `MultiPolygon`, `simplify(0.05)` and the single component versus multi-component case are the parameter `Shapes`. Shapely geometric validity is not modelled.
- DissolveMode.DissolveStep: `Polygon` raising on a ring that is too short is not modelled. An in-band burst whose ring Shapely would reject is collected, where the script aborts the dataset in the collection loop.
- Text.ParseInt: Python `int()` also accepts non-ASCII Unicode digits and whitespace. Only ASCII is modelled; of the ASCII characters, only tab, line feed, vertical tab, form feed, carriage return and space are skipped, as in CPython.
- Polygon holes: the components `Shapes.union` returns are plain rings, so a component with holes cannot be represented. No proved property depends on holes.
- `latlon2tileid` in the overview script is never called there and is not modelled twice.
- Python assigns the unused variable `AD` in the overview collection loop; it is not modelled.

Four behaviours of the scripts are easy to misread; the model follows the code:
- Tile mode classifies the direction before it applies the latitude filter. A polar burst with an unknown direction therefore still aborts the run (`TileMode.PolarUnknownOrbitAborts`). Overview mode filters first.
- Overview features use the colour left by the last collected burst of the dataset. That colour is carried over from the previous dataset when none is collected. So the ascending overview is red whenever a descending burst came last (`DissolveMode.OverviewColorLeaks`). When no colour was ever bound, the source raises `UnboundLocalError`; this is modelled as `UnboundColor`.
- Column `x` at longitude exactly 180 is `2^zl`, one past the last tile (`TileIndex.TileXEastEdge`).
- In the source, the unbound colour raises inside the component loop, at its first pass. `DissolveMode.EmitDirection` tests for it once, before `DissolveMode.EmitComponents` runs the loop. The outcome is the same: the error is raised before anything is written, and only when there is at least one component.
