# Sphere: a verified model of the grid planner, the viewer and the input handling

Sphere projects a flat equirectangular map of a sphere (a planet or a moon)
along a grid of view points. For every pair of a longitude and a latitude of
the grid, it writes an image of the sphere seen from that point. It also
writes a YAML manifest that describes the grid, and a viewer reads the
manifest back: dragging the mouse, or choosing a position with the sliders,
shows the image of the neighbouring grid point.

This project models the exact, sequential parts of that pipeline in Dafny
and proves what they promise:

- the generator (`backend/tools.py`):
  - the argument checks;
  - the manifest writer;
  - the two stepped axes;
  - the worker count;
  - the split of the longitude indices into one contiguous shard per worker;
  - the order in which each worker visits its grid points, and the name of each tile;
- the viewer (`widgets/tab.py`):
  - the manifest checks and defaults;
  - the rebuilt axes;
  - the tile lookup;
  - the drag state machine, which wraps the grid position around at both ends of an axis;
  - the lookup of an index by value;
- the bounding box and the planar mesh of the projection (`backend/proj.py`);
- the checks and longitude wrapping of the Basemap front end (`backend/basemap.py`):
  - parameter checks;
  - `transform_scalar` input checks;
  - 1-D `shiftdata`;
  - the boundary longitude unwrap;
- the small state machines of the GUI:
  - the undo buffer of the entry widget (`widgets/entry.py`);
  - the error flags, the thread counter and the Run button of the configuration window (`widgets/configWindow.py`);
  - the row selection of the two confirmation windows (`widgets/validate.py`, `validate.py`);
  - the option merge of the slider (`widgets/scale.py`).

How the model is built:

- Coordinates are exact `real`s, so `np.arange` and `np.linspace` have no rounding.
- Python values that the code inspects dynamically are a `Value` datatype (`py.dfy`). `float()`, `int()`, `isinstance`, `split('.')`, `os.path.split`, `os.path.splitext`, `os.path.join` and `'%d'` formatting are written out over it.
- Exceptions are the `Err` side of a `Result`, named after the Python exception class.
- Objects whose fields the code updates in place are classes: `Viewer.Tab`, `EntryWidget.Entry`, `ConfigWin.ConfigWindow`, the two `Validate` windows and `ScaleWidget.Scale`.
- Each of their methods states its whole new state.
- The boundary unwrap loop works on an `array`.
- The thread list and the tile loops are methods with loop invariants.
- Everything else is functions with lemmas.

Files:

| file | module | models |
|---|---|---|
| `py.dfy` | `Py` | Python builtins the code relies on |
| `grid.dfy` | `Grid` | `np.arange`, `np.array_split`, `argmin`, `np.where(...)[0][0]` |
| `tools.dfy` | `Tools` | `backend/tools.py` |
| `proj.dfy` | `Proj` | `backend/proj.py` |
| `basemap.dfy` | `Basemap` | `backend/basemap.py` |
| `tab.dfy` | `Viewer` | `widgets/tab.py`, and how it reads a generated manifest |
| `entry.dfy` | `EntryWidget` | `widgets/entry.py`, `widgets/misc/validate.py` |
| `configwin.dfy` | `ConfigWin` | `widgets/configWindow.py` |
| `selection.dfy` | `Selection`, `FileValidate`, `PlainValidate` | `widgets/validate.py`, `validate.py` |
| `scale.dfy` | `ScaleWidget` | `widgets/scale.py` |
| `tk.dfy` | `Tk` | tkinter button states |

## Model

| member | source | states |
|---|---|---|
| Py.Float | widgets/misc/validate.py:13-22 | numbers convert to their value, and lists, tuples and None raise TypeError; anything else that fails raises TypeError or ValueError |
| Py.Int | widgets/tab.py:207 | an int converts to itself; lists, tuples and None raise TypeError |
| Py.LastDotComponentOf | backend/tools.py:69 | the last `.`-component of `stem.ext` is `ext` when `ext` has no point |
| Py.SplitExtOf | widgets/tab.py:116 | `os.path.splitext` of `dir/base.ext` splits off exactly `.ext` |
| Py.PathSplit | widgets/tab.py:218 | the tail has no `/` and ends the path, and a path without `/` has an empty head |
| Py.PathJoin | backend/tools.py:239 | an absolute second part replaces the first; otherwise the result starts with the first part and ends with the second |
| Py.IntToStringInjective | backend/tools.py:168 | different integers format to different `%d` texts |
| Grid.Arange | backend/tools.py:225-228 | a zero step raises and no other step does; the axis has ceil((stop-start)/step) points, and point k is start + k·step |
| Grid.ArangeIndexBound | backend/tools.py:225 | for a positive step, index k is on the axis exactly when its point is below the stop |
| Grid.ArangeContents | backend/tools.py:225 | for a positive step, the points are strictly increasing and all lie in [start, stop) |
| Grid.AxisShape | backend/tools.py:225-228 | an axis `arange(lo, hi+step, step)` starts at lo, has every point ≤ hi, and the next point after the last is > hi |
| Grid.Axis | backend/tools.py:225-228 | `arange(lo, hi+step, step)`: a zero step raises and no other step does, and point k is lo + k·step |
| Grid.AxisExample | backend/tools.py:225-228 | bounds -20..20 with step 10 give five points, and -10..10 give three |
| Grid.AxisFromEnds | widgets/tab.py:220-221 | rebuilding an axis from its own first and last point gives the same axis |
| Grid.ArraySplit | backend/tools.py:243 | fewer than one part raises ValueError; otherwise part i is the contiguous range starting at PartStart(i) of size ShardSize(i) |
| Grid.ArraySplitCovers | backend/tools.py:243 | the shards, concatenated in order, are exactly 0..n-1 |
| Grid.ArraySplitSizes | backend/tools.py:243 | there are `parts` shards; sizes differ by at most one, and the larger shards come first |
| Grid.ArraySplitDisjoint | backend/tools.py:243 | every index lies in 0..n-1 and no index lies in two shards |
| Grid.ArgMinSq | widgets/configWindow.py:722 | an empty axis raises ValueError; otherwise the result is the first index of minimal squared distance |
| Grid.FirstIndexOf | widgets/tab.py:360 | None exactly when the value is absent; otherwise the first index holding it |
| Grid.FirstIndexOfIncreasing | widgets/tab.py:360 | on a strictly increasing axis, a point's lookup finds its own index |
| Tools.CheckPairs | backend/tools.py:31-36 | succeeds exactly for a list or tuple of two items; every other input raises |
| Tools.YamlRecord | backend/tools.py:66-84 | a non-string name raises TypeError and a name not ending in `.yaml` (any case) raises ValueError; success iff the three pairs pass and convert; x0, y0 and the bounds are `float()` of the inputs, and step and unit are unchanged |
| Tools.WriteYAMLAsWritten | backend/tools.py:72-88 | succeeds exactly when the record is valid, and then writes the file `limLongitude` |
| Tools.WriteYAMLTargetDiffers | backend/tools.py:72-88 | every successful call as written writes to a file other than the validated name |
| Tools.WriteYAML | backend/tools.py:42-89 | succeeds exactly when the record is valid, and then writes that record to the validated name |
| Tools.ProjectionChecks | backend/tools.py:199-214 | passes exactly for string name and directory, two pairs, a numeric step and an int thread count ≥ 1 |
| Tools.ProjectionPrelude | backend/tools.py:199-221 | the call gets past line 221 only when the checks passed |
| Tools.ProjectionPreludeFails | backend/tools.py:205-221 | with numeric longitude bounds, the rebound `data` makes line 221 raise IndexError |
| Tools.BoundAxis | backend/tools.py:225-228 | non-numeric bounds raise TypeError; otherwise it is the stepped axis of the two bounds |
| Tools.PlanManifest | backend/tools.py:230-239 | with no initial position it succeeds iff the path is a `.yaml` name; the record holds the axis ends and the step, and defaults the start to (0, lenLat); the path is the corrected writer's target (Findings row 1) |
| Tools.AssemblePlan | backend/tools.py:226-243 | an empty axis raises IndexError; lenLong and lenLat are one less than the axis sizes, and there are min(8, lenLong+1) workers, whose shards are the array_split |
| Tools.PlanFromBounds | backend/tools.py:225-243 | the plan's axes are the stepped axes of the given bounds |
| Tools.Projection | backend/tools.py:172-243 | failed checks propagate their exception, and an image with fewer than two dimensions raises IndexError; otherwise the plan comes from the bounds and `directory/name`, the manifest target of the corrected writer (Findings rows 1 and 2) |
| Tools.AxisIncreasing | backend/tools.py:225-228 | a positive step gives a strictly increasing axis |
| Tools.ProjectionAxes | backend/tools.py:225-228 | a successful projection's axes are the stepped axes of its bounds, and both lengths are one less than the axis sizes |
| Tools.ProjectionThreads | backend/tools.py:211-236 | the worker count is min(8, lenLong+1) whatever thread count was passed, and the shards split 0..lenLong over them |
| Tools.ProjectionIgnoresThreads | backend/tools.py:211-236 | any two thread counts that pass the checks give the same plan |
| Tools.AssembledThreads | backend/tools.py:233-243 | an assembled plan has between 1 and 8 workers, min(8, lenLong+1) of them, over the array_split of 0..lenLong |
| Tools.ProjectionShards | backend/tools.py:243 | each longitude index of the plan lies in exactly one shard |
| Tools.ProjectionManifest | backend/tools.py:230-239 | the manifest goes to `directory/name` (the corrected writer's target, Findings row 1), holds the axis ends, the step and the unit °, and starts at (0, lenLat) by default |
| Tools.NineOverEight | backend/tools.py:234-243 | nine longitudes over eight workers give the first worker [0, 1] and the last [8] |
| Tools.YamlSuffix | backend/tools.py:69 | any name ending in `.yaml` passes the name check |
| Tools.ProjectionExample | backend/tools.py:226-243 | a 9 × 5 grid gives lenLong 8, lenLat 4, eight workers and start (0, 4) |
| Tools.NewWorker | backend/tools.py:129-149 | succeeds exactly for a string name and a two-item size, raising TypeError otherwise; it keeps the indices, axes, name and size, and also the directory the caller passes, which the source never stores |
| Tools.BuildWorkers | backend/tools.py:242-250 | one worker per shard, in order, each with its shard and the full axes |
| Tools.Row | backend/tools.py:157 | one longitude index paired with every latitude position, ascending |
| Tools.Visits | backend/tools.py:156-157 | every visit pairs one of the worker's indices with a latitude position below the count |
| Tools.VisitsMembers | backend/tools.py:156-157 | a worker visits (i, pos) exactly when i is one of its indices and pos is a latitude position |
| Tools.VisitsLength | backend/tools.py:156-157 | a worker makes (number of indices) · (number of latitudes) visits |
| Tools.VisitsOrdered | backend/tools.py:156-157 | for increasing indices, the visits are strictly increasing in (longitude index, latitude position) order |
| Tools.TileName | backend/tools.py:168 | the name is `name_`, then the two indices, then `.jpg` |
| Tools.TileNameInjective | backend/tools.py:168 | different grid points of one projection get different tile names |
| Tools.LongLabel | backend/tools.py:168 | the label is an index that holds the same longitude |
| Tools.TilePath | backend/tools.py:168 | the corrected tile file starts with the manifest stem and `_` and ends in `.jpg` |
| Tools.TilePathAsWritten | backend/tools.py:168 | the tile file as written ends in `.jpg` and, for a relative name, starts with the directory |
| Tools.RunAsWritten | backend/tools.py:151-170 | an image without a third dimension raises IndexError; a worker with something to do and a colour image always raises (AttributeError once the index is valid), and success writes no tile |
| Tools.NamesVisitsAppend | backend/tools.py:156-169 | tiles named for two runs of visits, appended, are named for the combined visits |
| Tools.RunRow | backend/tools.py:157-169 | one tile per latitude position, named for its point; None exactly when the index is off the axis |
| Tools.RunTiles | backend/tools.py:151-170 | an image without a third dimension raises IndexError; otherwise each visit in order yields one tile, named after the manifest stem, the longitude label and the position |
| Tools.TilePathOnAxis | backend/tools.py:168 | on a strictly increasing axis, a tile is labelled with its own longitude index |
| Tools.WorkersCoverGrid | backend/tools.py:242-250 | every grid point is visited by exactly one worker, and no other pair is visited |
| Proj.MinMax | backend/proj.py:92-104 | the pair is ordered and consists of exactly the two ends |
| Proj.NewProj | backend/proj.py:30-104 | a missing R raises KeyError and a text R raises TypeError; otherwise the sphere fields, π·R sizes and offsets, corners and ordered bounds are as assigned |
| Proj.SpacedEnds | backend/proj.py:139-140 | the evenly spaced points start at lo and end at hi |
| Proj.SpacedIncreasing | backend/proj.py:139-140 | the points increase with their index when hi > lo |
| Proj.MakeMesh | backend/proj.py:139-142 | nx or ny equal to 1 divides by zero and a negative size raises ValueError; otherwise the meshes are (ny, nx) with x[j][i] = llcrnrx + i·dx and y[j][i] = llcrnry + j·dy |
| Proj.MeshGeometry | backend/proj.py:139-142 | x runs from llcrnrx to urcrnrx and y from llcrnry to urcrnry; x is constant down columns and y constant along rows, and both increase when ur > ll |
| Proj.InverseMesh | backend/proj.py:143-145 | the inverse transform is applied point by point, keeping the shape |
| Proj.Makegrid | backend/proj.py:133-148 | fails exactly as the mesh does; the lons and lats are the inverse of the mesh, and x and y come back only when asked for |
| Basemap.ValidatedLL | backend/basemap.py:40-61 | float(param), accepted exactly inside the closed bounds; out of bounds raises ValueError, and a failed conversion propagates |
| Basemap.ValidatedOrNone | backend/basemap.py:64-84 | None gives None; anything else behaves as ValidatedLL |
| Basemap.InsertValidated | backend/basemap.py:20-37 | None leaves the dictionary as it is; a value in bounds is added under its name with every other key unchanged, and one out of bounds raises |
| Basemap.InsertValidatedAgain | backend/basemap.py:20-37 | re-validating a value that already passed inserts it unchanged |
| Basemap.CheckArgs | backend/basemap.py:112-118 | passes exactly when every given latitude is in [-90, 90] and every given longitude in [-360, 720] |
| Basemap.BaseParams | backend/basemap.py:105-127 | the parameters hold R = 6370997 and units m |
| Basemap.BaseParamsKeys | backend/basemap.py:105-127 | the keys are exactly R, units and the latitude and longitude parameters that were given |
| Basemap.BaseParamsLats | backend/basemap.py:121-124 | lat_0, lat_1, lat_2 and lat_ts are stored exactly when given, with their values |
| Basemap.BaseParamsLons | backend/basemap.py:125-127 | lon_0, lon_1 and lon_2 are stored exactly when given, with their values |
| Basemap.LatParams | backend/basemap.py:121-124 | adds exactly the keys of the latitude parameters given, each with its value, and leaves every other key alone |
| Basemap.LonParams | backend/basemap.py:125-127 | adds exactly the keys of the longitude parameters given, each with its value, and leaves every other key alone |
| Basemap.Put | backend/basemap.py:36-37 | adds the key exactly when a value is given, stores that value, and changes no other key |
| Basemap.MapProj | backend/basemap.py:141-148 | the full-disk projection of radius 6370997 over corners (-180, -90) and (180, 90): its parameters are the checked ones with x_0 = y_0 = π·R, and its bounds are -180..2πR and -90..2πR |
| Basemap.SetUp | backend/basemap.py:128-170 | a full disk with fixed aspect; the projection and its parameters are MapProj's, the corners are (-180, -90) and (180, 90), the bounds are the projection's, the aspect is their height over width, and the resolution is c with area threshold 10000 |
| Basemap.NewBasemap | backend/basemap.py:89-170 | failed checks raise their exception and a missing lat_0 or lon_0 raises ValueError; otherwise the set-up instance, as the constructor would build it if line 173 did not raise |
| Basemap.NewBasemapAsWritten | backend/basemap.py:534-540 | every construction raises: the argument errors as NewBasemap, and otherwise AttributeError, because `__init__` calls `_getmapboundary` at line 173 and its first test reads the never-assigned `self.projection` |
| Basemap.MonotoneCheck | backend/basemap.py:731-734 | passes exactly when both axes have at least one difference and none is negative; otherwise ValueError |
| Basemap.TransformScalarChecksAsWritten | backend/basemap.py:731-743 | every call raises, and every call with monotone axes raises AttributeError |
| Basemap.OutsideCount | backend/basemap.py:737-738 | zero exactly when every longitude is within ±180.00001 |
| Basemap.TransformScalarChecks | backend/basemap.py:731-743 | passes exactly for monotone axes with no longitude outside ±180.00001, or one outside and a 360° span within 1e-4 |
| Basemap.TransformScalarExample | backend/basemap.py:731-743 | the generator's [-180, 0, 180] axis passes the corrected checks and raises as written; two longitudes outside raise ValueError |
| Basemap.ShiftDataChecks | backend/basemap.py:969-981 | no lon_0 anywhere raises ValueError; success needs 1-D or 2-D input and gives the given lon_0, else the projection's |
| Basemap.Normalize | backend/basemap.py:1031-1032 | values above lon_0+180 lose 360, values below lon_0-180 gain 360, and the rest are kept; one turn away lands in [lon_0-180, lon_0+180] |
| Basemap.NormalizeAll | backend/basemap.py:1031-1032 | the shift applied to every longitude |
| Basemap.Gaps | backend/basemap.py:1035 | the absolute differences of neighbours |
| Basemap.SecondLargest | backend/basemap.py:1036-1037 | a gap that is at most the largest one, as the second-last of the sorted gaps is |
| Basemap.AtLeast | backend/basemap.py:1038 | exactly the positions whose gap reaches the threshold, ascending |
| Basemap.WrapPositions | backend/basemap.py:1034-1040 | the wrap points are ascending positions between neighbours, and there are none for fewer than two longitudes |
| Basemap.WrapPositionsMeans | backend/basemap.py:1034-1038 | position k is a wrap point exactly when the gap after longitude k reaches 360 minus the second-largest gap (minus the only gap for two longitudes) |
| Basemap.Roll | backend/basemap.py:1054-1056 | `np.roll` keeps the length |
| Basemap.RollAt | backend/basemap.py:1054-1056 | `np.roll` by shift: the last shift (mod n) elements move to the front and the rest follow, in order |
| Basemap.RollPermutes | backend/basemap.py:1054-1056 | a roll is a permutation of the values |
| Basemap.Reindex | backend/basemap.py:1042-1065 | the longitudes and data keep their length, and data is present exactly when given |
| Basemap.ReindexRotates | backend/basemap.py:1042-1065 | without a cyclic point, the longitudes and the data are rotated so that the element after the wrap comes first |
| Basemap.RollRestoreFrom | backend/basemap.py:1050-1064 | with the cyclic point taken off, the rest rolled and a point put back `below` under the new last, the rest follow the wrap in order |
| Basemap.ReindexCyclic | backend/basemap.py:1042-1065 | with a cyclic point, longitude 0 is the new last minus 360, and the others are the rotation of the remaining points starting after the wrap |
| Basemap.ReindexCyclicData | backend/basemap.py:1042-1065 | with a cyclic point, the data is rotated like the longitudes, and its first value repeats its last |
| Basemap.ReindexPermutes | backend/basemap.py:1042-1065 | when the ends are no cyclic pair (they differ by at least 1e-4), reindexing only permutes the longitudes and the data |
| Basemap.OutMask | backend/basemap.py:1069-1070 | the mask is set exactly at the longitudes outside [lon_0-180, lon_0+180] |
| Basemap.MaskOut | backend/basemap.py:1069-1072 | out-of-region longitudes become 1e30 and the rest are kept |
| Basemap.MaskOutFacts | backend/basemap.py:1069-1072 | every output is in the region or 1e30, the mask is set exactly where 1e30 was written, and an empty mask leaves everything in the region |
| Basemap.ShiftData | backend/basemap.py:1029-1077 | no lon_0 raises ValueError; the result has as many longitudes as the input, and data exactly when data was given |
| Basemap.ShiftDataInRegion | backend/basemap.py:1069-1077 | every output longitude is in [lon_0-180, lon_0+180] or is exactly 1e30; masked data is masked exactly at the 1e30 longitudes, and plain data means every longitude is in the region |
| Basemap.ShiftDataNoReindex | backend/basemap.py:1029-1032 | without wrap-around fixing, each longitude is shifted in place |
| Basemap.UnwrapStep | backend/basemap.py:647-651 | a jump of more than 90° from the previous longitude subtracts 360 when that was negative and adds 360 otherwise |
| Basemap.UnwrapShiftsBy360 | backend/basemap.py:644-654 | each unwrapped longitude differs from its original by 0 or ±360, and it differs exactly when it jumped more than 90° |
| Basemap.UnwrapLons | backend/basemap.py:644-654 | an empty array raises IndexError and is untouched; otherwise the array is the unwrap of its old content, the first longitude kept |
| Basemap.BoundaryLonRange | backend/basemap.py:655-663 | an empty boundary raises ValueError; the range is ordered, and a full disk spanning under 1° becomes [-180, 180], otherwise the min and max |
| Viewer.GreaterEq | widgets/tab.py:192-200 | two numbers compare by value and two strings lexicographically; any other pair raises TypeError |
| Viewer.StrLessMeans | widgets/tab.py:192-200 | string `<` holds exactly for a proper prefix, or at the first differing character when that is smaller |
| Viewer.ChecksPassMeans | widgets/tab.py:192-202 | valid numeric bounds with a positive step pass the checks; passing them means a positive numeric step and each bound pair increasing numbers or two strings |
| Viewer.WithDefaults | widgets/tab.py:204-215 | succeeds exactly when the given start indices convert with `int()`; a failing x0 leaves the dictionary unchanged, and a failing y0 leaves it with x0 converted |
| Viewer.LoadConf | widgets/tab.py:184-215 | a missing key empties the parameters and raises IOError; success exactly when the keys are present, the checks pass and the start converts; a KeyError leaves the parameters empty |
| Viewer.LoadConfRejects | widgets/tab.py:192-202 | decreasing or equal bounds empty the parameters and raise KeyError (the message reads the cleared dictionary); a non-positive step raises ValueError |
| Viewer.LoadConfDefaults | widgets/tab.py:204-215 | x0 and y0 default to 0 or are converted with `int()`, the unit defaults to °, and no other key changes |
| Viewer.ViewerAxis | widgets/tab.py:220-221 | the viewer's axis is the stepped axis of its bounds |
| Viewer.ViewerAxesLong | widgets/tab.py:220-223 | increasing bounds give each axis at least two points |
| Viewer.PlanRoundTrip | widgets/tab.py:184-223 | a plan whose record holds its axis ends loads with start (0, lenLat) and rebuilds the same axes |
| Viewer.RecordLoads | widgets/tab.py:184-215 | a record with increasing bounds, a positive step and start (0, n) loads at (0, n) |
| Viewer.ManifestRoundTrip | widgets/tab.py:184-223 | a generated manifest with two or more points per axis loads, rebuilds the generator's axes, and has lengths one more than lenLong and lenLat |
| Viewer.SingleRowManifestRejected | widgets/tab.py:192-194 | a projection over a single latitude writes a manifest the viewer refuses |
| Viewer.EqualLatitudesRejected | widgets/tab.py:192-194 | equal latitude bounds are refused with KeyError |
| Viewer.FormatD | widgets/tab.py:116 | an int formats to its decimal text, and formatting fails exactly for a non-number |
| Viewer.FirstMatch | widgets/tab.py:117-122 | none exactly when no file matches; otherwise a listed file that matches |
| Viewer.TilePatternAsWritten | widgets/tab.py:116 | formats exactly for numeric positions, raising TypeError otherwise; for int positions it is the manifest path without extension, `_`, and the two indices separated by `,` |
| Viewer.TilePattern | widgets/tab.py:116 | formats exactly for numeric positions, giving the written pattern closed by the point that ends the latitude index |
| Viewer.GlobTileExact | widgets/tab.py:116-117 | the closed pattern of a position matches exactly the tile files of that position |
| Viewer.TilePatternExact | widgets/tab.py:116-117 | for a generated tile, the closed pattern of (x, y) matches the tile of (i, pos) exactly when (i, pos) = (x, y) |
| Viewer.TilePatternAsWrittenAmbiguous | widgets/tab.py:116-117 | as written, the pattern of position (0, 1) also matches the tile of (0, 10) |
| Viewer.ExtendedIndex | widgets/tab.py:116-117 | a glob prefix matches any name extending it in the same directory |
| Viewer.GeneratedTileMissed | widgets/tab.py:116 | the viewer's pattern for `dir/base.yaml` never matches a tile the generator wrote for that manifest |
| Viewer.AsWrittenPatternAt | widgets/tab.py:116 | the viewer's pattern has `_` right after `dir/base` |
| Viewer.AsWrittenTileAt | backend/tools.py:168 | the generator's tile has `.` right after `dir/base` |
| Viewer.WrapModular | widgets/tab.py:316-321 | on a valid index a step is a step modulo the axis length, so the index stays valid |
| Viewer.WrapUndo | widgets/tab.py:316-321 | a step back undoes a step forward, at the ends as well |
| Viewer.Sign | widgets/tab.py:314 | ±1, with the sign of the difference |
| Viewer.DragAxis | widgets/tab.py:312-323 | a move shorter than the step changes nothing; a longer one wraps the index one step against the motion and moves the click point to the mouse, touching no other key |
| Viewer.Move | widgets/tab.py:309-339 | the click position stays a pair |
| Viewer.MoveKeepsPosition | widgets/tab.py:309-339 | dragging keeps x0 and y0 on the grid, moves each by at most one step modulo its axis, and changes no other parameter |
| Viewer.Lookup | widgets/tab.py:359-371 | a failed conversion finds nothing; otherwise the first exact match on the axis |
| Viewer.NewIndex | widgets/tab.py:359-371 | a value on the axis gives its first index; otherwise the kept index, or KeyError without one |
| Viewer.Tab.constructor | widgets/tab.py:41-62 | an empty, unloaded tab |
| Viewer.Tab.LoadYAML | widgets/tab.py:169-224 | a non-string path raises TypeError; otherwise the parameters and failures are LoadConf's; past them the directory and stem come from the path, and success (exactly for numeric increasing bounds) sets the two axes with their lengths, while string bounds raise TypeError |
| Viewer.Tab.SetPath | widgets/tab.py:218 | the directory and the stem of the manifest path are stored, and nothing else changes |
| Viewer.Tab.SetAxes | widgets/tab.py:220-223 | numeric increasing bounds set both axes and their lengths; a string pair raises TypeError after what came before it was stored, and nothing else changes |
| Viewer.Tab.CheckConf | widgets/tab.py:184-202 | a rejection leaves the parameters LoadConf gives; success keeps the parsed ones |
| Viewer.Tab.SetDefaults | widgets/tab.py:204-215 | the parameters become WithDefaults of the old ones |
| Viewer.TileLookup | widgets/tab.py:113-132 | success means the position is known and the file is the first listed match of the as-written pattern, with the image's shape stored and xstep and ystep its pixels per grid step; a missing position raises KeyError and a missing file IOError, both leaving the shape and steps as they were |
| Viewer.Tab.GetData | widgets/tab.py:113-132 | a missing position raises KeyError; success returns the first listed file matching the pattern as written, with xstep and ystep the pixels per grid step; the outcome and the new shape and steps are TileLookup's |
| Viewer.Tab.OnClick | widgets/tab.py:292-297 | the button is down at the event position |
| Viewer.Tab.OutClick | widgets/tab.py:299-304 | the button is up and the click position is cleared |
| Viewer.Tab.OnMove | widgets/tab.py:306-340 | nothing happens unless the button is down; otherwise the position and click point change as Move says |
| Viewer.Tab.UpdateGraph | widgets/tab.py:342-380 | two Nones do nothing; otherwise each index becomes the first exact match of its value, or stays (KeyError without one), and a bad index raises IndexError; with valid indices the tile of the new position is loaded, the outcome and the stored shape and steps being TileLookup's under the new parameters, and every earlier exit keeps the shape and steps |
| EntryWidget.ValidateType | widgets/misc/validate.py:9-22 | strings always pass; float and int entries pass exactly when the conversion succeeds |
| EntryWidget.ValidateEntry | widgets/entry.py:256-259 | an emptied entry always passes; other text passes exactly when it has the entry's type |
| EntryWidget.FloatEntryAccepts | widgets/entry.py:256-259 | `2.5` and `.5` pass a float entry |
| EntryWidget.FloatEntryRefuses | widgets/entry.py:256-259 | a lone `-` and letters are refused by a float entry |
| EntryWidget.IntEntryExamples | widgets/entry.py:256-259 | an int entry takes `-3` and refuses `2.5` |
| EntryWidget.Recorded | widgets/entry.py:155-159 | the top becomes the new value, which is pushed only when it differs from the old top |
| EntryWidget.Undone | widgets/entry.py:221-223 | with more than one entry the top goes; a single entry stays |
| EntryWidget.RecordedNoRepeats | widgets/entry.py:155-159 | recording keeps the buffer free of neighbouring repeats |
| EntryWidget.UndoneNoRepeats | widgets/entry.py:221-223 | undoing keeps the buffer free of repeats, and the new top differs from the old |
| EntryWidget.UndoRestores | widgets/entry.py:155-223 | an undo right after a new value gives back the old buffer |
| EntryWidget.RecordedIdempotent | widgets/entry.py:155 | recording the same value twice records it once |
| EntryWidget.UndoneTimesBottom | widgets/entry.py:221 | undo never goes past the default value, and enough undos bring back exactly it |
| EntryWidget.Entry.constructor | widgets/entry.py:51-85 | the variable holds the default value, which is the whole buffer, so the buffer invariant holds and the value is its top; there is no error |
| EntryWidget.Entry.Peak | widgets/entry.py:208-212 | a buffered value, which is the displayed one while the two are in step |
| EntryWidget.Entry.Push | widgets/entry.py:228-232 | appends the current value |
| EntryWidget.Entry.Trace | widgets/entry.py:151-160 | an unchanged value does nothing; a new one runs the command once, and is pushed exactly when the command returns, while a raising command propagates and leaves the buffer alone |
| EntryWidget.Entry.SetValue | widgets/entry.py:151-160 | a write sets the value and keeps the buffer invariant; a new value is recorded when the command returns, and left unbuffered when it raises |
| EntryWidget.Entry.Pop | widgets/entry.py:214-226 | with more than one entry the top goes, the new top shows and the command runs once; a raising command propagates instead of "break"; a single entry changes nothing and returns "break" |
| EntryWidget.Entry.RemoveError | widgets/entry.py:167-175 | clears the error; the border depends on the widget state |
| EntryWidget.Entry.TriggerError | widgets/entry.py:177-182 | sets the error and the error border |
| EntryWidget.Entry.OnEntry | widgets/entry.py:188-192 | the border turns black unless in error |
| EntryWidget.Entry.OutEntry | widgets/entry.py:195-201 | the border shows the error colour exactly in error |
| ConfigWin.StripLeft | widgets/configWindow.py:74 | only stripped characters are removed from the left, up to one that is kept |
| ConfigWin.StripRight | widgets/configWindow.py:74 | only stripped characters are removed from the right, up to one that is kept |
| ConfigWin.StripPattern | widgets/configWindow.py:74 | `*.e` stripped of points and stars is `e` |
| ConfigWin.ExtensionOf | widgets/configWindow.py:74 | a pattern `*.e` with a lower-case `e` gives the extension `e` |
| ConfigWin.ExtensionsOfPatterns | widgets/configWindow.py:74 | patterns `*.e` give exactly their extensions, in order |
| ConfigWin.ExtensionsValue | widgets/configWindow.py:73-74 | the accepted extensions are png, jpeg, jpg and gif |
| ConfigWin.FileAccepted | widgets/configWindow.py:632-640 | a non-string raises TypeError; any string is judged |
| ConfigWin.FileAcceptedMeans | widgets/configWindow.py:632-640 | accepted exactly when the file exists and its lower-cased last `.`-component is an image extension |
| ConfigWin.BareNameAccepted | widgets/configWindow.py:635 | a file named `png` passes, since a name without a point is compared whole |
| ConfigWin.UpperExtensionAccepted | widgets/configWindow.py:635 | `map.JPG` passes |
| ConfigWin.OtherExtensionRefused | widgets/configWindow.py:635 | `map.tif` is refused |
| ConfigWin.CheckDir | widgets/configWindow.py:688-697 | a non-string raises TypeError and a non-directory IOError; otherwise true exactly when the directory is empty |
| ConfigWin.InitPos | widgets/configWindow.py:720-722 | raises ValueError exactly when an axis is empty; otherwise the pair of first indices nearest to the chosen longitude and latitude on the stepped axes |
| ConfigWin.ThreadButtonsAsWrittenStuck | widgets/configWindow.py:379-390 | with two processors and two threads, both buttons end up disabled |
| ConfigWin.ThreadButtonsAsWritten | widgets/configWindow.py:379-390 | at one thread '-' is disabled and '+' kept; at the processor count (above one) '+' is disabled and '-' kept; in between both are enabled, an enabled one unchanged |
| ConfigWin.Reenable | widgets/configWindow.py:387-390 | a disabled button is enabled; an enabled one is kept |
| ConfigWin.ThreadButtons | widgets/configWindow.py:379-390 | '-' is enabled exactly above one thread, and '+' exactly below the processor count |
| ConfigWin.ThreadButtonsAgree | widgets/configWindow.py:386-390 | away from both ends, the corrected buttons are those of the code as written |
| ConfigWin.RejectedInputKeepsRun | widgets/configWindow.py:459-499 | in a runnable window, a rejected input raises the flag but leaves Run enabled |
| ConfigWin.RunAllowedAfterInputs | widgets/configWindow.py:646-653 | Run is allowed once the name, step and input are all good, and any raised flag forbids it |
| ConfigWin.ConfigWindow.constructor | widgets/configWindow.py:58-291 | every flag is raised, there is one thread, '-' and Run are disabled, the name, input and step entries all start highlighted as in error, and '+' starts enabled whatever the processor count |
| ConfigWin.ConfigWindow.CheckRun | widgets/configWindow.py:643-654 | Run is enabled exactly when no flag is raised |
| ConfigWin.ConfigWindow.CheckName | widgets/configWindow.py:319-330 | the name flag and its highlight are raised exactly for an empty name, and Run follows the flags |
| ConfigWin.ConfigWindow.UpdateStep | widgets/configWindow.py:337-352 | text float() rejects raises ValueError and changes nothing; otherwise the step is flagged exactly when it is empty or not positive, and Run follows the flags |
| ConfigWin.ConfigWindow.UpdateThreadButtons | widgets/configWindow.py:379-390 | the thread buttons become ThreadButtonsAsWritten of the count and the old buttons, and nothing else changes |
| ConfigWin.ConfigWindow.DecreaseThread | widgets/configWindow.py:359-367 | one thread fewer, never below one; the as-written window invariant holds |
| ConfigWin.ConfigWindow.IncreaseThread | widgets/configWindow.py:369-377 | one thread more, never above the processor count; the as-written window invariant holds |
| ConfigWin.ConfigWindow.PressMinus | widgets/configWindow.py:249 | a click on '-' (the binding, then `decreaseThread`) lowers the count only when the button is enabled and the count is above one; the invariant holds |
| ConfigWin.ConfigWindow.PressPlus | widgets/configWindow.py:250 | a click on '+' (the binding, then `increaseThread`) raises the count only when the button is enabled and below the processor count; the invariant holds |
| ConfigWin.ConfigWindow.CheckFile | widgets/configWindow.py:632-640 | the result is FileAccepted, and the input flag is raised exactly for a rejected file |
| ConfigWin.ConfigWindow.LoadInputAsWritten | widgets/configWindow.py:436-500 | an empty or rejected file raises AttributeError with the entry highlighted and Run unchanged; an accepted one clears the highlight and Run follows the flags |
| ConfigWin.ConfigWindow.LoadInput | widgets/configWindow.py:436-500 | the input flag and highlight are raised exactly for an empty or rejected file, and Run follows the flags |
| Selection.IndexOf | widgets/validate.py:155 | none exactly when absent; otherwise the first position |
| Selection.RemoveFirst | widgets/validate.py:197 | `list.remove` of a present item: exactly its first occurrence goes; the only call removes a selected row, which is present |
| Selection.IndexOfDistinct | widgets/validate.py:155 | in a list without duplicates, an element's first position is its position |
| Selection.RemovedAt | widgets/validate.py:197 | removing one element of a duplicate-free list removes exactly it and keeps the rest distinct |
| Selection.ToggledMembership | widgets/validate.py:192-199 | a click flips the clicked row's membership and no other row's |
| Selection.ToggledNoDup | validate.py:165-172 | a click keeps the selection free of duplicates |
| Selection.ToggledTwice | validate.py:165-172 | clicking an unselected row twice gives the selection back |
| Selection.FilesOf | widgets/validate.py:153-157 | fails exactly when a selected item is not a named row; otherwise the rows' names in selection order |
| Selection.ClickedNames | widgets/validate.py:153-157 | rows clicked in some order give their names in that order |
| FileValidate.Validate.constructor | widgets/validate.py:93-114 | nothing selected and Ok disabled |
| FileValidate.Validate.OnClick | widgets/validate.py:187-205 | the row is toggled, and Ok is enabled exactly when something is selected |
| FileValidate.Validate.Accept | widgets/validate.py:150-164 | the selected rows' names go to the callback, the window closes and True is returned |
| FileValidate.Validate.Cancel | widgets/validate.py:166-185 | a ticked box empties the saved projects; the window closes and True is returned |
| PlainValidate.Validate.constructor | validate.py:100-111 | nothing selected and Ok in its default state |
| PlainValidate.Validate.OnClick | validate.py:160-172 | the row is toggled, and Ok is left alone |
| PlainValidate.Validate.Accept | validate.py:135-145 | the window closes and True is returned, whatever the selection |
| PlainValidate.Validate.Cancel | validate.py:147-157 | the window closes and True is returned |
| ScaleWidget.WithoutState | widgets/scale.py:64-66 | 'state' is gone and every other key stays |
| ScaleWidget.MergedMeans | widgets/scale.py:59-61 | the merge adds no keyword, overrides exactly the shared keywords with the normal-state value, and keeps the rest |
| ScaleWidget.MergedIdempotent | widgets/scale.py:59-61 | merging twice changes nothing more |
| ScaleWidget.MergedDisjoint | widgets/scale.py:59-61 | a normal state with no shared keyword leaves the arguments alone |
| ScaleWidget.MergeNormal | widgets/scale.py:59-61 | the loop leaves the keyword arguments merged with the normal state |
| ScaleWidget.PopState | widgets/scale.py:64-66 | a dictionary loses 'state' and nothing else |
| ScaleWidget.Configure | widgets/scale.py:92 | a keyword given twice raises TypeError; otherwise both sets of options are taken |
| ScaleWidget.ConfigureAfterStrip | widgets/scale.py:64-92 | once stripped, the normal state applies without a repeated keyword |
| ScaleWidget.ConfigureWithState | widgets/scale.py:92 | a normal state still holding 'state' cannot be applied |
| ScaleWidget.Scale.constructor | widgets/scale.py:48-74 | the three state dictionaries are kept and lose 'state'; the slider's options are the merged arguments without 'state', whatever `disable` is |
| ScaleWidget.Scale.NormalState | widgets/scale.py:88-96 | raises TypeError exactly when the normal state holds 'state'; otherwise the options take state 'normal' and the normal-state options |

## Left out

Generator (`backend/tools.py`):

- `checkPairs`' length error: line 35 formats one argument into two placeholders, so the raise fails while formatting with TypeError. The model returns TypeError, which is what the caller sees.
- The requested thread count is checked and then overwritten with 8 (line 234). The model keeps both the checks and the overwrite.
- `print`, `os.makedirs`, `plt.imsave`, `yaml.dump`, file writes, thread start and join are left out, as I/O and concurrency. A successful `WriteYAML` returns the file name and record it would write. `RunTiles` returns the tile paths in order.
- `Projection.run` computes the pixels through the `Basemap` of `mpl_toolkits`, imported optionally at lines 5-8 (not `backend/basemap.py`), and its `transform_scalar`. Not modelled: foreign numerical code. When that import failed, line 160 raises NameError; Tools.RunAsWritten reports the AttributeError of line 168 for both.
- Tools.Projection: writes its manifest through the corrected Tools.WriteYAML, to `directory/name` (Tools.PlanManifest). The call at line 232 reaches the `writeYAML` as written, which opens `limLongitude` (Findings, first row). Together with the image shape of line 220, Projection therefore carries two corrections.
- NewWorker: the worker record also keeps the output directory. `__init__` (lines 129-149) never stores it, which is why `run` fails (Tools.RunAsWritten); the corrected Tools.RunTiles and Tools.TilePath use it as intended.
- Tools.LongLabel: `self.long.index(...)` on a numpy array has no `index` method. It is modelled as a list lookup.
- `latList` (line 222) takes its upper bound from `limLongitude`. It only feeds the pixel resampling, which is not modelled.

Projection and mesh (`backend/proj.py`):

- The `pyproj.Proj` object, `__call__`, and the inverse transform in `makegrid` are not modelled. They are pyproj. The inverse is a function parameter of `Makegrid`.
- π is a constant: numpy's double.
- `projparams` is updated in place at lines 69-70. The model returns the updated dictionary as a value.

Basemap front end (`backend/basemap.py`):

- Basemap.NewBasemap: in the source no Basemap is ever built. Line 173 calls `_getmapboundary`, which reads the never-assigned `self.projection` at line 540 and raises AttributeError (Basemap.NewBasemapAsWritten). NewBasemap models the intended construction up to line 170. The rest of `__init__` (boundary polygons, GEOS, coastline reads) is left out.
- Basemap.TransformScalarChecks: `transform_scalar` cannot be reached in the source, since no Basemap exists to call it on. The corrected check also assumes the cylindrical projection lists `_cylproj` and `_pseudocyl`, which `basemap.py` uses (lines 285 and 475) but never defines.
- `gcpoints`, `rotate_vector`, `transform_vector`, `_readboundarydata` (binary reads) and the interpolation inside `transform_scalar` are left out: foreign numerical code and I/O.
- The 2-D path of `shiftdata` is not modelled. Only the 1-D path is.
- Basemap.ShiftData: requires data as long as the longitudes, though the source accepts other lengths whenever no point is masked (lines 1068-1077). The data is a plain sequence: an already-masked input, which lines 976-977 keep and `ma.masked_where` then combines with the new mask, is not modelled. With no wrap point, the empty `itemindex` is taken as false, as numpy 1.x does; numpy 2.2 and later raise on that test (lines 1038-1042).
- In `_getmapboundary`, only the longitude unwrap loop and the final longitude range are modelled. The boundary polygon construction is left out.
- `transform_scalar`'s count-of-one branch calls `math.fabs`, but `math` is never imported in `basemap.py`. Basemap.TransformScalarChecks models the intended test.

Viewer (`widgets/tab.py`):

- `load` (lines 134-167), `updateSliders`, the drawing and `plt.imread` are left out. The image shape and the directory listing are parameters of `GetData`. Since `load` is the only writer of `self.yaml`, no modelled method sets the tab's `yaml` field.
- Viewer.Tab.GetData: before any manifest is loaded, the source fails with AttributeError on `self.confParams` or `self.yaml`; the model's tab starts with empty parameters, so GetData returns KeyError there. No modelled path calls it before a load.
- Glob wildcards inside the manifest stem are not modelled.
- Only `/` is a path separator.
- GreaterEq: two lists or two tuples, which Python compares item by item, raise TypeError here. Manifest bounds are numbers or strings.
- Sign: event coordinates are integers here. Matplotlib may deliver floats, which make `sign` ±1.0 and x0 a float; the lookup at line 442 would then raise. Viewer.MoveKeepsPosition holds for integer events only.
- DragAxis: takes integer event coordinates, as Sign does. Its TypeError for a non-integer `x0` cannot happen after Viewer.LoadConf, which converts x0 and y0 with `int()`.
- Move: takes integer event coordinates, as Sign does.
- Tab.OnClick: takes integer event coordinates, as Sign does.
- Tab.OnMove: takes integer event coordinates, as Sign does.

Configuration window (`widgets/configWindow.py`):

- `run` reads `latMinScale` and `longMinScale`, which are never created. It therefore always raises, and only its initial-position computation is modelled (ConfigWin.InitPos).
- `makeGraph`, `hideGraph`, `setAxis`, the crosshair, `sliderUpdate`, window geometry and `setTitle` are left out. They are drawing and layout.
- The entries' highlight states are modelled as booleans.
- File existence and directory contents are parameters.

Entry widget (`widgets/entry.py`):

- `kwargs.remove('validatecommand')` (line 65) would raise on a dictionary. Not modelled: no caller passes that keyword.
- The trace command (`traceCommand`) is code outside the widget. Its outcome, returning or raising, is a parameter of EntryWidget.Entry.Trace, SetValue and Pop.
- Key bindings, text selection and rendering are left out.
- EntryWidget.ValidateType covers the float, int and str entry types, not lists.
- EntryWidget.Entry.SetValue: tkinter runs a variable's trace callback through its `CallWrapper`, which reports an exception and does not re-raise it from `var.set`. The error SetValue returns stands for that reported exception; the buffer effect is the same.

Confirmation windows and slider:

- `widgets/validate.py` imports `writeConfiguration`, which `setup.py` does not define. Writing the settings file is I/O, and treeview identifiers are parameters.
- The accept and cancel callbacks are calls into code outside the windows.
- In `widgets/scale.py`, the `<Enter>`/`<Leave>` bindings reference `latMinScale` and `winProperties`, which do not exist.
- `errorState` and `disabledState` are called elsewhere but are not defined.
- tkinter rendering is left out.

Elsewhere:

- `__main__.py`, `tab.py` and both `plotWindow.py` files are left out: layout and event wiring.
- `sigint.py` is left out: a quit dispatch.
- `icons/__init__.py` and `setup.py` are left out: file reads and settings I/O.
- Py.Float: accepts decimal text with an optional sign only; exponents, surrounding whitespace, `inf` and `nan` are not modelled. This limits EntryWidget.ValidateType, Basemap.ValidatedLL and ConfigWin.ConfigWindow.UpdateStep, which use it.
- Numbers are exact reals and unbounded integers. Floating-point rounding of `np.arange` and `np.linspace` is not modelled.

## Findings

| source | as written | input that shows it | evidently intended | confidence | as-written member | corrected member |
|---|---|---|---|---|---|---|
| backend/tools.py:72-88 | the checking loop reuses `name`, so the file opened is named `limLongitude` | `writeYAML('out.yaml', [0, 2], (0, 10), (0, 10), 5)` writes `./limLongitude` | write the validated name | high, not executed | Tools.WriteYAMLAsWritten, Tools.WriteYAMLTargetDiffers | Tools.WriteYAML, Tools.PlanManifest, Tools.Projection |
| backend/tools.py:205-221 | the checking loop reuses `data`, so line 220 takes the shape of the longitude pair, and `shp[1]` raises IndexError | any valid call, e.g. bounds (-10, 10) with step 10 | take the image's shape | high, not executed | Tools.ProjectionPrelude, Tools.ProjectionPreludeFails | Tools.Projection |
| backend/tools.py:154,168 | `run` reads `self.directory`, which `__init__` never sets, so the first tile raises AttributeError at line 168 (or NameError at line 160 when the optional `mpl_toolkits` import of lines 5-8 failed) | any worker with an index, a latitude and an RGB image | write to the directory given to `__init__` | high, not executed | Tools.RunAsWritten | Tools.RunTiles |
| backend/tools.py:168, widgets/tab.py:116 | the generator names tiles `dir/base.yaml_i,j.jpg`, but the viewer globs `dir/base_i,j*`, so no tile is found | manifest `out/earth.yaml`, tile `out/earth.yaml_0,4.jpg`, pattern `out/earth_0,4*` | both use the stem without `.yaml` | high, not executed | Tools.TilePathOnAxis, Viewer.GeneratedTileMissed | Tools.RunTiles, Viewer.TilePatternExact |
| widgets/tab.py:116-119 | `_x,y*` also matches the tiles of `x,y0`…`x,y9`, so glob may return another position's tile | pattern for (0, 1); tile `earth_0,10.jpg` | match only that tile, e.g. `_x,y.*` | medium, not executed | Viewer.TilePatternAsWrittenAmbiguous, Viewer.Tab.GetData | Viewer.TilePattern, Viewer.TilePatternExact |
| backend/basemap.py:736 | `transform_scalar` tests `self.projection`, which is never set, so every call with monotone axes raises AttributeError (and the `_cylproj` and `_pseudocyl` it compares with are undefined) | lons [-180, 0, 180], lats [-90, 90] | skip the range check only for the cylindrical projections | high, not executed | Basemap.TransformScalarChecksAsWritten, Basemap.TransformScalarExample | Basemap.TransformScalarChecks |
| widgets/configWindow.py:379-390 | reaching one end disables that button but never re-enables the other, so with two processors both buttons end disabled | cpuCount 2: start at 1 thread, press '+' | each button usable exactly when the count can move that way | high, not executed | ConfigWin.ThreadButtonsAsWritten, ConfigWin.ThreadButtonsAsWrittenStuck, ConfigWin.ConfigWindow.UpdateThreadButtons | ConfigWin.ThreadButtons, ConfigWin.ThreadButtonsAgree |
| widgets/configWindow.py:459-499 | `loadInput`'s error path calls a `disabledState` that does not exist. It raises AttributeError before `checkRun`, so Run stays enabled although the input flag is raised | a runnable window, then choosing an existing `map.tif` | disable Run whenever the input is rejected | high, not executed | ConfigWin.ConfigWindow.LoadInputAsWritten, ConfigWin.RejectedInputKeepsRun | ConfigWin.ConfigWindow.LoadInput |
| backend/basemap.py:173,540 | `__init__` calls `_getmapboundary`, whose first line reads `self.projection`, which is never assigned, so every construction raises AttributeError | `Basemap(lat_0=0, lon_0=0)` | assign `self.projection` (azimuthal equidistant) before line 173 | high, not executed | Basemap.NewBasemapAsWritten | Basemap.NewBasemap |
