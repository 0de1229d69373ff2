/**
 * The projection generator of backend/tools.py: the argument checks, the
 * YAML manifest record, the grid plan (axes, index lengths, thread count and
 * longitude shards), the per-worker visiting order and the tile names.
 * The projections themselves, the threads, directory creation and image
 * writing are outside the model.
 */
module Tools {
  import opened Py
  import opened Grid

  /** `checkPairs(data, name)`: `data` must be a list or tuple of two items. */
  function CheckPairs(data: Value): (r: Result<seq<Value>>)
    ensures r.Ok? <==> (data.ListV? || data.TupleV?) && |data.items| == 2
    ensures r.Ok? ==> r.value == data.items
    ensures r.Err? ==> r.error == TypeError
  {
    if !(data.ListV? || data.TupleV?) then Err(TypeError)
    // the length message has two placeholders for one argument, so the
    // formatting itself raises TypeError before the ValueError is built
    else if |data.items| != 2 then Err(TypeError)
    else Ok(data.items)
  }

  /** The unit written when the caller gives none. */
  const DefaultUnit: string := "°"

  /** The dictionary that writeYAML dumps. */
  datatype Record = Record(
    x0: real, y0: real,
    latMin: real, latMax: real,
    longMin: real, longMax: real,
    step: Value, unit: string)

  /** A written manifest: the file opened for writing and the record in it. */
  datatype Manifest = Manifest(path: string, record: Record)

  /** writeYAML's check on the output name: its last '.'-component is `yaml` in any case. */
  predicate IsYamlName(name: string)
  {
    Lower(LastDotComponent(name)) == "yaml"
  }

  /** A list or tuple of two items that `float()` accepts. */
  predicate NumericPair(v: Value)
  {
    CheckPairs(v).Ok? && Float(v.items[0]).Ok? && Float(v.items[1]).Ok?
  }

  /**
   * The checks and the record of `writeYAML`, in the order the source
   * evaluates them; the file name is decided by the two callers below.
   */
  function YamlRecord(name: Value, coordsInit: Value, limLatitude: Value, limLongitude: Value,
                      step: Value, unit: string): (r: Result<Record>)
    ensures !name.StrV? ==> r == Err(TypeError)
    ensures name.StrV? && !IsYamlName(name.s) ==> r == Err(ValueError)
    ensures r.Ok? <==> (name.StrV? && IsYamlName(name.s) && NumericPair(coordsInit)
      && NumericPair(limLatitude) && NumericPair(limLongitude))
    ensures r.Ok? ==>
      && Float(coordsInit.items[0]) == Ok(r.value.x0) && Float(coordsInit.items[1]) == Ok(r.value.y0)
      && Float(limLatitude.items[0]) == Ok(r.value.latMin) && Float(limLatitude.items[1]) == Ok(r.value.latMax)
      && Float(limLongitude.items[0]) == Ok(r.value.longMin) && Float(limLongitude.items[1]) == Ok(r.value.longMax)
      && r.value.step == step && r.value.unit == unit
  {
    if !name.StrV? then Err(TypeError)
    else if !IsYamlName(name.s) then Err(ValueError)
    else
      var c :- CheckPairs(coordsInit);
      var la :- CheckPairs(limLatitude);
      var lo :- CheckPairs(limLongitude);
      var x0 :- Float(c[0]);
      var y0 :- Float(c[1]);
      var latMin :- Float(la[0]);
      var latMax :- Float(la[1]);
      var longMin :- Float(lo[0]);
      var longMax :- Float(lo[1]);
      Ok(Record(x0, y0, latMin, latMax, longMin, longMax, step, unit))
  }

  /**
   * `writeYAML` as written: the checking loop rebinds `name`, so the file
   * opened is the one called 'limLongitude'.
   */
  function WriteYAMLAsWritten(name: Value, coordsInit: Value, limLatitude: Value, limLongitude: Value,
                              step: Value, unit: string): (r: Result<Manifest>)
    ensures r.Ok? ==> r.value.path == "limLongitude"
    ensures r.Ok? <==> YamlRecord(name, coordsInit, limLatitude, limLongitude, step, unit).Ok?
  {
    var rec :- YamlRecord(name, coordsInit, limLatitude, limLongitude, step, unit);
    Ok(Manifest("limLongitude", rec))
  }

  /** `writeYAML` writing to the validated name, as its documentation says. */
  function WriteYAML(name: Value, coordsInit: Value, limLatitude: Value, limLongitude: Value,
                     step: Value, unit: string): (r: Result<Manifest>)
    ensures r.Ok? ==> name.StrV? && r.value.path == name.s && IsYamlName(r.value.path)
    ensures r.Ok? <==> YamlRecord(name, coordsInit, limLatitude, limLongitude, step, unit).Ok?
    ensures r.Ok? ==> r.value.record == YamlRecord(name, coordsInit, limLatitude, limLongitude, step, unit).value
  {
    var rec :- YamlRecord(name, coordsInit, limLatitude, limLongitude, step, unit);
    Ok(Manifest(name.s, rec))
  }

  /** Whenever writeYAML succeeds as written, it writes somewhere other than the name it validated. */
  lemma WriteYAMLTargetDiffers(name: Value, coordsInit: Value, limLatitude: Value, limLongitude: Value,
                               step: Value, unit: string)
    requires WriteYAMLAsWritten(name, coordsInit, limLatitude, limLongitude, step, unit).Ok?
    ensures var w := WriteYAMLAsWritten(name, coordsInit, limLatitude, limLongitude, step, unit).value;
      && name.StrV? && w.path != name.s
      && WriteYAML(name, coordsInit, limLatitude, limLongitude, step, unit) == Ok(Manifest(name.s, w.record))
  {
  }

  // -----------------------------------------------------------------------
  // projection(): checks and plan
  // -----------------------------------------------------------------------

  /** What `np.shape` gives for a value: None for a ragged nesting. */
  function NumpyShape(v: Value): Option<seq<nat>>
  {
    match v
    case ListV(items) => SequenceShape(items)
    case TupleV(items) => SequenceShape(items)
    case _ => Some([])
  }

  function SequenceShape(items: seq<Value>): Option<seq<nat>>
    decreases items, 0
  {
    if items == [] then Some([0])
    else match NumpyShape(items[0])
      case None => None
      case Some(s0) =>
        if forall k :: 0 <= k < |items| ==> NumpyShape(items[k]) == Some(s0) then Some([|items|] + s0)
        else None
  }

  /** The argument checks of `projection`, lines 199-214. */
  function ProjectionChecks(name: Value, directory: Value, limLatitude: Value, limLongitude: Value,
                            step: Value, numThreads: Value): (r: Result<(seq<Value>, seq<Value>)>)
    ensures r.Ok? <==>
      && name.StrV? && directory.StrV?
      && CheckPairs(limLatitude).Ok? && CheckPairs(limLongitude).Ok?
      && IsNumber(step) && IsInt(numThreads) && NumberOf(numThreads) >= 1.0
    ensures r.Ok? ==> r.value == (limLatitude.items, limLongitude.items)
    ensures !name.StrV? || !directory.StrV? ==> r == Err(TypeError)
    ensures IsInt(numThreads) && NumberOf(numThreads) < 1.0 && r.Err? ==> r.error in {TypeError, ValueError}
  {
    if !name.StrV? then Err(TypeError)
    else if !directory.StrV? then Err(TypeError)
    else
      var lat :- CheckPairs(limLatitude);
      var lon :- CheckPairs(limLongitude);
      if !IsNumber(step) then Err(TypeError)
      else if !IsInt(numThreads) then Err(TypeError)
      else if NumberOf(numThreads) < 1.0 then Err(ValueError)
      else Ok((lat, lon))
  }

  /**
   * `projection` as written, up to line 221: the checking loop rebinds
   * `data` to the longitude pair, whose shape is then indexed at 1.
   * Ok means the call gets past line 221.
   */
  function ProjectionPrelude(name: Value, directory: Value, limLatitude: Value, limLongitude: Value,
                             step: Value, numThreads: Value): (r: Result<()>)
    ensures r.Ok? ==> ProjectionChecks(name, directory, limLatitude, limLongitude, step, numThreads).Ok?
  {
    var _ :- ProjectionChecks(name, directory, limLatitude, limLongitude, step, numThreads);
    match NumpyShape(limLongitude)
    case None => Err(ValueError)
    case Some(shp) => if |shp| < 2 then Err(IndexError) else Ok(())
  }

  /** Every call whose longitude bounds are numbers fails at line 221. */
  lemma ProjectionPreludeFails(name: Value, directory: Value, limLatitude: Value, limLongitude: Value,
                               step: Value, numThreads: Value)
    requires ProjectionChecks(name, directory, limLatitude, limLongitude, step, numThreads).Ok?
    requires IsNumber(limLongitude.items[0]) && IsNumber(limLongitude.items[1])
    ensures ProjectionPrelude(name, directory, limLatitude, limLongitude, step, numThreads) == Err(IndexError)
  {
    var items := limLongitude.items;
    forall k | 0 <= k < |items| ensures NumpyShape(items[k]) == Some([]) {
      assert k == 0 || k == 1;
    }
    assert [|items|] + [] == [2];
    assert SequenceShape(items) == Some([2]);
  }

  /**
   * The axis `np.arange(pair[0], pair[-1] + step, step)`: the sum raises for
   * a non-numeric upper bound, arange for a non-numeric lower bound.
   */
  function BoundAxis(pair: seq<Value>, step: Value): (r: Result<seq<real>>)
    requires |pair| == 2 && IsNumber(step)
    ensures !IsNumber(pair[0]) || !IsNumber(pair[1]) ==> r == Err(TypeError)
    ensures IsNumber(pair[0]) && IsNumber(pair[1]) ==>
      r == Axis(NumberOf(pair[0]), NumberOf(pair[1]), NumberOf(step))
  {
    if !IsNumber(pair[1]) || !IsNumber(pair[0]) then Err(TypeError)
    else Axis(NumberOf(pair[0]), NumberOf(pair[1]), NumberOf(step))
  }

  /** The static part of a projection run: axes, lengths, worker count, manifest and shards. */
  datatype Plan = Plan(
    allLong: seq<real>, allLat: seq<real>,
    lenLong: int, lenLat: int,
    numThreads: int,
    manifest: Manifest,
    shards: seq<seq<int>>)

  /** At most this many workers are started, whatever the caller asks for. */
  const MaxThreads: int := 8

  /** The worker count of line 234-236: eight, or fewer when there are fewer longitudes. */
  function ThreadCount(axisLength: int): int
  {
    if MaxThreads > axisLength then axisLength else MaxThreads
  }

  /**
   * The manifest of lines 230-232: the initial position defaults to the
   * first longitude and the last latitude index, and the bounds are the
   * ends of both axes.  The target `path` is the one the corrected
   * `WriteYAML` writes; as written, `writeYAML` opens `limLongitude`.
   */
  function PlanManifest(allLong: seq<real>, allLat: seq<real>, path: string,
                        step: Value, initPos: Value): (r: Result<Manifest>)
    requires allLong != [] && allLat != []
    ensures initPos.NoneV? ==> (r.Ok? <==> IsYamlName(path))
    ensures r.Ok? ==> var m := r.value;
      && m.path == path && IsYamlName(path)
      && m.record.latMin == allLat[0] && m.record.latMax == allLat[|allLat| - 1]
      && m.record.longMin == allLong[0] && m.record.longMax == allLong[|allLong| - 1]
      && m.record.step == step && m.record.unit == DefaultUnit
      && (initPos.NoneV? ==> m.record.x0 == 0.0 && m.record.y0 == (|allLat| - 1) as real)
  {
    var pos := if initPos.NoneV? then ListV([IntV(0), IntV(|allLat| - 1)]) else initPos;
    var la := TupleV([FloatV(allLat[0]), FloatV(allLat[|allLat| - 1])]);
    var lo := TupleV([FloatV(allLong[0]), FloatV(allLong[|allLong| - 1])]);
    assert NumericPair(la) && NumericPair(lo);
    assert initPos.NoneV? ==> NumericPair(pos);
    WriteYAML(StrV(path), pos, la, lo, step, DefaultUnit)
  }

  /**
   * Lines 230-243 once the axes exist: the default initial position, the
   * worker count, the manifest (whose bounds index both axes) and the shards.
   */
  function AssemblePlan(allLong: seq<real>, allLat: seq<real>, path: string,
                        step: Value, initPos: Value): (r: Result<Plan>)
    ensures allLat == [] || allLong == [] ==> r == Err(IndexError)
    ensures allLat != [] && allLong != [] && initPos.NoneV? ==> (r.Ok? <==> IsYamlName(path))
    ensures r.Ok? ==>
      && r.value.allLong == allLong && r.value.allLat == allLat
      && r.value.lenLong == |allLong| - 1 >= 0 && r.value.lenLat == |allLat| - 1 >= 0
      && r.value.numThreads == ThreadCount(|allLong|)
      && ArraySplit(|allLong|, r.value.numThreads) == Ok(r.value.shards)
    ensures r.Ok? ==> var m := r.value.manifest;
      && m.path == path && IsYamlName(path)
      && m.record.latMin == allLat[0] && m.record.latMax == allLat[|allLat| - 1]
      && m.record.longMin == allLong[0] && m.record.longMax == allLong[|allLong| - 1]
      && m.record.step == step && m.record.unit == DefaultUnit
      && (initPos.NoneV? ==> m.record.x0 == 0.0 && m.record.y0 == (|allLat| - 1) as real)
  {
    if allLat == [] || allLong == [] then Err(IndexError)
    else
      var manifest :- PlanManifest(allLong, allLat, path, step, initPos);
      var threads := ThreadCount(|allLong|);
      var shards :- ArraySplit(|allLong|, threads);
      Ok(Plan(allLong, allLat, |allLong| - 1, |allLat| - 1, threads, manifest, shards))
  }

  /** Lines 225-243: the axes of both pairs of bounds, then the plan. */
  function PlanFromBounds(lat: seq<Value>, lon: seq<Value>, step: Value, path: string,
                          initPos: Value): (r: Result<Plan>)
    requires |lat| == 2 && |lon| == 2 && IsNumber(step)
    ensures r.Ok? ==> IsNumber(lat[0]) && IsNumber(lat[1]) && IsNumber(lon[0]) && IsNumber(lon[1])
    ensures r.Ok? ==>
      && Axis(NumberOf(lon[0]), NumberOf(lon[1]), NumberOf(step)) == Ok(r.value.allLong)
      && Axis(NumberOf(lat[0]), NumberOf(lat[1]), NumberOf(step)) == Ok(r.value.allLat)
      && r == AssemblePlan(r.value.allLong, r.value.allLat, path, step, initPos)
  {
    var allLong :- BoundAxis(lon, step);
    var allLat :- BoundAxis(lat, step);
    AssemblePlan(allLong, allLat, path, step, initPos)
  }

  /**
   * `projection` with the image shape read from the image rather than from
   * the rebound loop variable (lines 199-243, without the threads).  The
   * manifest of line 232 goes through the corrected `WriteYAML`, so it is
   * written to `directory/name`; the `writeYAML` as written would open
   * `limLongitude` instead (WriteYAMLAsWritten).
   */
  function Projection(dataShape: seq<nat>, name: Value, directory: Value,
                      limLatitude: Value, limLongitude: Value,
                      step: Value, numThreads: Value, initPos: Value): (r: Result<Plan>)
    ensures ProjectionChecks(name, directory, limLatitude, limLongitude, step, numThreads).Err? ==>
      r == ProjectionChecks(name, directory, limLatitude, limLongitude, step, numThreads).PropagateFailure()
    ensures ProjectionChecks(name, directory, limLatitude, limLongitude, step, numThreads).Ok? && |dataShape| < 2 ==>
      r == Err(IndexError)
    ensures r.Ok? ==> ProjectionChecks(name, directory, limLatitude, limLongitude, step, numThreads).Ok?
    ensures r.Ok? ==> (|dataShape| >= 2 &&
      r == PlanFromBounds(limLatitude.items, limLongitude.items, step, PathJoin(directory.s, name.s), initPos))
  {
    var (lat, lon) :- ProjectionChecks(name, directory, limLatitude, limLongitude, step, numThreads);
    if |dataShape| < 2 then Err(IndexError)
    else PlanFromBounds(lat, lon, step, PathJoin(directory.s, name.s), initPos)
  }

  /** The bounds a successful projection was called with, as reals. */
  predicate NumericBounds(limLatitude: Value, limLongitude: Value)
  {
    && (limLatitude.ListV? || limLatitude.TupleV?) && |limLatitude.items| == 2
    && (limLongitude.ListV? || limLongitude.TupleV?) && |limLongitude.items| == 2
    && IsNumber(limLatitude.items[0]) && IsNumber(limLatitude.items[1])
    && IsNumber(limLongitude.items[0]) && IsNumber(limLongitude.items[1])
  }

  /** A positive step gives strictly increasing axes. */
  lemma AxisIncreasing(lo: real, hi: real, step: real, axis: seq<real>)
    requires step > 0.0 && Axis(lo, hi, step) == Ok(axis)
    ensures StrictlyIncreasing(axis)
  {
    ArangeContents(lo, hi + step, step);
  }

  /**
   * The axes of a plan are the stepped axes of the bounds, both non-empty
   * and strictly increasing for a positive step, and the index lengths are
   * one less than the axis lengths.
   */
  lemma ProjectionAxes(dataShape: seq<nat>, name: Value, directory: Value,
                       limLatitude: Value, limLongitude: Value,
                       step: Value, numThreads: Value, initPos: Value, p: Plan)
    requires Projection(dataShape, name, directory, limLatitude, limLongitude, step, numThreads, initPos) == Ok(p)
    ensures NumericBounds(limLatitude, limLongitude) && IsNumber(step)
    ensures Axis(NumberOf(limLongitude.items[0]), NumberOf(limLongitude.items[1]), NumberOf(step)) == Ok(p.allLong)
    ensures Axis(NumberOf(limLatitude.items[0]), NumberOf(limLatitude.items[1]), NumberOf(step)) == Ok(p.allLat)
    ensures p.lenLong == |p.allLong| - 1 >= 0 && p.lenLat == |p.allLat| - 1 >= 0
    ensures NumberOf(step) > 0.0 ==> StrictlyIncreasing(p.allLong) && StrictlyIncreasing(p.allLat)
  {
    var lat, lon := limLatitude.items, limLongitude.items;
    assert PlanFromBounds(lat, lon, step, PathJoin(directory.s, name.s), initPos) == Ok(p);
    var s := NumberOf(step);
    if s > 0.0 {
      AxisIncreasing(NumberOf(lon[0]), NumberOf(lon[1]), s, p.allLong);
      AxisIncreasing(NumberOf(lat[0]), NumberOf(lat[1]), s, p.allLat);
    }
  }

  /**
   * The worker count ignores the argument once it has passed its checks:
   * it is min(8, lenLong + 1), and the shards split 0..lenLong among them.
   */
  lemma ProjectionThreads(dataShape: seq<nat>, name: Value, directory: Value,
                          limLatitude: Value, limLongitude: Value,
                          step: Value, numThreads: Value, otherThreads: Value, initPos: Value, p: Plan)
    requires Projection(dataShape, name, directory, limLatitude, limLongitude, step, numThreads, initPos) == Ok(p)
    requires IsInt(otherThreads) && NumberOf(otherThreads) >= 1.0
    ensures 1 <= p.numThreads <= MaxThreads
    ensures p.numThreads == (if p.lenLong + 1 < MaxThreads then p.lenLong + 1 else MaxThreads)
    ensures ArraySplit(p.lenLong + 1, p.numThreads) == Ok(p.shards)
    ensures Projection(dataShape, name, directory, limLatitude, limLongitude, step, otherThreads, initPos) == Ok(p)
  {
    var path := PathJoin(directory.s, name.s);
    assert PlanFromBounds(limLatitude.items, limLongitude.items, step, path, initPos) == Ok(p);
    AssembledThreads(p.allLong, p.allLat, path, step, initPos, p);
    ProjectionIgnoresThreads(dataShape, name, directory, limLatitude, limLongitude, step, numThreads, otherThreads, initPos);
  }

  /** An assembled plan has min(8, lenLong + 1) workers over the array_split of 0..lenLong. */
  lemma AssembledThreads(allLong: seq<real>, allLat: seq<real>, path: string, step: Value, initPos: Value, p: Plan)
    requires AssemblePlan(allLong, allLat, path, step, initPos) == Ok(p)
    ensures 1 <= p.numThreads <= MaxThreads
    ensures p.numThreads == (if p.lenLong + 1 < MaxThreads then p.lenLong + 1 else MaxThreads)
    ensures ArraySplit(p.lenLong + 1, p.numThreads) == Ok(p.shards)
  {
    assert p.lenLong + 1 == |allLong|;
  }

  /** Two thread counts that both pass the checks give the same plan. */
  lemma ProjectionIgnoresThreads(dataShape: seq<nat>, name: Value, directory: Value,
                                 limLatitude: Value, limLongitude: Value,
                                 step: Value, numThreads: Value, otherThreads: Value, initPos: Value)
    requires ProjectionChecks(name, directory, limLatitude, limLongitude, step, numThreads).Ok?
    requires IsInt(otherThreads) && NumberOf(otherThreads) >= 1.0
    ensures Projection(dataShape, name, directory, limLatitude, limLongitude, step, otherThreads, initPos)
         == Projection(dataShape, name, directory, limLatitude, limLongitude, step, numThreads, initPos)
  {
    assert ProjectionChecks(name, directory, limLatitude, limLongitude, step, otherThreads)
        == ProjectionChecks(name, directory, limLatitude, limLongitude, step, numThreads);
  }

  /** Every longitude index of a plan lies in exactly one shard. */
  lemma ProjectionShards(p: Plan, i: int)
    requires p.lenLong >= 0 && ArraySplit(p.lenLong + 1, p.numThreads) == Ok(p.shards)
    ensures 0 <= i <= p.lenLong <==> exists w :: 0 <= w < |p.shards| && i in p.shards[w]
    ensures forall w, v :: 0 <= w < v < |p.shards| && i in p.shards[w] ==> i !in p.shards[v]
  {
    ArraySplitDisjoint(p.lenLong + 1, p.numThreads);
    if 0 <= i <= p.lenLong {
      ArraySplitCovers(p.lenLong + 1, p.numThreads);
      assert Range(0, p.lenLong + 1)[i] == i;
      assert i in Flatten(p.shards);
      FlattenMember(p.shards, i);
    }
  }

  lemma {:induction false} FlattenMember(ss: seq<seq<int>>, x: int)
    requires x in Flatten(ss)
    ensures exists w :: 0 <= w < |ss| && x in ss[w]
  {
    var last := ss[|ss| - 1];
    if x in last {
      assert x in ss[|ss| - 1];
    } else {
      FlattenMember(ss[..|ss| - 1], x);
      var w :| 0 <= w < |ss| - 1 && x in ss[..|ss| - 1][w];
      assert x in ss[w];
    }
  }

  /**
   * The manifest of a plan: written next to the images under the joined
   * name, with the first and last axis values as bounds, the step as given,
   * and for a missing initPos the first longitude and the last latitude index.
   */
  lemma ProjectionManifest(dataShape: seq<nat>, name: Value, directory: Value,
                           limLatitude: Value, limLongitude: Value,
                           step: Value, numThreads: Value, initPos: Value, p: Plan)
    requires Projection(dataShape, name, directory, limLatitude, limLongitude, step, numThreads, initPos) == Ok(p)
    ensures name.StrV? && directory.StrV?
    ensures p.manifest.path == PathJoin(directory.s, name.s) && IsYamlName(p.manifest.path)
    ensures p.manifest.record.latMin == p.allLat[0] && p.manifest.record.latMax == p.allLat[p.lenLat]
    ensures p.manifest.record.longMin == p.allLong[0] && p.manifest.record.longMax == p.allLong[p.lenLong]
    ensures p.manifest.record.step == step && p.manifest.record.unit == DefaultUnit
    ensures initPos.NoneV? ==> p.manifest.record.x0 == 0.0 && p.manifest.record.y0 == p.lenLat as real
  {
  }

  /** The nine longitude indices of the example below, split over eight workers. */
  lemma NineOverEight()
    ensures ArraySplit(9, 8).Ok?
    ensures ArraySplit(9, 8).value[0] == [0, 1] && ArraySplit(9, 8).value[7] == [8]
  {
    assert PartStart(9, 8, 1) == 2;
    assert PartStart(9, 8, 7) == 8 && PartStart(9, 8, 8) == 9;
    assert Range(0, 2) == [0, 1];
    assert Range(8, 9) == [8];
  }

  /** Any name ending in `.yaml` passes writeYAML's check. */
  lemma YamlSuffix(stem: string)
    ensures IsYamlName(stem + ".yaml")
  {
    assert stem + ".yaml" == stem + "." + "yaml";
    LastDotComponentOf(stem, "yaml");
    var l := Lower("yaml");
    assert l[0] == 'y' && l[1] == 'a' && l[2] == 'm' && l[3] == 'l';
  }

  /**
   * A 9 x 5 grid of views (for example 10-degree steps over +-40 by +-20
   * degrees) saved under a `.yaml` name goes to eight workers, with the
   * shards of NineOverEight and the initial view at latitude index 4.
   */
  lemma ProjectionExample(allLong: seq<real>, allLat: seq<real>, stem: string, step: Value)
    requires |allLong| == 9 && |allLat| == 5
    ensures var r := AssemblePlan(allLong, allLat, stem + ".yaml", step, NoneV);
      && r.Ok?
      && r.value.lenLong == 8 && r.value.lenLat == 4 && r.value.numThreads == 8
      && Ok(r.value.shards) == ArraySplit(9, 8)
      && r.value.manifest.record.y0 == 4.0
  {
    YamlSuffix(stem);
  }

  // -----------------------------------------------------------------------
  // Workers: construction, visiting order and tile names
  // -----------------------------------------------------------------------

  /** The state a `Projection` thread is constructed with. */
  datatype Worker = Worker(
    indices: seq<int>, long: seq<real>, lat: seq<real>,
    directory: string, name: string, size: seq<Value>)

  /** `Projection.__init__`'s checks: a string name and a pair for the image size. */
  function NewWorker(indices: seq<int>, long: seq<real>, lat: seq<real>,
                     directory: string, name: Value, size: Value): (r: Result<Worker>)
    ensures r.Ok? <==> name.StrV? && (size.ListV? || size.TupleV?) && |size.items| == 2
    ensures r.Err? ==> r.error == TypeError
    ensures r.Ok? ==> r.value == Worker(indices, long, lat, directory, name.s, size.items)
  {
    if !name.StrV? then Err(TypeError)
    else if !(size.ListV? || size.TupleV?) || |size.items| != 2 then Err(TypeError)
    else Ok(Worker(indices, long, lat, directory, name.s, size.items))
  }

  const DefaultSize: Value := TupleV([IntV(720), IntV(720)])

  /** The thread list of `projection`, one worker per shard, built in order. */
  method BuildWorkers(p: Plan, directory: string, name: string) returns (workers: seq<Worker>)
    ensures |workers| == |p.shards|
    ensures forall w :: 0 <= w < |workers| ==>
      workers[w] == Worker(p.shards[w], p.allLong, p.allLat, directory, name, DefaultSize.items)
  {
    workers := [];
    var i := 0;
    while i < |p.shards|
      invariant 0 <= i <= |p.shards| && |workers| == i
      invariant forall w :: 0 <= w < i ==>
        workers[w] == Worker(p.shards[w], p.allLong, p.allLat, directory, name, DefaultSize.items)
    {
      var w := NewWorker(p.shards[i], p.allLong, p.allLat, directory, StrV(name), DefaultSize);
      workers := workers + [w.value];
      i := i + 1;
    }
  }

  /** One row of the visiting order: longitude index i with every latitude position. */
  function Row(i: int, latCount: nat): (r: seq<(int, nat)>)
    ensures |r| == latCount
    ensures forall pos :: 0 <= pos < latCount ==> r[pos] == (i, pos)
  {
    seq(latCount, pos requires 0 <= pos => (i, pos as nat))
  }

  /** The (longitude index, latitude position) pairs a worker visits, in order. */
  function Visits(indices: seq<int>, latCount: nat): (v: seq<(int, nat)>)
    ensures forall k :: 0 <= k < |v| ==> v[k].0 in indices && v[k].1 < latCount
  {
    if indices == [] then []
    else Visits(indices[..|indices| - 1], latCount) + Row(indices[|indices| - 1], latCount)
  }

  /** A worker visits exactly the pairs of its indices with the positions 0..latCount-1. */
  lemma {:induction false} VisitsMembers(indices: seq<int>, latCount: nat, i: int, pos: int)
    ensures (i, pos) in Visits(indices, latCount) <==> i in indices && 0 <= pos < latCount
  {
    if indices != [] {
      var front := indices[..|indices| - 1];
      VisitsMembers(front, latCount, i, pos);
      assert indices == front + [indices[|indices| - 1]];
      if (i, pos) in Row(indices[|indices| - 1], latCount) {
        var k :| 0 <= k < latCount && Row(indices[|indices| - 1], latCount)[k] == (i, pos);
      }
    }
  }

  /** The visiting order has one entry per index and position. */
  lemma {:induction false} VisitsLength(indices: seq<int>, latCount: nat)
    ensures |Visits(indices, latCount)| == |indices| * latCount
  {
    if indices != [] {
      VisitsLength(indices[..|indices| - 1], latCount);
      assert |indices| * latCount == (|indices| - 1) * latCount + latCount;
    }
  }

  /** (i, pos) comes before (j, q) when i < j, or i == j and pos < q. */
  predicate VisitBefore(a: (int, nat), b: (int, nat))
  {
    a.0 < b.0 || (a.0 == b.0 && a.1 < b.1)
  }

  predicate IncreasingInts(s: seq<int>)
  {
    forall a, b :: 0 <= a < b < |s| ==> s[a] < s[b]
  }

  /**
   * For a shard (increasing indices) the order is lexicographic: shard
   * order outside, ascending latitude position inside.
   */
  lemma {:induction false} VisitsOrdered(indices: seq<int>, latCount: nat)
    requires IncreasingInts(indices)
    ensures var v := Visits(indices, latCount);
      forall a, b :: 0 <= a < b < |v| ==> VisitBefore(v[a], v[b])
  {
    if indices != [] {
      var front := indices[..|indices| - 1];
      var last := indices[|indices| - 1];
      VisitsOrdered(front, latCount);
      var v := Visits(indices, latCount);
      var vf := Visits(front, latCount);
      forall a, b | 0 <= a < b < |v| ensures VisitBefore(v[a], v[b]) {
        if b >= |vf| && a < |vf| {
          VisitsMembers(front, latCount, vf[a].0, vf[a].1);
          var k :| 0 <= k < |front| && front[k] == vf[a].0;
        }
      }
    }
  }

  /** The name of tile (i, pos): `name_i,pos.jpg`. */
  function TileName(name: string, i: int, pos: int): (r: string)
    ensures |r| > |name| + 4 && r[..|name| + 1] == name + "_" && r[|r| - 4..] == ".jpg"
  {
    name + "_" + IntToString(i) + "," + IntToString(pos) + ".jpg"
  }

  lemma SplitAtComma(a: string, b: string, c: string, d: string)
    requires ',' !in a && ',' !in c
    requires a + "," + b == c + "," + d
    ensures a == c && b == d
  {
    SplitPrefix(a, b, c, d, ',');
  }

  /** Different tiles of one projection get different names. */
  lemma TileNameInjective(name: string, i: int, pos: int, j: int, q: int)
    requires TileName(name, i, pos) == TileName(name, j, q)
    ensures i == j && pos == q
  {
    var a, b := IntToString(i), IntToString(pos);
    var c, d := IntToString(j), IntToString(q);
    var n := |name| + 1;
    var t := TileName(name, i, pos);
    assert t[n..|t| - 4] == a + "," + b;
    assert t[n..|t| - 4] == c + "," + d;
    assert ',' !in a && ',' !in c;
    SplitAtComma(a, b, c, d);
    IntToStringInjective(i, j);
    IntToStringInjective(pos, q);
  }

  /** `self.long[i]` with Python's negative indices. */
  predicate ValidIndex(s: seq<real>, i: int)
  {
    -|s| <= i < |s|
  }

  function At(s: seq<real>, i: int): real
    requires ValidIndex(s, i)
  {
    if i < 0 then s[|s| + i] else s[i]
  }

  /** The label `self.long.index(self.long[i])`: the first index holding that longitude. */
  function LongLabel(long: seq<real>, i: int): (k: nat)
    requires ValidIndex(long, i)
    ensures k < |long| && long[k] == At(long, i)
  {
    FirstIndexOf(long, At(long, i)).value
  }

  /**
   * The stem that names a worker's tiles: the manifest path without its
   * extension, which is what the viewer strips before looking tiles up.
   */
  function TileStem(w: Worker): string
  {
    SplitExt(PathJoin(w.directory, w.name)).0
  }

  /**
   * The file a worker writes for a visit, named after the manifest stem so
   * that the viewer of that manifest can find it.
   */
  function TilePath(w: Worker, v: (int, nat)): (r: string)
    requires ValidIndex(w.long, v.0)
    ensures |r| > |TileStem(w)| + 4 && r[..|TileStem(w)| + 1] == TileStem(w) + "_" && r[|r| - 4..] == ".jpg"
  {
    TileName(TileStem(w), LongLabel(w.long, v.0), v.1)
  }

  /** The file line 168 writes: the manifest name is used with its `.yaml` extension. */
  function TilePathAsWritten(w: Worker, v: (int, nat)): (r: string)
    requires ValidIndex(w.long, v.0)
    ensures |r| >= 4 && r[|r| - 4..] == ".jpg"
    ensures (w.name == [] || w.name[0] != '/') ==> |r| >= |w.directory| && r[..|w.directory|] == w.directory
  {
    PathJoin(w.directory, TileName(w.name, LongLabel(w.long, v.0), v.1))
  }

  /**
   * `Projection.run` as written: the data must have a third (colour) axis,
   * and the first visit raises AttributeError at the `self.directory` of
   * line 168, which no one sets.  (The `Basemap` of line 160 is the one
   * lines 5-8 import from mpl_toolkits, which is not part of this model;
   * when that import fails the call raises NameError instead, and the
   * visit fails all the same.)
   */
  function RunAsWritten(w: Worker, dataShape: seq<nat>): (r: Result<seq<string>>)
    ensures w.indices != [] && w.lat != [] && |dataShape| >= 3 ==> r.Err?
    ensures r.Ok? ==> r.value == []
  {
    if |dataShape| < 3 then Err(IndexError)
    else if w.indices == [] || w.lat == [] then Ok([])
    else if !ValidIndex(w.long, w.indices[0]) then Err(IndexError)
    else Err(AttributeError)
  }

  /** `tiles` are the files of the visits `visited`, one for one. */
  predicate NamesVisits(w: Worker, visited: seq<(int, nat)>, tiles: seq<string>)
  {
    |tiles| == |visited| &&
    forall t :: 0 <= t < |visited| ==> ValidIndex(w.long, visited[t].0) && tiles[t] == TilePath(w, visited[t])
  }

  lemma NamesVisitsAppend(w: Worker, v1: seq<(int, nat)>, t1: seq<string>, v2: seq<(int, nat)>, t2: seq<string>)
    requires NamesVisits(w, v1, t1) && NamesVisits(w, v2, t2)
    ensures NamesVisits(w, v1 + v2, t1 + t2)
  {
    forall t | 0 <= t < |v1 + v2|
      ensures ValidIndex(w.long, (v1 + v2)[t].0) && (t1 + t2)[t] == TilePath(w, (v1 + v2)[t])
    {
      if t >= |v1| {
        assert (v1 + v2)[t] == v2[t - |v1|] && (t1 + t2)[t] == t2[t - |v1|];
      }
    }
  }

  /** One more visit named after its tile keeps the visits and the tiles in step. */
  lemma NamesVisitsSnoc(w: Worker, visited: seq<(int, nat)>, tiles: seq<string>, v: (int, nat))
    requires NamesVisits(w, visited, tiles) && ValidIndex(w.long, v.0)
    ensures NamesVisits(w, visited + [v], tiles + [TilePath(w, v)])
  {
    var vs, ts := visited + [v], tiles + [TilePath(w, v)];
    forall t | 0 <= t < |vs| ensures ValidIndex(w.long, vs[t].0) && ts[t] == TilePath(w, vs[t]) {
      if t < |visited| {
        assert vs[t] == visited[t] && ts[t] == tiles[t];
      }
    }
  }

  /** The inner loop of `Projection.run`: every latitude position of one longitude index. */
  method RunRow(w: Worker, index: int) returns (r: Option<seq<string>>)
    ensures r.None? <==> w.lat != [] && !ValidIndex(w.long, index)
    ensures r.Some? ==> NamesVisits(w, Row(index, |w.lat|), r.value)
  {
    var n := |w.lat|;
    var tiles: seq<string> := [];
    var pos := 0;
    while pos < n
      invariant 0 <= pos <= n
      invariant pos > 0 ==> ValidIndex(w.long, index)
      invariant NamesVisits(w, Row(index, n)[..pos], tiles)
    {
      if !ValidIndex(w.long, index) {
        return None;
      }
      assert Row(index, n)[..pos + 1] == Row(index, n)[..pos] + [(index, pos)];
      NamesVisitsSnoc(w, Row(index, n)[..pos], tiles, (index, pos));
      tiles := tiles + [TilePath(w, (index, pos))];
      pos := pos + 1;
    }
    assert Row(index, n)[..n] == Row(index, n);
    return Some(tiles);
  }

  /**
   * `Projection.run` with the output directory stored and the longitude
   * looked up in a list: visits every shard index (outer loop) at every
   * latitude position (inner loop) and returns the files written, in order.
   */
  method RunTiles(w: Worker, dataShape: seq<nat>) returns (r: Result<seq<string>>)
    ensures |dataShape| < 3 ==> r == Err(IndexError)
    ensures |dataShape| >= 3 ==>
      (r.Ok? <==> w.lat == [] || forall k :: 0 <= k < |w.indices| ==> ValidIndex(w.long, w.indices[k]))
    ensures r.Err? ==> r.error == IndexError
    ensures r.Ok? ==> NamesVisits(w, Visits(w.indices, |w.lat|), r.value)
  {
    if |dataShape| < 3 {
      return Err(IndexError);
    }
    var n := |w.lat|;
    var tiles: seq<string> := [];
    var k := 0;
    while k < |w.indices|
      invariant 0 <= k <= |w.indices|
      invariant n > 0 ==> forall j :: 0 <= j < k ==> ValidIndex(w.long, w.indices[j])
      invariant NamesVisits(w, Visits(w.indices[..k], n), tiles)
    {
      var row := RunRow(w, w.indices[k]);
      if row.None? {
        return Err(IndexError);
      }
      assert w.indices[..k + 1][..k] == w.indices[..k];
      NamesVisitsAppend(w, Visits(w.indices[..k], n), tiles, Row(w.indices[k], n), row.value);
      tiles := tiles + row.value;
      k := k + 1;
    }
    assert w.indices[..k] == w.indices;
    return Ok(tiles);
  }

  /**
   * On a strictly increasing longitude axis and in-range indices, tile
   * (i, pos) is named `<stem>_i,pos.jpg` (as written: `<name>_i,pos.jpg`
   * in the output directory).
   */
  lemma TilePathOnAxis(w: Worker, i: int, pos: nat)
    requires StrictlyIncreasing(w.long) && 0 <= i < |w.long|
    ensures TilePath(w, (i, pos)) == TileName(TileStem(w), i, pos)
    ensures TilePathAsWritten(w, (i, pos)) == PathJoin(w.directory, TileName(w.name, i, pos))
  {
    FirstIndexOfIncreasing(w.long, i);
  }

  /**
   * The workers of a plan visit every tile of the grid once: tile (i, pos)
   * with 0 <= i <= lenLong and 0 <= pos <= lenLat is in the visiting order
   * of the worker whose shard holds i, and of no other.
   */
  lemma WorkersCoverGrid(p: Plan, workers: seq<Worker>, i: int, pos: int)
    requires |workers| == |p.shards|
    requires p.lenLong >= 0 && p.lenLat >= 0 && ArraySplit(p.lenLong + 1, p.numThreads) == Ok(p.shards)
    requires forall w :: 0 <= w < |workers| ==> workers[w].indices == p.shards[w] && |workers[w].lat| == p.lenLat + 1
    ensures (0 <= i <= p.lenLong && 0 <= pos <= p.lenLat) <==>
      exists w :: 0 <= w < |workers| && (i, pos) in Visits(workers[w].indices, |workers[w].lat|)
    ensures forall w, v :: 0 <= w < v < |workers| && (i, pos) in Visits(workers[w].indices, |workers[w].lat|) ==>
      (i, pos) !in Visits(workers[v].indices, |workers[v].lat|)
  {
    ProjectionShards(p, i);
    forall w | 0 <= w < |workers|
      ensures (i, pos) in Visits(workers[w].indices, |workers[w].lat|) <==> i in p.shards[w] && 0 <= pos <= p.lenLat
    {
      VisitsMembers(workers[w].indices, |workers[w].lat|, i, pos);
    }
  }
}
