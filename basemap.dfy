/**
 * The input handling of backend/basemap.py around the projection engine:
 * the bounded-parameter validators, the parameter set-up of
 * `Basemap.__init__`, the argument checks of `transform_scalar`, the 1-D
 * path of `shiftdata` with its masking, and the longitude unwrap and
 * longitude bounds of `_getmapboundary`.
 */
module Basemap {
  import opened Py
  import opened Proj

  // -----------------------------------------------------------------------
  // Validators
  // -----------------------------------------------------------------------

  /** `_validated_ll(param, name, minval, maxval)`: float(param), kept only inside the closed bounds. */
  function ValidatedLL(param: Value, minval: real, maxval: real): (r: Result<real>)
    ensures r.Ok? <==> Float(param).Ok? && minval <= Float(param).value <= maxval
    ensures r.Ok? ==> r.value == Float(param).value
    ensures Float(param).Err? ==> r == Err(Float(param).error)
    ensures Float(param).Ok? && !(minval <= Float(param).value <= maxval) ==> r == Err(ValueError)
  {
    var x :- Float(param);
    if x > maxval || x < minval then Err(ValueError) else Ok(x)
  }

  /** `_validated_or_none`: None passes through, anything else is validated. */
  function ValidatedOrNone(param: Value, minval: real, maxval: real): (r: Result<Option<real>>)
    ensures param.NoneV? ==> r == Ok(None)
    ensures !param.NoneV? ==> (r.Ok? <==> ValidatedLL(param, minval, maxval).Ok?)
    ensures !param.NoneV? && r.Ok? ==> r.value == Some(ValidatedLL(param, minval, maxval).value)
    ensures !param.NoneV? && r.Err? ==> r.error == ValidatedLL(param, minval, maxval).error
  {
    if param.NoneV? then Ok(None)
    else
      var x :- ValidatedLL(param, minval, maxval);
      Ok(Some(x))
  }

  /**
   * `_insert_validated(d, param, name, minval, maxval)`: the dictionary
   * after the call.  A None parameter leaves it as it is; otherwise the
   * validated value is stored under `name` and nothing else changes.
   */
  function InsertValidated(d: map<string, Param>, param: Option<real>, name: string,
                           minval: real, maxval: real): (r: Result<map<string, Param>>)
    ensures param.None? ==> r == Ok(d)
    ensures param.Some? ==> (r.Ok? <==> minval <= param.value <= maxval)
    ensures r.Ok? && param.Some? ==>
      && name in r.value && r.value[name] == Num(param.value)
      && r.value.Keys == d.Keys + {name}
      && forall k :: k in d && k != name ==> r.value[k] == d[k]
  {
    match param
    case None => Ok(d)
    case Some(x) =>
      var v :- ValidatedLL(FloatV(x), minval, maxval);
      Ok(d[name := Num(v)])
  }

  // -----------------------------------------------------------------------
  // Basemap.__init__, lines 100-163
  // -----------------------------------------------------------------------

  /** The sphere radius `Basemap` always projects on, in metres. */
  const EarthRadius: real := 6370997.0

  const LatMin: real := -90.0
  const LatMax: real := 90.0
  const LonMin: real := -360.0
  const LonMax: real := 720.0

  /** The keyword arguments of `Basemap.__init__` that it checks. */
  datatype MapArgs = MapArgs(
    lat0: Value, lat1: Value, lat2: Value, latTs: Value,
    lon0: Value, lon1: Value, lon2: Value)

  /** The instance variables that lines 100-170 set. */
  datatype Basemap = Basemap(
    fixAspect: bool, fulldisk: bool,
    projparams: map<string, Param>,
    proj: Proj,
    llcrnrlon: real, llcrnrlat: real, urcrnrlon: real, urcrnrlat: real,
    xmin: real, xmax: real, ymin: real, ymax: real,
    aspect: real,
    resolution: string, areaThresh: real)

  /** The validated parameters, in the order of lines 112-118. */
  datatype Checked = Checked(
    lat0: Option<real>, lat1: Option<real>, lat2: Option<real>, latTs: Option<real>,
    lon0: Option<real>, lon1: Option<real>, lon2: Option<real>)

  /** Lines 112-118: every latitude in [-90, 90], every longitude in [-360, 720]. */
  function CheckArgs(a: MapArgs): (r: Result<Checked>)
    ensures r.Ok? <==>
      && ValidatedOrNone(a.lat0, LatMin, LatMax).Ok? && ValidatedOrNone(a.lat1, LatMin, LatMax).Ok?
      && ValidatedOrNone(a.lat2, LatMin, LatMax).Ok? && ValidatedOrNone(a.latTs, LatMin, LatMax).Ok?
      && ValidatedOrNone(a.lon0, LonMin, LonMax).Ok? && ValidatedOrNone(a.lon1, LonMin, LonMax).Ok?
      && ValidatedOrNone(a.lon2, LonMin, LonMax).Ok?
    ensures r.Ok? ==> r.value == Checked(
      ValidatedOrNone(a.lat0, LatMin, LatMax).value, ValidatedOrNone(a.lat1, LatMin, LatMax).value,
      ValidatedOrNone(a.lat2, LatMin, LatMax).value, ValidatedOrNone(a.latTs, LatMin, LatMax).value,
      ValidatedOrNone(a.lon0, LonMin, LonMax).value, ValidatedOrNone(a.lon1, LonMin, LonMax).value,
      ValidatedOrNone(a.lon2, LonMin, LonMax).value)
  {
    var lat0 :- ValidatedOrNone(a.lat0, LatMin, LatMax);
    var lat1 :- ValidatedOrNone(a.lat1, LatMin, LatMax);
    var lat2 :- ValidatedOrNone(a.lat2, LatMin, LatMax);
    var latTs :- ValidatedOrNone(a.latTs, LatMin, LatMax);
    var lon0 :- ValidatedOrNone(a.lon0, LonMin, LonMax);
    var lon1 :- ValidatedOrNone(a.lon1, LonMin, LonMax);
    var lon2 :- ValidatedOrNone(a.lon2, LonMin, LonMax);
    Ok(Checked(lat0, lat1, lat2, latTs, lon0, lon1, lon2))
  }

  /** The key a parameter is stored under, when it was given. */
  function Given(key: string, v: Option<real>): set<string>
  {
    if v.Some? then {key} else {}
  }

  /** `key` holds the given value, and is absent when none was given. */
  predicate Stores(r: map<string, Param>, key: string, v: Option<real>)
  {
    && (v.Some? ==> key in r && r[key] == Num(v.value))
    && (v.None? ==> key !in r)
  }

  /** After an insertion of `v` under `key`: the value when given, otherwise what `d` held. */
  predicate Inserted(r: map<string, Param>, d: map<string, Param>, key: string, v: Option<real>)
  {
    && (v.Some? ==> key in r && r[key] == Num(v.value))
    && (v.None? ==> (key in r <==> key in d) && (key in d ==> r[key] == d[key]))
  }

  /** Lines 105-127: the parameter dictionary handed to `Proj`, starting from the radius and the units. */
  function BaseParams(c: Checked): (r: map<string, Param>)
    ensures "R" in r && r["R"] == Num(EarthRadius) && "units" in r && r["units"] == Text("m")
  {
    LonParams(LatParams(map["R" := Num(EarthRadius), "units" := Text("m")], c), c)
  }

  /** The dictionary holds the radius, the units and exactly the keys of the parameters given. */
  lemma BaseParamsKeys(c: Checked)
    ensures BaseParams(c).Keys == {"R", "units"} + Given("lat_0", c.lat0) + Given("lat_1", c.lat1)
      + Given("lat_2", c.lat2) + Given("lat_ts", c.latTs)
      + Given("lon_0", c.lon0) + Given("lon_1", c.lon1) + Given("lon_2", c.lon2)
  {
    var d := LatParams(map["R" := Num(EarthRadius), "units" := Text("m")], c);
    assert d.Keys == {"R", "units"} + Given("lat_0", c.lat0) + Given("lat_1", c.lat1)
      + Given("lat_2", c.lat2) + Given("lat_ts", c.latTs);
  }

  /** Each latitude given is stored under its own key, and none that was not. */
  lemma BaseParamsLats(c: Checked)
    ensures Stores(BaseParams(c), "lat_0", c.lat0) && Stores(BaseParams(c), "lat_1", c.lat1)
    ensures Stores(BaseParams(c), "lat_2", c.lat2) && Stores(BaseParams(c), "lat_ts", c.latTs)
  {
    var base := map["R" := Num(EarthRadius), "units" := Text("m")];
    var d := LatParams(base, c);
    LatStored(base, d, "lat_0", c.lat0);
    LatStored(base, d, "lat_1", c.lat1);
    LatStored(base, d, "lat_2", c.lat2);
    LatStored(base, d, "lat_ts", c.latTs);
  }

  /** A latitude key stored on top of the radius and units is kept by the longitude insertions. */
  lemma LatStored(base: map<string, Param>, d: map<string, Param>, key: string, v: Option<real>)
    requires key !in base && key !in {"lon_0", "lon_1", "lon_2"}
    requires Inserted(d, base, key, v)
    ensures forall c: Checked :: Stores(LonParams(d, c), key, v)
  {
  }

  /** Each longitude given is stored under its own key, and none that was not. */
  lemma BaseParamsLons(c: Checked)
    ensures Stores(BaseParams(c), "lon_0", c.lon0) && Stores(BaseParams(c), "lon_1", c.lon1)
    ensures Stores(BaseParams(c), "lon_2", c.lon2)
  {
    var d := LatParams(map["R" := Num(EarthRadius), "units" := Text("m")], c);
    var latKeys := {"R", "units", "lat_0", "lat_1", "lat_2", "lat_ts"};
    assert d.Keys <= latKeys;
    assert "lon_0" !in latKeys && "lon_1" !in latKeys && "lon_2" !in latKeys;
  }

  /** Lines 121-124: the latitude parameters that were given, on top of `d`. */
  function LatParams(d: map<string, Param>, c: Checked): (r: map<string, Param>)
    ensures r.Keys == d.Keys + Given("lat_0", c.lat0) + Given("lat_1", c.lat1)
      + Given("lat_2", c.lat2) + Given("lat_ts", c.latTs)
    ensures forall k :: k in d && k !in {"lat_0", "lat_1", "lat_2", "lat_ts"} ==> r[k] == d[k]
    ensures Inserted(r, d, "lat_0", c.lat0) && Inserted(r, d, "lat_1", c.lat1)
    ensures Inserted(r, d, "lat_2", c.lat2) && Inserted(r, d, "lat_ts", c.latTs)
  {
    Put(Put(Put(Put(d, "lat_0", c.lat0), "lat_1", c.lat1), "lat_2", c.lat2), "lat_ts", c.latTs)
  }

  /** Lines 125-127: the longitude parameters that were given, on top of `d`. */
  function LonParams(d: map<string, Param>, c: Checked): (r: map<string, Param>)
    ensures r.Keys == d.Keys + Given("lon_0", c.lon0) + Given("lon_1", c.lon1) + Given("lon_2", c.lon2)
    ensures forall k :: k in d && k !in {"lon_0", "lon_1", "lon_2"} ==> r[k] == d[k]
    ensures Inserted(r, d, "lon_0", c.lon0) && Inserted(r, d, "lon_1", c.lon1)
    ensures Inserted(r, d, "lon_2", c.lon2)
  {
    Put(Put(Put(d, "lon_0", c.lon0), "lon_1", c.lon1), "lon_2", c.lon2)
  }

  /**
   * One `_insert_validated` of lines 121-127.  The value was validated
   * against the same bounds just before, so the check passes again.
   */
  function Put(d: map<string, Param>, name: string, v: Option<real>): (r: map<string, Param>)
    ensures r.Keys == d.Keys + Given(name, v)
    ensures forall k :: k in d && k != name ==> r[k] == d[k]
    ensures Inserted(r, d, name, v)
  {
    match v case None => d case Some(x) => d[name := Num(x)]
  }

  /** Re-validating a value that passed its bounds check inserts it unchanged. */
  lemma InsertValidatedAgain(d: map<string, Param>, param: Value, name: string, minval: real, maxval: real)
    requires ValidatedOrNone(param, minval, maxval).Ok?
    ensures InsertValidated(d, ValidatedOrNone(param, minval, maxval).value, name, minval, maxval)
      == Ok(Put(d, name, ValidatedOrNone(param, minval, maxval).value))
  {
  }

  /** The projection `Basemap` builds for checked parameters (line 148). */
  function MapProj(c: Checked): (p: Proj)
    ensures p.rmajor == EarthRadius && p.fulldisk
    ensures p.projparams == BaseParams(c)["x_0" := Num(Pi * EarthRadius)]["y_0" := Num(Pi * EarthRadius)]
    ensures (p.xmin, p.xmax, p.ymin, p.ymax) == (-180.0, 2.0 * Pi * EarthRadius, -90.0, 2.0 * Pi * EarthRadius)
  {
    var params := BaseParams(c);
    NewProj(params, -180.0, -90.0, 180.0, 90.0, true, (0.0, 0.0)).value
  }

  /**
   * Lines 130-170 once the centre is known: the full-disk azimuthal
   * equidistant projection with corners (-180, -90) and (180, 90).  Its
   * corners in projection units are the corner longitude and latitude
   * themselves at the lower left and twice the disk extent at the upper
   * right, and the map takes its bounds and aspect ratio from them.
   */
  function SetUp(c: Checked): (b: Basemap)
    requires c.lat0.Some? && c.lon0.Some?
    ensures
      && b.fulldisk && b.fixAspect
      && b.proj == MapProj(c) && b.projparams == MapProj(c).projparams
      && (b.llcrnrlon, b.llcrnrlat, b.urcrnrlon, b.urcrnrlat) == (-180.0, -90.0, 180.0, 90.0)
      && (b.xmin, b.xmax, b.ymin, b.ymax) == (-180.0, 2.0 * Pi * EarthRadius, -90.0, 2.0 * Pi * EarthRadius)
      && b.aspect == (b.ymax - b.ymin) / (b.xmax - b.xmin)
      && (b.resolution, b.areaThresh) == ("c", 10000.0)
  {
    var p := MapProj(c);
    Basemap(true, true, p.projparams, p, -180.0, -90.0, 180.0, 90.0,
            p.xmin, p.xmax, p.ymin, p.ymax,
            (p.ymax - p.ymin) / (p.xmax - p.xmin), "c", 10000.0)
  }

  /**
   * `Basemap(lat_0=..., lon_0=..., ...)` up to line 170: checks the bounds,
   * then requires both centre coordinates before setting up the projection.
   */
  function NewBasemap(a: MapArgs): (r: Result<Basemap>)
    ensures CheckArgs(a).Err? ==> r == Err(CheckArgs(a).error)
    ensures CheckArgs(a).Ok? && (CheckArgs(a).value.lat0.None? || CheckArgs(a).value.lon0.None?) ==>
      r == Err(ValueError)
    ensures r.Ok? <==> CheckArgs(a).Ok? && CheckArgs(a).value.lat0.Some? && CheckArgs(a).value.lon0.Some?
    ensures r.Ok? ==> r.value == SetUp(CheckArgs(a).value)
  {
    var c :- CheckArgs(a);
    if c.lat0.None? || c.lon0.None? then Err(ValueError) else Ok(SetUp(c))
  }

  /**
   * The whole of `Basemap.__init__` as written: past line 170, line 173
   * calls `_getmapboundary`, whose first test (line 540) reads
   * `self.projection`, which nothing assigns, so every construction that
   * gets that far raises AttributeError and no Basemap is ever built.
   */
  function NewBasemapAsWritten(a: MapArgs): (r: Result<Basemap>)
    ensures r.Err?
    ensures NewBasemap(a).Err? ==> r == NewBasemap(a)
    ensures NewBasemap(a).Ok? ==> r == Err(AttributeError)
  {
    var _ :- NewBasemap(a);
    Err(AttributeError)
  }

  // -----------------------------------------------------------------------
  // transform_scalar input checks
  // -----------------------------------------------------------------------

  /** Every consecutive difference is non-negative, and there is at least one. */
  predicate NonDecreasing(s: seq<real>)
  {
    |s| >= 2 && forall k :: 0 <= k < |s| - 1 ==> s[k] <= s[k + 1]
  }

  /** Lines 731-734: `min()` of the differences raises on an empty list, and a negative one is refused. */
  function MonotoneCheck(lons: seq<real>, lats: seq<real>): (r: Result<()>)
    ensures r.Ok? <==> NonDecreasing(lons) && NonDecreasing(lats)
    ensures r.Err? ==> r.error == ValueError
  {
    if |lons| < 2 || exists k :: 0 <= k < |lons| - 1 && lons[k + 1] - lons[k] < 0.0 then Err(ValueError)
    else if |lats| < 2 || exists k :: 0 <= k < |lats| - 1 && lats[k + 1] - lats[k] < 0.0 then Err(ValueError)
    else Ok(())
  }

  /**
   * `transform_scalar`'s checks as written: after the monotonicity check it
   * reads `self.projection`, which `Basemap` never assigns.
   */
  function TransformScalarChecksAsWritten(lons: seq<real>, lats: seq<real>): (r: Result<()>)
    ensures r.Err?
    ensures MonotoneCheck(lons, lats).Ok? ==> r == Err(AttributeError)
  {
    var _ :- MonotoneCheck(lons, lats);
    Err(AttributeError)
  }

  const LonLimit: real := 180.00001
  const WrapTolerance: real := 0.0001

  /** The number of longitudes outside [-180.00001, 180.00001]. */
  function OutsideCount(lons: seq<real>): (n: nat)
    ensures n <= |lons|
    ensures n == 0 <==> forall k :: 0 <= k < |lons| ==> -LonLimit <= lons[k] <= LonLimit
  {
    if lons == [] then 0
    else OutsideCount(lons[..|lons| - 1]) + (if -LonLimit <= lons[|lons| - 1] <= LonLimit then 0 else 1)
  }

  function Abs(x: real): real { if x < 0.0 then -x else x }

  /**
   * `transform_scalar`'s checks for the azimuthal equidistant projection
   * (not cylindrical), with `math.fabs` available: increasing axes, and
   * at most one longitude outside [-180, 180] (with tolerance), which is
   * allowed only when the axis spans 360 degrees up to 1e-4.
   */
  function TransformScalarChecks(lons: seq<real>, lats: seq<real>): (r: Result<()>)
    ensures r.Ok? <==>
      && NonDecreasing(lons) && NonDecreasing(lats)
      && (OutsideCount(lons) == 0 ||
          (OutsideCount(lons) == 1 && Abs(lons[|lons| - 1] - lons[0] - 360.0) <= WrapTolerance))
    ensures r.Err? ==> r.error == ValueError
  {
    var _ :- MonotoneCheck(lons, lats);
    var count := OutsideCount(lons);
    if count > 1 then Err(ValueError)
    else if count == 1 && Abs(lons[|lons| - 1] - lons[0] - 360.0) > WrapTolerance then Err(ValueError)
    else Ok(())
  }

  /** The axes the generator feeds in are accepted by the corrected checks and refused as written. */
  lemma TransformScalarExample()
    ensures TransformScalarChecks([-180.0, 0.0, 180.0], [-90.0, 90.0]) == Ok(())
    ensures TransformScalarChecksAsWritten([-180.0, 0.0, 180.0], [-90.0, 90.0]) == Err(AttributeError)
    ensures TransformScalarChecks([-170.0, 190.0, 200.0], [0.0, 1.0]) == Err(ValueError)
  {
    assert OutsideCount([-180.0, 0.0, 180.0]) == 0;
    assert [-170.0, 190.0, 200.0][..2] == [-170.0, 190.0];
    assert [-170.0, 190.0] [..1] == [-170.0];
    assert OutsideCount([-170.0, 190.0, 200.0]) == 2;
  }

  // -----------------------------------------------------------------------
  // shiftdata, 1-D path
  // -----------------------------------------------------------------------

  /**
   * Lines 969-981: the centre longitude comes from the argument or from the
   * projection parameters; longitudes and data must be 1-D or 2-D.
   */
  function ShiftDataChecks(projparams: map<string, Param>, lonRank: nat, dataRank: Option<nat>,
                           lon0: Option<real>): (r: Result<real>)
    ensures lon0.None? && "lon_0" !in projparams ==> r == Err(ValueError)
    ensures r.Ok? ==> lonRank in {1, 2} && (dataRank.Some? ==> dataRank.value in {1, 2})
    ensures r.Ok? && lon0.Some? ==> r.value == lon0.value
    ensures r.Ok? && lon0.None? ==> projparams["lon_0"] == Num(r.value)
  {
    if lon0.None? && "lon_0" !in projparams then Err(ValueError)
    else if lonRank != 1 && lonRank != 2 then Err(ValueError)
    else if dataRank.Some? && dataRank.value != 1 && dataRank.value != 2 then Err(ValueError)
    else match lon0
      case Some(x) => Ok(x)
      case None => match projparams["lon_0"] case Num(x) => Ok(x) case Text(_) => Err(TypeError)
  }

  /** Lines 1031-1032: one shift by 360 degrees towards [lon0 - 180, lon0 + 180]. */
  function Normalize(x: real, lon0: real): (y: real)
    ensures x > lon0 + 180.0 ==> y == x - 360.0
    ensures x < lon0 - 180.0 ==> y == x + 360.0
    ensures lon0 - 180.0 <= x <= lon0 + 180.0 ==> y == x
    ensures lon0 - 540.0 <= x <= lon0 + 540.0 ==> lon0 - 180.0 <= y <= lon0 + 180.0
  {
    var a := if x > lon0 + 180.0 then x - 360.0 else x;
    if a < lon0 - 180.0 then a + 360.0 else a
  }

  function NormalizeAll(s: seq<real>, lon0: real): (r: seq<real>)
    ensures |r| == |s| && forall k :: 0 <= k < |s| ==> r[k] == Normalize(s[k], lon0)
  {
    seq(|s|, k requires 0 <= k < |s| => Normalize(s[k], lon0))
  }

  function MaxOf(s: seq<real>): (m: real)
    requires |s| > 0
    ensures m in s && forall k :: 0 <= k < |s| ==> s[k] <= m
  {
    if |s| == 1 then s[0]
    else
      var m := MaxOf(s[..|s| - 1]);
      assert forall k :: 0 <= k < |s| - 1 ==> s[..|s| - 1][k] == s[k];
      if s[|s| - 1] > m then s[|s| - 1] else m
  }

  /** `s` without its first occurrence of `x`. */
  function RemoveFirst(s: seq<real>, x: real): (r: seq<real>)
    requires x in s
    ensures |r| == |s| - 1
    ensures multiset(r) == multiset(s) - multiset{x}
  {
    if s[0] == x then
      assert s == [s[0]] + s[1..];
      s[1..]
    else
      assert s == [s[0]] + s[1..];
      [s[0]] + RemoveFirst(s[1..], x)
  }

  /** `np.sort(d)[-2]`: the largest value once one copy of the maximum is taken out. */
  function SecondLargest(d: seq<real>): (r: real)
    requires |d| >= 2
    ensures r in d && r <= MaxOf(d)
  {
    var rest := RemoveFirst(d, MaxOf(d));
    assert MaxOf(rest) in multiset(rest);
    MaxOf(rest)
  }

  /** The absolute differences of neighbours, `np.abs(s[0:-1] - s[1:])`. */
  function Gaps(s: seq<real>): (g: seq<real>)
    requires |s| >= 2
    ensures |g| == |s| - 1 && forall k :: 0 <= k < |g| ==> g[k] == Abs(s[k] - s[k + 1])
  {
    seq(|s| - 1, k requires 0 <= k < |s| - 1 => Abs(s[k] - s[k + 1]))
  }

  /** The positions, ascending, where a gap reaches the threshold. */
  function AtLeast(g: seq<real>, t: real): (w: seq<nat>)
    ensures forall k :: 0 <= k < |w| ==> w[k] < |g| && g[w[k]] >= t
    ensures forall k :: 0 <= k < |g| && g[k] >= t ==> k in w
    ensures forall a, b :: 0 <= a < b < |w| ==> w[a] < w[b]
  {
    if g == [] then []
    else
      var w := AtLeast(g[..|g| - 1], t);
      if g[|g| - 1] >= t then w + [|g| - 1] else w
  }

  /** Line 1036: 360 minus the second largest gap (minus the only gap for two points). */
  function WrapThreshold(g: seq<real>): real
    requires |g| >= 1
  {
    if |g| >= 2 then 360.0 - SecondLargest(g) else 360.0 - g[0]
  }

  /**
   * Lines 1034-1038: the gaps that wrap around, that is the positions k,
   * ascending, where |s[k] - s[k+1]| reaches the threshold.
   */
  function WrapPositions(s: seq<real>): (w: seq<nat>)
    ensures |s| <= 1 ==> w == []
    ensures forall k :: 0 <= k < |w| ==> w[k] < |s| - 1
    ensures forall a, b :: 0 <= a < b < |w| ==> w[a] < w[b]
  {
    if |s| <= 1 then []
    else
      var g := Gaps(s);
      var thresh := if |s| > 2 then 360.0 - SecondLargest(g) else 360.0 - g[0];
      AtLeast(g, thresh)
  }

  /** A position wraps exactly when the gap there reaches the threshold of line 1036. */
  lemma WrapPositionsMeans(s: seq<real>)
    requires |s| >= 2
    ensures forall k :: 0 <= k < |s| - 1 ==>
      (k in WrapPositions(s) <==> Abs(s[k] - s[k + 1]) >= WrapThreshold(Gaps(s)))
  {
    var w := WrapPositions(s);
    var g := Gaps(s);
    assert w == AtLeast(g, WrapThreshold(g));
    assert forall k :: k in w ==> k < |g| && g[k] >= WrapThreshold(g);
  }

  /** Where `np.roll(s, shift)` starts reading: element j comes from (j - shift) mod |s|. */
  function RollStart(n: nat, shift: int): (m: nat)
    requires n > 0
    ensures m < n
  {
    (-shift) % n
  }

  /** `np.roll(s, shift)`: every element moves `shift` places on, wrapping around. */
  function Roll(s: seq<real>, shift: int): (r: seq<real>)
    ensures |r| == |s|
  {
    if s == [] then [] else s[RollStart(|s|, shift)..] + s[..RollStart(|s|, shift)]
  }

  /** Element j of the rolled sequence is s[j + m], wrapping past the end, for m the start. */
  lemma RollAt(s: seq<real>, shift: int)
    requires s != []
    ensures var r := Roll(s, shift); var m := RollStart(|s|, shift);
      && (forall j :: 0 <= j < |s| - m ==> r[j] == s[j + m])
      && (forall j :: |s| - m <= j < |s| ==> r[j] == s[j + m - |s|])
  {
  }

  /** Rolling only rearranges: it is the same multiset of values. */
  lemma RollPermutes(s: seq<real>, shift: int)
    ensures multiset(Roll(s, shift)) == multiset(s)
  {
    if s != [] {
      var m := RollStart(|s|, shift);
      assert s == s[..m] + s[m..];
    }
  }

  /** Data after shiftdata: plain, or masked where the longitude was out of range. */
  datatype Data = Plain(values: seq<real>) | Masked(values: seq<real>, mask: seq<bool>)

  datatype Shifted = Shifted(lons: seq<real>, data: Option<Data>)

  /** The value a masked-out longitude is replaced with. */
  const Huge: real := 1.0e30

  predicate InRegion(x: real, lon0: real)
  {
    lon0 - 180.0 <= x <= lon0 + 180.0
  }

  /**
   * Lines 1042-1065: the reindexing when exactly one gap wraps (and the
   * caller asked for it); the cyclic point, if present, is taken off, the
   * rest rolled, and the point put back 360 degrees below the new last.
   */
  function Reindex(s: seq<real>, d: Option<seq<real>>, w: nat): (r: (seq<real>, Option<seq<real>>))
    requires |s| >= 2 && d.Some? ==> |d.value| == |s|
    requires |s| >= 2 && w < |s| - 1
    ensures |r.0| == |s| && (d.Some? <==> r.1.Some?) && (r.1.Some? ==> |r.1.value| == |s|)
  {
    var cyclic := Abs(s[0] - s[|s| - 1]) < WrapTolerance;
    var shift := |s| - w - 1;
    (Rearrange(s, cyclic, shift, 360.0),
     match d case None => None case Some(v) => Some(Rearrange(v, cyclic, shift, 0.0)))
  }

  /**
   * What lines 1042-1065 do to the longitudes (`below` 360) and to the
   * data (`below` 0): roll, after taking off the cyclic point if there is one.
   */
  function Rearrange(v: seq<real>, cyclic: bool, shift: int, below: real): (x: seq<real>)
    requires |v| >= 2
    ensures |x| == |v|
  {
    if cyclic then RollRestore(v[1..], shift, below) else Roll(v, shift)
  }

  /** Rolling n elements by n - m places starts reading at m. */
  lemma RollStartAfter(n: nat, m: nat)
    requires m < n
    ensures RollStart(n, n - m) == m
  {
  }

  /**
   * Without a cyclic point the reindexing rotates the longitudes so that
   * the one just after the wrapping gap, s[w + 1], comes first and s[w]
   * last; the data moves with them.
   */
  lemma ReindexRotates(s: seq<real>, d: Option<seq<real>>, w: nat)
    requires |s| >= 2 && d.Some? ==> |d.value| == |s|
    requires |s| >= 2 && w < |s| - 1
    requires Abs(s[0] - s[|s| - 1]) >= WrapTolerance
    ensures var r := Reindex(s, d, w);
      && (forall j :: 0 <= j < |s| - w - 1 ==> r.0[j] == s[j + w + 1])
      && (forall j :: |s| - w - 1 <= j < |s| ==> r.0[j] == s[j + w + 1 - |s|])
      && (d.Some? ==> (forall j :: 0 <= j < |s| - w - 1 ==> r.1.value[j] == d.value[j + w + 1])
                      && (forall j :: |s| - w - 1 <= j < |s| ==> r.1.value[j] == d.value[j + w + 1 - |s|]))
  {
    var shift := |s| - w - 1;
    var r := Reindex(s, d, w);
    assert r.0 == Rearrange(s, false, shift, 360.0);
    RollStartAfter(|s|, w + 1);
    RollAt(s, shift);
    if d.Some? {
      assert r.1 == Some(Rearrange(d.value, false, shift, 0.0));
      RollAt(d.value, shift);
    }
  }

  /**
   * Lines 1050-1055 and 1059-1064: roll what is left once the cyclic point
   * is taken off, then put a copy of the new last element, lowered by
   * `below`, in front.
   */
  function RollRestore(t: seq<real>, shift: int, below: real): (x: seq<real>)
    requires |t| >= 1
    ensures |x| == |t| + 1
  {
    var rolled := Roll(t, shift);
    [rolled[|t| - 1] - below] + rolled
  }

  /**
   * With s[0] taken off and the rest rolled by |s| - 1 - w, element j > 0
   * of the result is s[j + w] until the end of s is reached, then wraps to
   * s[1]; the first element is the last one lowered by `below`.
   */
  lemma RollRestoreFrom(s: seq<real>, shift: int, w: nat, below: real)
    requires |s| >= 2 && w < |s| - 1 && shift == |s| - 1 - w
    ensures var x := RollRestore(s[1..], shift, below);
      && (forall j :: 1 <= j < |s| - w ==> x[j] == s[j + w])
      && (forall j :: |s| - w <= j < |s| ==> x[j] == s[j + w + 1 - |s|])
      && x[0] == x[|s| - 1] - below
      && (below == 0.0 ==> x[0] == x[|s| - 1])
  {
    var t := s[1..];
    RollStartAfter(|t|, w);
    RollAt(t, shift);
    var rolled := Roll(t, shift);
    var x := RollRestore(t, shift, below);
    assert x == [rolled[|t| - 1] - below] + rolled;
    forall j | 1 <= j < |s| - w
      ensures x[j] == s[j + w]
    {
      assert x[j] == rolled[j - 1] == t[j - 1 + w];
    }
    forall j | |s| - w <= j < |s|
      ensures x[j] == s[j + w + 1 - |s|]
    {
      assert x[j] == rolled[j - 1] == t[j - 1 + w - |t|];
    }
  }

  /**
   * With a cyclic point (the ends within 1e-4) the other longitudes are
   * rotated the same way, s[w + 1] first after the restored point, and
   * the point is put back in front, 360 degrees below the new last one.
   */
  lemma ReindexCyclic(s: seq<real>, d: Option<seq<real>>, w: nat)
    requires |s| >= 2 && d.Some? ==> |d.value| == |s|
    requires |s| >= 2 && w < |s| - 1
    requires Abs(s[0] - s[|s| - 1]) < WrapTolerance
    ensures var lons := Reindex(s, d, w).0;
      && (forall j :: 1 <= j < |s| - w ==> lons[j] == s[j + w])
      && (forall j :: |s| - w <= j < |s| ==> lons[j] == s[j + w + 1 - |s|])
      && lons[0] == lons[|s| - 1] - 360.0
  {
    var shift := |s| - w - 1;
    assert Reindex(s, d, w).0 == Rearrange(s, true, shift, 360.0);
    RollRestoreFrom(s, shift, w, 360.0);
  }

  /** With a cyclic point the data is rotated alongside, its first value repeating the last. */
  lemma ReindexCyclicData(s: seq<real>, d: seq<real>, w: nat)
    requires |s| >= 2 && |d| == |s| && w < |s| - 1
    requires Abs(s[0] - s[|s| - 1]) < WrapTolerance
    ensures var data := Reindex(s, Some(d), w).1.value;
      && (forall j :: 1 <= j < |d| - w ==> data[j] == d[j + w])
      && (forall j :: |d| - w <= j < |d| ==> data[j] == d[j + w + 1 - |d|])
      && data[0] == data[|d| - 1]
  {
    var shift := |d| - w - 1;
    assert Reindex(s, Some(d), w).1 == Some(Rearrange(d, true, shift, 0.0));
    RollRestoreFrom(d, shift, w, 0.0);
  }

  /** Lines 1069-1072: the out-of-region positions. */
  function OutMask(s: seq<real>, lon0: real): (m: seq<bool>)
    ensures |m| == |s| && forall k :: 0 <= k < |s| ==> m[k] == !InRegion(s[k], lon0)
  {
    seq(|s|, k requires 0 <= k < |s| => !InRegion(s[k], lon0))
  }

  function MaskOut(s: seq<real>, lon0: real): (r: seq<real>)
    ensures |r| == |s| && forall k :: 0 <= k < |s| ==> r[k] == (if InRegion(s[k], lon0) then s[k] else Huge)
  {
    seq(|s|, k requires 0 <= k < |s| => if InRegion(s[k], lon0) then s[k] else Huge)
  }

  /**
   * `shiftdata(lonsin, datain, lon_0, fix_wrap_around)` for 1-D longitudes
   * (and 1-D data of the same length): normalise every longitude, reindex
   * when exactly one gap wraps, then replace what is still out of the
   * region by 1e30 and mask the data there.  Two wrapping gaps make the
   * truth test of line 1042 raise.
   */
  function ShiftData(projparams: map<string, Param>, lonsin: seq<real>, datain: Option<seq<real>>,
                     lon0: Option<real>, fixWrapAround: bool): (r: Result<Shifted>)
    requires datain.Some? ==> |datain.value| == |lonsin|
    ensures lon0.None? && "lon_0" !in projparams ==> r == Err(ValueError)
    ensures r.Ok? ==> |r.value.lons| == |lonsin| && (r.value.data.Some? <==> datain.Some?)
  {
    var c :- ShiftDataChecks(projparams, 1, if datain.Some? then Some(1) else None, lon0);
    var s := NormalizeAll(lonsin, c);
    var w := WrapPositions(s);
    if fixWrapAround && |w| >= 2 then Err(ValueError)
    else
      var (lons, data) := if fixWrapAround && |w| == 1 then Reindex(s, datain, w[0]) else (s, datain);
      var m := OutMask(lons, c);
      var out := MaskOut(lons, c);
      Ok(Shifted(out, match data
        case None => None
        case Some(v) => if true in m then Some(Masked(v, m)) else Some(Plain(v))))
  }

  /**
   * After shiftdata every longitude lies in [lon0 - 180, lon0 + 180] or is
   * exactly 1e30, and data is masked exactly where the longitude was replaced.
   */
  lemma ShiftDataInRegion(projparams: map<string, Param>, lonsin: seq<real>, datain: Option<seq<real>>,
                          lon0: real, fixWrapAround: bool)
    requires datain.Some? ==> |datain.value| == |lonsin|
    requires ShiftData(projparams, lonsin, datain, Some(lon0), fixWrapAround).Ok?
    requires LonMin <= lon0 <= LonMax
    ensures var out := ShiftData(projparams, lonsin, datain, Some(lon0), fixWrapAround).value;
      && (forall k :: 0 <= k < |out.lons| ==> InRegion(out.lons[k], lon0) || out.lons[k] == Huge)
      && (out.data.Some? && out.data.value.Plain? ==>
            forall k :: 0 <= k < |out.lons| ==> InRegion(out.lons[k], lon0))
      && (out.data.Some? && out.data.value.Masked? ==>
            |out.data.value.mask| == |out.lons| &&
            forall k :: 0 <= k < |out.lons| ==> (out.data.value.mask[k] <==> out.lons[k] == Huge))
  {
    var s := NormalizeAll(lonsin, lon0);
    var w := WrapPositions(s);
    var p := if fixWrapAround && |w| == 1 then Reindex(s, datain, w[0]) else (s, datain);
    ShiftDataMasks(projparams, lonsin, datain, lon0, fixWrapAround);
    MaskOutFacts(p.0, lon0);
  }

  /**
   * The output of shiftdata is the masking of the (possibly reindexed)
   * normalised longitudes.  This only unfolds ShiftData step by step; it
   * exists to keep ShiftDataInRegion's proof small.
   */
  lemma ShiftDataMasks(projparams: map<string, Param>, lonsin: seq<real>, datain: Option<seq<real>>,
                       lon0: real, fixWrapAround: bool)
    requires datain.Some? ==> |datain.value| == |lonsin|
    requires ShiftData(projparams, lonsin, datain, Some(lon0), fixWrapAround).Ok?
    ensures var s := NormalizeAll(lonsin, lon0); var w := WrapPositions(s);
      var p := if fixWrapAround && |w| == 1 then Reindex(s, datain, w[0]) else (s, datain);
      var out := ShiftData(projparams, lonsin, datain, Some(lon0), fixWrapAround).value;
      && out.lons == MaskOut(p.0, lon0)
      && (out.data.Some? && out.data.value.Masked? ==> out.data.value.mask == OutMask(p.0, lon0))
      && (out.data.Some? && out.data.value.Plain? ==> true !in OutMask(p.0, lon0))
  {
  }

  /** Replacing what lies outside the region by 1e30 marks exactly the masked positions. */
  lemma MaskOutFacts(s: seq<real>, lon0: real)
    requires LonMin <= lon0 <= LonMax
    ensures var out := MaskOut(s, lon0); var m := OutMask(s, lon0);
      && (forall k :: 0 <= k < |s| ==> InRegion(out[k], lon0) || out[k] == Huge)
      && (forall k :: 0 <= k < |s| ==> (m[k] <==> out[k] == Huge))
      && (true !in m ==> forall k :: 0 <= k < |s| ==> InRegion(out[k], lon0))
  {
    var m := OutMask(s, lon0);
    if true !in m {
      assert forall k :: 0 <= k < |s| ==> !m[k];
    }
  }

  /**
   * Without a wrapping gap to repair (or when the caller turns repair off)
   * the longitudes are only normalised, one 360-degree shift at most, and
   * keep their order; values in [lon0 - 540, lon0 + 540] all end in the region.
   */
  lemma ShiftDataNoReindex(projparams: map<string, Param>, lonsin: seq<real>, lon0: real)
    requires ShiftData(projparams, lonsin, None, Some(lon0), false).Ok?
    ensures var out := ShiftData(projparams, lonsin, None, Some(lon0), false).value;
      forall k :: 0 <= k < |lonsin| && lon0 - 540.0 <= lonsin[k] <= lon0 + 540.0 ==>
        out.lons[k] == Normalize(lonsin[k], lon0)
  {
  }

  /**
   * Reindexing without a cyclic point only rotates the normalised
   * longitudes (and the data alongside them), so no value is lost or added.
   */
  lemma ReindexPermutes(s: seq<real>, d: seq<real>, w: nat)
    requires |s| >= 2 && |d| == |s| && w < |s| - 1
    requires Abs(s[0] - s[|s| - 1]) >= WrapTolerance
    ensures multiset(Reindex(s, Some(d), w).0) == multiset(s)
    ensures multiset(Reindex(s, Some(d), w).1.value) == multiset(d)
  {
    var shift := |s| - w - 1;
    assert Reindex(s, Some(d), w) == (Rearrange(s, false, shift, 360.0), Some(Rearrange(d, false, shift, 0.0)));
    RollPermutes(s, shift);
    RollPermutes(d, shift);
  }

  // -----------------------------------------------------------------------
  // _getmapboundary: longitude unwrap and bounds
  // -----------------------------------------------------------------------

  /** The correction of line 647-651 for one longitude given the previous (corrected) one. */
  function UnwrapStep(lon: real, prev: real): (r: real)
    ensures Abs(lon - prev) > 90.0 && prev < 0.0 ==> r == lon - 360.0
    ensures Abs(lon - prev) > 90.0 && prev >= 0.0 ==> r == lon + 360.0
    ensures Abs(lon - prev) <= 90.0 ==> r == lon
  {
    if Abs(lon - prev) > 90.0 then (if prev < 0.0 then lon - 360.0 else lon + 360.0) else lon
  }

  /**
   * `out` is `orig` unwrapped over its first `count` entries: the first
   * is kept, each later one is corrected against its corrected predecessor,
   * and entries from `count` on are not touched.
   */
  predicate IsUnwrapOf(orig: seq<real>, out: seq<real>, count: nat)
  {
    && |out| == |orig| && |orig| > 0
    && out[0] == orig[0]
    && (forall n :: 1 <= n < |orig| && n < count ==> out[n] == UnwrapStep(orig[n], out[n - 1]))
    && (forall n :: 1 <= n < |orig| && n >= count ==> out[n] == orig[n])
  }

  /** Each unwrapped longitude differs from the original by 0 or by 360 degrees either way. */
  lemma UnwrapShiftsBy360(orig: seq<real>, out: seq<real>, count: nat, n: nat)
    requires IsUnwrapOf(orig, out, count) && n < |orig|
    ensures out[n] - orig[n] in {0.0, 360.0, -360.0}
    ensures n > 0 && n < count ==> (out[n] != orig[n] <==> Abs(orig[n] - out[n - 1]) > 90.0)
  {
  }

  /**
   * Lines 644-654 in place: `lons[n]` is corrected for n = 1, 2, ... while
   * there is a matching latitude (`zip` stops at the shorter list); an
   * empty array raises at `lons[0]`.
   */
  method UnwrapLons(lons: array<real>, latCount: nat) returns (r: Result<()>)
    modifies lons
    ensures lons.Length == 0 <==> r == Err(IndexError)
    ensures r.Err? ==> lons[..] == old(lons[..])
    ensures r.Ok? ==> IsUnwrapOf(old(lons[..]), lons[..], latCount)
  {
    if lons.Length == 0 {
      return Err(IndexError);
    }
    ghost var orig := lons[..];
    var lonprev := lons[0];
    var n := 1;
    while n < lons.Length && n < latCount
      invariant 1 <= n <= lons.Length
      invariant n == 1 || n <= latCount
      invariant lons[0] == orig[0] && lonprev == lons[n - 1]
      invariant forall k :: 1 <= k < n ==> lons[k] == UnwrapStep(orig[k], lons[k - 1])
      invariant forall k :: n <= k < lons.Length ==> lons[k] == orig[k]
    {
      var lon := lons[n];
      if Abs(lon - lonprev) > 90.0 {
        if lonprev < 0.0 {
          lon := lon - 360.0;
        } else {
          lon := lon + 360.0;
        }
      }
      lons[n] := lon;
      lonprev := lon;
      n := n + 1;
    }
    return Ok(());
  }

  function MinOf(s: seq<real>): (m: real)
    requires |s| > 0
    ensures m in s && forall k :: 0 <= k < |s| ==> m <= s[k]
  {
    if |s| == 1 then s[0]
    else
      var m := MinOf(s[..|s| - 1]);
      assert forall k :: 0 <= k < |s| - 1 ==> s[..|s| - 1][k] == s[k];
      if s[|s| - 1] < m then s[|s| - 1] else m
  }

  /**
   * Lines 655-663: the boundary's longitude range, widened to the whole
   * world for a full disk whose boundary spans less than a degree.
   */
  function BoundaryLonRange(lons: seq<real>, fulldisk: bool): (r: Result<(real, real)>)
    ensures lons == [] <==> r == Err(ValueError)
    ensures r.Ok? ==> r.value.0 <= r.value.1
    ensures r.Ok? && fulldisk && MaxOf(lons) - MinOf(lons) < 1.0 ==> r.value == (-180.0, 180.0)
    ensures r.Ok? && !(fulldisk && MaxOf(lons) - MinOf(lons) < 1.0) ==>
      r.value.0 in lons && r.value.1 in lons &&
      forall k :: 0 <= k < |lons| ==> r.value.0 <= lons[k] <= r.value.1
  {
    if lons == [] then Err(ValueError)
    else
      var lo, hi := MinOf(lons), MaxOf(lons);
      if fulldisk && Abs(hi - lo) < 1.0 then Ok((-180.0, 180.0)) else Ok((lo, hi))
  }
}
