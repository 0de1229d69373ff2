/**
 * The viewer tab of widgets/tab.py without its drawing: reading a
 * manifest into `confParams`, rebuilding the axes, finding the tile of the
 * current grid position, the drag state machine that moves the position
 * with wrap-around, and the lookup of a position from slider values.
 */
module Viewer {
  import opened Py
  import opened Grid
  import Tools

  // -----------------------------------------------------------------------
  // loadYAML, as a function of the parsed manifest
  // -----------------------------------------------------------------------

  /** The keys loadYAML insists on, in the order it checks them. */
  const RequiredKeys: seq<string> := ["lat min", "lat max", "long min", "long max", "step"]

  predicate HasRequired(d: map<string, Value>)
  {
    "lat min" in d && "lat max" in d && "long min" in d && "long max" in d && "step" in d
  }

  /**
   * Python's `a < b` on two strings: the first differing character decides,
   * and a proper prefix comes first.
   */
  function StrLess(a: string, b: string): bool
  {
    if b == [] then false
    else if a == [] then true
    else if a[0] != b[0] then a[0] < b[0]
    else StrLess(a[1..], b[1..])
  }

  /**
   * Lexicographic order spelled out: `a` comes before `b` exactly when it
   * is a proper prefix of `b`, or the two agree up to a position where
   * `a` holds the smaller character.
   */
  lemma {:induction false} StrLessMeans(a: string, b: string)
    ensures StrLess(a, b) <==>
      (a < b || exists k :: 0 <= k < |a| && k < |b| && a[..k] == b[..k] && a[k] < b[k])
  {
    if b == [] {
    } else if a == [] {
      assert a < b;
    } else if a[0] != b[0] {
      if a[0] < b[0] {
        assert a[..0] == b[..0];
      } else {
        assert !(a < b);
        assert forall k :: 0 < k <= |a| && k <= |b| ==> a[..k][0] == a[0] && b[..k][0] == b[0];
        assert forall k :: 0 <= k < |a| && k < |b| && a[..k] == b[..k] ==> k == 0;
      }
    } else {
      StrLessMeans(a[1..], b[1..]);
      if a < b {
        assert a[1..] < b[1..];
      }
      if a[1..] < b[1..] {
        assert a == [a[0]] + a[1..] && b == [b[0]] + b[1..];
      }
      forall k | 0 <= k < |a| && k < |b| && a[..k] == b[..k] && a[k] < b[k]
        ensures 0 <= k - 1 < |a[1..]| && k - 1 < |b[1..]| && a[1..][..k - 1] == b[1..][..k - 1]
             && a[1..][k - 1] < b[1..][k - 1]
      {
        assert k != 0;
        assert a[1..][..k - 1] == a[..k][1..];
        assert b[1..][..k - 1] == b[..k][1..];
      }
      forall k | 0 <= k < |a[1..]| && k < |b[1..]| && a[1..][..k] == b[1..][..k] && a[1..][k] < b[1..][k]
        ensures 0 <= k + 1 < |a| && k + 1 < |b| && a[..k + 1] == b[..k + 1] && a[k + 1] < b[k + 1]
      {
        assert a[..k + 1] == [a[0]] + a[1..][..k];
        assert b[..k + 1] == [b[0]] + b[1..][..k];
      }
    }
  }

  /**
   * Python's `a >= b` on two numbers or two strings; an int, float or bool
   * against a string, or None, raises TypeError.
   */
  function GreaterEq(a: Value, b: Value): (r: Result<bool>)
    ensures r.Ok? <==> (IsNumber(a) && IsNumber(b)) || (a.StrV? && b.StrV?)
    ensures IsNumber(a) && IsNumber(b) ==> r == Ok(NumberOf(a) >= NumberOf(b))
    ensures a.StrV? && b.StrV? ==> r == Ok(!StrLess(a.s, b.s))
    ensures r.Err? ==> r.error == TypeError
  {
    if IsNumber(a) && IsNumber(b) then Ok(NumberOf(a) >= NumberOf(b))
    else if a.StrV? && b.StrV? then Ok(!StrLess(a.s, b.s))
    else Err(TypeError)
  }

  /**
   * Lines 192-202 let the manifest through: each pair of bounds compares
   * and is increasing, and the step compares with 0 and is positive.
   */
  predicate ChecksPass(d: map<string, Value>)
    requires HasRequired(d)
  {
    && GreaterEq(d["lat min"], d["lat max"]) == Ok(false)
    && GreaterEq(d["long min"], d["long max"]) == Ok(false)
    && GreaterEq(IntV(0), d["step"]) == Ok(false)
  }

  /** The bounds and step are numbers, each pair is increasing and the step positive. */
  predicate ValidBounds(d: map<string, Value>)
    requires HasRequired(d)
  {
    && IsNumber(d["lat min"]) && IsNumber(d["lat max"])
    && IsNumber(d["long min"]) && IsNumber(d["long max"]) && IsNumber(d["step"])
    && NumberOf(d["lat min"]) < NumberOf(d["lat max"])
    && NumberOf(d["long min"]) < NumberOf(d["long max"])
    && NumberOf(d["step"]) > 0.0
  }

  /** A pair of bounds past the checks: two increasing numbers, or two strings. */
  predicate PairPasses(lo: Value, hi: Value)
  {
    (IsNumber(lo) && IsNumber(hi) && NumberOf(lo) < NumberOf(hi)) || (lo.StrV? && hi.StrV?)
  }

  /**
   * The checks let through numeric bounds exactly when they are valid, and
   * otherwise only pairs of strings, always with a positive numeric step.
   */
  lemma ChecksPassMeans(d: map<string, Value>)
    requires HasRequired(d)
    ensures ValidBounds(d) ==> ChecksPass(d)
    ensures ChecksPass(d) ==>
      && IsNumber(d["step"]) && NumberOf(d["step"]) > 0.0
      && PairPasses(d["long min"], d["long max"]) && PairPasses(d["lat min"], d["lat max"])
  {
  }

  /** The start position, when given, converts with `int()`. */
  predicate StartConverts(d: map<string, Value>)
  {
    ("x0" in d ==> Int(d["x0"]).Ok?) && ("y0" in d ==> Int(d["y0"]).Ok?)
  }

  /** The start index stored for `key`: `int()` of the given value, or 0. */
  function StartIndex(d: map<string, Value>, key: string): int
    requires key in d ==> Int(d[key]).Ok?
  {
    if key in d then Int(d[key]).value else 0
  }

  /**
   * Lines 204-215: the start position converted or defaulted to 0, and the
   * unit defaulted; a failing `int()` leaves the dictionary as far as it got.
   */
  function WithDefaults(d: map<string, Value>): (r: (map<string, Value>, Result<()>))
    ensures r.1.Ok? <==> ("x0" in d ==> Int(d["x0"]).Ok?) && ("y0" in d ==> Int(d["y0"]).Ok?)
    ensures "x0" in d && Int(d["x0"]).Err? ==> r == (d, Err(Int(d["x0"]).error))
    ensures ("x0" in d ==> Int(d["x0"]).Ok?) && "y0" in d && Int(d["y0"]).Err? ==>
      r == (d["x0" := IntV(StartIndex(d, "x0"))], Err(Int(d["y0"]).error))
  {
    var x0 := if "x0" !in d then Ok(0) else Int(d["x0"]);
    if x0.Err? then (d, Err(x0.error))
    else
      var d1 := d["x0" := IntV(x0.value)];
      var y0 := if "y0" !in d1 then Ok(0) else Int(d1["y0"]);
      if y0.Err? then (d1, Err(y0.error))
      else
        var d2 := d1["y0" := IntV(y0.value)];
        (if "unit" in d2 then d2 else d2["unit" := StrV(Tools.DefaultUnit)], Ok(()))
  }

  /**
   * The dictionary `loadYAML` leaves in `confParams` and its outcome, for
   * the parsed manifest `parsed` (lines 184-215).  A missing key empties
   * the dictionary and raises IOError; inverted bounds empty it and the
   * error message, reading the emptied dictionary, raises KeyError; a
   * step that is not positive empties it and raises ValueError.
   */
  function LoadConf(parsed: map<string, Value>): (r: (map<string, Value>, Result<()>))
    ensures !HasRequired(parsed) ==> r == (map[], Err(IOError))
    ensures r.1.Ok? <==> HasRequired(parsed) && ChecksPass(parsed) && StartConverts(parsed)
    ensures r.1 == Err(KeyError) ==> r.0 == map[]
  {
    if !HasRequired(parsed) then (map[], Err(IOError))
    else match GreaterEq(parsed["lat min"], parsed["lat max"])
      case Err(e) => (parsed, Err(e))
      case Ok(inverted) =>
        if inverted then (map[], Err(KeyError))
        else match GreaterEq(parsed["long min"], parsed["long max"])
          case Err(e) => (parsed, Err(e))
          case Ok(inverted) =>
            if inverted then (map[], Err(KeyError))
            else match GreaterEq(IntV(0), parsed["step"])
              case Err(e) => (parsed, Err(e))
              case Ok(nonPositive) =>
                if nonPositive then (map[], Err(ValueError))
                else WithDefaults(parsed)
  }

  /** Lines 192-202: which error each rejected manifest raises, and that it empties `confParams`. */
  lemma LoadConfRejects(parsed: map<string, Value>)
    requires HasRequired(parsed)
    requires IsNumber(parsed["lat min"]) && IsNumber(parsed["lat max"])
    requires IsNumber(parsed["long min"]) && IsNumber(parsed["long max"]) && IsNumber(parsed["step"])
    ensures NumberOf(parsed["lat min"]) >= NumberOf(parsed["lat max"]) ==>
      LoadConf(parsed) == (map[], Err(KeyError))
    ensures NumberOf(parsed["lat min"]) < NumberOf(parsed["lat max"]) &&
            NumberOf(parsed["long min"]) >= NumberOf(parsed["long max"]) ==>
      LoadConf(parsed) == (map[], Err(KeyError))
    ensures NumberOf(parsed["lat min"]) < NumberOf(parsed["lat max"]) &&
            NumberOf(parsed["long min"]) < NumberOf(parsed["long max"]) &&
            NumberOf(parsed["step"]) <= 0.0 ==>
      LoadConf(parsed) == (map[], Err(ValueError))
  {
  }

  /**
   * Lines 204-215: a loaded manifest gains x0, y0 (converted by `int()` or
   * 0) and unit (default '°'); every other key keeps its value.
   */
  lemma LoadConfDefaults(parsed: map<string, Value>)
    requires LoadConf(parsed).1.Ok?
    ensures var d := LoadConf(parsed).0;
      && d.Keys == parsed.Keys + {"x0", "y0", "unit"}
      && d["x0"] == IntV(StartIndex(parsed, "x0"))
      && d["y0"] == IntV(StartIndex(parsed, "y0"))
      && d["unit"] == (if "unit" in parsed then parsed["unit"] else StrV(Tools.DefaultUnit))
      && forall k :: k in parsed && k !in {"x0", "y0", "unit"} ==> d[k] == parsed[k]
  {
    assert LoadConf(parsed) == WithDefaults(parsed);
  }

  /** Lines 220-223: the viewer's axis over two numeric bounds, with a positive step. */
  function ViewerAxis(d: map<string, Value>, lo: string, hi: string): (s: seq<real>)
    requires HasRequired(d) && IsNumber(d["step"]) && NumberOf(d["step"]) > 0.0
    requires lo in d && hi in d && IsNumber(d[lo]) && IsNumber(d[hi])
    ensures Axis(NumberOf(d[lo]), NumberOf(d[hi]), NumberOf(d["step"])) == Ok(s)
  {
    AxisShape(NumberOf(d[lo]), NumberOf(d[hi]), NumberOf(d["step"]));
    Axis(NumberOf(d[lo]), NumberOf(d[hi]), NumberOf(d["step"])).value
  }

  /** Increasing bounds give each axis at least two points. */
  lemma ViewerAxesLong(d: map<string, Value>)
    requires HasRequired(d) && ValidBounds(d)
    ensures |ViewerAxis(d, "long min", "long max")| >= 2
    ensures |ViewerAxis(d, "lat min", "lat max")| >= 2
  {
    AxisShape(NumberOf(d["long min"]), NumberOf(d["long max"]), NumberOf(d["step"]));
    AxisShape(NumberOf(d["lat min"]), NumberOf(d["lat max"]), NumberOf(d["step"]));
  }

  // -----------------------------------------------------------------------
  // The generator's manifest, read back
  // -----------------------------------------------------------------------

  /** The dictionary `yaml.load` gives back for a record `writeYAML` dumped. */
  function YamlDict(rec: Tools.Record): map<string, Value>
  {
    map["x0" := FloatV(rec.x0), "y0" := FloatV(rec.y0),
        "lat min" := FloatV(rec.latMin), "lat max" := FloatV(rec.latMax),
        "long min" := FloatV(rec.longMin), "long max" := FloatV(rec.longMax),
        "step" := rec.step, "unit" := StrV(rec.unit)]
  }

  /**
   * A plan whose axes are stepped axes of at least two points, and whose
   * record holds their ends and the default start position, loads in the
   * viewer and rebuilds the same axes.
   */
  lemma PlanRoundTrip(p: Tools.Plan, lonLo: real, lonHi: real, latLo: real, latHi: real, step: Value)
    requires IsNumber(step) && NumberOf(step) > 0.0
    requires Axis(lonLo, lonHi, NumberOf(step)) == Ok(p.allLong)
    requires Axis(latLo, latHi, NumberOf(step)) == Ok(p.allLat)
    requires p.lenLong == |p.allLong| - 1 >= 1 && p.lenLat == |p.allLat| - 1 >= 1
    requires p.manifest.record.latMin == p.allLat[0] && p.manifest.record.latMax == p.allLat[p.lenLat]
    requires p.manifest.record.longMin == p.allLong[0] && p.manifest.record.longMax == p.allLong[p.lenLong]
    requires p.manifest.record.step == step
    requires p.manifest.record.x0 == 0.0 && p.manifest.record.y0 == p.lenLat as real
    ensures var d := YamlDict(p.manifest.record);
      && HasRequired(d) && ValidBounds(d) && LoadConf(d).1 == Ok(())
      && "x0" in LoadConf(d).0 && "y0" in LoadConf(d).0
      && LoadConf(d).0["x0"] == IntV(0) && LoadConf(d).0["y0"] == IntV(p.lenLat)
      && ViewerAxis(d, "long min", "long max") == p.allLong
      && ViewerAxis(d, "lat min", "lat max") == p.allLat
  {
    var s := NumberOf(step);
    Tools.AxisIncreasing(lonLo, lonHi, s, p.allLong);
    Tools.AxisIncreasing(latLo, latHi, s, p.allLat);
    assert p.allLong[0] < p.allLong[p.lenLong] && p.allLat[0] < p.allLat[p.lenLat];
    RecordLoads(p.manifest.record, p.lenLat);
    var d := YamlDict(p.manifest.record);
    AxisFromEnds(lonLo, lonHi, s, p.allLong);
    AxisFromEnds(latLo, latHi, s, p.allLat);
  }

  /** A record with increasing bounds, a positive step and a start at (0, n) loads at (0, n). */
  lemma RecordLoads(rec: Tools.Record, n: nat)
    requires rec.latMin < rec.latMax && rec.longMin < rec.longMax
    requires IsNumber(rec.step) && NumberOf(rec.step) > 0.0
    requires rec.x0 == 0.0 && rec.y0 == n as real
    ensures var d := YamlDict(rec);
      && HasRequired(d) && ValidBounds(d) && LoadConf(d).1 == Ok(())
      && "x0" in LoadConf(d).0 && "y0" in LoadConf(d).0
      && LoadConf(d).0["x0"] == IntV(0) && LoadConf(d).0["y0"] == IntV(n)
  {
    var d := YamlDict(rec);
    assert HasRequired(d);
    assert ValidBounds(d);
    LoadConfDefaults(d);
    assert Trunc(0.0) == 0 && Trunc(n as real) == n;
  }

  /**
   * A manifest written by `projection` with default start position and at
   * least two longitudes and two latitudes loads in the viewer: it starts
   * at grid position (0, lenLat), rebuilds exactly the generator's axes,
   * and so counts one more point per axis than the generator's lenLong
   * and lenLat.
   */
  lemma ManifestRoundTrip(dataShape: seq<nat>, name: Value, directory: Value,
                          limLatitude: Value, limLongitude: Value,
                          step: Value, numThreads: Value, p: Tools.Plan)
    requires Tools.Projection(dataShape, name, directory, limLatitude, limLongitude, step, numThreads, NoneV) == Ok(p)
    requires NumberOf(step) > 0.0 && |p.allLong| >= 2 && |p.allLat| >= 2
    ensures var d := YamlDict(p.manifest.record);
      && HasRequired(d) && ValidBounds(d) && LoadConf(d).1 == Ok(())
      && "x0" in LoadConf(d).0 && "y0" in LoadConf(d).0
      && LoadConf(d).0["x0"] == IntV(0) && LoadConf(d).0["y0"] == IntV(p.lenLat)
      && ViewerAxis(d, "long min", "long max") == p.allLong
      && ViewerAxis(d, "lat min", "lat max") == p.allLat
      && |ViewerAxis(d, "long min", "long max")| == p.lenLong + 1
      && |ViewerAxis(d, "lat min", "lat max")| == p.lenLat + 1
  {
    Tools.ProjectionAxes(dataShape, name, directory, limLatitude, limLongitude, step, numThreads, NoneV, p);
    Tools.ProjectionManifest(dataShape, name, directory, limLatitude, limLongitude, step, numThreads, NoneV, p);
    PlanRoundTrip(p, NumberOf(limLongitude.items[0]), NumberOf(limLongitude.items[1]),
                  NumberOf(limLatitude.items[0]), NumberOf(limLatitude.items[1]), step);
  }

  /**
   * A projection over a single latitude (equal latitude bounds) writes a
   * manifest whose two latitude bounds are equal, which the viewer refuses.
   */
  lemma SingleRowManifestRejected(dataShape: seq<nat>, name: Value, directory: Value,
                                  limLatitude: Value, limLongitude: Value,
                                  step: Value, numThreads: Value, p: Tools.Plan)
    requires Tools.Projection(dataShape, name, directory, limLatitude, limLongitude, step, numThreads, NoneV) == Ok(p)
    requires |p.allLat| == 1
    ensures LoadConf(YamlDict(p.manifest.record)) == (map[], Err(KeyError))
  {
    Tools.ProjectionAxes(dataShape, name, directory, limLatitude, limLongitude, step, numThreads, NoneV, p);
    Tools.ProjectionManifest(dataShape, name, directory, limLatitude, limLongitude, step, numThreads, NoneV, p);
    EqualLatitudesRejected(p.manifest.record);
  }

  /** A record whose latitude bounds are equal is refused with KeyError. */
  lemma EqualLatitudesRejected(rec: Tools.Record)
    requires rec.latMin == rec.latMax
    ensures LoadConf(YamlDict(rec)) == (map[], Err(KeyError))
  {
    var d := YamlDict(rec);
    assert HasRequired(d);
    assert GreaterEq(d["lat min"], d["lat max"]) == Ok(true);
  }

  // -----------------------------------------------------------------------
  // Tile lookup
  // -----------------------------------------------------------------------

  /** `'%d' % v`. */
  function FormatD(v: Value): (r: Result<string>)
    ensures v.IntV? ==> r == Ok(IntToString(v.i))
    ensures r.Err? <==> !IsNumber(v)
  {
    match v
    case IntV(i) => Ok(IntToString(i))
    case BoolV(b) => Ok(if b then "1" else "0")
    case FloatV(x) => Ok(IntToString(Trunc(x)))
    case _ => Err(TypeError)
  }

  /** `glob(prefix + '*')` keeps `f`: it starts with the prefix, and the rest stays in the same directory. */
  predicate GlobMatch(prefix: string, f: string)
  {
    prefix <= f && '/' !in f[|prefix|..]
  }

  /** The first of the listed files the pattern keeps. */
  function FirstMatch(prefix: string, listing: seq<string>): (r: Option<string>)
    ensures r.None? <==> forall k :: 0 <= k < |listing| ==> !GlobMatch(prefix, listing[k])
    ensures r.Some? ==> r.value in listing && GlobMatch(prefix, r.value)
  {
    if listing == [] then None
    else if GlobMatch(prefix, listing[0]) then Some(listing[0])
    else FirstMatch(prefix, listing[1..])
  }

  /**
   * The prefix line 116 globs for: the manifest path without its
   * extension, '_', the position's two indices separated by ',', then
   * anything.  A position that `'%d'` cannot format raises TypeError.
   */
  function TilePatternAsWritten(yaml: string, x0: Value, y0: Value): (r: Result<string>)
    ensures r.Ok? <==> IsNumber(x0) && IsNumber(y0)
    ensures r.Err? ==> r.error == TypeError
    ensures x0.IntV? && y0.IntV? ==>
      r == Ok(SplitExt(yaml).0 + "_" + IntToString(x0.i) + "," + IntToString(y0.i))
  {
    var x :- FormatD(x0);
    var y :- FormatD(y0);
    Ok(SplitExt(yaml).0 + "_" + x + "," + y)
  }

  /** The prefix with the point that ends the latitude index, so that no other tile matches. */
  function TilePattern(yaml: string, x0: Value, y0: Value): (r: Result<string>)
    ensures r.Ok? <==> IsNumber(x0) && IsNumber(y0)
    ensures r.Ok? ==> r.value == TilePatternAsWritten(yaml, x0, y0).value + "."
  {
    var p :- TilePatternAsWritten(yaml, x0, y0);
    Ok(p + ".")
  }

  /** Characters of a decimal integer: a sign or digits, never a separator. */
  predicate NumeralChars(s: string)
  {
    forall k :: 0 <= k < |s| ==> s[k] == '-' || IsDigit(s[k])
  }

  /**
   * On the strings themselves: the pattern `stem_X,Y.` keeps the tile name
   * `stem_I,Q.jpg` exactly when X == I and Y == Q.
   */
  lemma GlobTileExact(stem: string, X: string, Y: string, I: string, Q: string)
    requires NumeralChars(X) && NumeralChars(Y) && NumeralChars(I) && NumeralChars(Q)
    ensures GlobMatch(stem + "_" + X + "," + Y + ".", stem + "_" + I + "," + Q + ".jpg")
            <==> X == I && Y == Q
  {
    var P := stem + "_" + X + "," + Y + ".";
    var T := stem + "_" + I + "," + Q + ".jpg";
    if X == I && Y == Q {
      assert T == P + "jpg";
      assert T[|P|..] == "jpg";
    }
    if GlobMatch(P, T) {
      var n := |stem| + 1;
      assert P == T[..|P|];
      assert P[n..] == T[n..|P|];
      assert P[n..] <= T[n..];
      assert P[n..] == X + [','] + (Y + ".");
      assert T[n..] == I + [','] + (Q + ".jpg");
      assert ',' !in X && ',' !in I;
      SplitPrefix(X, Y + ".", I, Q + ".jpg", ',');
      assert Y + "." == Y + ['.'] + [] && Q + ".jpg" == Q + ['.'] + "jpg";
      assert '.' !in Y && '.' !in Q;
      SplitPrefix(Y, [], Q, "jpg", '.');
    }
  }

  /**
   * The corrected pattern for position (x, y) of a manifest finds the tile
   * a worker of that manifest writes for (i, pos) exactly when (x, y) == (i, pos).
   */
  lemma TilePatternExact(w: Tools.Worker, x: int, y: int, i: int, pos: int)
    ensures GlobMatch(TilePattern(PathJoin(w.directory, w.name), IntV(x), IntV(y)).value,
                      Tools.TileName(Tools.TileStem(w), i, pos))
            <==> x == i && y == pos
  {
    var stem := Tools.TileStem(w);
    var X, Y, I, Q := IntToString(x), IntToString(y), IntToString(i), IntToString(pos);
    assert TilePattern(PathJoin(w.directory, w.name), IntV(x), IntV(y)).value == stem + "_" + X + "," + Y + ".";
    assert Tools.TileName(stem, i, pos) == stem + "_" + I + "," + Q + ".jpg";
    GlobTileExact(stem, X, Y, I, Q);
    if X == I {
      IntToStringInjective(x, i);
    }
    if Y == Q {
      IntToStringInjective(y, pos);
    }
  }

  /** As written, the pattern for position (0, 1) also catches the tile of (0, 10). */
  lemma TilePatternAsWrittenAmbiguous(w: Tools.Worker)
    ensures GlobMatch(TilePatternAsWritten(PathJoin(w.directory, w.name), IntV(0), IntV(1)).value,
                      Tools.TileName(Tools.TileStem(w), 0, 10))
  {
    var stem := Tools.TileStem(w);
    assert IntToString(0) == "0" && IntToString(1) == "1" && IntToString(10) == "1" + "0";
    ExtendedIndex(stem + "_0,", "1", "0", ".jpg");
  }

  /** A file named `p` + `i` + `j` + `s` extends the pattern `p` + `i`. */
  lemma ExtendedIndex(p: string, i: string, j: string, s: string)
    requires '/' !in j && '/' !in s
    ensures GlobMatch(p + i, p + (i + j) + s)
  {
    var f := p + (i + j) + s;
    assert f == (p + i) + (j + s);
    assert f[|p + i|..] == j + s;
  }

  /**
   * As written, the generator names tiles after the manifest with its
   * extension, which the viewer strips: the viewer of `dir/base.yaml`
   * looks for `dir/base_x,y*` and misses every `dir/base.yaml_i,pos.jpg`
   * that TilePathAsWritten names (for instance `out/earth_0,0*` misses
   * `out/earth.yaml_0,0.jpg`).
   */
  lemma GeneratedTileMissed(dir: string, base: string, x: int, y: int, i: int, pos: int)
    requires base != [] && base[0] != '.' && '/' !in base
    requires dir != [] && dir[|dir| - 1] != '/'
    ensures !GlobMatch(TilePatternAsWritten(PathJoin(dir, base + ".yaml"), IntV(x), IntV(y)).value,
                       PathJoin(dir, Tools.TileName(base + ".yaml", i, pos)))
  {
    AsWrittenPatternAt(dir, base, x, y);
    AsWrittenTileAt(dir, base, i, pos);
  }

  /** The viewer's pattern for `dir/base.yaml` has '_' right after `dir/base`. */
  lemma AsWrittenPatternAt(dir: string, base: string, x: int, y: int)
    requires base != [] && base[0] != '.' && '/' !in base
    requires dir != [] && dir[|dir| - 1] != '/'
    ensures var p := TilePatternAsWritten(PathJoin(dir, base + ".yaml"), IntV(x), IntV(y)).value;
      |p| > |dir| + 1 + |base| && p[|dir| + 1 + |base|] == '_'
  {
    assert PathJoin(dir, base + ".yaml") == dir + "/" + base + "." + "yaml";
    SplitExtOf(dir, base, "yaml");
  }

  /** The tile the generator writes for `dir/base.yaml` has '.' right after `dir/base`. */
  lemma AsWrittenTileAt(dir: string, base: string, i: int, pos: int)
    requires '/' !in base
    requires dir != [] && dir[|dir| - 1] != '/'
    ensures var t := PathJoin(dir, Tools.TileName(base + ".yaml", i, pos));
      |t| > |dir| + 1 + |base| && t[|dir| + 1 + |base|] == '.'
  {
    var tile := Tools.TileName(base + ".yaml", i, pos);
    assert tile[|base|] == (base + ".yaml")[|base|] == '.';
    assert PathJoin(dir, tile) == dir + "/" + tile;
  }


  // -----------------------------------------------------------------------
  // onMove
  // -----------------------------------------------------------------------

  /** Lines 316-321: one step of an index over 0..n-1, wrapping at both ends. */
  function Wrap(x: int, n: int, sign: int): int
  {
    if x == n - 1 && sign > 0 then 0
    else if x == 0 && sign < 0 then n - 1
    else x + sign
  }

  /** On a valid index a step is a step modulo n, so the index stays valid. */
  lemma WrapModular(x: int, n: int, sign: int)
    requires 0 <= x < n && (sign == 1 || sign == -1)
    ensures Wrap(x, n, sign) == (x + sign) % n
    ensures 0 <= Wrap(x, n, sign) < n
  {
    if x == n - 1 && sign > 0 {
      assert (x + sign) % n == n % n == 0;
    } else if x == 0 && sign < 0 {
      assert (-1) % n == n - 1;
    } else {
      assert 0 <= x + sign < n;
    }
  }

  /** A step back undoes a step forward, at the ends as well. */
  lemma WrapUndo(x: int, n: int, sign: int)
    requires 0 <= x < n && (sign == 1 || sign == -1)
    ensures Wrap(Wrap(x, n, sign), n, -sign) == x
  {
  }

  /** `d // abs(d)` for d != 0. */
  function Sign(d: int): (s: int)
    requires d != 0
    ensures s == 1 || s == -1
    ensures (s > 0) == (d > 0)
  {
    if d > 0 then 1 else -1
  }

  /**
   * One axis of onMove (lines 312-323 or 326-337): when the mouse has
   * moved at least `step` from the click position, the index under `key`
   * steps (against the motion) with wrap-around and the click coordinate
   * follows the mouse.  The step must have been computed, a zero move
   * with a non-positive step divides by zero, and the index must be set.
   */
  function DragAxis(conf: map<string, Value>, key: string, n: int, click: int, ev: int,
                    step: Option<int>): (r: Result<(map<string, Value>, int)>)
    ensures step.None? ==> r == Err(AttributeError)
    ensures step.Some? && Abs(click - ev) < step.value ==> r == Ok((conf, click))
    ensures r.Ok? && r.value.0 != conf ==> step.Some? && Abs(click - ev) >= step.value
    ensures r.Ok? ==> r.value.0.Keys == conf.Keys
    ensures r.Ok? ==> forall k :: k in conf && k != key ==> r.value.0[k] == conf[k]
    ensures r.Ok? && step.Some? && Abs(click - ev) >= step.value ==>
      && click != ev && r.value.1 == ev
      && key in conf && conf[key].IntV?
      && r.value.0[key] == IntV(Wrap(conf[key].i, n, Sign(click - ev)))
  {
    match step
    case None => Err(AttributeError)
    case Some(s) =>
      if Abs(click - ev) >= s then
        if click == ev then Err(ZeroDivisionError)
        else if key !in conf then Err(KeyError)
        else if !conf[key].IntV? then Err(TypeError)
        else Ok((conf[key := IntV(Wrap(conf[key].i, n, Sign(click - ev)))], ev))
      else Ok((conf, click))
  }

  function Abs(x: int): nat { if x < 0 then -x else x }

  /** The state onMove leaves behind: its outcome, `confParams` and `clickPos`. */
  datatype Moved = Moved(outcome: Result<()>, conf: map<string, Value>, clickPos: seq<int>)

  /** Lines 309-339 while the button is held: the longitude axis, then the latitude axis. */
  function Move(conf: map<string, Value>, clickPos: seq<int>, lenLong: int, lenLat: int,
                xstep: Option<int>, ystep: Option<int>, ex: int, ey: int): (m: Moved)
    requires |clickPos| == 2
    ensures |m.clickPos| == 2
  {
    match DragAxis(conf, "x0", lenLong, clickPos[0], ex, xstep)
    case Err(e) => Moved(Err(e), conf, clickPos)
    case Ok((c1, px)) =>
      match DragAxis(c1, "y0", lenLat, clickPos[1], ey, ystep)
      case Err(e) => Moved(Err(e), c1, [px, clickPos[1]])
      case Ok((c2, py)) => Moved(Ok(()), c2, [px, py])
  }

  /** x0 and y0 are set and are valid indices of the two axes. */
  predicate Positioned(conf: map<string, Value>, lenLong: int, lenLat: int)
  {
    && "x0" in conf && conf["x0"].IntV? && 0 <= conf["x0"].i < lenLong
    && "y0" in conf && conf["y0"].IntV? && 0 <= conf["y0"].i < lenLat
  }

  /**
   * Dragging keeps the grid position on the grid, changes nothing in
   * `confParams` but x0 and y0, and moves each index by at most one step
   * (modulo the axis length), only when the mouse moved far enough.
   */
  lemma MoveKeepsPosition(conf: map<string, Value>, clickPos: seq<int>, lenLong: int, lenLat: int,
                          xstep: Option<int>, ystep: Option<int>, ex: int, ey: int)
    requires |clickPos| == 2 && Positioned(conf, lenLong, lenLat)
    ensures var m := Move(conf, clickPos, lenLong, lenLat, xstep, ystep, ex, ey);
      && Positioned(m.conf, lenLong, lenLat)
      && m.conf.Keys == conf.Keys
      && (forall k :: k in conf && k !in {"x0", "y0"} ==> m.conf[k] == conf[k])
      && (m.conf["x0"].i == conf["x0"].i || m.conf["x0"].i == (conf["x0"].i + 1) % lenLong
          || m.conf["x0"].i == (conf["x0"].i - 1) % lenLong)
      && (m.conf["y0"].i == conf["y0"].i || m.conf["y0"].i == (conf["y0"].i + 1) % lenLat
          || m.conf["y0"].i == (conf["y0"].i - 1) % lenLat)
  {
    var x, y := conf["x0"].i, conf["y0"].i;
    if clickPos[0] != ex {
      WrapModular(x, lenLong, Sign(clickPos[0] - ex));
    }
    match DragAxis(conf, "x0", lenLong, clickPos[0], ex, xstep)
    case Err(_) =>
    case Ok((c1, px)) =>
      assert "y0" in c1 && c1["y0"] == conf["y0"];
      if clickPos[1] != ey {
        WrapModular(y, lenLat, Sign(clickPos[1] - ey));
      }
  }

  // -----------------------------------------------------------------------
  // updateGraph
  // -----------------------------------------------------------------------

  /** Lines 360 and 367: the first index holding float(arg), or none when there is none or float() raises. */
  function Lookup(axis: seq<real>, arg: Value): (r: Option<nat>)
    ensures Float(arg).Err? ==> r.None?
    ensures Float(arg).Ok? ==> r == FirstIndexOf(axis, Float(arg).value)
  {
    match Float(arg)
    case Err(_) => None
    case Ok(v) => FirstIndexOf(axis, v)
  }

  /** `axis[v]` succeeds: an integer index, negative ones counting from the end. */
  predicate IndexOk(axis: seq<real>, v: Value)
  {
    v.IntV? && -|axis| <= v.i < |axis|
  }

  /**
   * Lines 359-371 for one axis: the first exact match of the argument on
   * the axis, or else the index kept under `key`, or KeyError without one.
   */
  function NewIndex(axis: seq<real>, arg: Value, conf: map<string, Value>, key: string): (r: Result<Value>)
    ensures Float(arg).Ok? && Float(arg).value in axis ==> (r.Ok? && r.value.IntV?
      && 0 <= r.value.i < |axis| && axis[r.value.i] == Float(arg).value
      && forall j :: 0 <= j < r.value.i ==> axis[j] != Float(arg).value)
    ensures !(Float(arg).Ok? && Float(arg).value in axis) ==>
      (r.Ok? <==> key in conf) && (r.Ok? ==> r.value == conf[key]) && (r.Err? ==> r.error == KeyError)
  {
    match Lookup(axis, arg)
    case Some(k) => Ok(IntV(k))
    case None => if key in conf then Ok(conf[key]) else Err(KeyError)
  }

  // -----------------------------------------------------------------------
  // The tab
  // -----------------------------------------------------------------------

  /** Line 218: the directory of the manifest path and its file name without extension. */
  /** What `getData` leaves behind: its outcome, the image shape and the two pixel steps. */
  datatype TileLoad = TileLoad(result: Result<string>, dataShape: Option<seq<nat>>, xstep: Option<int>, ystep: Option<int>)

  /**
   * Lines 113-132 from the manifest name `yaml`, the parameters `conf`, the
   * axis lengths, the directory `listing` and the image `shape`, when the tab
   * held the shape `shape0` and the steps `xstep0` and `ystep0`: the first
   * file of the as-written pattern is taken, and the shape is stored before
   * the steps are divided out, so a failure part-way keeps what was already
   * assigned.
   */
  function TileLookup(yaml: string, conf: map<string, Value>, lenLong: nat, lenLat: nat,
                      listing: seq<string>, shape: seq<nat>,
                      shape0: Option<seq<nat>>, xstep0: Option<int>, ystep0: Option<int>): (t: TileLoad)
    ensures t.result.Ok? ==> ("x0" in conf && "y0" in conf
      && TilePatternAsWritten(yaml, conf["x0"], conf["y0"]).Ok?
      && FirstMatch(TilePatternAsWritten(yaml, conf["x0"], conf["y0"]).value, listing) == Some(t.result.value)
      && |shape| >= 2 && lenLong > 0 && lenLat > 0 && t.dataShape == Some(shape)
      && t.xstep == Some((shape[1] - 1) / lenLong) && t.ystep == Some((shape[0] - 1) / lenLat))
    ensures "x0" !in conf || "y0" !in conf ==> t == TileLoad(Err(KeyError), shape0, xstep0, ystep0)
    ensures t.result == Err(IOError) ==> t.dataShape == shape0 && t.xstep == xstep0 && t.ystep == ystep0
  {
    if "x0" !in conf || "y0" !in conf then TileLoad(Err(KeyError), shape0, xstep0, ystep0)
    else
      var pattern := TilePatternAsWritten(yaml, conf["x0"], conf["y0"]);
      if pattern.Err? then TileLoad(Err(pattern.error), shape0, xstep0, ystep0)
      else match FirstMatch(pattern.value, listing)
        case None => TileLoad(Err(IOError), shape0, xstep0, ystep0)
        case Some(file) =>
          if |shape| < 2 then TileLoad(Err(IndexError), Some(shape), xstep0, ystep0)
          else if lenLong == 0 then TileLoad(Err(ZeroDivisionError), Some(shape), xstep0, ystep0)
          else
            var xs := Some((shape[1] - 1) / lenLong);
            if lenLat == 0 then TileLoad(Err(ZeroDivisionError), Some(shape), xs, ystep0)
            else TileLoad(Ok(file), Some(shape), xs, Some((shape[0] - 1) / lenLat))
  }

  function DirAndStem(file: string): (string, string)
  {
    (PathSplit(file).0, SplitExt(PathSplit(file).1).0)
  }

  /** The viewer state of one tab: what the loading and the mouse handlers update. */
  class Tab {
    var yaml: string
    var confParams: map<string, Value>
    var dataDir: string
    var name: string
    var longitude: seq<real>
    var latitude: seq<real>
    var lenLong: nat
    var lenLat: nat
    var loaded: bool
    var clicked: bool
    var clickPos: seq<int>
    var dataShape: Option<seq<nat>>
    var xstep: Option<int>
    var ystep: Option<int>

    /** Lines 41-62: an empty tab. */
    constructor ()
      ensures yaml == "" && confParams == map[] && dataDir == "./" && name == "None"
      ensures longitude == [] && latitude == [] && lenLong == 0 && lenLat == 0
      ensures !loaded && !clicked && clickPos == []
      ensures dataShape.None? && xstep.None? && ystep.None?
    {
      yaml := "";
      confParams := map[];
      dataDir := "./";
      name := "None";
      longitude := [];
      latitude := [];
      lenLong := 0;
      lenLat := 0;
      loaded := false;
      clicked := false;
      clickPos := [];
      dataShape := None;
      xstep := None;
      ystep := None;
    }

    /** The click position is a pair while the button is held. */
    predicate ClickValid()
      reads this
    {
      clicked ==> |clickPos| == 2
    }

    /**
     * `loadYAML(file)` with `parsed` the dictionary `yaml.load` returns.
     * The outcome of the checks and the new `confParams` are those of
     * `LoadConf`.  Past them, the name and directory come from the path
     * (line 218), and the axes are rebuilt from the bounds (lines 220-223,
     * with no "- 1" in their lengths); a pair of string bounds that the
     * checks let through makes its `arange` raise TypeError.
     */
    method LoadYAML(file: Value, parsed: map<string, Value>) returns (r: Result<()>)
      modifies this
      ensures !file.StrV? ==> r == Err(TypeError) && confParams == old(confParams)
      ensures file.StrV? ==> confParams == LoadConf(parsed).0
      ensures file.StrV? && LoadConf(parsed).1.Err? ==> r == LoadConf(parsed).1
      ensures file.StrV? && LoadConf(parsed).1.Ok? ==>
        && (r.Ok? <==> ValidBounds(parsed)) && (r.Err? ==> r.error == TypeError)
        && (dataDir, name) == DirAndStem(file.s)
      ensures r.Ok? ==> HasRequired(parsed) && ValidBounds(parsed)
      ensures r.Ok? ==> longitude == ViewerAxis(parsed, "long min", "long max")
      ensures r.Ok? ==> latitude == ViewerAxis(parsed, "lat min", "lat max")
      ensures r.Ok? ==> lenLong == |longitude| && lenLat == |latitude| && lenLong >= 2 && lenLat >= 2
      ensures !(file.StrV? && LoadConf(parsed).1.Ok?) ==> dataDir == old(dataDir) && name == old(name)
      ensures r.Err? ==> latitude == old(latitude) && lenLong == old(lenLong) && lenLat == old(lenLat)
      ensures r.Err? && longitude != old(longitude) ==>
        && file.StrV? && HasRequired(parsed) && LoadConf(parsed).1.Ok?
        && IsNumber(parsed["long min"]) && IsNumber(parsed["long max"])
        && longitude == ViewerAxis(parsed, "long min", "long max")
      ensures yaml == old(yaml) && loaded == old(loaded) && clicked == old(clicked) && clickPos == old(clickPos)
      ensures dataShape == old(dataShape) && xstep == old(xstep) && ystep == old(ystep)
    {
      if !file.StrV? {
        return Err(TypeError);
      }
      r := CheckConf(parsed);
      if r.Err? {
        return;
      }
      r := SetDefaults();
      if r.Err? {
        return;
      }
      ChecksPassMeans(parsed);
      var (dir, stem) := DirAndStem(file.s);
      SetPath(dir, stem);
      r := SetAxes(parsed);
    }

    /** Line 218: the directory and the stem of the manifest's path are stored. */
    method SetPath(dir: string, stem: string)
      modifies this
      ensures dataDir == dir && name == stem
      ensures confParams == old(confParams) && longitude == old(longitude) && latitude == old(latitude)
      ensures lenLong == old(lenLong) && lenLat == old(lenLat)
      ensures yaml == old(yaml) && loaded == old(loaded) && clicked == old(clicked) && clickPos == old(clickPos)
      ensures dataShape == old(dataShape) && xstep == old(xstep) && ystep == old(ystep)
    {
      dataDir, name := dir, stem;
    }

    /**
     * Lines 220-223 once the checks passed: the longitude axis and the
     * latitude axis with their lengths; a pair of string bounds raises
     * TypeError at its `arange`, after what came before it was stored.
     */
    method SetAxes(d: map<string, Value>) returns (r: Result<()>)
      requires HasRequired(d) && IsNumber(d["step"]) && NumberOf(d["step"]) > 0.0
      requires PairPasses(d["long min"], d["long max"]) && PairPasses(d["lat min"], d["lat max"])
      modifies this
      ensures dataDir == old(dataDir) && name == old(name)
      ensures r.Ok? <==> ValidBounds(d)
      ensures r.Err? ==> r.error == TypeError
      ensures r.Ok? ==> longitude == ViewerAxis(d, "long min", "long max")
      ensures r.Ok? ==> latitude == ViewerAxis(d, "lat min", "lat max")
      ensures r.Ok? ==> lenLong == |longitude| && lenLat == |latitude| && lenLong >= 2 && lenLat >= 2
      ensures r.Err? ==> latitude == old(latitude) && lenLong == old(lenLong) && lenLat == old(lenLat)
      ensures longitude != old(longitude) ==>
        && IsNumber(d["long min"]) && IsNumber(d["long max"])
        && longitude == ViewerAxis(d, "long min", "long max")
      ensures confParams == old(confParams)
      ensures yaml == old(yaml) && loaded == old(loaded) && clicked == old(clicked) && clickPos == old(clickPos)
      ensures dataShape == old(dataShape) && xstep == old(xstep) && ystep == old(ystep)
    {
      if !(IsNumber(d["long min"]) && IsNumber(d["long max"])) {
        return Err(TypeError);
      }
      longitude := ViewerAxis(d, "long min", "long max");
      if !(IsNumber(d["lat min"]) && IsNumber(d["lat max"])) {
        return Err(TypeError);
      }
      latitude := ViewerAxis(d, "lat min", "lat max");
      ViewerAxesLong(d);
      lenLong := |longitude|;
      lenLat := |latitude|;
      return Ok(());
    }

    /**
     * Lines 184-202: stores the parsed manifest and checks it; a rejected
     * manifest leaves what `LoadConf` says, an accepted one is kept as parsed.
     */
    method CheckConf(parsed: map<string, Value>) returns (r: Result<()>)
      modifies this
      ensures r.Err? ==> (confParams, r) == LoadConf(parsed)
      ensures r.Ok? ==> (confParams == parsed && HasRequired(parsed) && ChecksPass(parsed)
        && LoadConf(parsed) == WithDefaults(parsed))
      ensures yaml == old(yaml) && loaded == old(loaded) && clicked == old(clicked) && clickPos == old(clickPos)
      ensures dataShape == old(dataShape) && xstep == old(xstep) && ystep == old(ystep)
      ensures dataDir == old(dataDir) && name == old(name) && longitude == old(longitude)
        && latitude == old(latitude) && lenLong == old(lenLong) && lenLat == old(lenLat)
    {
      confParams := parsed;
      var i := 0;
      while i < |RequiredKeys|
        invariant 0 <= i <= |RequiredKeys|
        invariant confParams == parsed
        invariant forall j :: 0 <= j < i ==> RequiredKeys[j] in parsed
      {
        if RequiredKeys[i] !in confParams {
          assert RequiredKeys[i] in {"lat min", "lat max", "long min", "long max", "step"};
          confParams := map[];
          return Err(IOError);
        }
        i := i + 1;
      }
      assert RequiredKeys[0] in parsed && RequiredKeys[1] in parsed && RequiredKeys[2] in parsed;
      assert RequiredKeys[3] in parsed && RequiredKeys[4] in parsed;
      var latInverted := GreaterEq(confParams["lat min"], confParams["lat max"]);
      if latInverted.Err? {
        return Err(latInverted.error);
      }
      if latInverted.value {
        confParams := map[];
        return Err(KeyError);
      }
      var longInverted := GreaterEq(confParams["long min"], confParams["long max"]);
      if longInverted.Err? {
        return Err(longInverted.error);
      }
      if longInverted.value {
        confParams := map[];
        return Err(KeyError);
      }
      var nonPositive := GreaterEq(IntV(0), confParams["step"]);
      if nonPositive.Err? {
        return Err(nonPositive.error);
      }
      if nonPositive.value {
        confParams := map[];
        return Err(ValueError);
      }
      return Ok(());
    }

    /** Lines 204-215 in place on `confParams`. */
    method SetDefaults() returns (r: Result<()>)
      modifies this
      ensures (confParams, r) == WithDefaults(old(confParams))
      ensures yaml == old(yaml) && loaded == old(loaded) && clicked == old(clicked) && clickPos == old(clickPos)
      ensures dataShape == old(dataShape) && xstep == old(xstep) && ystep == old(ystep)
      ensures dataDir == old(dataDir) && name == old(name) && longitude == old(longitude)
        && latitude == old(latitude) && lenLong == old(lenLong) && lenLat == old(lenLat)
    {
      if "x0" !in confParams {
        confParams := confParams["x0" := IntV(0)];
      } else {
        var x0 := Int(confParams["x0"]);
        if x0.Err? {
          return Err(x0.error);
        }
        confParams := confParams["x0" := IntV(x0.value)];
      }
      if "y0" !in confParams {
        confParams := confParams["y0" := IntV(0)];
      } else {
        var y0 := Int(confParams["y0"]);
        if y0.Err? {
          return Err(y0.error);
        }
        confParams := confParams["y0" := IntV(y0.value)];
      }
      if "unit" !in confParams {
        confParams := confParams["unit" := StrV(Tools.DefaultUnit)];
      }
      return Ok(());
    }

    /**
     * `getData()` with `listing` the files glob sees, in its order, and
     * `shape` the shape of the image read: picks the first file the
     * pattern `stem_x0,y0*` of line 116 keeps (which may belong to another
     * position, TilePatternAsWrittenAmbiguous) and derives the pixel
     * distance per grid step.
     */
    method GetData(listing: seq<string>, shape: seq<nat>) returns (r: Result<string>)
      modifies this
      ensures "x0" !in confParams || "y0" !in confParams ==> r == Err(KeyError)
      ensures r.Ok? ==> ("x0" in confParams && "y0" in confParams
        && TilePatternAsWritten(yaml, confParams["x0"], confParams["y0"]).Ok?
        && r.value in listing
        && GlobMatch(TilePatternAsWritten(yaml, confParams["x0"], confParams["y0"]).value, r.value))
      ensures r.Ok? ==> FirstMatch(TilePatternAsWritten(yaml, confParams["x0"], confParams["y0"]).value, listing) == Some(r.value)
      ensures r.Ok? ==> (|shape| >= 2 && lenLong > 0 && lenLat > 0
        && dataShape == Some(shape)
        && xstep == Some((shape[1] - 1) / lenLong) && ystep == Some((shape[0] - 1) / lenLat))
      ensures r == Err(IOError) ==> dataShape == old(dataShape) && xstep == old(xstep) && ystep == old(ystep)
      ensures TileLoad(r, dataShape, xstep, ystep)
           == TileLookup(yaml, confParams, lenLong, lenLat, listing, shape, old(dataShape), old(xstep), old(ystep))
      ensures yaml == old(yaml) && confParams == old(confParams) && loaded == old(loaded)
      ensures clicked == old(clicked) && clickPos == old(clickPos)
      ensures dataDir == old(dataDir) && name == old(name) && longitude == old(longitude)
        && latitude == old(latitude) && lenLong == old(lenLong) && lenLat == old(lenLat)
    {
      if "x0" !in confParams || "y0" !in confParams {
        return Err(KeyError);
      }
      var pattern := TilePatternAsWritten(yaml, confParams["x0"], confParams["y0"]);
      if pattern.Err? {
        return Err(pattern.error);
      }
      var file := FirstMatch(pattern.value, listing);
      if file.None? {
        return Err(IOError);
      }
      dataShape := Some(shape);
      if |shape| < 2 {
        return Err(IndexError);
      }
      if lenLong == 0 {
        return Err(ZeroDivisionError);
      }
      xstep := Some((shape[1] - 1) / lenLong);
      if lenLat == 0 {
        return Err(ZeroDivisionError);
      }
      ystep := Some((shape[0] - 1) / lenLat);
      return Ok(file.value);
    }

    /** Lines 292-297: the button goes down at (ex, ey). */
    method OnClick(ex: int, ey: int)
      modifies this
      ensures clicked && clickPos == [ex, ey] && ClickValid()
      ensures confParams == old(confParams) && xstep == old(xstep) && ystep == old(ystep)
      ensures lenLong == old(lenLong) && lenLat == old(lenLat)
    {
      clicked := true;
      clickPos := [ex, ey];
    }

    /** Lines 299-304: the button goes up. */
    method OutClick()
      modifies this
      ensures !clicked && clickPos == [] && ClickValid()
      ensures confParams == old(confParams) && xstep == old(xstep) && ystep == old(ystep)
      ensures lenLong == old(lenLong) && lenLat == old(lenLat)
    {
      clicked := false;
      clickPos := [];
    }

    /**
     * `onMove(event)` at (ex, ey): nothing happens unless the button is
     * held; otherwise the position and click point change as `Move` says.
     */
    method OnMove(ex: int, ey: int) returns (r: Result<()>)
      requires ClickValid()
      modifies this
      ensures !old(clicked) ==> r == Ok(()) && confParams == old(confParams) && clickPos == old(clickPos)
      ensures old(clicked) ==>
        Moved(r, confParams, clickPos) == Move(old(confParams), old(clickPos), lenLong, lenLat, xstep, ystep, ex, ey)
      ensures ClickValid()
      ensures yaml == old(yaml) && loaded == old(loaded) && clicked == old(clicked)
      ensures dataShape == old(dataShape) && xstep == old(xstep) && ystep == old(ystep)
      ensures dataDir == old(dataDir) && name == old(name) && longitude == old(longitude)
        && latitude == old(latitude) && lenLong == old(lenLong) && lenLat == old(lenLat)
    {
      if !clicked {
        return Ok(());
      }
      var dx := DragAxis(confParams, "x0", lenLong, clickPos[0], ex, xstep);
      if dx.Err? {
        return Err(dx.error);
      }
      confParams := dx.value.0;
      clickPos := clickPos[0 := dx.value.1];
      var dy := DragAxis(confParams, "y0", lenLat, clickPos[1], ey, ystep);
      if dy.Err? {
        return Err(dy.error);
      }
      confParams := dy.value.0;
      clickPos := clickPos[1 := dy.value.1];
      return Ok(());
    }

    /**
     * `updateGraph(latitude, longitude)` with the tile lookup's `listing`
     * and `shape`: nothing when both are None; otherwise each index becomes
     * the first exact match of its value on the axis, or stays as it was
     * (a missing old index raising KeyError), both are written, the labels
     * index the axes with them, and the tile of the new position is read:
     * the outcome and the stored shape and steps are those of `getData` under
     * the new parameters.  Every earlier exit keeps the shape and steps.
     */
    method UpdateGraph(latArg: Value, longArg: Value, listing: seq<string>, shape: seq<nat>)
      returns (r: Result<()>)
      modifies this
      ensures latArg.NoneV? && longArg.NoneV? ==>
        r == Ok(()) && confParams == old(confParams)
        && dataShape == old(dataShape) && xstep == old(xstep) && ystep == old(ystep)
      ensures !(latArg.NoneV? && longArg.NoneV?) ==>
        var y0 := NewIndex(latitude, latArg, old(confParams), "y0");
        var x0 := NewIndex(longitude, longArg, old(confParams), "x0");
        && (y0.Err? || x0.Err? ==> r == Err(KeyError) && confParams == old(confParams))
        && (y0.Ok? && x0.Ok? ==> confParams == old(confParams)["y0" := y0.value]["x0" := x0.value])
        && (y0.Ok? && x0.Ok? && !(IndexOk(longitude, x0.value) && IndexOk(latitude, y0.value)) ==> r == Err(IndexError))
        && (!(y0.Ok? && x0.Ok? && IndexOk(longitude, x0.value) && IndexOk(latitude, y0.value)) ==>
              dataShape == old(dataShape) && xstep == old(xstep) && ystep == old(ystep))
        && (y0.Ok? && x0.Ok? && IndexOk(longitude, x0.value) && IndexOk(latitude, y0.value) ==>
              var t := TileLookup(yaml, confParams, lenLong, lenLat, listing, shape, old(dataShape), old(xstep), old(ystep));
              && dataShape == t.dataShape && xstep == t.xstep && ystep == t.ystep
              && r == (if t.result.Ok? then Ok(()) else Err(t.result.error)))
      ensures yaml == old(yaml) && loaded == old(loaded) && clicked == old(clicked) && clickPos == old(clickPos)
      ensures dataDir == old(dataDir) && name == old(name) && longitude == old(longitude)
        && latitude == old(latitude) && lenLong == old(lenLong) && lenLat == old(lenLat)
    {
      if latArg.NoneV? && longArg.NoneV? {
        return Ok(());
      }
      var y0 := NewIndex(latitude, latArg, confParams, "y0");
      if y0.Err? {
        return Err(y0.error);
      }
      var x0 := NewIndex(longitude, longArg, confParams, "x0");
      if x0.Err? {
        return Err(x0.error);
      }
      confParams := confParams["y0" := y0.value]["x0" := x0.value];
      if !IndexOk(longitude, x0.value) || !IndexOk(latitude, y0.value) {
        return Err(IndexError);
      }
      var file := GetData(listing, shape);
      if file.Err? {
        return Err(file.error);
      }
      return Ok(());
    }
  }
}
