/**
 * The grid arithmetic shared by the generator (backend/tools.py), the viewer
 * (widgets/tab.py) and the configuration window (widgets/configWindow.py):
 * numpy's `arange` on exact reals, `array_split` of an index range, and the
 * two index searches the program performs on an axis.
 */
module Grid {
  import opened Py

  /** The smallest integer that is at least `x`. */
  function Ceil(x: real): (c: int)
    ensures c as real - 1.0 < x <= c as real
  {
    -((-x).Floor)
  }

  lemma CeilBound(x: real, k: int)
    ensures k < Ceil(x) <==> (k as real) < x
  {
  }

  /** The number of elements of `np.arange(start, stop, step)`. */
  function ArangeLength(start: real, stop: real, step: real): nat
    requires step != 0.0
  {
    var n := Ceil((stop - start) / step);
    if n < 0 then 0 else n
  }

  /** The k-th point of an arange axis. */
  function Point(start: real, step: real, k: nat): real
  {
    start + k as real * step
  }

  /**
   * `np.arange(start, stop, step)`: the values start + k*step, k = 0, 1, ...,
   * as long as they lie before `stop`.  A zero step raises.
   */
  function Arange(start: real, stop: real, step: real): (r: Result<seq<real>>)
    ensures step == 0.0 <==> r == Err(ZeroDivisionError)
    ensures r.Ok? ==> |r.value| == ArangeLength(start, stop, step)
    ensures r.Ok? ==> forall k :: 0 <= k < |r.value| ==> r.value[k] == Point(start, step, k)
  {
    if step == 0.0 then Err(ZeroDivisionError)
    else Ok(seq(ArangeLength(start, stop, step), k requires k >= 0 => Point(start, step, k)))
  }

  /** For a positive step, index k is in the axis exactly when its value is before `stop`. */
  lemma ArangeIndexBound(start: real, stop: real, step: real, k: nat)
    requires step > 0.0
    ensures k < ArangeLength(start, stop, step) <==> Point(start, step, k) < stop
  {
    var d := (stop - start) / step;
    CeilBound(d, k);
    assert d * step == stop - start;
    if (k as real) < d {
      assert k as real * step < d * step;
    } else {
      assert k as real * step >= d * step;
    }
  }

  /**
   * With a positive step the axis holds exactly the values start + k*step
   * that lie before `stop`, in strictly increasing order.
   */
  lemma {:induction false} ArangeContents(start: real, stop: real, step: real)
    requires step > 0.0
    ensures Arange(start, stop, step).Ok?
    ensures var s := Arange(start, stop, step).value;
      && (forall k: nat :: k < |s| <==> Point(start, step, k) < stop)
      && (forall i, j :: 0 <= i < j < |s| ==> s[i] < s[j])
  {
    var s := Arange(start, stop, step).value;
    forall k: nat ensures k < |s| <==> Point(start, step, k) < stop {
      ArangeIndexBound(start, stop, step, k);
    }
    forall i, j | 0 <= i < j < |s| ensures s[i] < s[j] {
      assert s[j] - s[i] == (j - i) as real * step;
    }
  }

  /**
   * The axis the program builds from a pair of bounds:
   * `np.arange(lo, hi + step, step)`.
   */
  function Axis(lo: real, hi: real, step: real): (r: Result<seq<real>>)
    ensures step == 0.0 <==> r.Err?
    ensures r.Ok? ==> forall k :: 0 <= k < |r.value| ==> r.value[k] == Point(lo, step, k)
  {
    Arange(lo, hi + step, step)
  }

  /**
   * With a positive step, the axis always holds `lo`, holds a second point
   * exactly when lo < hi, and never goes past hi by a full step.
   */
  lemma AxisShape(lo: real, hi: real, step: real)
    requires step > 0.0
    ensures Axis(lo, hi, step).Ok?
    ensures var s := Axis(lo, hi, step).value;
      && (|s| >= 1 <==> lo < hi + step)
      && (|s| >= 2 <==> lo < hi)
      && (forall k :: 0 <= k < |s| ==> lo <= s[k] < hi + step)
  {
    var s := Axis(lo, hi, step).value;
    ArangeIndexBound(lo, hi + step, step, 0);
    ArangeIndexBound(lo, hi + step, step, 1);
    forall k | 0 <= k < |s| ensures lo <= s[k] < hi + step {
      ArangeIndexBound(lo, hi + step, step, k);
    }
  }

  /** The example grid of the design notes: bounds -20..20 with step 10. */
  lemma AxisExample()
    ensures Axis(-20.0, 20.0, 10.0) == Ok([-20.0, -10.0, 0.0, 10.0, 20.0])
    ensures Axis(-10.0, 10.0, 10.0) == Ok([-10.0, 0.0, 10.0])
  {
    assert Ceil(5.0) == 5;
    assert ArangeLength(-20.0, 30.0, 10.0) == 5;
    var s := Axis(-20.0, 20.0, 10.0).value;
    assert s[0] == -20.0 && s[1] == -10.0 && s[2] == 0.0 && s[3] == 10.0 && s[4] == 20.0;
    assert s == [-20.0, -10.0, 0.0, 10.0, 20.0];
    assert Ceil(3.0) == 3;
    assert ArangeLength(-10.0, 20.0, 10.0) == 3;
    var t := Axis(-10.0, 10.0, 10.0).value;
    assert t[0] == -10.0 && t[1] == 0.0 && t[2] == 10.0;
    assert t == [-10.0, 0.0, 10.0];
  }

  /**
   * Rebuilding an axis from its own first and last points gives the same
   * axis back: what the viewer does with the bounds the generator records.
   */
  lemma AxisFromEnds(lo: real, hi: real, step: real, s: seq<real>)
    requires step > 0.0 && Axis(lo, hi, step) == Ok(s) && |s| > 0
    ensures Axis(s[0], s[|s| - 1], step) == Ok(s)
  {
    var n := |s|;
    assert s[n - 1] == lo + (n - 1) as real * step;
    var stop := s[n - 1] + step;
    assert stop - lo == n as real * step;
    assert (stop - lo) / step == n as real;
    assert ArangeLength(lo, stop, step) == n;
    var t := Axis(s[0], s[n - 1], step).value;
    assert |t| == n;
    forall k | 0 <= k < n ensures t[k] == s[k] {
    }
  }

  // -----------------------------------------------------------------------
  // np.array_split
  // -----------------------------------------------------------------------

  /** The integers lo, lo+1, ..., hi-1. */
  function Range(lo: int, hi: int): (r: seq<int>)
    ensures |r| == if hi > lo then hi - lo else 0
    ensures forall k :: 0 <= k < |r| ==> r[k] == lo + k
  {
    if hi <= lo then [] else seq(hi - lo, k => lo + k)
  }

  /** The size of shard i: one more than n / parts for the first n % parts shards. */
  function ShardSize(n: nat, parts: nat, i: nat): nat
    requires parts > 0
  {
    n / parts + (if i < n % parts then 1 else 0)
  }

  /** Where part i of `array_split(range(n), parts)` begins. */
  function PartStart(n: nat, parts: nat, i: nat): nat
    requires parts > 0
  {
    i * (n / parts) + (if i < n % parts then i else n % parts)
  }

  lemma PartStartStep(n: nat, parts: nat, i: nat)
    requires parts > 0
    ensures PartStart(n, parts, i + 1) == PartStart(n, parts, i) + ShardSize(n, parts, i)
  {
  }

  lemma PartStartEnd(n: nat, parts: nat)
    requires parts > 0
    ensures PartStart(n, parts, parts) == n
  {
    assert n == parts * (n / parts) + n % parts;
  }

  lemma {:induction false} PartStartMonotone(n: nat, parts: nat, i: nat, j: nat)
    requires parts > 0 && i <= j
    ensures PartStart(n, parts, i) <= PartStart(n, parts, j)
    decreases j - i
  {
    if i < j {
      PartStartStep(n, parts, i);
      PartStartMonotone(n, parts, i + 1, j);
    }
  }

  /** `shards` is shard-for-shard the split of 0..n-1 into `parts` pieces. */
  predicate IsSplit(n: nat, parts: nat, shards: seq<seq<int>>)
    requires parts > 0
  {
    |shards| == parts &&
    forall i :: 0 <= i < parts ==> shards[i] == Range(PartStart(n, parts, i), PartStart(n, parts, i + 1))
  }

  /**
   * `np.array_split(np.arange(n), parts)`: `parts` contiguous pieces, the
   * first n % parts of them one element longer.  `parts` < 1 raises.
   */
  function ArraySplit(n: nat, parts: int): (r: Result<seq<seq<int>>>)
    ensures parts < 1 <==> r == Err(ValueError)
    ensures r.Ok? ==> IsSplit(n, parts, r.value)
  {
    if parts < 1 then Err(ValueError)
    else
      var shards := seq(parts, i requires 0 <= i < parts => Range(PartStart(n, parts, i), PartStart(n, parts, i + 1)));
      assert forall i :: 0 <= i < parts ==> shards[i] == Range(PartStart(n, parts, i), PartStart(n, parts, i + 1));
      Ok(shards)
  }

  function Flatten(ss: seq<seq<int>>): seq<int>
  {
    if ss == [] then [] else Flatten(ss[..|ss| - 1]) + ss[|ss| - 1]
  }

  lemma RangeConcat(a: int, b: int, c: int)
    requires a <= b <= c
    ensures Range(a, b) + Range(b, c) == Range(a, c)
  {
  }

  lemma {:induction false} FlattenPrefix(n: nat, parts: nat, shards: seq<seq<int>>, i: nat)
    requires parts > 0 && IsSplit(n, parts, shards) && i <= parts
    ensures Flatten(shards[..i]) == Range(0, PartStart(n, parts, i))
  {
    if i > 0 {
      FlattenPrefix(n, parts, shards, i - 1);
      var pre := shards[..i];
      assert pre[..i - 1] == shards[..i - 1];
      assert pre[i - 1] == shards[i - 1];
      assert Flatten(pre) == Flatten(shards[..i - 1]) + shards[i - 1];
      PartStartMonotone(n, parts, 0, i - 1);
      PartStartMonotone(n, parts, i - 1, i);
      RangeConcat(0, PartStart(n, parts, i - 1), PartStart(n, parts, i));
    }
  }

  /** The shards of `array_split`, concatenated in order, are the whole index range. */
  lemma ArraySplitCovers(n: nat, parts: int)
    requires parts >= 1
    ensures Flatten(ArraySplit(n, parts).value) == Range(0, n)
  {
    var shards := ArraySplit(n, parts).value;
    FlattenPrefix(n, parts, shards, parts);
    assert shards[..parts] == shards;
    PartStartEnd(n, parts);
  }

  /**
   * Shard sizes: the first n % parts shards hold n / parts + 1 indices and
   * the others n / parts, so sizes never grow along the split and differ by
   * at most one.
   */
  lemma ArraySplitSizes(n: nat, parts: int)
    requires parts >= 1
    ensures var shards := ArraySplit(n, parts).value;
      && (forall i :: 0 <= i < parts ==> |shards[i]| == ShardSize(n, parts, i))
      && (forall i, j :: 0 <= i < j < parts ==> |shards[j]| <= |shards[i]| <= |shards[j]| + 1)
  {
    var shards := ArraySplit(n, parts).value;
    forall i | 0 <= i < parts ensures |shards[i]| == ShardSize(n, parts, i) {
      PartStartStep(n, parts, i);
    }
  }

  /** Every index of every shard lies in 0..n-1, and no index lies in two shards. */
  lemma ArraySplitDisjoint(n: nat, parts: int)
    requires parts >= 1
    ensures var shards := ArraySplit(n, parts).value;
      && (forall i, x :: 0 <= i < parts && x in shards[i] ==> 0 <= x < n)
      && (forall i, j, x :: 0 <= i < j < parts && x in shards[i] ==> x !in shards[j])
  {
    var shards := ArraySplit(n, parts).value;
    PartStartEnd(n, parts);
    forall i, x | 0 <= i < parts && x in shards[i] ensures 0 <= x < n {
      PartStartMonotone(n, parts, i + 1, parts);
    }
    forall i, j, x | 0 <= i < j < parts && x in shards[i] ensures x !in shards[j] {
      PartStartMonotone(n, parts, i + 1, j);
    }
  }

  // -----------------------------------------------------------------------
  // Searches on an axis
  // -----------------------------------------------------------------------

  function Sq(x: real): real { x * x }

  /**
   * `np.argmin((axis - v)**2)`: the first index whose point is nearest to v.
   * An empty axis raises.
   */
  function ArgMinSq(axis: seq<real>, v: real): (r: Result<nat>)
    ensures axis == [] <==> r == Err(ValueError)
    ensures r.Ok? ==> r.value < |axis|
    ensures r.Ok? ==> forall j :: 0 <= j < |axis| ==> Sq(axis[r.value] - v) <= Sq(axis[j] - v)
    ensures r.Ok? ==> forall j :: 0 <= j < r.value ==> Sq(axis[j] - v) > Sq(axis[r.value] - v)
  {
    if axis == [] then Err(ValueError)
    else Ok(ArgMinPrefix(axis, v, |axis|))
  }

  /** The first index of axis[..n] whose squared distance to v is smallest. */
  function ArgMinPrefix(axis: seq<real>, v: real, n: nat): (k: nat)
    requires 0 < n <= |axis|
    ensures k < n
    ensures forall j :: 0 <= j < n ==> Sq(axis[k] - v) <= Sq(axis[j] - v)
    ensures forall j :: 0 <= j < k ==> Sq(axis[j] - v) > Sq(axis[k] - v)
  {
    if n == 1 then 0
    else
      var k := ArgMinPrefix(axis, v, n - 1);
      if Sq(axis[n - 1] - v) < Sq(axis[k] - v) then n - 1 else k
  }

  /** `np.where(axis == x)[0][0]`, or None when that raises (no such index). */
  function FirstIndexOf(axis: seq<real>, x: real): (r: Option<nat>)
    ensures r.None? <==> x !in axis
    ensures r.Some? ==> r.value < |axis| && axis[r.value] == x
    ensures r.Some? ==> forall j :: 0 <= j < r.value ==> axis[j] != x
  {
    if axis == [] then None
    else if axis[0] == x then Some(0)
    else match FirstIndexOf(axis[1..], x)
      case None => None
      case Some(k) => Some(k + 1)
  }

  predicate StrictlyIncreasing(s: seq<real>)
  {
    forall i, j :: 0 <= i < j < |s| ==> s[i] < s[j]
  }

  /** On a strictly increasing axis, looking a point up finds its own index. */
  lemma FirstIndexOfIncreasing(axis: seq<real>, i: nat)
    requires StrictlyIncreasing(axis) && i < |axis|
    ensures FirstIndexOf(axis, axis[i]) == Some(i)
  {
  }
}
