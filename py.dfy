/**
 * The small slice of Python semantics that the modelled code relies on:
 * the exceptions it raises, the dynamically typed values it receives,
 * the `float()` / `int()` conversions it applies to them, and the string
 * operations it uses to build and check file names.
 */
module Py {

  /** The Python exceptions the modelled code can raise. */
  datatype Error =
    | TypeError
    | ValueError
    | IOError
    | KeyError
    | IndexError
    | ZeroDivisionError
    | AttributeError
    | NameError

  datatype Option<+T> = None | Some(value: T)

  /** A value or the exception that the computation raised. */
  datatype Result<+T> = Ok(value: T) | Err(error: Error) {
    predicate IsFailure() { Err? }
    function PropagateFailure<U>(): Result<U>
      requires Err?
    {
      Err(error)
    }
    function Extract(): T
      requires Ok?
    {
      value
    }
  }

  /**
   * A dynamically typed Python value as it reaches the modelled code from a
   * caller or from a parsed YAML file.  `float` values are exact reals here.
   */
  datatype Value =
    | IntV(i: int)
    | FloatV(r: real)
    | BoolV(b: bool)
    | StrV(s: string)
    | ListV(items: seq<Value>)
    | TupleV(items: seq<Value>)
    | NoneV

  /** `isinstance(v, int)`: `bool` is a subclass of `int` in Python. */
  predicate IsInt(v: Value) { v.IntV? || v.BoolV? }

  /** `isinstance(v, (int, float))`. */
  predicate IsNumber(v: Value) { v.IntV? || v.BoolV? || v.FloatV? }

  /** The numeric value of an `int`, `bool` or `float`. */
  function NumberOf(v: Value): (r: real)
    requires IsNumber(v)
    ensures v.IntV? ==> r == v.i as real
    ensures v.FloatV? ==> r == v.r
  {
    match v
    case IntV(i) => i as real
    case FloatV(r) => r
    case BoolV(b) => if b then 1.0 else 0.0
  }

  // ---------------------------------------------------------------------
  // Decimal text (the part of float()/int() parsing the program relies on)
  // ---------------------------------------------------------------------

  predicate IsDigit(c: char) { '0' <= c <= '9' }

  predicate IsDigits(s: string) { forall k :: 0 <= k < |s| ==> IsDigit(s[k]) }

  function DigitValue(c: char): nat
    requires IsDigit(c)
  {
    (c as int - '0' as int) as nat
  }

  /** The number written by a string of decimal digits. */
  function DigitsValue(s: string): nat
    requires IsDigits(s)
  {
    if s == [] then 0 else DigitsValue(s[..|s| - 1]) * 10 + DigitValue(s[|s| - 1])
  }

  function Pow10(n: nat): (r: nat)
    ensures r >= 1
  {
    if n == 0 then 1 else 10 * Pow10(n - 1)
  }

  /** An optional leading sign and the rest of the text. */
  function SplitSign(s: string): (bool, string)
  {
    if |s| > 0 && s[0] == '-' then (true, s[1..])
    else if |s| > 0 && s[0] == '+' then (false, s[1..])
    else (false, s)
  }

  /** `int(s)` for a string: an optional sign and at least one digit. */
  function ParseInt(s: string): Option<int>
  {
    var (neg, body) := SplitSign(s);
    if body != [] && IsDigits(body) then
      Some(if neg then -(DigitsValue(body) as int) else DigitsValue(body) as int)
    else None
  }

  /** `float(s)` for a string: an optional sign, digits with at most one point. */
  function ParseFloat(s: string): Option<real>
  {
    var (neg, body) := SplitSign(s);
    var magnitude: Option<real> :=
      match LastIndexOf(body, '.')
      case None =>
        if body != [] && IsDigits(body) then Some(DigitsValue(body) as real) else None
      case Some(k) =>
        var whole, frac := body[..k], body[k + 1..];
        if |whole| + |frac| > 0 && IsDigits(whole) && IsDigits(frac) then
          Some(DigitsValue(whole) as real + DigitsValue(frac) as real / Pow10(|frac|) as real)
        else None;
    match magnitude
    case None => None
    case Some(m) => Some(if neg then -m else m)
  }

  // ---------------------------------------------------------------------
  // float() and int() on dynamically typed values
  // ---------------------------------------------------------------------

  /** Python's `float(v)`. */
  function Float(v: Value): (r: Result<real>)
    ensures IsNumber(v) ==> r == Ok(NumberOf(v))
    ensures (v.ListV? || v.TupleV? || v.NoneV?) ==> r == Err(TypeError)
    ensures r.Err? ==> r.error in {TypeError, ValueError}
  {
    match v
    case StrV(s) => (match ParseFloat(s) case Some(x) => Ok(x) case None => Err(ValueError))
    case ListV(_) => Err(TypeError)
    case TupleV(_) => Err(TypeError)
    case NoneV => Err(TypeError)
    case _ => Ok(NumberOf(v))
  }

  /** Truncation toward zero, as Python's `int()` does for a float. */
  function Trunc(r: real): (i: int)
    ensures r >= 0.0 ==> i as real <= r < i as real + 1.0
    ensures r < 0.0 ==> i as real - 1.0 < r <= i as real
  {
    if r >= 0.0 then r.Floor else -((-r).Floor)
  }

  /** Python's `int(v)`. */
  function Int(v: Value): (r: Result<int>)
    ensures v.IntV? ==> r == Ok(v.i)
    ensures (v.ListV? || v.TupleV? || v.NoneV?) ==> r == Err(TypeError)
  {
    match v
    case IntV(i) => Ok(i)
    case FloatV(x) => Ok(Trunc(x))
    case BoolV(b) => Ok(if b then 1 else 0)
    case StrV(s) => (match ParseInt(s) case Some(i) => Ok(i) case None => Err(ValueError))
    case ListV(_) => Err(TypeError)
    case TupleV(_) => Err(TypeError)
    case NoneV => Err(TypeError)
  }

  // ---------------------------------------------------------------------
  // Strings
  // ---------------------------------------------------------------------

  /** The index of the last occurrence of `c` in `s`, if any. */
  function LastIndexOf(s: string, c: char): (r: Option<nat>)
    ensures r.None? <==> c !in s
    ensures r.Some? ==> r.value < |s| && s[r.value] == c && c !in s[r.value + 1..]
  {
    if s == [] then None
    else if s[|s| - 1] == c then Some(|s| - 1)
    else
      var r := LastIndexOf(s[..|s| - 1], c);
      assert s == s[..|s| - 1] + [s[|s| - 1]];
      r
  }

  /** `s.split('.')[-1]`: the text after the last point, or all of `s`. */
  function LastDotComponent(s: string): (r: string)
    ensures '.' !in r
    ensures '.' !in s ==> r == s
    ensures '.' in s ==> |r| < |s| && s[|s| - |r| - 1] == '.'
    ensures r == s[|s| - |r|..]
  {
    match LastIndexOf(s, '.')
    case None => s
    case Some(k) => s[k + 1..]
  }

  function LowerChar(c: char): char
  {
    if 'A' <= c <= 'Z' then (c as int - 'A' as int + 'a' as int) as char else c
  }

  /** `s.lower()` on ASCII letters. */
  function Lower(s: string): (r: string)
    ensures |r| == |s|
    ensures forall k :: 0 <= k < |s| ==> r[k] == LowerChar(s[k])
  {
    seq(|s|, k requires 0 <= k < |s| => LowerChar(s[k]))
  }

  /**
   * `os.path.splitext(p)` with '/' as separator: the extension starts at the
   * last point of the last path component, unless that component has only
   * points before it.
   */
  function SplitExt(p: string): (r: (string, string))
    ensures r.0 + r.1 == p
    ensures r.1 == [] || (r.1[0] == '.' && '.' !in r.1[1..] && '/' !in r.1)
  {
    var start: int := match LastIndexOf(p, '/') case None => 0 case Some(k) => k + 1;
    match LastIndexOf(p, '.')
    case None => (p, [])
    case Some(dot) =>
      if start <= dot && exists j :: start <= j < dot && p[j] != '.' then
        assert p[..dot] + p[dot..] == p;
        (p[..dot], p[dot..])
      else (p, [])
  }

  /** The last `c` of `a + [c] + b` is the one after `a` when `b` has none. */
  lemma LastIndexOfAfter(a: string, b: string, c: char)
    requires c !in b
    ensures LastIndexOf(a + [c] + b, c) == Some(|a|)
  {
    var s := a + [c] + b;
    assert s[|a|] == c;
  }

  /** The last component of `stem.ext` is `ext` when `ext` has no point. */
  lemma LastDotComponentOf(stem: string, ext: string)
    requires '.' !in ext
    ensures LastDotComponent(stem + "." + ext) == ext
  {
    LastIndexOfAfter(stem, ext, '.');
    assert (stem + "." + ext)[|stem| + 1..] == ext;
  }

  /** `os.path.splitext` when the last '/' comes before a character other than a point that precedes the last point. */
  lemma SplitExtAt(p: string, slash: nat, dot: nat)
    requires LastIndexOf(p, '/') == Some(slash) && LastIndexOf(p, '.') == Some(dot)
    requires slash + 1 < dot && p[slash + 1] != '.'
    ensures SplitExt(p) == (p[..dot], p[dot..])
  {
  }

  /**
   * `os.path.splitext` of `dir/base.ext`, where `base` does not start with
   * a point and `ext` has neither a point nor a '/'.
   */
  lemma SplitExtOf(dir: string, base: string, ext: string)
    requires '/' !in base && '.' !in ext && '/' !in ext
    requires base != [] && base[0] != '.'
    ensures SplitExt(dir + "/" + base + "." + ext) == (dir + "/" + base, "." + ext)
  {
    var stem := dir + "/" + base;
    var tail := base + "." + ext;
    var p := stem + "." + ext;
    assert p == dir + ['/'] + tail;
    assert '/' !in tail by {
      assert tail == base + ['.'] + ext;
    }
    LastIndexOfAfter(dir, tail, '/');
    LastIndexOfAfter(stem, ext, '.');
    assert p[|dir| + 1] == base[0];
    SplitExtAt(p, |dir|, |stem|);
    assert p[..|stem|] == stem;
    assert p[|stem|..] == "." + ext;
  }

  /** `h` without its trailing '/' characters. */
  function TrimSlashes(h: string): (r: string)
    ensures |r| <= |h| && r == h[..|r|] && (r == [] || r[|r| - 1] != '/')
    ensures forall k :: |r| <= k < |h| ==> h[k] == '/'
  {
    if h != [] && h[|h| - 1] == '/' then TrimSlashes(h[..|h| - 1]) else h
  }

  /**
   * `os.path.split(p)` with '/' as separator: the text after the last '/',
   * and the text before it with trailing slashes removed (unless it is
   * made of slashes only).
   */
  function PathSplit(p: string): (r: (string, string))
    ensures '/' !in r.1 && |r.1| <= |p| && r.1 == p[|p| - |r.1|..]
    ensures '/' !in p ==> r == ("", p)
  {
    match LastIndexOf(p, '/')
    case None => ("", p)
    case Some(k) =>
      var head := p[..k + 1];
      var trimmed := TrimSlashes(head);
      (if trimmed == [] then head else trimmed, p[k + 1..])
  }

  /** `os.path.join(a, b)` with '/' as separator. */
  function PathJoin(a: string, b: string): (r: string)
    ensures |b| > 0 && b[0] == '/' ==> r == b
    ensures !(|b| > 0 && b[0] == '/') ==> |r| >= |a| + |b| && r[..|a|] == a && r[|r| - |b|..] == b
  {
    if |b| > 0 && b[0] == '/' then b
    else if a == [] || a[|a| - 1] == '/' then a + b
    else a + "/" + b
  }

  /** The position of the first `c` in `s`, or |s| when there is none. */
  function FirstOf(s: string, c: char): (k: nat)
    ensures k <= |s|
    ensures c !in s[..k] && (k < |s| ==> s[k] == c)
  {
    if s == [] || s[0] == c then 0
    else
      var k := 1 + FirstOf(s[1..], c);
      assert s[..k] == [s[0]] + s[1..][..k - 1];
      k
  }

  lemma {:induction false} FirstOfAfter(a: string, b: string, c: char)
    requires c !in a
    ensures FirstOf(a + [c] + b, c) == |a|
  {
    if a != [] {
      assert (a + [c] + b)[1..] == a[1..] + [c] + b;
      FirstOfAfter(a[1..], b, c);
    }
  }

  /** A prefix that contains `c` finds it where the whole text does. */
  lemma {:induction false} FirstOfPrefix(u: string, v: string, c: char)
    requires u <= v && FirstOf(u, c) < |u|
    ensures FirstOf(v, c) == FirstOf(u, c)
  {
    if u[0] != c {
      assert u[1..] <= v[1..];
      FirstOfPrefix(u[1..], v[1..], c);
    }
  }

  /**
   * A separator that occurs in neither head splits both texts at the same
   * place: if `a sep b` starts `c sep d`, then a == c and `b` starts `d`.
   */
  lemma SplitPrefix(a: string, b: string, c: string, d: string, sep: char)
    requires sep !in a && sep !in c
    requires a + [sep] + b <= c + [sep] + d
    ensures a == c && b <= d
  {
    var u, v := a + [sep] + b, c + [sep] + d;
    FirstOfAfter(a, b, sep);
    FirstOfAfter(c, d, sep);
    FirstOfPrefix(u, v, sep);
    assert a == u[..|a|] == v[..|c|] == c;
    assert b == u[|a| + 1..] && d == v[|a| + 1..];
  }

  // ---------------------------------------------------------------------
  // '%d' formatting
  // ---------------------------------------------------------------------

  function DigitChar(d: nat): (c: char)
    requires d < 10
    ensures IsDigit(c) && DigitValue(c) == d
  {
    (d + '0' as int) as char
  }

  /** The decimal digits of `n`, without leading zeros. */
  function NatToString(n: nat): (s: string)
    ensures |s| > 0 && IsDigits(s) && DigitsValue(s) == n
    ensures |s| > 1 ==> s[0] != '0'
  {
    if n < 10 then [DigitChar(n)]
    else
      var s := NatToString(n / 10) + [DigitChar(n % 10)];
      assert s[..|s| - 1] == NatToString(n / 10);
      s
  }

  /** `'%d' % i`. */
  function IntToString(i: int): (s: string)
    ensures |s| > 0
    ensures forall k :: 0 <= k < |s| ==> s[k] == '-' || IsDigit(s[k])
  {
    if i < 0 then "-" + NatToString(-i) else NatToString(i)
  }

  lemma {:induction false} IntToStringInjective(i: int, j: int)
    requires IntToString(i) == IntToString(j)
    ensures i == j
  {
    var s := IntToString(i);
    assert (s[0] == '-') == (i < 0);
    assert (s[0] == '-') == (j < 0);
    if i < 0 {
      assert NatToString(-i) == s[1..] == NatToString(-j);
    } else {
      assert DigitsValue(NatToString(i)) == DigitsValue(NatToString(j));
    }
  }
}
