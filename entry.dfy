/**
 * The entry widget of widgets/entry.py without its key bindings: the text
 * variable, the undo buffer that records each new value, the type check
 * run on every edit, and the error flag with the highlight it selects.
 */
module EntryWidget {
  import opened Py

  // -----------------------------------------------------------------------
  // The type check of widgets/misc/validate.py
  // -----------------------------------------------------------------------

  /** The data types an entry is created with. */
  datatype Dtype = FloatType | IntType | StrType

  /**
   * `validateType(data, typ)` on the entry's text: a string is a `str`
   * already; otherwise the text must convert with `float()` or `int()`.
   */
  function ValidateType(data: string, typ: Dtype): (ok: bool)
    ensures typ == StrType ==> ok
    ensures typ == FloatType ==> (ok <==> Float(StrV(data)).Ok?)
    ensures typ == IntType ==> (ok <==> Int(StrV(data)).Ok?)
  {
    match typ
    case StrType => true
    case FloatType => ParseFloat(data).Some?
    case IntType => ParseInt(data).Some?
  }

  /** Lines 256-259: an emptied entry is always allowed, any other text must have the entry's type. */
  function ValidateEntry(p: string, typ: Dtype): (ok: bool)
    ensures p == "" ==> ok
    ensures p != "" && typ == FloatType ==> (ok <==> Float(StrV(p)).Ok?)
    ensures p != "" && typ == IntType ==> (ok <==> Int(StrV(p)).Ok?)
    ensures typ == StrType ==> ok
  {
    p == "" || ValidateType(p, typ)
  }

  /** A float entry lets through digits with a point, including a leading point. */
  lemma FloatEntryAccepts()
    ensures ValidateEntry("2.5", FloatType) && ValidateEntry(".5", FloatType)
  {
    assert SplitSign("2.5") == (false, "2.5");
    assert LastIndexOf("2.5", '.') == Some(1);
    assert IsDigits("2") && IsDigits("5");
    assert SplitSign(".5") == (false, ".5");
    assert LastIndexOf(".5", '.') == Some(0);
    assert IsDigits("") && IsDigits("5");
  }

  /** A float entry refuses a lone sign, so a negative number cannot be typed from the left, and letters. */
  lemma FloatEntryRefuses()
    ensures !ValidateEntry("-", FloatType) && !ValidateEntry("a", FloatType)
  {
    assert |"-"[1..]| == 0;
    assert SplitSign("-").1 == [];
    assert SplitSign("a") == (false, "a") && !IsDigits("a");
  }

  /** An int entry takes a signed number and refuses a point. */
  lemma IntEntryExamples()
    ensures ValidateEntry("-3", IntType) && !ValidateEntry("2.5", IntType)
  {
    assert SplitSign("2.5") == (false, "2.5");
    assert !IsDigits("2.5") by {
      assert !IsDigit("2.5"[1]);
    }
    assert SplitSign("-3") == (true, "3") && IsDigits("3");
  }

  // -----------------------------------------------------------------------
  // The undo buffer, as values
  // -----------------------------------------------------------------------

  /** No two neighbouring entries of the buffer are equal. */
  predicate NoRepeats(buf: seq<string>)
  {
    forall k :: 0 < k < |buf| ==> buf[k - 1] != buf[k]
  }

  /** The buffer's top. */
  function Top(buf: seq<string>): string
    requires |buf| > 0
  {
    buf[|buf| - 1]
  }

  /** Lines 155-159: the buffer after `trace` sees the value `v`. */
  function Recorded(buf: seq<string>, v: string): (r: seq<string>)
    requires |buf| > 0
    ensures |r| > 0 && Top(r) == v
    ensures v == Top(buf) ==> r == buf
    ensures v != Top(buf) ==> |r| == |buf| + 1 && r[..|buf|] == buf
  {
    if v != Top(buf) then buf + [v] else buf
  }

  /** Lines 221-223: the buffer after `_pop`. */
  function Undone(buf: seq<string>): (r: seq<string>)
    requires |buf| > 0
    ensures |r| > 0
    ensures |buf| > 1 ==> r == buf[..|buf| - 1]
    ensures |buf| == 1 ==> r == buf
  {
    if |buf| > 1 then buf[..|buf| - 1] else buf
  }

  /** Recording a value keeps the buffer free of neighbouring repeats. */
  lemma RecordedNoRepeats(buf: seq<string>, v: string)
    requires |buf| > 0 && NoRepeats(buf)
    ensures NoRepeats(Recorded(buf, v))
  {
    var r := Recorded(buf, v);
    forall k | 0 < k < |r| ensures r[k - 1] != r[k] {
      if k < |buf| {
        assert r[k - 1] == buf[k - 1] && r[k] == buf[k];
      }
    }
  }

  /** Undoing keeps the buffer free of neighbouring repeats, and the new top differs from the old one. */
  lemma UndoneNoRepeats(buf: seq<string>)
    requires |buf| > 0 && NoRepeats(buf)
    ensures NoRepeats(Undone(buf))
    ensures |buf| > 1 ==> Top(Undone(buf)) != Top(buf)
  {
    if |buf| > 1 {
      assert buf[|buf| - 2] != buf[|buf| - 1];
    }
  }

  /** An undo right after a new value was recorded restores the buffer. */
  lemma UndoRestores(buf: seq<string>, v: string)
    requires |buf| > 0 && v != Top(buf)
    ensures Undone(Recorded(buf, v)) == buf
  {
    assert (buf + [v])[..|buf|] == buf;
  }

  /** Recording the same value twice records it once. */
  lemma RecordedIdempotent(buf: seq<string>, v: string)
    requires |buf| > 0
    ensures Recorded(Recorded(buf, v), v) == Recorded(buf, v)
  {
  }

  /** The buffer after `n` undos. */
  function UndoneTimes(buf: seq<string>, n: nat): (r: seq<string>)
    requires |buf| > 0
    ensures |r| > 0
  {
    if n == 0 then buf else UndoneTimes(Undone(buf), n - 1)
  }

  /**
   * Undo never goes past the default value: after any number of undos at
   * least that first entry is left, and enough undos bring back exactly it.
   */
  lemma {:induction false} UndoneTimesBottom(buf: seq<string>, n: nat)
    requires |buf| > 0
    ensures |UndoneTimes(buf, n)| == (if n < |buf| then |buf| - n else 1)
    ensures UndoneTimes(buf, n) == buf[..|UndoneTimes(buf, n)|]
    ensures n >= |buf| - 1 ==> UndoneTimes(buf, n) == [buf[0]]
  {
    if n > 0 {
      UndoneTimesBottom(Undone(buf), n - 1);
      var u := Undone(buf);
      var r := UndoneTimes(u, n - 1);
      assert r == u[..|r|];
      if |buf| > 1 {
        assert u == buf[..|buf| - 1];
        assert r == buf[..|r|];
      }
    }
  }

  // -----------------------------------------------------------------------
  // The widget
  // -----------------------------------------------------------------------

  /** The colour of the widget's highlight border. */
  datatype Highlight = Background | Black | ErrorColour

  /** One entry widget: its variable, its buffer and its error state. */
  class Entry {
    const dtype: Dtype
    var value: string
    var buffer: seq<string>
    var traceCalls: nat
    var error: bool
    var highlight: Highlight
    var state: string

    /**
     * The buffer is a non-empty history without two equal neighbours.  The
     * displayed value is its top except after a trace command raised, which
     * leaves the new text unrecorded (Synced).
     */
    predicate Valid()
      reads this
    {
      |buffer| > 0 && NoRepeats(buffer)
    }

    /** The displayed value is the top of the buffer. */
    predicate Synced()
      reads this
      requires |buffer| > 0
    {
      value == Top(buffer)
    }

    /** Lines 51-85: the variable holds the default value, which is the whole buffer. */
    constructor (dtype: Dtype, defaultValue: string)
      ensures Valid() && Synced()
      ensures this.dtype == dtype && value == defaultValue && buffer == [defaultValue]
      ensures traceCalls == 0 && !error && highlight == Background && state == "normal"
    {
      this.dtype := dtype;
      value := defaultValue;
      buffer := [defaultValue];
      traceCalls := 0;
      error := false;
      highlight := Background;
      state := "normal";
    }

    /** `_peak`: the top of the buffer, which is the displayed value. */
    function Peak(): (v: string)
      reads this
      requires |buffer| > 0
      ensures Synced() ==> v == value
      ensures v in buffer
    {
      buffer[|buffer| - 1]
    }

    /** `_push`: appends the current value. */
    method Push()
      modifies this
      ensures buffer == old(buffer) + [value]
      ensures value == old(value) && traceCalls == old(traceCalls)
      ensures error == old(error) && highlight == old(highlight) && state == old(state)
    {
      buffer := buffer + [value];
    }

    /**
     * `trace`, run on each write of the variable: a value other than the
     * top calls the trace command, whose outcome is `command`, and is then
     * pushed.  A command that raises stops the trace before the push, and
     * its exception reaches the caller.
     */
    method Trace(command: Result<()>) returns (r: Result<()>)
      requires |buffer| > 0
      modifies this
      ensures value == Top(old(buffer)) ==> r == Ok(()) && buffer == old(buffer)
      ensures value != Top(old(buffer)) ==> r == command
      ensures r.Ok? ==> buffer == Recorded(old(buffer), value)
      ensures r.Err? ==> buffer == old(buffer)
      ensures traceCalls == old(traceCalls) + (if value != Top(old(buffer)) then 1 else 0)
      ensures value == old(value)
      ensures error == old(error) && highlight == old(highlight) && state == old(state)
    {
      r := Ok(());
      if value != buffer[|buffer| - 1] {
        traceCalls := traceCalls + 1;
        r := command;
        if command.Err? {
          return;
        }
        Push();
      }
    }

    /**
     * The variable is written (a keystroke the check let through, or a file
     * chosen) and the trace runs with the trace command's outcome: the
     * history stays well formed, and it records the value unless the
     * command raised.
     */
    method SetValue(v: string, command: Result<()>) returns (r: Result<()>)
      requires Valid()
      modifies this
      ensures Valid()
      ensures value == v
      ensures r == (if v == Top(old(buffer)) then Ok(()) else command)
      ensures r.Ok? ==> buffer == Recorded(old(buffer), v) && Synced()
      ensures r.Err? ==> buffer == old(buffer) && !Synced()
      ensures traceCalls == old(traceCalls) + (if v != Top(old(buffer)) then 1 else 0)
      ensures error == old(error) && highlight == old(highlight) && state == old(state)
    {
      RecordedNoRepeats(buffer, v);
      value := v;
      r := Trace(command);
    }

    /**
     * `_pop` (Ctrl-Z), with the outcome of the trace command: with more
     * than one entry the top goes, the variable takes the new top (whose
     * trace then records nothing) and the trace command runs, its
     * exception propagating; otherwise, or when it returns, the key event
     * is stopped with "break".
     */
    method Pop(command: Result<()>) returns (r: Result<string>)
      requires Valid()
      modifies this
      ensures Valid()
      ensures buffer == Undone(old(buffer))
      ensures |old(buffer)| > 1 ==> Synced() && traceCalls == old(traceCalls) + 1
      ensures |old(buffer)| > 1 && old(Synced()) ==> value != old(value)
      ensures |old(buffer)| > 1 ==> r == (if command.Ok? then Ok("break") else Err(command.error))
      ensures |old(buffer)| == 1 ==> r == Ok("break") && value == old(value) && traceCalls == old(traceCalls)
      ensures error == old(error) && highlight == old(highlight) && state == old(state)
    {
      UndoneNoRepeats(buffer);
      if |buffer| > 1 {
        buffer := buffer[..|buffer| - 1];
        value := buffer[|buffer| - 1];
        var _ := Trace(command);
        traceCalls := traceCalls + 1;
        if command.Err? {
          return Err(command.error);
        }
      }
      return Ok("break");
    }

    /** Lines 167-175: leaves the error state; the border depends on the widget state. */
    method RemoveError()
      modifies this
      ensures !error
      ensures highlight == (if state == "normal" then Background
                            else if state == "focus" then Black else old(highlight))
      ensures value == old(value) && buffer == old(buffer) && traceCalls == old(traceCalls) && state == old(state)
    {
      error := false;
      if state == "normal" {
        highlight := Background;
      }
      if state == "focus" {
        highlight := Black;
      }
    }

    /** Lines 177-182: enters the error state. */
    method TriggerError()
      modifies this
      ensures error && highlight == ErrorColour
      ensures value == old(value) && buffer == old(buffer) && traceCalls == old(traceCalls) && state == old(state)
    {
      error := true;
      highlight := ErrorColour;
    }

    /** Lines 188-192: the mouse enters; the border turns black unless in error. */
    method OnEntry()
      modifies this
      ensures highlight == (if error then old(highlight) else Black)
      ensures error == old(error) && value == old(value) && buffer == old(buffer)
      ensures traceCalls == old(traceCalls) && state == old(state)
    {
      if !error {
        highlight := Black;
      }
    }

    /** Lines 195-201: the mouse leaves; the border shows the error state. */
    method OutEntry()
      modifies this
      ensures highlight == (if error then ErrorColour else Background)
      ensures error == old(error) && value == old(value) && buffer == old(buffer)
      ensures traceCalls == old(traceCalls) && state == old(state)
    {
      if !error {
        highlight := Background;
      } else {
        highlight := ErrorColour;
      }
    }
  }
}
