/**
 * The configuration window of widgets/configWindow.py without its layout
 * and graph: the error flags that gate the Run button, the thread counter
 * and its two buttons, the checks on the input file and the output
 * directory, and the start position `run` derives from the sliders.
 */
module ConfigWin {
  import opened Py
  import opened Grid
  import opened Tk
  import Tools

  // -----------------------------------------------------------------------
  // File and directory checks
  // -----------------------------------------------------------------------

  /** Lines 73: the file dialog's types, as (label, pattern). */
  const FileTypes: seq<(string, string)> :=
    [("PNG", "*.png"), ("JEPG", "*.jpeg"), ("JPG", "*.jpg"), ("GIF", "*.gif")]

  /** `s.lstrip(chars)`. */
  function StripLeft(s: string, chars: set<char>): (r: string)
    ensures |r| <= |s| && r == s[|s| - |r|..]
    ensures r == [] || r[0] !in chars
    ensures forall k :: 0 <= k < |s| - |r| ==> s[k] in chars
  {
    if s != [] && s[0] in chars then StripLeft(s[1..], chars) else s
  }

  /** `s.rstrip(chars)`. */
  function StripRight(s: string, chars: set<char>): (r: string)
    ensures |r| <= |s| && r == s[..|r|]
    ensures r == [] || r[|r| - 1] !in chars
    ensures forall k :: |r| <= k < |s| ==> s[k] in chars
  {
    if s != [] && s[|s| - 1] in chars then StripRight(s[..|s| - 1], chars) else s
  }

  /** `s.strip(chars)`: the longest run inside `s` that neither starts nor ends with a stripped character. */
  function Strip(s: string, chars: set<char>): (r: string)
  {
    StripRight(StripLeft(s, chars), chars)
  }

  /** Line 74: the accepted extensions, each pattern stripped of '.' and '*' and lowered. */
  function Extensions(types: seq<(string, string)>): seq<string>
  {
    seq(|types|, i requires 0 <= i < |types| => Lower(Strip(types[i].1, {'.', '*'})))
  }

  /** `*.e` stripped of points and stars is `e`, when `e` neither starts nor ends with one. */
  lemma StripPattern(e: string)
    requires |e| > 0 && e[0] != '.' && e[0] != '*' && e[|e| - 1] != '.' && e[|e| - 1] != '*'
    ensures Strip("*." + e, {'.', '*'}) == e
  {
    StripLeftPattern(e);
    StripRightKeeps(e);
  }

  /** Both leading characters of `*.e` go, and nothing of `e`. */
  lemma StripLeftPattern(e: string)
    requires |e| > 0 && e[0] != '.' && e[0] != '*'
    ensures StripLeft("*." + e, {'.', '*'}) == e
  {
    var cs := {'.', '*'};
    var p := "*." + e;
    var q := "." + e;
    assert p[0] == '*' && p[1..] == q;
    assert StripLeft(p, cs) == StripLeft(q, cs);
    assert q[0] == '.' && q[1..] == e;
    assert StripLeft(q, cs) == StripLeft(e, cs);
  }

  /** Nothing goes from the right of a text that does not end with '.' or '*'. */
  lemma StripRightKeeps(e: string)
    requires |e| > 0 && e[|e| - 1] != '.' && e[|e| - 1] != '*'
    ensures StripRight(e, {'.', '*'}) == e
  {
  }

  /** Text without capitals is its own lower case. */
  lemma LowerKeeps(s: string)
    requires forall k :: 0 <= k < |s| ==> !('A' <= s[k] <= 'Z')
    ensures Lower(s) == s
  {
    var r := Lower(s);
    forall k | 0 <= k < |s| ensures r[k] == s[k] {
      assert r[k] == LowerChar(s[k]);
    }
  }

  /** One file type's pattern `*.e`, for a lower-case `e`, gives the extension `e`. */
  lemma ExtensionOf(pattern: string, e: string)
    requires pattern == "*." + e && PlainExtension(e)
    ensures Lower(Strip(pattern, {'.', '*'})) == e
  {
    StripPattern(e);
    LowerKeeps(e);
  }

  /** A plain lower-case extension: non-empty, no capitals, neither starting nor ending with '.' or '*'. */
  predicate PlainExtension(e: string)
  {
    && |e| > 0 && e[0] != '.' && e[0] != '*' && e[|e| - 1] != '.' && e[|e| - 1] != '*'
    && forall k :: 0 <= k < |e| ==> !('A' <= e[k] <= 'Z')
  }

  /** File types whose patterns are `*.e` for plain extensions give exactly those extensions. */
  lemma ExtensionsOfPatterns(types: seq<(string, string)>, es: seq<string>)
    requires |types| == |es|
    requires forall i :: 0 <= i < |es| ==> types[i].1 == "*." + es[i] && PlainExtension(es[i])
    ensures Extensions(types) == es
  {
    var x := Extensions(types);
    forall i | 0 <= i < |es| ensures x[i] == es[i] {
      ExtensionOf(types[i].1, es[i]);
    }
  }

  /** The extensions are the four image types. */
  lemma ExtensionsValue()
    ensures Extensions(FileTypes) == ["png", "jpeg", "jpg", "gif"]
  {
    var es := ["png", "jpeg", "jpg", "gif"];
    assert PlainExtension(es[0]) && PlainExtension(es[1]) && PlainExtension(es[2]) && PlainExtension(es[3]);
    ExtensionsOfPatterns(FileTypes, es);
  }

  /**
   * Lines 632-640 on the file name and whether it exists: a non-string
   * raises TypeError; otherwise the call is accepted when the file exists
   * and its last '.'-component, lowered, is an image extension.
   */
  function FileAccepted(file: Value, present: bool): (r: Result<bool>)
    ensures !file.StrV? ==> r == Err(TypeError)
    ensures file.StrV? ==> r.Ok?
  {
    if !file.StrV? then Err(TypeError)
    else Ok(present && Lower(LastDotComponent(file.s)) in Extensions(FileTypes))
  }

  /**
   * An existing file is accepted exactly when its text after the last
   * point is png, jpeg, jpg or gif in any case; a missing one never is.
   */
  lemma FileAcceptedMeans(s: string, present: bool)
    ensures FileAccepted(StrV(s), present) == Ok(present && Lower(LastDotComponent(s)) in {"png", "jpeg", "jpg", "gif"})
  {
    ExtensionsValue();
  }

  /** A name without any point is compared whole, so a file named `png` passes the check. */
  lemma BareNameAccepted()
    ensures FileAccepted(StrV("png"), true) == Ok(true)
  {
    FileAcceptedMeans("png", true);
    assert LastDotComponent("png") == "png";
    LowerKeeps("png");
  }

  /** The extension is compared in lower case. */
  lemma UpperExtensionAccepted()
    ensures FileAccepted(StrV("map.JPG"), true) == Ok(true)
  {
    FileAcceptedMeans("map.JPG", true);
    assert LastIndexOf("map.JPG", '.') == Some(3);
    assert LastDotComponent("map.JPG") == "JPG";
    assert Lower("JPG") == "jpg";
  }

  /** Other extensions are refused. */
  lemma OtherExtensionRefused()
    ensures FileAccepted(StrV("map.tif"), true) == Ok(false)
  {
    FileAcceptedMeans("map.tif", true);
    assert LastIndexOf("map.tif", '.') == Some(3);
    assert LastDotComponent("map.tif") == "tif";
    LowerKeeps("tif");
    assert "tif" != "png" && "tif" != "jpeg" && "tif" != "jpg" && "tif" != "gif";
  }

  /**
   * `checkDir(directory)` with whether the path is a directory and what it
   * lists: TypeError for a non-string, IOError for a non-directory, and
   * otherwise True exactly when the directory is empty.
   */
  function CheckDir(directory: Value, isDir: bool, listing: seq<string>): (r: Result<bool>)
    ensures !directory.StrV? ==> r == Err(TypeError)
    ensures directory.StrV? && !isDir ==> r == Err(IOError)
    ensures directory.StrV? && isDir ==> r == Ok(listing == [])
  {
    if !directory.StrV? then Err(TypeError)
    else if !isDir then Err(IOError)
    else Ok(listing == [])
  }

  // -----------------------------------------------------------------------
  // The start position of `run`
  // -----------------------------------------------------------------------

  /**
   * Lines 720-722: the grid indices nearest to the start sliders on the
   * stepped axes, the first of them on a tie as `np.argmin` gives; an
   * empty axis makes argmin raise.
   */
  function InitPos(latMin: real, latMax: real, lonMin: real, lonMax: real, step: real,
                   latInit: real, lonInit: real): (r: Result<(nat, nat)>)
    requires step > 0.0
    ensures r.Err? <==> Axis(lonMin, lonMax, step).value == [] || Axis(latMin, latMax, step).value == []
    ensures r.Err? ==> r.error == ValueError
    ensures r.Ok? ==> var lon := Axis(lonMin, lonMax, step).value; var lat := Axis(latMin, latMax, step).value;
      && r.value.0 < |lon| && r.value.1 < |lat|
      && (forall j :: 0 <= j < |lon| ==> Sq(lon[r.value.0] - lonInit) <= Sq(lon[j] - lonInit))
      && (forall j :: 0 <= j < r.value.0 ==> Sq(lon[j] - lonInit) > Sq(lon[r.value.0] - lonInit))
      && (forall j :: 0 <= j < |lat| ==> Sq(lat[r.value.1] - latInit) <= Sq(lat[j] - latInit))
      && (forall j :: 0 <= j < r.value.1 ==> Sq(lat[j] - latInit) > Sq(lat[r.value.1] - latInit))
  {
    var lon := Axis(lonMin, lonMax, step).value;
    var lat := Axis(latMin, latMax, step).value;
    var i :- ArgMinSq(lon, lonInit);
    var k :- ArgMinSq(lat, latInit);
    Ok((i, k))
  }

  // -----------------------------------------------------------------------
  // The Run button and the thread buttons
  // -----------------------------------------------------------------------

  /** The flags the window starts with (lines 58-60). */
  const ErrorKeys: set<string> := {"step", "inputFile", "projectName"}

  /** Lines 646-653: `any(self.error.values())` disables Run. */
  predicate RunAllowed(error: map<string, bool>)
  {
    forall k :: k in error ==> !error[k]
  }

  /** Lines 379-390 as written: each boundary branch disables one button and re-enables nothing. */
  function ThreadButtonsAsWritten(count: int, cpuCount: int, minButton: ButtonState,
                                  maxButton: ButtonState): (r: (ButtonState, ButtonState))
    ensures count == 1 ==> !Enabled(r.0) && r.1 == maxButton
    ensures count != 1 && count == cpuCount ==> r.0 == minButton && !Enabled(r.1)
    ensures count != 1 && count != cpuCount ==>
      Enabled(r.0) && Enabled(r.1) && (Enabled(minButton) ==> r.0 == minButton)
      && (Enabled(maxButton) ==> r.1 == maxButton)
  {
    if count == 1 then (Disabled, maxButton)
    else if count == cpuCount then (minButton, Disabled)
    else (Reenable(minButton), Reenable(maxButton))
  }

  /**
   * With two processors the first '+' reaches the maximum while '-' is
   * still disabled from the start, so both buttons end disabled with two
   * threads selected and the count can never change again.
   */
  lemma ThreadButtonsAsWrittenStuck()
    ensures ThreadButtonsAsWritten(2, 2, Disabled, Normal) == (Disabled, Disabled)
  {
  }

  /** A disabled button is enabled again; an enabled one keeps its state. */
  function Reenable(b: ButtonState): (r: ButtonState)
    ensures Enabled(r)
    ensures Enabled(b) ==> r == b
  {
    if Enabled(b) then b else Normal
  }

  /** The button states the thread count calls for: '-' works above 1, '+' below the processor count. */
  function ThreadButtons(count: int, cpuCount: int, minButton: ButtonState,
                         maxButton: ButtonState): (r: (ButtonState, ButtonState))
    ensures Enabled(r.0) <==> count > 1
    ensures Enabled(r.1) <==> count < cpuCount
  {
    (if count <= 1 then Disabled else Reenable(minButton),
     if count >= cpuCount then Disabled else Reenable(maxButton))
  }

  /** Away from both ends the corrected buttons are those of the code as written. */
  lemma ThreadButtonsAgree(count: int, cpuCount: int, minButton: ButtonState, maxButton: ButtonState)
    requires 1 < count < cpuCount
    ensures ThreadButtons(count, cpuCount, minButton, maxButton)
         == ThreadButtonsAsWritten(count, cpuCount, minButton, maxButton)
  {
  }

  /** The configuration window's state outside its widgets' layout. */
  class ConfigWindow {
    const cpuCount: int
    var error: map<string, bool>
    var runButton: ButtonState
    var threadCount: int
    var minButton: ButtonState
    var maxButton: ButtonState
    var nameEntryError: bool
    var stepEntryError: bool
    var inputEntryError: bool

    /**
     * What the window as written keeps: the count stays within one and the
     * processor count, the flags keep their three keys, '-' is disabled at
     * one thread, '+' is disabled at the processor count once that exceeds
     * one, and strictly between the two ends both buttons work.  With one
     * processor '+' stays 'normal' although a press changes nothing, and at
     * the top '-' may stay disabled (ThreadButtonsAsWrittenStuck).
     */
    predicate Valid()
      reads this
    {
      && cpuCount >= 1 && 1 <= threadCount <= cpuCount
      && error.Keys == ErrorKeys
      && (threadCount == 1 ==> !Enabled(minButton))
      && (1 < threadCount == cpuCount ==> !Enabled(maxButton))
      && (1 < threadCount < cpuCount ==> Enabled(minButton) && Enabled(maxButton))
    }

    /**
     * Lines 58-60, 149, 168, 189-197, 215 and 291: every flag raised, one
     * thread, '-' and Run disabled, and the name, input and step entries all
     * highlighted as in error (`triggerError`); '+' is created without a
     * state, so it starts 'normal'.
     */
    constructor (cpuCount: int)
      requires cpuCount >= 1
      ensures this.cpuCount == cpuCount
      ensures error == map["step" := true, "inputFile" := true, "projectName" := true]
      ensures runButton == Disabled && threadCount == 1 && minButton == Disabled && maxButton == Normal
      ensures nameEntryError && stepEntryError && inputEntryError
      ensures Valid()
    {
      this.cpuCount := cpuCount;
      error := map["step" := true, "inputFile" := true, "projectName" := true];
      runButton := Disabled;
      threadCount := 1;
      minButton := Disabled;
      maxButton := Normal;
      nameEntryError := true;
      stepEntryError := true;
      inputEntryError := true;
    }

    /** `checkRun`: Run is enabled exactly when no flag is raised. */
    method CheckRun()
      modifies this
      ensures runButton == (if RunAllowed(error) then Normal else Disabled)
      ensures error == old(error) && threadCount == old(threadCount)
      ensures minButton == old(minButton) && maxButton == old(maxButton)
      ensures nameEntryError == old(nameEntryError) && stepEntryError == old(stepEntryError)
      ensures inputEntryError == old(inputEntryError)
    {
      if exists k :: k in error && error[k] {
        runButton := Disabled;
      } else {
        runButton := Normal;
      }
    }

    /** `checkName` with the name entry's text: an empty name is flagged. */
    method CheckName(nameValue: string)
      requires Valid()
      modifies this
      ensures Valid()
      ensures error == old(error)["projectName" := nameValue == ""]
      ensures nameEntryError == (nameValue == "")
      ensures runButton == (if RunAllowed(error) then Normal else Disabled)
      ensures threadCount == old(threadCount) && minButton == old(minButton) && maxButton == old(maxButton)
      ensures stepEntryError == old(stepEntryError) && inputEntryError == old(inputEntryError)
    {
      if nameValue != "" {
        nameEntryError := false;
        error := error["projectName" := false];
      } else {
        nameEntryError := true;
        error := error["projectName" := true];
      }
      CheckRun();
    }

    /**
     * `updateStep` with the step entry's text: an empty or non-positive
     * step is flagged; text `float()` refuses raises ValueError and
     * changes nothing.
     */
    method UpdateStep(value: string) returns (r: Result<()>)
      requires Valid()
      modifies this
      ensures Valid()
      ensures r.Err? <==> value != "" && Float(StrV(value)).Err?
      ensures r.Err? ==> (r.error == ValueError && error == old(error) && runButton == old(runButton)
        && stepEntryError == old(stepEntryError))
      ensures r.Ok? ==> var flagged := value == "" || Float(StrV(value)).value <= 0.0;
        && error == old(error)["step" := flagged] && stepEntryError == flagged
        && runButton == (if RunAllowed(error) then Normal else Disabled)
      ensures threadCount == old(threadCount) && minButton == old(minButton) && maxButton == old(maxButton)
      ensures nameEntryError == old(nameEntryError) && inputEntryError == old(inputEntryError)
    {
      var flagged: bool;
      if value == "" {
        flagged := true;
      } else {
        var x := Float(StrV(value));
        if x.Err? {
          return Err(x.error);
        }
        flagged := x.value <= 0.0;
      }
      stepEntryError := flagged;
      error := error["step" := flagged];
      CheckRun();
      return Ok(());
    }

    /** `updateThreadButtons` as written: a boundary branch disables one button and re-enables nothing. */
    method UpdateThreadButtons()
      modifies this
      ensures (minButton, maxButton) == ThreadButtonsAsWritten(threadCount, cpuCount, old(minButton), old(maxButton))
      ensures threadCount == old(threadCount) && error == old(error) && runButton == old(runButton)
      ensures nameEntryError == old(nameEntryError) && stepEntryError == old(stepEntryError)
      ensures inputEntryError == old(inputEntryError)
    {
      if threadCount == 1 {
        minButton := Disabled;
      } else if threadCount == cpuCount {
        maxButton := Disabled;
      } else {
        if !Enabled(minButton) {
          minButton := Normal;
        }
        if !Enabled(maxButton) {
          maxButton := Normal;
        }
      }
    }

    /** `decreaseThread`: one thread fewer, never below one. */
    method DecreaseThread()
      requires Valid()
      modifies this
      ensures Valid()
      ensures threadCount == (if old(threadCount) > 1 then old(threadCount) - 1 else old(threadCount))
      ensures error == old(error) && runButton == old(runButton)
      ensures nameEntryError == old(nameEntryError) && stepEntryError == old(stepEntryError)
      ensures inputEntryError == old(inputEntryError)
    {
      if threadCount > 1 {
        threadCount := threadCount - 1;
      }
      UpdateThreadButtons();
    }

    /** `increaseThread`: one thread more, never above the processor count. */
    method IncreaseThread()
      requires Valid()
      modifies this
      ensures Valid()
      ensures threadCount == (if old(threadCount) < cpuCount then old(threadCount) + 1 else old(threadCount))
      ensures error == old(error) && runButton == old(runButton)
      ensures nameEntryError == old(nameEntryError) && stepEntryError == old(stepEntryError)
      ensures inputEntryError == old(inputEntryError)
    {
      if threadCount < cpuCount {
        threadCount := threadCount + 1;
      }
      UpdateThreadButtons();
    }

    /** Line 249: a click on '-' decreases the count unless the button is disabled. */
    method PressMinus()
      requires Valid()
      modifies this
      ensures Valid()
      ensures threadCount == (if Enabled(old(minButton)) && old(threadCount) > 1 then old(threadCount) - 1
                              else old(threadCount))
      ensures error == old(error) && runButton == old(runButton)
      ensures nameEntryError == old(nameEntryError) && stepEntryError == old(stepEntryError)
      ensures inputEntryError == old(inputEntryError)
    {
      if Enabled(minButton) {
        DecreaseThread();
      }
    }

    /** Line 250: a click on '+' increases the count unless the button is disabled. */
    method PressPlus()
      requires Valid()
      modifies this
      ensures Valid()
      ensures threadCount == (if Enabled(old(maxButton)) && old(threadCount) < cpuCount then old(threadCount) + 1
                              else old(threadCount))
      ensures error == old(error) && runButton == old(runButton)
      ensures nameEntryError == old(nameEntryError) && stepEntryError == old(stepEntryError)
      ensures inputEntryError == old(inputEntryError)
    {
      if Enabled(maxButton) {
        IncreaseThread();
      }
    }

    /**
     * `checkFile(file)` with whether the file exists: the input flag is
     * lowered for an accepted file and raised otherwise.  The result says
     * which callback runs next: Ok(true) the ok callback, Ok(false) the
     * error callback.
     */
    method CheckFile(file: Value, present: bool) returns (r: Result<bool>)
      requires Valid()
      modifies this
      ensures Valid()
      ensures r == FileAccepted(file, present)
      ensures r.Err? ==> error == old(error)
      ensures r.Ok? ==> error == old(error)["inputFile" := !r.value]
      ensures runButton == old(runButton) && inputEntryError == old(inputEntryError)
      ensures threadCount == old(threadCount) && minButton == old(minButton) && maxButton == old(maxButton)
      ensures nameEntryError == old(nameEntryError) && stepEntryError == old(stepEntryError)
    {
      r := FileAccepted(file, present);
      if r.Err? {
        return;
      }
      if r.value {
        error := error["inputFile" := false];
      } else {
        error := error["inputFile" := true];
      }
    }

    /**
     * `loadInput` as written, with the input entry's text and whether that
     * file exists.  The ok callback clears the entry's error before Run is
     * re-checked.  The error callback marks the entry and then asks the
     * position sliders for `disabledState`, which Scale does not have: it
     * raises AttributeError before anything re-checks Run, and before the
     * empty-name branch raises the input flag.
     */
    method LoadInputAsWritten(fname: string, present: bool) returns (r: Result<()>)
      requires Valid()
      modifies this
      ensures Valid()
      ensures r.Err? <==> fname == "" || FileAccepted(StrV(fname), present) == Ok(false)
      ensures r.Err? ==> r.error == AttributeError && inputEntryError && runButton == old(runButton)
      ensures fname == "" ==> error == old(error)
      ensures fname != "" ==> error == old(error)["inputFile" := !FileAccepted(StrV(fname), present).value]
      ensures r.Ok? ==> !inputEntryError && runButton == (if RunAllowed(error) then Normal else Disabled)
      ensures threadCount == old(threadCount) && minButton == old(minButton) && maxButton == old(maxButton)
      ensures nameEntryError == old(nameEntryError) && stepEntryError == old(stepEntryError)
    {
      if fname == "" {
        inputEntryError := true;
        return Err(AttributeError);
      }
      var accepted := CheckFile(StrV(fname), present);
      if !accepted.value {
        inputEntryError := true;
        return Err(AttributeError);
      }
      inputEntryError := false;
      CheckRun();
      return Ok(());
    }

    /**
     * `loadInput` with an error callback that completes: an empty or
     * rejected name flags the input and the entry, an accepted one clears
     * both, and Run is re-checked either way.
     */
    method LoadInput(fname: string, present: bool)
      requires Valid()
      modifies this
      ensures Valid()
      ensures error == old(error)["inputFile" := fname == "" || FileAccepted(StrV(fname), present) == Ok(false)]
      ensures inputEntryError == (fname == "" || FileAccepted(StrV(fname), present) == Ok(false))
      ensures runButton == (if RunAllowed(error) then Normal else Disabled)
      ensures threadCount == old(threadCount) && minButton == old(minButton) && maxButton == old(maxButton)
      ensures nameEntryError == old(nameEntryError) && stepEntryError == old(stepEntryError)
    {
      if fname == "" {
        inputEntryError := true;
        CheckRun();
        error := error["inputFile" := true];
        CheckRun();
        return;
      }
      var accepted := CheckFile(StrV(fname), present);
      inputEntryError := !accepted.value;
      CheckRun();
    }
  }

  /**
   * As written, a rejected input after a runnable configuration leaves Run
   * enabled (LoadInputAsWritten keeps the button) although the flag it
   * raised forbids running.
   */
  lemma RejectedInputKeepsRun(error: map<string, bool>, runButton: ButtonState)
    requires error.Keys == ErrorKeys && RunAllowed(error)
    requires runButton == (if RunAllowed(error) then Normal else Disabled)
    ensures Enabled(runButton) && !RunAllowed(error["inputFile" := true])
  {
    assert "inputFile" in error["inputFile" := true];
  }

  /** Run becomes available once a name, a positive step and an accepted image are given. */
  lemma RunAllowedAfterInputs(error: map<string, bool>)
    requires error.Keys == ErrorKeys
    ensures RunAllowed(error["projectName" := false]["step" := false]["inputFile" := false])
    ensures !RunAllowed(error["projectName" := true]) && !RunAllowed(error["step" := true])
    ensures !RunAllowed(error["inputFile" := true])
  {
    var e := error["projectName" := false]["step" := false]["inputFile" := false];
    assert e.Keys == ErrorKeys;
    forall k | k in e ensures !e[k] {
      assert k == "projectName" || k == "step" || k == "inputFile";
    }
    assert "projectName" in error["projectName" := true];
    assert "step" in error["step" := true];
    assert "inputFile" in error["inputFile" := true];
  }
}
