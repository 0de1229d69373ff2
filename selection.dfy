/**
 * The row selection shared by the two confirmation windows: a click adds
 * the clicked row to the selection when it is absent and removes it when
 * present, and the accepted rows are mapped back to the names they show.
 */
module Selection {
  import opened Py

  /** No element occurs twice. */
  predicate NoDup<T(==)>(s: seq<T>)
  {
    forall i, j :: 0 <= i < j < |s| ==> s[i] != s[j]
  }

  /** The position of the first occurrence of `x` in `s`. */
  function IndexOf<T(==)>(s: seq<T>, x: T): (r: Option<nat>)
    ensures r.None? <==> x !in s
    ensures r.Some? ==> r.value < |s| && s[r.value] == x && x !in s[..r.value]
  {
    if s == [] then None
    else if s[0] == x then Some(0)
    else match IndexOf(s[1..], x)
      case None => None
      case Some(k) =>
        assert s[..k + 1] == [s[0]] + s[1..][..k];
        Some(k + 1)
  }

  /**
   * `s.remove(x)`: the first occurrence of `x` goes.  Python raises
   * ValueError when there is none; the one caller only removes a selected
   * row, and here such a call leaves `s` as it is.
   */
  function RemoveFirst<T(==)>(s: seq<T>, x: T): (r: seq<T>)
    ensures x !in s ==> r == s
    ensures x in s ==> var i := IndexOf(s, x).value; r == s[..i] + s[i + 1..]
  {
    if s == [] then []
    else if s[0] == x then s[1..]
    else match IndexOf(s[1..], x)
      case None => [s[0]] + RemoveFirst(s[1..], x)
      case Some(k) =>
        SlicesOfTail(s, k);
        [s[0]] + RemoveFirst(s[1..], x)
  }

  /** Slices of `s[1..]` are shifted slices of `s`. */
  lemma SlicesOfTail<T>(s: seq<T>, i: nat)
    requires i + 1 < |s|
    ensures s[..i + 1] == [s[0]] + s[1..][..i] && s[i + 2..] == s[1..][i + 1..]
  {
  }

  /** In a list without duplicates, an element's first position is its only one. */
  lemma IndexOfDistinct<T>(s: seq<T>, i: nat)
    requires NoDup(s) && i < |s|
    ensures IndexOf(s, s[i]) == Some(i)
  {
  }

  /** The selection after a click on `item`: appended when absent, its first occurrence removed when present. */
  function Toggled<T(==)>(sel: seq<T>, item: T): seq<T>
  {
    if item !in sel then sel + [item] else RemoveFirst(sel, item)
  }

  /** In a list without duplicates, removing an element leaves the others in their order. */
  lemma RemoveFirstSplits<T>(s: seq<T>, i: nat)
    requires NoDup(s) && i < |s|
    ensures RemoveFirst(s, s[i]) == s[..i] + s[i + 1..]
  {
    IndexOfDistinct(s, i);
  }

  /** Taking out position `i` of a list without duplicates removes exactly its element and keeps the rest distinct. */
  lemma RemovedAt<T>(s: seq<T>, i: nat)
    requires NoDup(s) && i < |s|
    ensures NoDup(s[..i] + s[i + 1..])
    ensures forall y :: y in s[..i] + s[i + 1..] <==> y in s && y != s[i]
  {
    var r := s[..i] + s[i + 1..];
    assert forall k :: 0 <= k < i ==> r[k] == s[k];
    assert forall k :: i <= k < |r| ==> r[k] == s[k + 1];
    forall a, b | 0 <= a < b < |r| ensures r[a] != r[b] {
      var a' := if a < i then a else a + 1;
      var b' := if b < i then b else b + 1;
      assert r[a] == s[a'] && r[b] == s[b'];
    }
    forall y ensures y in r <==> y in s && y != s[i] {
      if y in r {
        var k :| 0 <= k < |r| && r[k] == y;
        assert y == s[if k < i then k else k + 1];
      }
      if y in s && y != s[i] {
        var k :| 0 <= k < |s| && s[k] == y;
        assert y == r[if k < i then k else k - 1];
      }
    }
  }

  /** A click flips the clicked item's membership and no other. */
  lemma ToggledMembership<T>(sel: seq<T>, item: T, other: T)
    requires NoDup(sel)
    ensures item in Toggled(sel, item) <==> item !in sel
    ensures other != item ==> (other in Toggled(sel, item) <==> other in sel)
  {
    if item in sel {
      var i :| 0 <= i < |sel| && sel[i] == item;
      RemoveFirstSplits(sel, i);
      RemovedAt(sel, i);
    }
  }

  /** A click keeps the selection free of duplicates. */
  lemma ToggledNoDup<T>(sel: seq<T>, item: T)
    requires NoDup(sel)
    ensures NoDup(Toggled(sel, item))
  {
    if item in sel {
      var i :| 0 <= i < |sel| && sel[i] == item;
      RemoveFirstSplits(sel, i);
      RemovedAt(sel, i);
    } else {
      var r := sel + [item];
      forall a, b | 0 <= a < b < |r| ensures r[a] != r[b] {
        if b == |sel| {
          assert r[a] == sel[a];
        } else {
          assert r[a] == sel[a] && r[b] == sel[b];
        }
      }
    }
  }

  /** A second click on a row that was not selected gives the selection back. */
  lemma ToggledTwice<T>(sel: seq<T>, item: T)
    requires item !in sel
    ensures Toggled(Toggled(sel, item), item) == sel
  {
    var s := sel + [item];
    assert item in s && s[|sel|] == item;
    RemoveFirstAppended(sel, item);
  }

  /** Removing an item that only occurs at the end leaves what was in front of it. */
  lemma RemoveFirstAppended<T>(sel: seq<T>, item: T)
    requires item !in sel
    ensures RemoveFirst(sel + [item], item) == sel
  {
    var s := sel + [item];
    assert s[|sel|] == item;
    assert s[..|sel|] == sel && s[|sel| + 1..] == [];
  }

  /**
   * `[names[treeview.index(i)] for i in selection]`: None when an item is
   * not a row of the tree or its row has no name (the exception that
   * `accept` swallows), otherwise the names in selection order.
   */
  function FilesOf(ids: seq<string>, names: seq<string>, sel: seq<string>): (r: Option<seq<string>>)
    ensures r.Some? <==> forall k :: 0 <= k < |sel| ==> sel[k] in ids && IndexOf(ids, sel[k]).value < |names|
    ensures r.Some? ==> (|r.value| == |sel|
      && forall k :: 0 <= k < |sel| ==> r.value[k] == names[IndexOf(ids, sel[k]).value])
  {
    if sel == [] then Some([])
    else match IndexOf(ids, sel[0])
      case None => None
      case Some(j) =>
        if j >= |names| then None
        else match FilesOf(ids, names, sel[1..])
          case None => None
          case Some(rest) => Some([names[j]] + rest)
  }

  /** Rows clicked in some order give their names in that same order. */
  lemma ClickedNames(ids: seq<string>, names: seq<string>, rows: seq<nat>, sel: seq<string>)
    requires NoDup(ids) && |ids| == |names|
    requires |sel| == |rows|
    requires forall k :: 0 <= k < |rows| ==> rows[k] < |ids| && sel[k] == ids[rows[k]]
    ensures FilesOf(ids, names, sel).Some?
    ensures |FilesOf(ids, names, sel).value| == |rows|
    ensures forall k :: 0 <= k < |rows| ==> FilesOf(ids, names, sel).value[k] == names[rows[k]]
  {
    forall k | 0 <= k < |rows|
      ensures sel[k] in ids && IndexOf(ids, sel[k]) == Some(rows[k])
    {
      IndexOfDistinct(ids, rows[k]);
    }
  }
}

/**
 * The file-confirmation window of widgets/validate.py: a tree of file
 * names, the selection built by clicking its rows, an Ok button that is
 * enabled exactly when something is selected, and a checkbox that makes
 * Cancel forget the saved projects.
 */
module FileValidate {
  import opened Py
  import opened Tk
  import opened Selection

  class Validate {
    /** The names shown, one per row. */
    const names: seq<string>
    /** The tree's row identifiers, one per name. */
    const ids: seq<string>
    var selection: seq<string>
    var yes: ButtonState
    /** The `projects` entry of the application settings. */
    var projects: seq<string>
    var closed: bool

    /** No row is selected twice, and Ok is usable exactly when a row is selected. */
    predicate Valid()
      reads this
    {
      && |ids| == |names| && NoDup(ids)
      && NoDup(selection)
      && (Enabled(yes) <==> |selection| > 0)
    }

    /** Lines 52, 93-103 and 114: one row per name, nothing selected, Ok disabled. */
    constructor (names: seq<string>, ids: seq<string>, projects: seq<string>)
      requires |ids| == |names| && NoDup(ids)
      ensures Valid()
      ensures this.names == names && this.ids == ids && this.projects == projects
      ensures selection == [] && yes == Disabled && !closed
    {
      this.names := names;
      this.ids := ids;
      this.projects := projects;
      selection := [];
      yes := Disabled;
      closed := false;
    }

    /** `onClick` on a row: the row is toggled, then Ok follows whether anything is selected. */
    method OnClick(item: string)
      requires Valid()
      modifies this
      ensures Valid()
      ensures selection == Toggled(old(selection), item)
      ensures |selection| > 0 ==> yes == (if old(yes) == Disabled then Normal else old(yes))
      ensures |selection| == 0 ==> yes == Disabled
      ensures projects == old(projects) && closed == old(closed)
    {
      ToggledNoDup(selection, item);
      if item !in selection {
        selection := selection + [item];
      } else {
        selection := RemoveFirst(selection, item);
      }
      if |selection| > 0 && yes == Disabled {
        yes := Normal;
      } else if |selection| == 0 && (yes == Normal || yes == Active) {
        yes := Disabled;
      }
    }

    /**
     * `accept`: the names of the selected rows in click order are handed
     * to the accept callback (None when building them raised, which is
     * swallowed); the window closes and True is returned.
     */
    method Accept() returns (files: Option<seq<string>>, r: bool)
      modifies this
      ensures files == FilesOf(ids, names, selection)
      ensures r && closed
      ensures selection == old(selection) && yes == old(yes) && projects == old(projects)
    {
      files := FilesOf(ids, names, selection);
      closed := true;
      r := true;
    }

    /** `cancel` with the checkbox's state: a ticked box empties the saved projects; the window closes. */
    method Cancel(doNotAskAgain: bool) returns (r: bool)
      modifies this
      ensures projects == (if doNotAskAgain then [] else old(projects))
      ensures r && closed
      ensures selection == old(selection) && yes == old(yes)
    {
      if doNotAskAgain {
        projects := [];
      }
      closed := true;
      r := true;
    }
  }
}

/**
 * The confirmation window of validate.py: the same toggling selection,
 * but the Ok button is never tied to it and `accept` ignores it.
 */
module PlainValidate {
  import opened Tk
  import opened Selection

  class Validate {
    var selection: seq<string>
    var yes: ButtonState
    var closed: bool

    predicate Valid()
      reads this
    {
      NoDup(selection)
    }

    /** Lines 100 and 111: nothing selected, Ok created in its default state. */
    constructor ()
      ensures Valid()
      ensures selection == [] && yes == Normal && !closed
    {
      selection := [];
      yes := Normal;
      closed := false;
    }

    /** `onClick` on a row: the row is toggled, and the Ok button stays as it was. */
    method OnClick(item: string)
      requires Valid()
      modifies this
      ensures Valid()
      ensures selection == Toggled(old(selection), item)
      ensures yes == old(yes) && closed == old(closed)
    {
      ToggledNoDup(selection, item);
      if item !in selection {
        selection := selection + [item];
      } else {
        selection := RemoveFirst(selection, item);
      }
    }

    /** `accept`: the callback runs without the selection, any exception is swallowed, the window closes. */
    method Accept() returns (r: bool)
      modifies this
      ensures r && closed
      ensures selection == old(selection) && yes == old(yes)
    {
      closed := true;
      r := true;
    }

    /** `cancel`: the same, with the cancel callback. */
    method Cancel() returns (r: bool)
      modifies this
      ensures r && closed
      ensures selection == old(selection) && yes == old(yes)
    {
      closed := true;
      r := true;
    }
  }
}
