/**
 * The slider of widgets/scale.py without its drawing: how the constructor
 * merges the normal-state options into the keyword arguments and strips
 * the 'state' keyword from every options dictionary it holds.  The
 * dictionaries are objects because the widget keeps the caller's own
 * dictionaries (and the shared `{}` defaults), so several names can denote
 * the same one.
 */
module ScaleWidget {
  import opened Py

  /** A mutable Python dictionary of widget options. */
  class Dict {
    var items: map<string, Value>

    constructor (items: map<string, Value>)
      ensures this.items == items
    {
      this.items := items;
    }
  }

  /** The keyword arguments after lines 59-61: every keyword that also has a normal-state value takes that value. */
  function Merged(kwargs: map<string, Value>, normal: map<string, Value>): map<string, Value>
  {
    map k | k in kwargs :: if k in normal then normal[k] else kwargs[k]
  }

  /** `d.pop('state')` when present. */
  function WithoutState(d: map<string, Value>): (r: map<string, Value>)
    ensures "state" !in r
    ensures forall k :: k != "state" ==> (k in r <==> k in d)
  {
    d - {"state"}
  }

  /**
   * The merge never adds a keyword, overrides exactly the keywords the
   * normal state also sets, and keeps every other keyword's value.
   */
  lemma MergedMeans(kwargs: map<string, Value>, normal: map<string, Value>, k: string)
    ensures k in Merged(kwargs, normal) <==> k in kwargs
    ensures k in kwargs && k in normal ==> Merged(kwargs, normal)[k] == normal[k]
    ensures k in kwargs && k !in normal ==> Merged(kwargs, normal)[k] == kwargs[k]
  {
  }

  /** Merging twice with the same normal state changes nothing more. */
  lemma MergedIdempotent(kwargs: map<string, Value>, normal: map<string, Value>)
    ensures Merged(Merged(kwargs, normal), normal) == Merged(kwargs, normal)
  {
    var m := Merged(kwargs, normal);
    assert m.Keys == kwargs.Keys;
    forall k | k in m ensures Merged(m, normal)[k] == m[k] {
    }
  }

  /** A normal state that shares no keyword with the arguments leaves them as they are. */
  lemma MergedDisjoint(kwargs: map<string, Value>, normal: map<string, Value>)
    requires kwargs.Keys !! normal.Keys
    ensures Merged(kwargs, normal) == kwargs
  {
  }

  /** Lines 59-61: the loop over the normal-state items, writing into the keyword arguments. */
  method MergeNormal(kwargs: Dict, normal: Dict)
    requires kwargs != normal
    modifies kwargs
    ensures kwargs.items == Merged(old(kwargs.items), normal.items)
  {
    ghost var kw0 := kwargs.items;
    var todo := normal.items.Keys;
    while todo != {}
      invariant todo <= normal.items.Keys
      invariant kwargs.items.Keys == kw0.Keys
      invariant forall k :: k in kw0 ==>
        kwargs.items[k] == (if k in normal.items && k !in todo then normal.items[k] else kw0[k])
      decreases todo
    {
      var key :| key in todo;
      if key in kwargs.items {
        kwargs.items := kwargs.items[key := normal.items[key]];
      }
      todo := todo - {key};
    }
  }

  /** Lines 64-66, for one dictionary. */
  method PopState(d: Dict)
    modifies d
    ensures d.items == WithoutState(old(d.items))
  {
    if "state" in d.items {
      d.items := d.items - {"state"};
    }
  }

  /**
   * `configure(state='normal', **extra)`: a keyword given twice raises
   * TypeError; otherwise the widget takes both.
   */
  function Configure(explicit: map<string, Value>, extra: map<string, Value>): (r: Result<map<string, Value>>)
    ensures r.Err? <==> exists k :: k in explicit && k in extra
    ensures r.Err? ==> r.error == TypeError
    ensures r.Ok? ==> (r.value.Keys == explicit.Keys + extra.Keys
      && (forall k :: k in explicit ==> r.value[k] == explicit[k])
      && (forall k :: k in extra ==> r.value[k] == extra[k]))
  {
    if exists k :: k in explicit && k in extra then Err(TypeError) else Ok(explicit + extra)
  }

  /** Once the constructor has stripped it, the normal state can be applied without a repeated keyword. */
  lemma ConfigureAfterStrip(normal: map<string, Value>)
    ensures Configure(map["state" := StrV("normal")], WithoutState(normal)).Ok?
  {
  }

  /** A normal state that still holds 'state' cannot be applied. */
  lemma ConfigureWithState(normal: map<string, Value>)
    requires "state" in normal
    ensures Configure(map["state" := StrV("normal")], normal) == Err(TypeError)
  {
    assert "state" in map["state" := StrV("normal")];
  }

  class Scale {
    var error: bool
    var normalStateParams: Dict
    var errorStateParams: Dict
    var disabledStateParams: Dict
    /** The options the slider was created or last configured with. */
    var options: map<string, Value>

    /**
     * Lines 48-74: the three state dictionaries are kept as given (not
     * copied), the keyword arguments take the normal-state values of the
     * keywords they share, 'state' is removed from all four, and the slider
     * is created from what is left.  `disable` only sets a local that is
     * never passed on, so the slider starts with no 'state' option whatever
     * its value.
     */
    constructor (disable: bool, normal: Dict, errorParams: Dict, disabled: Dict, kwargs: map<string, Value>)
      modifies normal, errorParams, disabled
      ensures !error
      ensures normalStateParams == normal && errorStateParams == errorParams && disabledStateParams == disabled
      ensures options == WithoutState(Merged(kwargs, old(normal.items)))
      ensures normal.items == WithoutState(old(normal.items))
      ensures errorParams.items == WithoutState(old(errorParams.items))
      ensures disabled.items == WithoutState(old(disabled.items))
    {
      error := false;
      normalStateParams := normal;
      errorStateParams := errorParams;
      disabledStateParams := disabled;
      var kw := new Dict(kwargs);
      MergeNormal(kw, normal);
      PopState(kw);
      PopState(normal);
      PopState(disabled);
      PopState(errorParams);
      var state := if disable then "disabled" else "normal";
      options := kw.items;
    }

    /** `normalState`: the slider is configured with state 'normal' and the normal-state options. */
    method NormalState() returns (r: Result<()>)
      modifies this
      ensures r.Err? <==> "state" in normalStateParams.items
      ensures r.Err? ==> r.error == TypeError && options == old(options)
      ensures r.Ok? ==> options == old(options) + Configure(map["state" := StrV("normal")], normalStateParams.items).value
      ensures error == old(error) && normalStateParams == old(normalStateParams)
      ensures errorStateParams == old(errorStateParams) && disabledStateParams == old(disabledStateParams)
    {
      var c := Configure(map["state" := StrV("normal")], normalStateParams.items);
      if c.Err? {
        assert "state" in normalStateParams.items by {
          var k :| k in map["state" := StrV("normal")] && k in normalStateParams.items;
        }
        return Err(c.error);
      }
      options := options + c.value;
      return Ok(());
    }
  }
}
