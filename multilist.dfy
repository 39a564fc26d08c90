/**
 * The MultiList component's selection state: the set of checked keys (`currentValue`,
 * a dictionary whose every entry is `true`), the `locked` re-entrancy flag, and what it
 * hands to the store and to its listeners.
 */
module MultiListComponent {
  import opened Json
  import opened ListTypes
  import opened QueryDsl
  import MultiListQuery

  /** What the component hands out. */
  datatype Event =
    | UpdateQuery(value: Value)    // the value `updateQueryHandler` dispatches to the store
    | ValueChange(value: Value)    // `$emit('valueChange', finalValues)`
    | Change(values: seq<string>)  // `$emit('change', values)` when the `value` prop controls the list

  /** `String(array)`: the elements joined with commas. */
  function Join(items: seq<string>): (r: string)
    ensures items == [] ==> r == ""
    ensures |items| == 1 ==> r == items[0]
    ensures |items| > 0 ==> items[0] <= r
    ensures |items| > 1 ==> |r| > |items[0]| && r[|items[0]|] == ','
    decreases |items|
  {
    if items == [] then ""
    else if |items| == 1 then items[0]
    else items[0] + "," + Join(items[1..])
  }

  /** The property key `currentValue[value]` reads and writes for a clicked value. */
  function PropertyKey(value: Value): (r: string)
    ensures value.Key? ==> r == value.key
    ensures value.Keys? && |value.items| == 1 ==> r == value.items[0]
    ensures value == Keys([]) ==> r == ""
    ensures value.Undefined? ==> r == "undefined"
  {
    match value
    case Key(k) => k
    case Keys(items) => Join(items)
    case Undefined => "undefined"
  }

  /** The select-all guard: the label is set and the value is, or contains, the label. */
  predicate SelectsAll(value: Value, selectAllLabel: string): (b: bool)
    ensures b ==> selectAllLabel != "" && !value.Undefined?
  {
    selectAllLabel != "" &&
    ((value.Keys? && selectAllLabel in value.items) || (value.Key? && value.key == selectAllLabel))
  }

  /**
   * `setValue`'s select-all guard agrees with the one `defaultQuery` applies to the values
   * it dispatches; a single string is treated as the one-element array holding it.
   */
  lemma SelectAllGuardAgreesWithQuery(value: Value, props: Props)
    ensures value.Keys? ==>
              (SelectsAll(value, props.selectAllLabel) <==> MultiListQuery.SelectAllPicked(value.items, props))
    ensures value.Key? ==>
              (SelectsAll(value, props.selectAllLabel) <==> MultiListQuery.SelectAllPicked([value.key], props))
  {
  }

  /** `k` is the select-all label (and one is set). */
  predicate IsLabel(k: string, selectAllLabel: string) {
    selectAllLabel != "" && k == selectAllLabel
  }

  /** Removing the select-all label from a set of keys, when one is set. */
  function WithoutLabel(keys: set<string>, selectAllLabel: string): (r: set<string>)
    ensures forall k :: k in r <==> k in keys && !IsLabel(k, selectAllLabel)
  {
    if selectAllLabel != "" then keys - {selectAllLabel} else keys
  }

  /**
   * The values `setValue` emits: exactly a given value, or the keys of a set, in an order
   * fixed by the language that this model does not track.
   */
  datatype Final = Exactly(value: Value) | KeysOf(keys: set<string>)

  /** Whether `v` is a value `setValue` may emit for `f`. */
  predicate Emits(f: Final, v: Value) {
    match f
    case Exactly(x) => v == x
    case KeysOf(s) => v.Keys? && Elems(v.items) == s && Distinct(v.items)
  }

  /**
   * The outcome of `setValue`'s selection logic before `checkValueChange` decides whether
   * to commit it: `live` is the component's `currentValue` after the writes made into it in
   * place, `next` the dictionary `performUpdate` installs, `final` the values it emits.
   */
  datatype Transition = Transition(live: set<string>, next: set<string>, final: Final)

  /** The three transitions of `setValue(value, isDefaultValue)`. */
  function Step(current: set<string>, options: seq<string>, value: Value, isDefaultValue: bool,
                selectAllLabel: string): (t: Transition)
    // select-all toggled off: nothing stays checked
    ensures SelectsAll(value, selectAllLabel) && selectAllLabel in current ==>
              t.next == {} && t.final == Exactly(Keys([])) && t.live == current
    // select-all toggled on: every option and the label are checked, in place
    ensures SelectsAll(value, selectAllLabel) && selectAllLabel !in current ==>
              t.next == current + Elems(options) + {selectAllLabel} && t.live == t.next &&
              t.final == Exactly(Keys([selectAllLabel]))
    // default value: exactly the given values, without the label; emitted as given
    ensures !SelectsAll(value, selectAllLabel) && isDefaultValue ==>
              t.live == current && t.final == Exactly(value) &&
              forall k :: k in t.next <==> value.Keys? && k in value.items && !IsLabel(k, selectAllLabel)
    // click: exactly the clicked key changes membership, and the label goes
    ensures !SelectsAll(value, selectAllLabel) && !isDefaultValue ==>
              var key := PropertyKey(value);
              && t.final == KeysOf(t.next)
              && (!IsLabel(key, selectAllLabel) ==> (key in t.next <==> key !in current))
              && (forall k :: k != key && !IsLabel(k, selectAllLabel) ==> (k in t.next <==> k in current))
              && t.live == current + (if key in current then {} else {key})
    // the select-all label never survives a transition that is not a select-all one
    ensures !SelectsAll(value, selectAllLabel) && selectAllLabel != "" ==> selectAllLabel !in t.next
  {
    if SelectsAll(value, selectAllLabel) then
      if selectAllLabel in current then Transition(current, {}, Exactly(Keys([])))
      else
        var all := current + Elems(options) + {selectAllLabel};
        Transition(all, all, Exactly(Keys([selectAllLabel])))
    else if isDefaultValue then
      var chosen := if value.Keys? then Elems(value.items) else {};
      Transition(current, WithoutLabel(chosen, selectAllLabel), Exactly(value))
    else
      var key := PropertyKey(value);
      var live := if key in current then current else current + {key};
      var toggled := if key in current then current - {key} else live;
      var next := WithoutLabel(toggled, selectAllLabel);
      Transition(live, next, KeysOf(next))
  }

  /** Clicking the same key twice (committed both times) undoes the first click, apart from dropping the select-all label. */
  lemma {:induction false} ClickTwiceRestores(current: set<string>, options: seq<string>, key: string, selectAllLabel: string)
    requires !SelectsAll(Key(key), selectAllLabel)
    ensures var once := Step(current, options, Key(key), false, selectAllLabel).next;
            Step(once, options, Key(key), false, selectAllLabel).next == WithoutLabel(current, selectAllLabel)
  {
    var once := Step(current, options, Key(key), false, selectAllLabel).next;
    var twice := Step(once, options, Key(key), false, selectAllLabel).next;
    assert PropertyKey(Key(key)) == key;
    forall k ensures k in twice <==> k in WithoutLabel(current, selectAllLabel) {
      if k == key {
        assert key in twice <==> key !in once;
        assert key in once <==> key !in current;
      }
    }
  }

  /** Toggling select-all twice (committed both times) leaves nothing checked. */
  lemma {:induction false} SelectAllTwiceClears(current: set<string>, options: seq<string>, value: Value, selectAllLabel: string)
    requires SelectsAll(value, selectAllLabel) && selectAllLabel !in current
    ensures var once := Step(current, options, value, false, selectAllLabel).next;
            selectAllLabel in once &&
            Step(once, options, value, false, selectAllLabel).next == {}
  {
  }

  /**
   * Turning select-all on dispatches the query that selects every document that has the
   * field (every document when missing values are shown), whatever the other options are;
   * with a nested field, the same test applies to the nested objects under its path.
   */
  lemma {:induction false} SelectAllOnDispatchesAllQuery(current: set<string>, options: seq<string>, value: Value,
                                                          props: Props, d: Doc)
    requires SelectsAll(value, props.selectAllLabel) && props.selectAllLabel !in current
    ensures var f := Step(current, options, value, false, props.selectAllLabel).final;
            Selects(MultiListQuery.DefaultQuery(f.value, props), d) <==>
            if props.nestedField == "" then props.showMissing || FieldExists(d, props.dataField)
            else props.nestedField in d.nested &&
                 exists sub :: sub in d.nested[props.nestedField] && (props.showMissing || FieldExists(sub, props.dataField))
  {
    var f := Step(current, options, value, false, props.selectAllLabel).final;
    assert f.value == Keys([props.selectAllLabel]);
    MultiListQuery.DefaultQuerySelects(f.value, props, d);
  }

  /**
   * After a click in 'or' mode (missing values not shown, no nested field), the values
   * emitted and dispatched make a query that selects exactly the documents holding one of
   * the keys now checked; with nothing checked it filters nothing.
   */
  lemma {:induction false} ClickDispatchesCheckedKeys(current: set<string>, options: seq<string>, key: string,
                                                      props: Props, finalValues: Value, d: Doc)
    requires !SelectsAll(Key(key), props.selectAllLabel)
    requires props.queryFormat == "or" && !props.showMissing && props.nestedField == ""
    requires Emits(Step(current, options, Key(key), false, props.selectAllLabel).final, finalValues)
    ensures var next := Step(current, options, Key(key), false, props.selectAllLabel).next;
            Selects(MultiListQuery.DefaultQuery(finalValues, props), d) <==>
            next == {} || exists k :: k in next && HasValue(d, props.dataField, k)
  {
    var next := Step(current, options, Key(key), false, props.selectAllLabel).next;
    assert Elems(finalValues.items) == next;
    MultiListQuery.DefaultQuerySelects(finalValues, props, d);
    ElemsEmpty(finalValues.items);
    if next != {} {
      assert !MultiListQuery.SelectAllPicked(finalValues.items, props);
    }
  }

  /** `Object.keys(dictionary)`: every key once, in an order fixed by the language that this model does not track. */
  method ObjectKeys(s: set<string>) returns (keys: seq<string>)
    ensures Elems(keys) == s && Distinct(keys)
  {
    keys := [];
    var rest := s;
    while rest != {}
      invariant Elems(keys) + rest == s
      invariant Elems(keys) !! rest
      invariant Distinct(keys)
      decreases rest
    {
      var k :| k in rest;
      keys := keys + [k];
      rest := rest - {k};
    }
  }

  class MultiList {
    const props: Props
    var currentValue: set<string>
    var modifiedOptions: seq<string>  // the keys of the option buckets on display
    var locked: bool
    var events: seq<Event>

    constructor (props: Props, options: seq<string>)
      ensures this.props == props && currentValue == {} && modifiedOptions == options
      ensures !locked && events == []
    {
      this.props := props;
      currentValue := {};
      modifiedOptions := options;
      locked := false;
      events := [];
    }

    /** `checkValueChange` runs `performUpdate` at once without `beforeValueChange`, otherwise only when it approves. */
    predicate Commits(approved: bool): (b: bool)
      ensures !props.hasBeforeValueChange ==> b
      ensures props.hasBeforeValueChange ==> (b <==> approved)
    {
      !props.hasBeforeValueChange || approved
    }

    /**
     * `setValue(value, isDefaultValue)`. Ignored while locked when `beforeValueChange` is
     * set; otherwise locks, applies `Step`, and, when the change is committed, installs the
     * new dictionary, dispatches and emits `finalValues`, and unlocks. An uncommitted
     * change leaves the lock set and keeps the writes made in place.
     */
    method SetValue(value: Value, isDefaultValue: bool, approved: bool) returns (finalValues: Value)
      // `value.forEach` throws for any other string on the default-value path
      requires isDefaultValue && value.Key? ==> value.key == "" || SelectsAll(value, props.selectAllLabel)
      modifies this
      ensures modifiedOptions == old(modifiedOptions)
      ensures props.hasBeforeValueChange && old(locked) ==>
                currentValue == old(currentValue) && locked && events == old(events)
      ensures !(props.hasBeforeValueChange && old(locked)) ==>
                var t := Step(old(currentValue), modifiedOptions, value, isDefaultValue, props.selectAllLabel);
                && Emits(t.final, finalValues)
                && (Commits(approved) ==>
                      currentValue == t.next && !locked &&
                      events == old(events) + [UpdateQuery(finalValues), ValueChange(finalValues)])
                && (!Commits(approved) ==> currentValue == t.live && locked && events == old(events))
    {
      if props.hasBeforeValueChange && locked {
        return Undefined;
      }
      locked := true;
      var selectAllLabel := props.selectAllLabel;
      ghost var t := Step(currentValue, modifiedOptions, value, isDefaultValue, selectAllLabel);
      var local := currentValue;  // `let { currentValue } = this.$data`: the live dictionary
      if SelectsAll(value, selectAllLabel) {
        if selectAllLabel in local {
          local := {};
          finalValues := Keys([]);
          assert local == t.next && currentValue == t.live;
        } else {
          var i := 0;
          while i < |modifiedOptions|
            invariant 0 <= i <= |modifiedOptions|
            invariant currentValue == old(currentValue) + Elems(modifiedOptions[..i])
            invariant modifiedOptions == old(modifiedOptions) && events == old(events) && locked
          {
            assert modifiedOptions[..i + 1] == modifiedOptions[..i] + [modifiedOptions[i]];
            currentValue := currentValue + {modifiedOptions[i]};  // written into the live dictionary
            i := i + 1;
          }
          assert modifiedOptions[..i] == modifiedOptions;
          currentValue := currentValue + {selectAllLabel};
          local := currentValue;
          finalValues := Keys([selectAllLabel]);
          assert local == t.next && currentValue == t.live;
        }
      } else if isDefaultValue {
        finalValues := value;
        local := {};
        if value.Keys? && |value.items| > 0 {
          var i := 0;
          while i < |value.items|
            invariant 0 <= i <= |value.items|
            invariant local == Elems(value.items[..i])
          {
            assert value.items[..i + 1] == value.items[..i] + [value.items[i]];
            local := local + {value.items[i]};
            i := i + 1;
          }
          assert value.items[..i] == value.items;
        }
        if selectAllLabel != "" && selectAllLabel in local {
          local := local - {selectAllLabel};
        }
        assert local == t.next;
      } else {
        var key := PropertyKey(value);
        if key in local {
          local := local - {key};
        } else {
          currentValue := currentValue + {key};  // written into the live dictionary
          local := currentValue;
        }
        if selectAllLabel != "" && selectAllLabel in local {
          local := local - {selectAllLabel};
        }
        assert local == t.next && currentValue == t.live;
        var keys := ObjectKeys(local);
        finalValues := Keys(keys);
      }
      assert local == t.next;
      if Commits(approved) {
        // performUpdate
        currentValue := local;
        events := events + [UpdateQuery(finalValues)];
        locked := false;
        events := events + [ValueChange(finalValues)];
      }
    }

    /**
     * `handleClick`: without a `value` prop the click goes through `setValue`; with one,
     * only a 'change' event carries `parseValueArray(currentValue, clicked)` (a helper of
     * the library's `utils` module, not part of this model) and the selection is left alone.
     */
    method HandleClick(clicked: string, approved: bool, parseValueArray: (set<string>, string) -> seq<string>)
      modifies this
      ensures modifiedOptions == old(modifiedOptions)
      ensures props.hasValue ==>
                currentValue == old(currentValue) && locked == old(locked) &&
                events == old(events) + [Change(parseValueArray(old(currentValue), clicked))]
      ensures !props.hasValue && props.hasBeforeValueChange && old(locked) ==>
                currentValue == old(currentValue) && locked && events == old(events)
      ensures !props.hasValue && !(props.hasBeforeValueChange && old(locked)) ==>
                var t := Step(old(currentValue), modifiedOptions, Key(clicked), false, props.selectAllLabel);
                && (Commits(approved) ==>
                      currentValue == t.next && !locked && |events| == |old(events)| + 2 &&
                      events[..|old(events)|] == old(events) && events[|old(events)| + 1].ValueChange? &&
                      events[|old(events)|] == UpdateQuery(events[|old(events)| + 1].value) &&
                      Emits(t.final, events[|old(events)| + 1].value))
                && (!Commits(approved) ==> currentValue == t.live && locked && events == old(events))
    {
      if !props.hasValue {
        var finalValues := SetValue(Key(clicked), false, approved);
      } else {
        events := events + [Change(parseValueArray(currentValue, clicked))];
      }
    }
  }
}
