/**
 * The SingleList component's selection state: one chosen value (`currentValue`, '' for
 * none), the `locked` re-entrancy flag, and what it hands to the store and its listeners.
 */
module SingleListComponent {
  import opened Json
  import opened ListTypes
  import SingleListQuery

  /** What the component hands out; None is undefined. */
  datatype Event =
    | UpdateQuery(value: Option<string>)  // the value `updateQueryHandler` dispatches to the store
    | ValueChange(value: Option<string>)  // `$emit('valueChange', value)`
    | Change(clicked: string)             // `$emit('change', value)` when the `value` prop controls the list

  /** The value `setValue(nextValue)` commits: the current value chosen again is cleared to ''. */
  function NextValue(current: Option<string>, nextValue: Option<string>): (v: Option<string>)
    ensures nextValue == current ==> v == Some("")
    ensures nextValue != current ==> v == nextValue
  {
    if nextValue == current then Some("") else nextValue
  }

  /**
   * Choosing the same item twice: from any other value the second choice clears it; when
   * it was already chosen, the first choice clears it and the second chooses it again.
   */
  lemma {:induction false} ChooseTwice(current: Option<string>, x: string)
    requires x != ""
    ensures var once := NextValue(current, Some(x));
            NextValue(once, Some(x)) == if current == Some(x) then Some(x) else Some("")
  {
    var once := NextValue(current, Some(x));
    if current == Some(x) {
      assert once == Some("");
      assert Some(x) != once;
    } else {
      assert once == Some(x);
    }
  }

  /**
   * The `selectedValue` watcher: when the store's value differs from `currentValue` it
   * calls `setValue` with that value, or with '' when it is falsy; None when it does not call.
   */
  function WatcherArgument(current: Option<string>, newVal: Option<string>): (a: Option<Option<string>>)
    ensures a.Some? <==> newVal != current
    ensures a.Some? ==> a.value == if SingleListQuery.Chosen(newVal) then newVal else Some("")
    ensures a.Some? ==> SingleListQuery.Chosen(a.value) == SingleListQuery.Chosen(newVal)
  {
    if current != newVal then Some(if SingleListQuery.Chosen(newVal) then newVal else Some("")) else None
  }

  /**
   * A committed watcher update brings the component in line with the store: afterwards
   * `currentValue` is the store's value, or '' for a falsy one. The toggle-off rule can
   * fire here (current '' and a falsy store value), but the outcome is as if it did not.
   */
  lemma {:induction false} WatcherSyncs(current: Option<string>, newVal: Option<string>)
    requires newVal != current
    ensures NextValue(current, WatcherArgument(current, newVal).value) ==
            if SingleListQuery.Chosen(newVal) then newVal else Some("")
  {
    var a := WatcherArgument(current, newVal).value;
    if !SingleListQuery.Chosen(newVal) && current == Some("") {
      assert a == Some("");
    }
  }

  class SingleList {
    const props: Props
    var currentValue: Option<string>
    var locked: bool
    var events: seq<Event>

    constructor (props: Props)
      ensures this.props == props && currentValue == Some("") && !locked && events == []
    {
      this.props := props;
      currentValue := Some("");
      locked := false;
      events := [];
    }

    /** `checkValueChange` runs `performUpdate` at once without `beforeValueChange`, otherwise only when it approves. */
    predicate Commits(approved: bool): (b: bool)
      ensures !props.hasBeforeValueChange ==> b
      ensures props.hasBeforeValueChange ==> (b <==> approved)
    {
      !props.hasBeforeValueChange || approved
    }

    /**
     * `setValue(nextValue)`. Ignored while locked when `beforeValueChange` is set;
     * otherwise locks, and when the change is committed installs `NextValue`, dispatches
     * and emits it and unlocks; an uncommitted change leaves everything but the lock alone.
     */
    method SetValue(nextValue: Option<string>, approved: bool)
      modifies this
      ensures props.hasBeforeValueChange && old(locked) ==>
                currentValue == old(currentValue) && locked && events == old(events)
      ensures !(props.hasBeforeValueChange && old(locked)) && Commits(approved) ==>
                var v := NextValue(old(currentValue), nextValue);
                currentValue == v && !locked && events == old(events) + [UpdateQuery(v), ValueChange(v)]
      ensures !(props.hasBeforeValueChange && old(locked)) && !Commits(approved) ==>
                currentValue == old(currentValue) && locked && events == old(events)
    {
      if props.hasBeforeValueChange && locked {
        return;
      }
      locked := true;
      var value := nextValue;
      if nextValue == currentValue {
        value := Some("");
      }
      if Commits(approved) {
        // performUpdate
        currentValue := value;
        events := events + [UpdateQuery(value)];
        locked := false;
        events := events + [ValueChange(value)];
      }
    }

    /**
     * `handleClick`: without a `value` prop the clicked value goes through `setValue`;
     * with one, only a 'change' event carries it and `currentValue` is left alone.
     */
    method HandleClick(clicked: string, approved: bool)
      modifies this
      ensures props.hasValue ==>
                currentValue == old(currentValue) && locked == old(locked) && events == old(events) + [Change(clicked)]
      ensures !props.hasValue && props.hasBeforeValueChange && old(locked) ==>
                currentValue == old(currentValue) && locked && events == old(events)
      ensures !props.hasValue && !(props.hasBeforeValueChange && old(locked)) && Commits(approved) ==>
                var v := NextValue(old(currentValue), Some(clicked));
                currentValue == v && !locked && events == old(events) + [UpdateQuery(v), ValueChange(v)]
      ensures !props.hasValue && !(props.hasBeforeValueChange && old(locked)) && !Commits(approved) ==>
                currentValue == old(currentValue) && locked && events == old(events)
    {
      if !props.hasValue {
        SetValue(Some(clicked), approved);
      } else {
        events := events + [Change(clicked)];
      }
    }

    /**
     * The `selectedValue` watcher: calls `setValue` only when the store's value differs
     * from `currentValue`. A committed call leaves `currentValue` equal to the store's
     * value, or '' for a falsy one.
     */
    method OnSelectedValue(newVal: Option<string>, approved: bool)
      modifies this
      ensures newVal == old(currentValue) ==> currentValue == old(currentValue) && locked == old(locked) && events == old(events)
      ensures newVal != old(currentValue) && !(props.hasBeforeValueChange && old(locked)) && Commits(approved) ==>
                var v := if SingleListQuery.Chosen(newVal) then newVal else Some("");
                currentValue == v && !locked && events == old(events) + [UpdateQuery(v), ValueChange(v)]
      ensures newVal != old(currentValue) && props.hasBeforeValueChange && old(locked) ==>
                currentValue == old(currentValue) && locked && events == old(events)
      ensures newVal != old(currentValue) && !(props.hasBeforeValueChange && old(locked)) && !Commits(approved) ==>
                currentValue == old(currentValue) && locked && events == old(events)
    {
      var argument := WatcherArgument(currentValue, newVal);
      if argument.Some? {
        WatcherSyncs(currentValue, newVal);
        SetValue(argument.value, approved);
      }
    }
  }
}
