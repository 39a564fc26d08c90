/** The props and values shared by MultiList, SingleList and the list utilities. */
module ListTypes {
  import opened Json

  /**
   * The user's `defaultQuery` prop as the aggregation builders see it: absent, or a
   * function whose result (it is called without arguments there) is the given value.
   */
  datatype UserDefaultQuery = NoDefaultQuery | DefaultQueryReturns(result: Json)

  /**
   * The component props the core reads. String props that may be left unset
   * (`selectAllLabel`, `nestedField`) are "" when unset: every use of them is a
   * truthiness test, for which undefined and "" agree. `hasBeforeValueChange` and
   * `hasValue` record whether the `beforeValueChange` and `value` props are given.
   */
  datatype Props = Props(
    dataField: string,
    queryFormat: string,
    selectAllLabel: string,
    showMissing: bool,
    missingLabel: string,
    nestedField: string,
    size: int,
    sortBy: string,
    hasBeforeValueChange: bool,
    hasValue: bool,
    defaultQuery: UserDefaultQuery)

  /** A value handed to MultiList's `setValue`/`defaultQuery`: an array, a single string, or undefined. */
  datatype Value = Keys(items: seq<string>) | Key(key: string) | Undefined

  /** The elements of a sequence. */
  function Elems(s: seq<string>): (r: set<string>)
    ensures forall x :: x in r <==> x in s
  {
    set x | x in s
  }

  /** A sequence is empty exactly when it has no elements. */
  lemma {:induction false} ElemsEmpty(s: seq<string>)
    ensures Elems(s) == {} <==> s == []
  {
    if s != [] {
      assert s[0] in Elems(s);
    }
  }

  /** No element occurs twice. */
  predicate Distinct(s: seq<string>) {
    forall i, j :: 0 <= i < j < |s| ==> s[i] != s[j]
  }
}
