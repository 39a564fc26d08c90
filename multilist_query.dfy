/** `MultiList.defaultQuery`: the filter a set of checked list items stands for. */
module MultiListQuery {
  import opened Json
  import opened QueryDsl
  import opened ListTypes

  /** `v.filter(item => item !== x)`: every element other than `x`, in order, with its multiplicity. */
  function Without(v: seq<string>, x: string): (r: seq<string>)
    ensures multiset(r) == multiset(v)[x := 0]
    ensures forall y :: y in r <==> y in v && y != x
    ensures x !in v ==> r == v
    decreases |v|
  {
    if v == [] then []
    else
      assert v == [v[0]] + v[1..];
      (if v[0] == x then [] else [v[0]]) + Without(v[1..], x)
  }

  /** The select-all item is among the checked values (and a select-all label is set). */
  predicate SelectAllPicked(v: seq<string>, props: Props) {
    props.selectAllLabel != "" && props.selectAllLabel in v
  }

  /**
   * The clause for a non-empty list of checked values without the select-all item. The
   * clause type of the source is `terms` exactly when `queryFormat` is 'or' and `term`
   * otherwise, so the 'or' branches build `Terms` and the other branch `Term` clauses.
   */
  function ListQuery(v: seq<string>, props: Props): (r: Clause)
    ensures props.queryFormat == "or" && !props.showMissing ==> r == Terms(props.dataField, v)
    ensures props.queryFormat == "or" && props.showMissing ==>
              && r.BoolShould?
              && 1 <= |r.should| <= 2
              && r.should[0] == Terms(props.dataField, Without(v, props.missingLabel))
              && (|r.should| == 2 <==> props.missingLabel in v)
              && (|r.should| == 2 ==> r.should[1] == BoolMustNot(Exists(props.dataField)))
    ensures props.queryFormat != "or" ==>
              && r.BoolMust?
              && |r.must| == |v|
              && forall i :: 0 <= i < |v| ==> r.must[i] == Term(props.dataField, v[i])
  {
    if props.queryFormat == "or" then
      if props.showMissing then
        var should := [Terms(props.dataField, Without(v, props.missingLabel))];
        BoolShould(if props.missingLabel in v then should + [BoolMustNot(Exists(props.dataField))] else should)
      else
        Terms(props.dataField, v)
    else
      BoolMust(seq(|v|, i requires 0 <= i < |v| => Term(props.dataField, v[i])))
  }

  /** The query before the nested step; each ensures is one input class and the shape it gets. */
  function UnnestedQuery(value: Value, props: Props): (r: Option<Clause>)
    ensures r.None? <==> !value.Keys? || |value.items| == 0
    ensures r.Some? && SelectAllPicked(value.items, props) ==>
              r.value == if props.showMissing then MatchAll else Exists(props.dataField)
    ensures r.Some? && !SelectAllPicked(value.items, props) && props.queryFormat == "or" && !props.showMissing ==>
              r.value == Terms(props.dataField, value.items)
    ensures r.Some? && !SelectAllPicked(value.items, props) && props.queryFormat == "or" && props.showMissing ==>
              && r.value.BoolShould?
              && 1 <= |r.value.should| <= 2
              && r.value.should[0] == Terms(props.dataField, Without(value.items, props.missingLabel))
              && (|r.value.should| == 2 <==> props.missingLabel in value.items)
              && (|r.value.should| == 2 ==> r.value.should[1] == BoolMustNot(Exists(props.dataField)))
    ensures r.Some? && !SelectAllPicked(value.items, props) && props.queryFormat != "or" ==>
              && r.value.BoolMust?
              && |r.value.must| == |value.items|
              && forall i :: 0 <= i < |value.items| ==> r.value.must[i] == Term(props.dataField, value.items[i])
  {
    if !value.Keys? || |value.items| == 0 then None
    else
      var v := value.items;
      if SelectAllPicked(v, props) then
        Some(if props.showMissing then MatchAll else Exists(props.dataField))
      else
        // `else if (value)`: an array is always truthy, and `value.length` is non-zero here
        if |v| > 0 then Some(ListQuery(v, props)) else None
  }

  /** `MultiList.defaultQuery(value, props)`; null is None. */
  function DefaultQuery(value: Value, props: Props): (r: Option<Fragment>)
    ensures r.None? <==> !value.Keys? || |value.items| == 0
    ensures r.Some? ==> (r.value.Wrapped? <==> props.nestedField != "")
    ensures r.Some? && props.nestedField == "" ==> r.value.clause == UnnestedQuery(value, props).value
    ensures r.Some? && props.nestedField != "" ==>
              r.value.clause == Nested(props.nestedField, UnnestedQuery(value, props).value)
  {
    WrapNested(UnnestedQuery(value, props), props.nestedField)
  }

  /**
   * What checking the items `v` means for a document, stated on the document: with the
   * select-all item, every document (when missing values are shown) or every document that
   * has the field; in 'or' mode, documents holding one of the values, and with missing
   * values shown, the missing label stands for documents without the field; in 'and' mode,
   * documents holding all of the values.
   */
  predicate Admits(v: seq<string>, props: Props, d: Doc) {
    var f := props.dataField;
    if SelectAllPicked(v, props) then
      props.showMissing || FieldExists(d, f)
    else if props.queryFormat == "or" then
      if props.showMissing then
        (exists x :: x in v && x != props.missingLabel && HasValue(d, f, x)) ||
        (props.missingLabel in v && !FieldExists(d, f))
      else
        exists x :: x in v && HasValue(d, f, x)
    else
      forall x :: x in v ==> HasValue(d, f, x)
  }

  /** The `terms` clause over the values other than the missing label. */
  lemma {:induction false} TermsWithoutMatches(v: seq<string>, field: string, missingLabel: string, d: Doc)
    ensures Matches(Terms(field, Without(v, missingLabel)), d) <==>
            exists x :: x in v && x != missingLabel && HasValue(d, field, x)
  {
    var w := Without(v, missingLabel);
    if exists x :: x in v && x != missingLabel && HasValue(d, field, x) {
      var x :| x in v && x != missingLabel && HasValue(d, field, x);
      assert x in w;
    }
  }

  /**
   * The 'or' query with missing values shown is a `should` of the `terms` clause and, when
   * the missing label is checked, the `must_not exists` clause.
   */
  lemma {:induction false} OrMissingShould(v: seq<string>, props: Props, d: Doc)
    requires props.queryFormat == "or" && props.showMissing
    ensures Matches(ListQuery(v, props), d) <==>
            Matches(Terms(props.dataField, Without(v, props.missingLabel)), d) ||
            (props.missingLabel in v && !FieldExists(d, props.dataField))
  {
    var t := Terms(props.dataField, Without(v, props.missingLabel));
    var q := ListQuery(v, props);
    if props.missingLabel in v {
      var m := BoolMustNot(Exists(props.dataField));
      assert q == BoolShould([t, m]);
      ShouldOfTwo(t, m, d);
      assert Matches(m, d) <==> !FieldExists(d, props.dataField);
    } else {
      assert q == BoolShould([t]);
      ShouldOfOne(t, d);
    }
  }

  /** A `should` of two clauses matches when either does. */
  lemma {:induction false} ShouldOfTwo(t: Clause, m: Clause, d: Doc)
    ensures Matches(BoolShould([t, m]), d) <==> Matches(t, d) || Matches(m, d)
  {
    if Matches(BoolShould([t, m]), d) {
      var c :| c in [t, m] && Matches(c, d);
    }
    assert t in [t, m] && m in [t, m];
  }

  /** A `should` of one clause matches when that clause does. */
  lemma {:induction false} ShouldOfOne(t: Clause, d: Doc)
    ensures Matches(BoolShould([t]), d) <==> Matches(t, d)
  {
    assert t in [t];
  }

  /** The 'or' query with missing values shown: the `terms` clause or the `must_not exists` clause. */
  lemma {:induction false} OrMissingMatches(v: seq<string>, props: Props, d: Doc)
    requires props.queryFormat == "or" && props.showMissing
    ensures Matches(ListQuery(v, props), d) <==>
            (exists x :: x in v && x != props.missingLabel && HasValue(d, props.dataField, x)) ||
            (props.missingLabel in v && !FieldExists(d, props.dataField))
  {
    OrMissingShould(v, props, d);
    TermsWithoutMatches(v, props.dataField, props.missingLabel, d);
  }

  /** The 'and' query: one `term` clause per value, all of which must match. */
  lemma {:induction false} AndMatches(v: seq<string>, props: Props, d: Doc)
    requires props.queryFormat != "or"
    ensures Matches(ListQuery(v, props), d) <==> forall x :: x in v ==> HasValue(d, props.dataField, x)
  {
    var f := props.dataField;
    var q := ListQuery(v, props);
    if Matches(q, d) {
      forall x | x in v ensures HasValue(d, f, x) {
        var i :| 0 <= i < |v| && v[i] == x;
        assert q.must[i] in q.must;
        assert Matches(q.must[i], d);
      }
    }
    if forall x :: x in v ==> HasValue(d, f, x) {
      forall c | c in q.must ensures Matches(c, d) {
        var i :| 0 <= i < |q.must| && q.must[i] == c;
        assert v[i] in v;
      }
    }
  }

  lemma {:induction false} ListQueryMatches(v: seq<string>, props: Props, d: Doc)
    requires !SelectAllPicked(v, props)
    ensures Matches(ListQuery(v, props), d) <==> Admits(v, props, d)
  {
    if props.queryFormat == "or" {
      if props.showMissing {
        OrMissingMatches(v, props, d);
      }
    } else {
      AndMatches(v, props, d);
    }
  }

  /**
   * The partner of `DefaultQuery`: the query selects a document exactly when the checked
   * values admit it, or, with a nested field, admit one of its nested objects; no query
   * (no values) filters nothing.
   */
  lemma {:induction false} DefaultQuerySelects(value: Value, props: Props, d: Doc)
    ensures Selects(DefaultQuery(value, props), d) <==>
            if !value.Keys? || |value.items| == 0 then true
            else if props.nestedField == "" then Admits(value.items, props, d)
            else props.nestedField in d.nested &&
                 exists sub :: sub in d.nested[props.nestedField] && Admits(value.items, props, sub)
  {
    if value.Keys? && |value.items| > 0 {
      var v := value.items;
      var c := UnnestedQuery(value, props).value;
      forall e: Doc ensures Matches(c, e) <==> Admits(v, props, e) {
        if !SelectAllPicked(v, props) {
          ListQueryMatches(v, props, e);
        }
      }
    }
  }
}
