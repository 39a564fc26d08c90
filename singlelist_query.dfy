/** `SingleList.defaultQuery`: the filter a single chosen list item stands for. */
module SingleListQuery {
  import opened Json
  import opened QueryDsl
  import opened ListTypes
  import MultiListQuery

  /** JavaScript truthiness of a string-or-undefined value. */
  predicate Chosen(value: Option<string>) {
    value.Some? && value.value != ""
  }

  /**
   * `SingleList.defaultQuery(value, props)` as written; None is null and undefined. The
   * select-all and missing-label assignments are each overwritten by the next assignment,
   * here as in the source, so only the `term` query and the nested step remain in effect.
   */
  function DefaultQuery(value: Option<string>, props: Props): (r: Option<Fragment>)
    ensures r.None? <==> !Chosen(value)
    ensures r.Some? ==> (r.value.Wrapped? <==> props.nestedField != "")
    ensures r.Some? && props.nestedField == "" ==> r.value.clause == Term(props.dataField, value.value)
    ensures r.Some? && props.nestedField != "" ==>
              r.value.clause == Nested(props.nestedField, Term(props.dataField, value.value))
  {
    // the source's successive assignments to its local `query`, one binding each
    var query: Option<Clause> := None;
    var query: Option<Clause> :=
      if props.selectAllLabel != "" && Some(props.selectAllLabel) == value then
        var query := if props.showMissing then Some(MatchAll) else query;
        var query := Some(Exists(props.dataField));
        query
      else query;
    var query: Option<Clause> :=
      if Chosen(value) then
        var query :=
          if props.showMissing && Some(props.missingLabel) == value then Some(BoolMustNot(Exists(props.dataField)))
          else query;
        var query := Some(Term(props.dataField, value.value));
        query
      else query;
    WrapNested(query, props.nestedField)
  }

  /**
   * The partner of `DefaultQuery`: a chosen value selects the documents whose field holds
   * that very string (in one of the nested objects when a nested field is set), whatever
   * the select-all and missing labels are; no value filters nothing.
   */
  lemma DefaultQuerySelects(value: Option<string>, props: Props, d: Doc)
    ensures Selects(DefaultQuery(value, props), d) <==>
            if !Chosen(value) then true
            else if props.nestedField == "" then HasValue(d, props.dataField, value.value)
            else props.nestedField in d.nested &&
                 exists sub :: sub in d.nested[props.nestedField] && HasValue(sub, props.dataField, value.value)
  {
    if Chosen(value) {
      forall e: Doc ensures Matches(Term(props.dataField, value.value), e) <==> HasValue(e, props.dataField, value.value) {
      }
    }
  }

  /**
   * The defect as written: choosing the missing-value item (the bucket the aggregation
   * labels `missingLabel` when `showMissing` is set) builds a `term` query on the label
   * text, so a document without the field is not selected; choosing the select-all item
   * builds a `term` query on the select-all label, so a document that has the field with
   * another value is not selected either.
   */
  lemma {:induction false} DeadBranchesLoseDocuments(props: Props)
    requires props.showMissing && props.nestedField == ""
    requires props.missingLabel != "" && props.selectAllLabel != ""
    ensures var noField := Doc(map[], map[]);
            !Selects(DefaultQuery(Some(props.missingLabel), props), noField)
    ensures var other := Doc(map[props.dataField := [props.selectAllLabel + "x"]], map[]);
            !Selects(DefaultQuery(Some(props.selectAllLabel), props), other)
  {
    var other := Doc(map[props.dataField := [props.selectAllLabel + "x"]], map[]);
    assert |props.selectAllLabel + "x"| != |props.selectAllLabel|;
    assert !HasValue(other, props.dataField, props.selectAllLabel);
  }

  /**
   * The corrected definition, before the nested step: the select-all item gives
   * `match_all` (missing values shown) or `exists`, the missing label with `showMissing`
   * gives `must_not exists`, and any other chosen value a `term` query.
   */
  function IntendedClause(value: Option<string>, props: Props): (r: Option<Clause>)
    ensures r.None? <==> !Chosen(value)
  {
    if props.selectAllLabel != "" && Some(props.selectAllLabel) == value then
      Some(if props.showMissing then MatchAll else Exists(props.dataField))
    else if Chosen(value) then
      Some(if props.showMissing && Some(props.missingLabel) == value then BoolMustNot(Exists(props.dataField))
           else Term(props.dataField, value.value))
    else None
  }

  /** The corrected `defaultQuery`: the corrected clause, then the nested step. */
  function IntendedQuery(value: Option<string>, props: Props): (r: Option<Fragment>)
    ensures r.None? <==> !Chosen(value)
    ensures r.Some? ==> (r.value.Wrapped? <==> props.nestedField != "")
  {
    WrapNested(IntendedClause(value, props), props.nestedField)
  }

  /** What choosing `v` is meant to select, stated on the document. */
  predicate Picks(v: string, props: Props, d: Doc) {
    if props.selectAllLabel != "" && v == props.selectAllLabel then
      props.showMissing || FieldExists(d, props.dataField)
    else if props.showMissing && v == props.missingLabel then
      !FieldExists(d, props.dataField)
    else
      HasValue(d, props.dataField, v)
  }

  /** The corrected query selects exactly the documents the chosen item is meant to pick. */
  lemma IntendedQuerySelects(value: Option<string>, props: Props, d: Doc)
    ensures Selects(IntendedQuery(value, props), d) <==>
            if !Chosen(value) then true
            else if props.nestedField == "" then Picks(value.value, props, d)
            else props.nestedField in d.nested &&
                 exists sub :: sub in d.nested[props.nestedField] && Picks(value.value, props, sub)
  {
    if Chosen(value) {
      var c := IntendedClause(value, props).value;
      forall e: Doc ensures Matches(c, e) <==> Picks(value.value, props, e) {
      }
    }
  }

  /**
   * The corrected single-value query selects the same documents as MultiList's 'or' query
   * for the one-element selection `[v]`: one item chosen in either list means the same.
   */
  lemma {:induction false} IntendedAgreesWithMultiList(v: string, props: Props, d: Doc)
    requires v != "" && props.queryFormat == "or"
    ensures Selects(IntendedQuery(Some(v), props), d) <==>
            Selects(MultiListQuery.DefaultQuery(Keys([v]), props), d)
  {
    forall e: Doc ensures Picks(v, props, e) <==> MultiListQuery.Admits([v], props, e) {
      if props.showMissing && v != props.missingLabel && HasValue(e, props.dataField, v) {
        assert v in [v];
      }
    }
    IntendedQuerySelects(Some(v), props, d);
    MultiListQuery.DefaultQuerySelects(Keys([v]), props, d);
  }
}
