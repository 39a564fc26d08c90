/**
 * The aggregation-request builders the list components share: `extractQuery`,
 * `getAggsQuery` and `getCompositeAggsQuery`.
 */
module ListUtils {
  import opened Json
  import opened ListTypes

  /**
   * `extractQuery(defaultQuery)`: a fresh object holding the `query` and `aggs` of what the
   * user's `defaultQuery` returns, each only when it is there and truthy.
   */
  function ExtractQuery(defaultQuery: UserDefaultQuery): (r: map<string, Json>)
    ensures r.Keys <= {"query", "aggs"}
    ensures "query" in r <==> defaultQuery.DefaultQueryReturns? && TruthyAt(defaultQuery.result, "query")
    ensures "aggs" in r <==> defaultQuery.DefaultQueryReturns? && TruthyAt(defaultQuery.result, "aggs")
    ensures forall k :: k in r ==> defaultQuery.DefaultQueryReturns? && Get(defaultQuery.result, k) == Some(r[k])
  {
    var queryToBeReturned: map<string, Json> := map[];
    match defaultQuery
    case NoDefaultQuery => queryToBeReturned
    case DefaultQueryReturns(evaluateQuery) =>
      if !Truthy(evaluateQuery) then queryToBeReturned
      else
        var withQuery :=
          if TruthyAt(evaluateQuery, "query") then queryToBeReturned["query" := evaluateQuery.fields["query"]]
          else queryToBeReturned;
        if TruthyAt(evaluateQuery, "aggs") then withQuery["aggs" := evaluateQuery.fields["aggs"]]
        else withQuery
  }

  /** `sortBy || 'count'`, the key handed to the store's `getAggsOrder`. */
  function OrderKey(sortBy: string): (r: string)
    ensures r != ""
    ensures sortBy != "" ==> r == sortBy
    ensures sortBy == "" ==> r == "count"
  {
    if sortBy != "" then sortBy else "count"
  }

  /** The `terms` aggregation of `getAggsQuery`, keyed by the data field. */
  function TermsAggs(props: Props, order: Json): (r: Json)
    ensures r.Obj? && r.fields.Keys == {props.dataField}
    ensures Path(r, [props.dataField, "terms", "field"]) == Some(Str(props.dataField))
    ensures Path(r, [props.dataField, "terms", "size"]) == Some(Num(props.size))
    ensures Path(r, [props.dataField, "terms", "order"]) == Some(order)
    ensures Path(r, [props.dataField, "terms", "missing"]) ==
            if props.showMissing then Some(Str(props.missingLabel)) else None
  {
    var missing: map<string, Json> := if props.showMissing then map["missing" := Str(props.missingLabel)] else map[];
    var terms := Obj(map["field" := Str(props.dataField), "size" := Num(props.size), "order" := order] + missing);
    var r := Single(props.dataField, Single("terms", terms));
    Path3(r, props.dataField, "terms", "field");
    Path3(r, props.dataField, "terms", "size");
    Path3(r, props.dataField, "terms", "order");
    Path3(r, props.dataField, "terms", "missing");
    r
  }

  /**
   * The `props.nestedField` step of both builders: with a nested field the aggregations
   * move, unchanged, under `reactivesearch_nested.aggs`, beside `nested.path`.
   */
  function NestAggs(aggs: Json, nestedField: string): (r: Json)
    ensures nestedField == "" ==> r == aggs
    ensures nestedField != "" ==> r.Obj? && r.fields.Keys == {"reactivesearch_nested"}
    ensures nestedField != "" ==> Path(r, ["reactivesearch_nested", "aggs"]) == Some(aggs)
    ensures nestedField != "" ==> Path(r, ["reactivesearch_nested", "nested", "path"]) == Some(Str(nestedField))
  {
    if nestedField == "" then aggs
    else
      var r := Single("reactivesearch_nested",
                      Obj(map["nested" := Single("path", Str(nestedField)), "aggs" := aggs]));
      Path2(r, "reactivesearch_nested", "aggs");
      Path3(r, "reactivesearch_nested", "nested", "path");
      r
  }

  /** The `aggs` that `getAggsQuery` writes. */
  function AggsRequest(props: Props, getAggsOrder: string -> Json): Json {
    NestAggs(TermsAggs(props, getAggsOrder(OrderKey(props.sortBy))), props.nestedField)
  }

  /**
   * With a nested field, the aggregations are exactly those built without it, under
   * `reactivesearch_nested.aggs`.
   */
  lemma NestedAggsHoldFlatAggs(props: Props, getAggsOrder: string -> Json)
    requires props.nestedField != ""
    ensures Path(AggsRequest(props, getAggsOrder), ["reactivesearch_nested", "aggs"]) ==
            Some(AggsRequest(props.(nestedField := ""), getAggsOrder))
  {
  }

  /** The caller's object after a builder's writes: `size` is 0 and `aggs` is replaced. */
  function WithAggs(query: map<string, Json>, aggs: Json): (r: map<string, Json>)
    ensures r.Keys == query.Keys + {"size", "aggs"}
    ensures r["size"] == Num(0) && r["aggs"] == aggs
    ensures forall k :: k in query && k != "size" && k != "aggs" ==> r[k] == query[k]
  {
    query["size" := Num(0)]["aggs" := aggs]
  }

  /**
   * `{ ...clonedQuery, ...extractQuery(props.defaultQuery) }` once the caller's object
   * `query` holds `aggs`: `size` stays 0, `aggs` and `query` come from the user's
   * `defaultQuery` when it supplies them, and every other key of the caller's object,
   * `query` included when the user's `defaultQuery` does not supply one, is kept.
   */
  function SpreadResult(query: map<string, Json>, aggs: Json, defaultQuery: UserDefaultQuery): (r: map<string, Json>)
    ensures r.Keys == query.Keys + {"size", "aggs"} + ExtractQuery(defaultQuery).Keys
    ensures r["size"] == Num(0)
    ensures r["aggs"] ==
            if defaultQuery.DefaultQueryReturns? && TruthyAt(defaultQuery.result, "aggs")
            then defaultQuery.result.fields["aggs"] else aggs
    ensures "query" in r && defaultQuery.DefaultQueryReturns? && TruthyAt(defaultQuery.result, "query") ==>
            r["query"] == defaultQuery.result.fields["query"]
    ensures forall k :: k in query && k !in {"size", "aggs"} && k !in ExtractQuery(defaultQuery) ==> r[k] == query[k]
  {
    WithAggs(query, aggs) + ExtractQuery(defaultQuery)
  }

  /** Writing `aggs`, then `size`, then `aggs` again leaves the same object as `WithAggs`. */
  lemma WritesCommute(query: map<string, Json>, first: Json, last: Json)
    ensures query["aggs" := first]["size" := Num(0)]["aggs" := last] == WithAggs(query, last)
  {
    var a := query["aggs" := first]["size" := Num(0)]["aggs" := last];
    var b := query["size" := Num(0)]["aggs" := last];
    assert a.Keys == b.Keys;
    assert forall k :: k in a ==> a[k] == b[k];
  }

  /** The object the caller passes in and that the builders write into (`clonedQuery = query` is an alias). */
  class QueryObject {
    var fields: map<string, Json>

    constructor (fields: map<string, Json>)
      ensures this.fields == fields
    {
      this.fields := fields;
    }
  }

  /**
   * `getAggsQuery(query, props)`: writes `size` and `aggs` into the caller's object and
   * returns a spread copy merged with `extractQuery`. `getAggsOrder` is the store's helper.
   */
  method GetAggsQuery(query: QueryObject, props: Props, getAggsOrder: string -> Json)
    returns (r: map<string, Json>)
    modifies query
    ensures query.fields == WithAggs(old(query.fields), AggsRequest(props, getAggsOrder))
    ensures r == SpreadResult(old(query.fields), AggsRequest(props, getAggsOrder), props.defaultQuery)
  {
    ghost var before := query.fields;
    var clonedQuery := query;
    clonedQuery.fields := clonedQuery.fields["size" := Num(0)];
    var terms := TermsAggs(props, getAggsOrder(OrderKey(props.sortBy)));
    clonedQuery.fields := clonedQuery.fields["aggs" := terms];
    if props.nestedField != "" {
      clonedQuery.fields := clonedQuery.fields["aggs" := NestAggs(clonedQuery.fields["aggs"], props.nestedField)];
    }
    assert clonedQuery.fields == WithAggs(before, NestAggs(terms, props.nestedField));
    r := clonedQuery.fields + ExtractQuery(props.defaultQuery);
  }

  /** The `terms` source of the composite aggregation: no `order` for 'count', and `missing_bucket` only with `showMissing`. */
  function CompositeSourceTerms(props: Props): (r: Json)
    ensures r.Obj? && Get(r, "field") == Some(Str(props.dataField))
    ensures Get(r, "order") == if props.sortBy == "count" then None else Some(Str(props.sortBy))
    ensures Get(r, "missing_bucket") == if props.showMissing then Some(Bool(true)) else None
    ensures r.fields.Keys <= {"field", "order", "missing_bucket"}
  {
    var order: map<string, Json> := if props.sortBy == "count" then map[] else map["order" := Str(props.sortBy)];
    var missing: map<string, Json> := if props.showMissing then map["missing_bucket" := Bool(true)] else map[];
    Obj(map["field" := Str(props.dataField)] + order + missing)
  }

  /**
   * The `composite` aggregation of `getCompositeAggsQuery`, keyed by the data field; the
   * fields of `after` are spread last into it, so they win over `sources` and `size`.
   */
  function CompositeAggs(props: Props, after: map<string, Json>): (r: Json)
    ensures r.Obj? && r.fields.Keys == {props.dataField}
    ensures var c := r.fields[props.dataField];
            && c.Obj? && c.fields.Keys == {"composite"}
            && var comp := c.fields["composite"];
            && comp.Obj?
            && comp.fields.Keys == {"sources", "size"} + after.Keys
            && (forall k :: k in after ==> comp.fields[k] == after[k])
            && ("size" !in after ==> comp.fields["size"] == Num(props.size))
            && ("sources" !in after ==>
                  comp.fields["sources"] == Arr([Single(props.dataField, Single("terms", CompositeSourceTerms(props)))]))
  {
    var source := Single(props.dataField, Single("terms", CompositeSourceTerms(props)));
    Single(props.dataField,
           Single("composite", Obj(map["sources" := Arr([source]), "size" := Num(props.size)] + after)))
  }

  /** The `aggs` that `getCompositeAggsQuery` writes. */
  function CompositeAggsRequest(props: Props, after: map<string, Json>): Json {
    NestAggs(CompositeAggs(props, after), props.nestedField)
  }

  /**
   * `getCompositeAggsQuery(query, props, after)`: like `getAggsQuery`, with a composite
   * aggregation (missing values become `missing_bucket`; `missingLabel` is not used).
   * An undefined `after` spreads as the empty object.
   */
  method GetCompositeAggsQuery(query: QueryObject, props: Props, after: map<string, Json>)
    returns (r: map<string, Json>)
    modifies query
    ensures query.fields == WithAggs(old(query.fields), CompositeAggsRequest(props, after))
    ensures r == SpreadResult(old(query.fields), CompositeAggsRequest(props, after), props.defaultQuery)
  {
    ghost var before := query.fields;
    var composite := CompositeAggs(props, after);
    var clonedQuery := query;
    clonedQuery.fields := clonedQuery.fields["aggs" := composite];
    clonedQuery.fields := clonedQuery.fields["size" := Num(0)];
    if props.nestedField != "" {
      clonedQuery.fields := clonedQuery.fields["aggs" := NestAggs(clonedQuery.fields["aggs"], props.nestedField)];
    }
    WritesCommute(before, composite, NestAggs(composite, props.nestedField));
    r := clonedQuery.fields + ExtractQuery(props.defaultQuery);
  }
}
