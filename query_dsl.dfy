/**
 * The fragment of the Elasticsearch Query DSL that the list components emit, its JSON wire
 * form, and a small document semantics that says which documents a clause selects.
 */
module QueryDsl {
  import opened Json

  /** Query clauses, one constructor per DSL form the list components write. */
  datatype Clause =
    | MatchAll                                  // { match_all: {} }
    | Exists(field: string)                     // { exists: { field } }
    | Term(field: string, value: string)        // { term: { [field]: value } }
    | Terms(field: string, values: seq<string>) // { terms: { [field]: values } }
    | BoolShould(should: seq<Clause>)           // { bool: { should } }
    | BoolMust(must: seq<Clause>)               // { bool: { must } }
    | BoolMustNot(mustNot: Clause)              // { bool: { must_not } }
    | Nested(path: string, query: Clause)       // { nested: { path, query } }

  /**
   * What a `defaultQuery` returns when it is not null: either a bare clause, or a clause
   * under a top-level `query` key, which is how the nested case is handed to the store.
   */
  datatype Fragment = Bare(clause: Clause) | Wrapped(clause: Clause)

  /** The JSON object a clause stands for. */
  function ClauseJson(c: Clause): Json
    decreases c
  {
    match c
    case MatchAll => Single("match_all", Obj(map[]))
    case Exists(f) => Single("exists", Single("field", Str(f)))
    case Term(f, v) => Single("term", Single(f, Str(v)))
    case Terms(f, vs) => Single("terms", Single(f, StrArr(vs)))
    case BoolShould(cs) =>
      Single("bool", Single("should", Arr(seq(|cs|, i requires 0 <= i < |cs| => ClauseJson(cs[i])))))
    case BoolMust(cs) =>
      Single("bool", Single("must", Arr(seq(|cs|, i requires 0 <= i < |cs| => ClauseJson(cs[i])))))
    case BoolMustNot(q) => Single("bool", Single("must_not", ClauseJson(q)))
    case Nested(p, q) => Single("nested", Obj(map["path" := Str(p), "query" := ClauseJson(q)]))
  }

  /** The JSON object a fragment stands for. */
  function FragmentJson(f: Fragment): Json {
    match f
    case Bare(c) => ClauseJson(c)
    case Wrapped(c) => Single("query", ClauseJson(c))
  }

  /**
   * An indexed document: the keyword values of each field (a field may hold several), and
   * for each nested path the nested objects stored under it. Field names inside nested
   * objects are full paths, as the DSL writes them.
   */
  datatype Doc = Doc(fields: map<string, seq<string>>, nested: map<string, seq<Doc>>)

  predicate HasValue(d: Doc, field: string, v: string) {
    field in d.fields && v in d.fields[field]
  }

  /** The `exists` test: the field holds at least one value. */
  predicate FieldExists(d: Doc, field: string) {
    field in d.fields && |d.fields[field]| > 0
  }

  /**
   * Whether a clause selects a document (filter context). A `bool` with only `should`
   * clauses needs one of them to match; with none at all it matches everything.
   */
  predicate Matches(c: Clause, d: Doc)
    decreases c
  {
    match c
    case MatchAll => true
    case Exists(f) => FieldExists(d, f)
    case Term(f, v) => HasValue(d, f, v)
    case Terms(f, vs) => exists v :: v in vs && HasValue(d, f, v)
    case BoolShould(cs) => cs == [] || exists q :: q in cs && Matches(q, d)
    case BoolMust(cs) => forall q :: q in cs ==> Matches(q, d)
    case BoolMustNot(q) => !Matches(q, d)
    case Nested(p, q) => p in d.nested && exists sub :: sub in d.nested[p] && Matches(q, sub)
  }

  /** Whether a component's query selects a document; a null query filters nothing. */
  predicate Selects(q: Option<Fragment>, d: Doc) {
    match q
    case None => true
    case Some(f) => Matches(f.clause, d)
  }

  /**
   * The `query && props.nestedField` step both components end with: a non-null query is put
   * under `{ query: { nested: { path, query } } }` when a nested field is set (non-empty).
   */
  function WrapNested(query: Option<Clause>, nestedField: string): (r: Option<Fragment>)
    ensures r.None? <==> query.None?
    ensures r.Some? && nestedField == "" ==> r.value == Bare(query.value)
    ensures r.Some? && nestedField != "" ==> r.value == Wrapped(Nested(nestedField, query.value))
  {
    match query
    case None => None
    case Some(q) => if nestedField != "" then Some(Wrapped(Nested(nestedField, q))) else Some(Bare(q))
  }

  /**
   * The nested wrapper, as JSON, carries the nested field as `query.nested.path` and the
   * unwrapped clause as `query.nested.query`.
   */
  lemma WrapNestedJson(q: Clause, nestedField: string)
    requires nestedField != ""
    ensures var j := FragmentJson(WrapNested(Some(q), nestedField).value);
            Path(j, ["query", "nested", "path"]) == Some(Str(nestedField)) &&
            Path(j, ["query", "nested", "query"]) == Some(ClauseJson(q))
  {
    var j := FragmentJson(WrapNested(Some(q), nestedField).value);
    var inner := Obj(map["path" := Str(nestedField), "query" := ClauseJson(q)]);
    assert j == Single("query", Single("nested", inner));
    Path3(j, "query", "nested", "path");
    Path3(j, "query", "nested", "query");
  }

  /** A wrapped query selects a document exactly when one of its nested objects matches. */
  lemma WrapNestedSelects(query: Option<Clause>, nestedField: string, d: Doc)
    ensures Selects(WrapNested(query, nestedField), d) <==>
            (query.None? ||
             (nestedField == "" && Matches(query.value, d)) ||
             (nestedField != "" && nestedField in d.nested &&
              exists sub :: sub in d.nested[nestedField] && Matches(query.value, sub)))
  {
  }
}
