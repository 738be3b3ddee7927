/** The `Query` record (src/legacylens/core/models/query.py): a search
    request with its text, metadata filters and a bounded result count. */
module QueryModel {
  import opened Validation

  /** Declared bounds and default of `top_k`. */
  const MinTopK: int := 1
  const MaxTopK: int := 100
  const DefaultTopK: int := 10

  /** The keyword arguments a caller may pass; `None` means "not passed". */
  datatype QueryArgs = QueryArgs(
    text: Option<string>,
    filters: Option<Metadata>,
    topK: Option<int>)

  /** A constructed query. */
  datatype Query = Query(text: string, filters: Metadata, topK: int)

  /** The invariant every constructed query keeps. */
  predicate ValidQuery(q: Query) {
    MinTopK <= q.topK <= MaxTopK
  }

  /** The keyword arguments that reproduce `q` when passed back in. */
  function AsArgs(q: Query): QueryArgs {
    QueryArgs(Some(q.text), Some(q.filters), Some(q.topK))
  }

  /** The errors `top_k` raises: none when omitted (the default is not
      re-validated), `greater_than_equal` below 1, `less_than_equal` above 100. */
  function TopKErrors(topK: Option<int>): seq<FieldError> {
    match topK
    case None => []
    case Some(k) =>
      if k < MinTopK then [FieldError([Key("top_k")], GreaterThanEqual(MinTopK))]
      else if k > MaxTopK then [FieldError([Key("top_k")], LessThanEqual(MaxTopK))]
      else []
  }

  /** `Query(**args)`: fields are validated in declaration order and every
      failing field contributes one error. */
  function NewQuery(args: QueryArgs): (r: Result<Query, seq<FieldError>>)
    ensures r.Success? <==> args.text.Some? && (args.topK.Some? ==> MinTopK <= args.topK.value <= MaxTopK)
    ensures r.Success? ==> ValidQuery(r.value)
    ensures r.Failure? ==> r.error != []
    ensures r.Failure? ==> (MissingField("text") in r.error <==> args.text.None?)
    ensures r.Success? ==> r.value.text == args.text.value
    ensures r.Success? ==> r.value.filters == (if args.filters.Some? then args.filters.value else map[])
    ensures r.Success? ==> r.value.topK == (if args.topK.Some? then args.topK.value else DefaultTopK)
  {
    var errors := (if args.text.None? then [MissingField("text")] else []) + TopKErrors(args.topK);
    if errors == [] then
      Success(Query(args.text.value, args.filters.GetOr(map[]), args.topK.GetOr(DefaultTopK)))
    else
      Failure(errors)
  }

  /** Omitting `top_k` gives 10, whether or not filters are passed;
      omitted filters are the empty mapping; the text is stored verbatim
      whatever its length. */
  lemma DefaultsApplied(text: string, filters: Option<Metadata>)
    ensures NewQuery(QueryArgs(Some(text), filters, None)) == Success(Query(text, filters.GetOr(map[]), DefaultTopK))
  {
  }

  /** Any `top_k` in [1, 100] is accepted and stored unchanged, with the
      text, and the filters passed or else the empty mapping. */
  lemma InRangeAccepted(text: string, filters: Option<Metadata>, k: int)
    requires MinTopK <= k <= MaxTopK
    ensures NewQuery(QueryArgs(Some(text), filters, Some(k))) == Success(Query(text, filters.GetOr(map[]), k))
  {
  }

  /** A `top_k` below 1 is rejected with a `greater_than_equal` error. */
  lemma BelowRangeRejected(args: QueryArgs)
    requires args.topK.Some? && args.topK.value < MinTopK
    ensures NewQuery(args).Failure?
    ensures FieldError([Key("top_k")], GreaterThanEqual(1)) in NewQuery(args).error
  {
  }

  /** A `top_k` above 100 is rejected with a `less_than_equal` error. */
  lemma AboveRangeRejected(args: QueryArgs)
    requires args.topK.Some? && args.topK.value > MaxTopK
    ensures NewQuery(args).Failure?
    ensures FieldError([Key("top_k")], LessThanEqual(100)) in NewQuery(args).error
  {
  }

  /** The constructor reaches exactly the valid queries: each one is rebuilt
      from its own fields, and nothing else is ever built. */
  lemma RoundTrip(q: Query)
    ensures NewQuery(AsArgs(q)).Success? <==> ValidQuery(q)
    ensures ValidQuery(q) ==> NewQuery(AsArgs(q)) == Success(q)
  {
  }
}
