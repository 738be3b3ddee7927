/** The `SearchResult` record (src/legacylens/core/models/result.py): the
    chunks a retrieval pass returned, their scores and citation strings. */
module ResultModel {
  import opened Validation
  import opened ChunkModel

  /** An element of the `chunks` argument: either an existing `Chunk`, kept
      as it is, or a mapping of chunk fields, validated into a `Chunk`. */
  datatype ChunkInput = Instance(chunk: Chunk) | Fields(args: ChunkArgs)

  /** The keyword arguments a caller may pass; `None` means "not passed". */
  datatype SearchResultArgs = SearchResultArgs(
    chunks: Option<seq<ChunkInput>>,
    scores: Option<seq<Float>>,
    citations: Option<seq<string>>)

  /** A constructed search result. The three lists are independent: nothing
      relates their lengths. */
  datatype SearchResult = SearchResult(
    chunks: seq<Chunk>,
    scores: seq<Float>,
    citations: seq<string>)

  /** Validation of one list element. */
  function ValidateChunk(x: ChunkInput): Result<Chunk, seq<FieldError>> {
    match x
    case Instance(c) => Success(c)
    case Fields(a) => NewChunk(a)
  }

  /** The errors element `i` of `xs` contributes, located under
      `chunks`, `i`. */
  function ElementErrors(xs: seq<ChunkInput>, i: nat): seq<FieldError>
    requires i < |xs|
  {
    match ValidateChunk(xs[i])
    case Success(_) => []
    case Failure(es) => seq(|es|, j requires 0 <= j < |es| => FieldError([Key("chunks"), Index(i)] + es[j].loc, es[j].kind))
  }

  /** Validation of the `chunks` list, element by element: it succeeds
      exactly when every element does, then keeps each validated chunk in
      its position; otherwise it reports the errors of every failing
      element and nothing else. */
  function ValidateChunks(xs: seq<ChunkInput>): (r: Result<seq<Chunk>, seq<FieldError>>)
    ensures r.Success? <==> forall i :: 0 <= i < |xs| ==> ValidateChunk(xs[i]).Success?
    ensures r.Success? ==> |r.value| == |xs|
    ensures r.Success? ==> forall i :: 0 <= i < |xs| ==> r.value[i] == ValidateChunk(xs[i]).value
    ensures r.Failure? ==> forall i, e :: 0 <= i < |xs| && e in ElementErrors(xs, i) ==> e in r.error
    ensures r.Failure? ==> forall e :: e in r.error ==> exists i :: 0 <= i < |xs| && e in ElementErrors(xs, i)
  {
    if xs == [] then Success([])
    else
      var n := |xs| - 1;
      var init := ValidateChunks(xs[..n]);
      assert forall i :: 0 <= i < n ==> ElementErrors(xs[..n], i) == ElementErrors(xs, i);
      match (init, ValidateChunk(xs[n]))
      case (Success(cs), Success(c)) => Success(cs + [c])
      case (Success(_), Failure(_)) => Failure(ElementErrors(xs, n))
      case (Failure(es), Success(_)) => Failure(es)
      case (Failure(es), Failure(_)) => Failure(es + ElementErrors(xs, n))
  }

  /** `SearchResult(**args)`: each list defaults to empty; the chunk list is
      validated, scores and citations are stored as given. */
  function NewSearchResult(args: SearchResultArgs): (r: Result<SearchResult, seq<FieldError>>)
    ensures var xs := args.chunks.GetOr([]);
      r.Success? <==> forall i :: 0 <= i < |xs| ==> ValidateChunk(xs[i]).Success?
    ensures r.Success? ==> |r.value.chunks| == |args.chunks.GetOr([])|
    ensures r.Success? ==> r.value.scores == args.scores.GetOr([]) && r.value.citations == args.citations.GetOr([])
  {
    match ValidateChunks(args.chunks.GetOr([]))
    case Success(cs) => Success(SearchResult(cs, args.scores.GetOr([]), args.citations.GetOr([])))
    case Failure(es) => Failure(es)
  }

  /** With no arguments, all three lists are empty. */
  lemma EmptyByDefault()
    ensures NewSearchResult(SearchResultArgs(None, None, None)) == Success(SearchResult([], [], []))
  {
  }

  /** Chunks, scores and citations given as they are are stored unchanged and
      in order, whatever their lengths: no alignment between them is
      required. */
  lemma StoredAsGiven(chunks: seq<Chunk>, scores: seq<Float>, citations: seq<string>)
    ensures NewSearchResult(SearchResultArgs(Some(seq(|chunks|, i requires 0 <= i < |chunks| => Instance(chunks[i]))), Some(scores), Some(citations)))
      == Success(SearchResult(chunks, scores, citations))
  {
    var xs := seq(|chunks|, i requires 0 <= i < |chunks| => Instance(chunks[i]));
    var r := ValidateChunks(xs);
    assert r.Success?;
    assert r.value == chunks;
  }

  /** Every chunk of a constructed result is a validly constructed chunk: the
      instance passed at that position, or the chunk built from the fields
      passed there. */
  lemma EveryChunkValid(args: SearchResultArgs, i: nat)
    requires NewSearchResult(args).Success?
    requires i < |NewSearchResult(args).value.chunks|
    ensures match args.chunks.value[i]
      case Instance(c) => NewSearchResult(args).value.chunks[i] == c
      case Fields(a) => NewChunk(a) == Success(NewSearchResult(args).value.chunks[i])
  {
  }

  /** A mapping without `content` at position `i` makes the whole result
      fail, with an error located at `chunks`, `i`, `content`. */
  lemma MissingContentRejected(args: SearchResultArgs, i: nat)
    requires args.chunks.Some? && i < |args.chunks.value|
    requires args.chunks.value[i].Fields? && args.chunks.value[i].args.content.None?
    ensures NewSearchResult(args).Failure?
    ensures FieldError([Key("chunks"), Index(i), Key("content")], Missing) in NewSearchResult(args).error
  {
    var xs := args.chunks.value;
    var es := ValidateChunk(xs[i]).error;
    assert es == [FieldError([Key("content")], Missing)];
    assert [Key("chunks"), Index(i)] + es[0].loc == [Key("chunks"), Index(i), Key("content")];
    assert ElementErrors(xs, i)[0] == FieldError([Key("chunks"), Index(i), Key("content")], Missing);
  }
}
