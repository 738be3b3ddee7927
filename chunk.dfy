/** The `Chunk` record (src/legacylens/core/models/chunk.py): a unit of
    indexed code with its text, open metadata and an optional embedding. */
module ChunkModel {
  import opened Validation

  /** The keyword arguments a caller may pass; `None` means "not passed".
      Passing `embedding=None` explicitly has the same effect as omitting it. */
  datatype ChunkArgs = ChunkArgs(
    content: Option<string>,
    metadata: Option<Metadata>,
    embedding: Option<seq<Float>>)

  /** A constructed chunk. Every value of this type has its content set. */
  datatype Chunk = Chunk(
    content: string,
    metadata: Metadata,
    embedding: Option<seq<Float>>)

  /** The keyword arguments that reproduce `c` when passed back in. */
  function AsArgs(c: Chunk): ChunkArgs {
    ChunkArgs(Some(c.content), Some(c.metadata), c.embedding)
  }

  /** `Chunk(**args)`: `content` is required; `metadata` defaults to the
      empty mapping and `embedding` to absent. No length of the content or
      of the embedding is checked. */
  function NewChunk(args: ChunkArgs): (r: Result<Chunk, seq<FieldError>>)
    ensures r.Success? <==> args.content.Some?
    ensures r.Failure? ==> r.error == [MissingField("content")]
    ensures r.Success? ==> r.value.content == args.content.value
    ensures r.Success? ==> r.value.metadata == (if args.metadata.Some? then args.metadata.value else map[])
    ensures r.Success? ==> r.value.embedding == args.embedding
  {
    match args.content
    case None => Failure([MissingField("content")])
    case Some(text) => Success(Chunk(text, args.metadata.GetOr(map[]), args.embedding))
  }

  /** Every chunk is what the constructor builds from its own fields, so the
      constructor reaches every value of the type and loses nothing. */
  lemma RoundTrip(c: Chunk)
    ensures NewChunk(AsArgs(c)) == Success(c)
  {
  }
}
