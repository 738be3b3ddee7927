# LegacyLens core data model and settings, in Dafny

LegacyLens is a retrieval-augmented question-answering pipeline for legacy
source code such as COBOL. Most of its core is a set of abstract stage
interfaces: parser, chunker, embedder, indexer, searcher, reranker, context
assembler and language-model provider. The executable logic of the core
lives in two places, and this project models both:

- **The records passed between stages.** These are `Chunk`, `Query` and
  `SearchResult`, all pydantic models. Each is modelled as a datatype with a
  smart constructor. The constructor takes the keyword arguments, with
  `None` standing for a keyword that was not passed. It returns either the
  record or the list of field errors that pydantic's `ValidationError`
  would carry. Each error has its location (`("top_k",)`,
  `("chunks", 0, "content")`) and its kind (`missing`,
  `greater_than_equal`, `less_than_equal`, `string_too_short`,
  `literal_error`).
- **The application settings.** `Settings` is described by its table of
  declared fields (`Config.SettingsFields`), in declaration order. Each field
  is required with a minimum length, restricted to `dev`/`staging`/`prod`,
  or defaulted. `Config.Validate` resolves an environment map against that
  table and collects an error for every failing field. Its contract ties
  the outcome to an independent field-by-field description
  (`Config.Accepted`, `Config.Expected`). `get_settings` with
  `lru_cache(maxsize=1)` is the class `Config.SettingsCache`. It has one
  slot that holds a `SettingsInstance` object. The first successful call
  fills the slot and `cache_clear` empties it. A failed validation is not
  cached. Object identity models the `a is b` check.

Modules: `Validation` (shared vocabulary), `ChunkModel`, `QueryModel`,
`ResultModel` and `Config`, one per source file.

Two things the code does not check:

- No length is required of `Chunk.content` or `Query.text`
  (chunk.py:11, query.py:11), so the empty string is accepted.
- Nothing relates the lengths of `chunks`, `scores` and `citations`
  (result.py:11-13). The `scores` field is described as "Relevance scores
  per chunk" (result.py:12), but nothing checks that there is one per
  chunk. `ResultModel.StoredAsGiven` shows that lists of any lengths are
  accepted.

## Model

| member | source | states |
|---|---|---|
| `ChunkModel.NewChunk` | src/legacylens/core/models/chunk.py:11-13 | construction succeeds exactly when `content` is passed, and any content, including an empty one, is accepted; a missing `content` gives the single error `missing` at `content`; content, metadata and embedding are stored as passed, with metadata defaulting to empty and the embedding to absent; no length is checked |
| `ChunkModel.RoundTrip` | src/legacylens/core/models/chunk.py:11-13 | every chunk is rebuilt unchanged from its own fields, so construction loses nothing |
| `QueryModel.NewQuery` | src/legacylens/core/models/query.py:11-13 | construction succeeds exactly when `text` is passed and any passed `top_k` lies in [1, 100]; every constructed query has `1 <= top_k <= 100`; a built query holds the text verbatim, the filters passed or else the empty mapping, and the `top_k` passed or else 10; a failure has at least one error, and has a `missing` error at `text` exactly when the text was left out |
| `QueryModel.DefaultsApplied` | src/legacylens/core/models/query.py:11-13 | leaving out `top_k` gives 10 whether or not filters are passed; filters are stored as passed, or else are the empty mapping; text of any length is stored verbatim |
| `QueryModel.InRangeAccepted` | src/legacylens/core/models/query.py:11-13 | any `top_k` in [1, 100] is accepted and stored unchanged, with the text, and with the filters passed or else the empty mapping |
| `QueryModel.BelowRangeRejected` | src/legacylens/core/models/query.py:13 | a `top_k` below 1 fails, with a `greater_than_equal` 1 error at `top_k` |
| `QueryModel.AboveRangeRejected` | src/legacylens/core/models/query.py:13 | a `top_k` above 100 fails, with a `less_than_equal` 100 error at `top_k` |
| `QueryModel.RoundTrip` | src/legacylens/core/models/query.py:11-13 | a query rebuilt from its own fields is accepted exactly when its `top_k` is in range, and it is then unchanged |
| `ResultModel.ValidateChunks` | src/legacylens/core/models/result.py:11 | the `chunks` list validates exactly when every element does; the validated chunks keep their positions; a failure reports the errors of every failing element, located under `chunks` and its index, and no others |
| `ResultModel.NewSearchResult` | src/legacylens/core/models/result.py:11-13 | construction fails only when a chunk element fails to validate; it keeps one chunk per element, and stores scores and citations as passed, each defaulting to empty |
| `ResultModel.EmptyByDefault` | src/legacylens/core/models/result.py:11-13 | with no arguments, chunks, scores and citations are all empty |
| `ResultModel.StoredAsGiven` | src/legacylens/core/models/result.py:11-13 | chunks, scores and citations of any, even unequal, lengths are stored unchanged and in order |
| `ResultModel.EveryChunkValid` | src/legacylens/core/models/result.py:11 | each chunk of a constructed result is either the instance passed at that position or the chunk that the `Chunk` constructor builds from the fields passed there |
| `ResultModel.MissingContentRejected` | src/legacylens/core/models/result.py:11 | a chunk mapping without `content` at position i makes construction fail, with a `missing` error at `chunks`, i, `content` |
| `Config.ValidateFields` | src/legacylens/core/config/settings.py:13-43 | a table of fields validates exactly when every field resolves; the values keep the table's order; a failure reports the error of every failing field and no others |
| `Config.Validate` | src/legacylens/core/config/settings.py:22-43 | validation succeeds exactly when the three API keys are present and non-empty and `ENVIRONMENT`, if set, is dev, staging or prod; the record then holds each key's value or its default; every error names a declared field |
| `Config.MissingRequiredKeyFails` | src/legacylens/core/config/settings.py:23-25 | an absent `PINECONE_API_KEY`, `VOYAGE_API_KEY` or `ANTHROPIC_API_KEY` fails, with a `missing` error for that key |
| `Config.EmptyRequiredKeyFails` | src/legacylens/core/config/settings.py:23-25 | any of those keys set to the empty string fails with `string_too_short` (minimum 1) |
| `Config.UnknownEnvironmentFails` | src/legacylens/core/config/settings.py:28-31 | an `ENVIRONMENT` outside dev/staging/prod fails with a `literal_error` |
| `Config.DefaultsApplied` | src/legacylens/core/config/settings.py:28-43 | with only the three keys set, the environment is `dev`, the index name `legacylens-index`, the Neo4j user `neo4j`, and every other field empty |
| `Config.ValidateFieldsIgnoresUnknownKey` | src/legacylens/core/config/settings.py:19 | adding a key that is not declared in a field table changes neither the values nor the errors of that table |
| `Config.UnknownKeyIgnored` | src/legacylens/core/config/settings.py:16-20 | an undeclared environment key changes nothing: the same record or the same errors result |
| `Config.SettingsCache.constructor` | src/legacylens/core/config/settings.py:46 | the cache starts empty |
| `Config.SettingsCache.GetSettings` | src/legacylens/core/config/settings.py:46-49 | a filled slot is returned as it is, whatever the environment now holds; an empty slot validates the environment, and a success stores a fresh instance holding the validated record, while a failure is returned and leaves the slot empty; every instance returned holds a valid record |
| `Config.SettingsCache.CacheClear` | src/legacylens/core/config/settings.py:46 | the slot is emptied |
| `Config.RepeatedCallsShareInstance` | src/legacylens/core/config/settings.py:46-49 | two calls return the same instance, built from the environment of the first call, even if the environment changed in between |
| `Config.ReloadAfterClear` | src/legacylens/core/config/settings.py:46-49 | after `cache_clear` the next call returns a new instance, validated from the current environment |

## Left out

- The eight stage interfaces (`src/legacylens/core/interfaces/*.py`) declare abstract methods with no bodies. There is no behaviour in them to model. Python's refusal to instantiate an abstract class is a language mechanism.
- Reading the process environment and the `.env` file is I/O. This includes the UTF-8 decoding and the precedence between the two sources. The environment is an input map.
- Config.Validate: keys are matched exactly, although pydantic-settings matches environment names without regard to case by default. That matching is library behaviour that `settings.py` does not show.
- Type checking and coercion are left out. Arguments are taken as already of their declared Python types, and a wrong type (`filters=None`, `top_k="5"`) is not modelled.
- Floats (`embedding`, `scores`) are opaque numbers. Nothing in the core computes with them.
- The values in `metadata` and `filters` are an opaque tagged value. The core never inspects them.
- Passing `embedding=None` explicitly is not distinguished from omitting it, since both give an absent embedding.
- Pydantic errors also carry a message text, the offending input and a context. Only the location and kind of each error are modelled.
- Assigning a field of a record after construction is not modelled, for example attaching an embedding to a chunk. It is not code in the core.
- `lru_cache` is thread-safe, and its statistics (`cache_info`) are not modelled. The model is sequential.
- The package `__init__.py` files only re-export names.
