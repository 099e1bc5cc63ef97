# offchain metadata pipeline — a Dafny model

This project models the core of the `offchain` NFT metadata library.

`MetadataPipeline` resolves tokens to metadata:
- it fetches each token's URI once;
- it walks an ordered list of parsers, consulting each parser's `should_parse_token` and running `parse_metadata` on the applicable ones;
- it either returns the first metadata a parser produces (no selector), or hands every candidate to a selector function;
- an exception raised by a parser (caught by `except Exception`) becomes a `MetadataProcessingError` candidate;
- when no parser applies, the single candidate is a "No parsers found." error.

`run` maps this over a token list. It does so either directly or through `batched_parmap`, which cuts the list into batches of 15 and sends each batch to a thread pool via `parmap`.

Building a pipeline mounts each configured adapter on the fetcher under each of its URL prefixes, in order. The default configuration (`DEFAULT_ADAPTER_CONFIGS`) supplies the adapters, and the default parsers are an Opensea parser followed by an Unknown parser.

Modules:
- **Wrappers**, **Exceptions** (`wrappers.dfy`): `Option`, and `Result`, which stands for "returned a value or raised an exception". A raised Python exception is its class name and message.
- **Concurrency** (`concurrency.dfy`): `MAX_PROCS`, the pool's worker count, `parallelize_with_threads`, `parmap`, and `batched_parmap` as an imperative loop. A pool run is modelled as the ordered sequential map `MapAll`, in which the first exception in submission order propagates. `[f.result() for f in futures]` behaves the same way.
- **Models** (`models.dfy`): tokens, fetched content, metadata, processing errors, parsers (an applicability predicate plus a parse function that may raise), adapters, adapter configs, and a `Fetcher` class. The `Fetcher` records its registrations in order and answers `fetch_content` through an abstract routing function.
- **Pipeline** (`metadata_pipeline.dfy`): the configuration constants, the resolution rule as specification functions (`WalkFrom`, `Resolve`, `ResolveToken`, `TokenTrace`), and the `MetadataPipeline` class. Its constructor and methods are proved against those functions.
- **PipelineProperties** (`pipeline_properties.dfy`): the promises of `fetch_token_metadata`, proved against reference definitions that do not mention the loop's accumulators:
  - `Candidates`: one outcome per applicable parser, in order;
  - `Events`: the calls an exhaustive walk makes.

The call counts ("each parser consulted once", "parsed exactly once", "fetched once, first") are stated over a ghost trace of `Fetched`/`Consulted`/`Parsed` events, which `FetchTokenMetadata` returns.

Where the code and its description differ, the model follows the code. The fetch at `metadata_pipeline.py:116` sits outside the `try`, so an exception from `fetch_content` propagates out of `fetch_token_metadata` and out of `run`. It does not become a `MetadataProcessingError`.

## Model

| member | source | states |
|---|---|---|
| Concurrency.MaxProcs | offchain/concurrency.py:10 | `MAX_PROCS = 2·cpu_count + 1` is odd, at least 3, and larger than the CPU count |
| Concurrency.WorkerCount | offchain/concurrency.py:22 | `min(n_tasks, MAX_PROCS)` exceeds neither bound and equals one of them |
| Concurrency.MapAllSpec | offchain/concurrency.py:23-24 | collecting results in submission order succeeds iff every task returns; the results then match the arguments one for one, in order; otherwise the error is that of the first failing task, with every earlier task returning |
| Concurrency.ParallelizeWithThreads | offchain/concurrency.py:13-25 | zero tasks give a zero-worker pool and raise ValueError; otherwise it succeeds iff every task returns, result i is task i's value, and a failure re-raises the exception of the first failing task in submission order |
| Concurrency.Bind | offchain/concurrency.py:38-42 | one task per argument, and task i calls `fn` on argument i, not on a shared loop variable |
| Concurrency.Parmap | offchain/concurrency.py:28-42 | `parmap` on an empty list raises the pool's ValueError; on a non-empty list it is the ordered map of `fn` |
| Concurrency.MapAllAppend | offchain/concurrency.py:50-51 | mapping a concatenation maps the first part, then the second: the first failure wins, and otherwise the results concatenate |
| Concurrency.MapAllChain | offchain/concurrency.py:50-51 | mapping a concatenation is the map of the first part chained with the map of the second |
| Concurrency.BatchesPartition | offchain/concurrency.py:47-49 | the batches concatenate back to `args`, and each holds between 1 and `batch_size` arguments |
| Concurrency.BatchesCount | offchain/concurrency.py:47-50 | there are `ceil(len(args)/batch_size)` batches, and none exactly when `args` is empty |
| Concurrency.BatchAt | offchain/concurrency.py:47-49 | batch k is `args[k·size : k·size + size]`, cut at the end of the list, and starts inside `args` |
| Concurrency.BatchedTurn | offchain/concurrency.py:48-51 | one loop turn: the slice handed to `parmap` is the next batch; it either raises the exception of the whole map or extends `results` to the next prefix |
| Concurrency.BatchedParmap | offchain/concurrency.py:45-52 | step 0 raises range's ValueError; a negative step gives `[]`; a positive step gives the ordered map of `fn` over `args`; the batches dispatched are a prefix of `Batches`, and all of them when no call raises; when a call raises, dispatching stops at the first batch whose `parmap` raises: every earlier batch mapped without an exception and the result is that batch's exception |
| Pipeline.MountRegistrations | offchain/metadata/pipelines/metadata_pipeline.py:96-97 | one registration per prefix, in prefix order, all for the same adapter |
| Pipeline.RegistrationsSnoc | offchain/metadata/pipelines/metadata_pipeline.py:74-78 | mounting one more config appends exactly its registrations |
| Pipeline.InstantiateAll | offchain/metadata/pipelines/metadata_pipeline.py:80 | one parser per class, in class order, each built with the pipeline's fetcher |
| Pipeline.MetadataPipeline.constructor | offchain/metadata/pipelines/metadata_pipeline.py:65-81 | keeps a given fetcher, or builds a fresh one; appends the registrations of the given configs (the defaults when none are given) to the fetcher's earlier ones; uses the given parsers, or the default classes instantiated with the fetcher |
| Pipeline.MetadataPipeline.MountAll | offchain/metadata/pipelines/metadata_pipeline.py:74-78 | the fetcher's registrations grow by those of every config, in config order, and nothing else is recorded |
| Pipeline.MetadataPipeline.MountAdapter | offchain/metadata/pipelines/metadata_pipeline.py:83-97 | the fetcher's registrations grow by one `(adapter, prefix)` per prefix, in prefix order |
| Pipeline.MetadataPipeline.FetchTokenMetadata | offchain/metadata/pipelines/metadata_pipeline.py:99-134 | the result is `ResolveToken` on the fetcher's current state, and the calls made are `TokenTrace` (fetch, then the walk over the parsers) |
| Pipeline.MetadataPipeline.Run | offchain/metadata/pipelines/metadata_pipeline.py:136-165 | on either branch, the result is the ordered map of `fetch_token_metadata` over `tokens`; `[]` for no tokens; on success there is one outcome per token and outcome i is token i's; on failure the error is that of the first token whose resolution raises |
| PipelineProperties.WalkStep | offchain/metadata/pipelines/metadata_pipeline.py:118-126 | a parser that does not end the walk adds its candidate, if it applies, and its calls: consulted, then parsed when applicable |
| PipelineProperties.ExhaustiveWalk | offchain/metadata/pipelines/metadata_pipeline.py:118-126 | with a selector, the walk tries every parser, collects `Candidates`, and makes the calls `Events` |
| PipelineProperties.ShortCircuitReturns | offchain/metadata/pipelines/metadata_pipeline.py:118-123 | without a selector, the walk returns the value of the first applicable parser that does not raise, after the calls of the parsers up to and including it |
| PipelineProperties.ShortCircuitExhausts | offchain/metadata/pipelines/metadata_pipeline.py:118-126 | without a selector, when every applicable parser raises, the walk is the exhaustive one |
| PipelineProperties.CandidatesHead | offchain/metadata/pipelines/metadata_pipeline.py:119-127 | the candidate list is empty iff no parser applies; otherwise its head is the first applicable parser's outcome |
| PipelineProperties.CountAppend | offchain/metadata/pipelines/metadata_pipeline.py:118-121 | occurrences of a call in two consecutive stretches of calls add up |
| PipelineProperties.EventCounts | offchain/metadata/pipelines/metadata_pipeline.py:118-121 | walking parsers i..j-1 consults each of them exactly once and parses each exactly once if it applies, else never |
| PipelineProperties.EventsWithin | offchain/metadata/pipelines/metadata_pipeline.py:118-121 | walking parsers i..j-1 calls only parsers in that range, and never fetches |
| PipelineProperties.FirstReturnerWalk | offchain/metadata/pipelines/metadata_pipeline.py:118-123 | without a selector, the walk ends at the first applicable parser that returns, with the calls of parsers 0 to that one |
| PipelineProperties.FirstReturningParserWins | offchain/metadata/pipelines/metadata_pipeline.py:118-123 | without a selector, the result is the metadata of the first applicable parser that returns; no later parser is consulted or parsed, and that parser is parsed exactly once |
| PipelineProperties.AllRaiseFirstErrorWins | offchain/metadata/pipelines/metadata_pipeline.py:124-134 | without a selector, when every applicable parser raises, the result is the processing error built from the first applicable parser's exception |
| PipelineProperties.NoParserApplies | offchain/metadata/pipelines/metadata_pipeline.py:127-134 | when no parser applies, the only candidate is the "No parsers found." error: it is the result without a selector, and all the selector sees with one |
| PipelineProperties.SelectorSeesEveryCandidate | offchain/metadata/pipelines/metadata_pipeline.py:118-133 | with a selector, the selector gets one candidate per applicable parser in parser order (or the no-parser error), and its answer is the result; every parser is consulted once and every applicable one parsed once |
| PipelineProperties.FetchOnceFirst | offchain/metadata/pipelines/metadata_pipeline.py:116-121 | the first call is the fetch of `token.uri` and no later call fetches; a failing fetch propagates its exception and no parser is consulted |
| PipelineProperties.WalkTraceWithin | offchain/metadata/pipelines/metadata_pipeline.py:118-123 | a walk, with or without a selector, never fetches |
| PipelineProperties.FirstReturnerOrNone | offchain/metadata/pipelines/metadata_pipeline.py:118-126 | either there is a first applicable parser that returns, or every applicable parser raises |
| PipelineProperties.RegistrationsAppend | offchain/metadata/pipelines/metadata_pipeline.py:74-78 | mounting a concatenation of configs mounts the first list, then the second |
| PipelineProperties.DefaultRegistrations | offchain/metadata/pipelines/metadata_pipeline.py:29-47 | the default configs register exactly seven (adapter, prefix) pairs, in order: ARWeave on `ar://`; data-URI on `data:`; HTTP on `https://`, `http://`; IPFS on `ipfs://`, `https://gateway.pinata.cloud/`, `https://ipfs.io/` |
| PipelineProperties.DefaultParsers | offchain/metadata/pipelines/metadata_pipeline.py:49 | the default parsers are an Opensea parser, then an Unknown parser, both given the pipeline's fetcher |

## Left out

- Thread-pool mechanics (`ThreadPoolExecutor`, futures, concurrent scheduling, peak in-flight tasks): a pool run is the ordered sequential map. The only pool behaviour kept is the ValueError for zero workers. Under the pool, tasks after a failing one still run; that is not observable in the results.
- Logging (`logger.debug`, offchain/concurrency.py:21): a side effect with no bearing on results.
- `multiprocessing.cpu_count()`: the CPU count is a parameter (`CpuCount`, any positive number).
- The concrete fetcher (`MetadataFetcher`), its URL-prefix routing and the ARWeave, data-URI, HTTP and IPFS adapters' I/O. The fetcher is a log of registrations plus an abstract routing function of that log and the URI. No prefix precedence is assumed.
- Parser internals (`OpenseaParser`, `UnknownParser`), the parsers' own use of the fetcher, and the schemas of `Token`, `Metadata` and `MetadataProcessingError`: they are opaque values and abstract functions.
- Exceptions raised by `should_parse_token` or by the selector function: they are modelled as total functions.
- Exceptions that derive only from `BaseException` (`KeyboardInterrupt`, `SystemExit`, `GeneratorExit`, `asyncio.CancelledError`): `except Exception` at offchain/metadata/pipelines/metadata_pipeline.py:124 does not catch them, so a parser raising one makes `fetch_token_metadata` and `run` raise. The model treats every exception a parser raises as an `Exception` subclass and turns it into a candidate.
- A `parse_metadata` that returns `None`: parsers return metadata or raise.
- Aliasing of the adapter instances in `DEFAULT_ADAPTER_CONFIGS`, which every default-configured pipeline shares: adapters are values.
- Identity of the default fetcher `MetadataFetcher()`: its routing is a parameter of the constructor.
- `*args` and `**kwargs` of `run`: they are accepted and ignored by the source.
- Concurrency.BatchedParmap: the default `batch_size` of 10 is the constant `DefaultBatchSize`; Dafny methods have no default arguments, so callers pass the size.
- Pipeline.MetadataPipeline.Run: the calls it makes are not traced. That an empty token list is answered without any fetch follows only from the early return at offchain/metadata/pipelines/metadata_pipeline.py:157-158, not from a stated call count.
- Python's truthiness test `if metadata_selector_fn:` (line 132) is modelled as "a selector was given", the same test as `is None` at line 122.
