/**
 * The metadata pipeline of offchain/metadata/pipelines/metadata_pipeline.py:
 * its configuration data, the per-token resolution rule as specification
 * functions, and the `MetadataPipeline` object whose methods are proved
 * against them.
 */
module Pipeline {
  import opened Wrappers
  import opened Exceptions
  import opened Models
  import opened Concurrency

  /** Batch size `run` passes to `batched_parmap`. */
  const ParallelBatchSize: int := 15

  /** Message of the exception recorded when no parser applies. */
  const NoParsersMessage: string := "No parsers found."

  /** Pool settings shared by the default ARWeave, HTTP and IPFS adapters. */
  const DefaultPool: PoolSettings := PoolSettings(100, 1000, 0)

  /** `DEFAULT_ADAPTER_CONFIGS`. */
  const DefaultAdapterConfigs: seq<AdapterConfig> := [
    AdapterConfig(ARWeaveAdapter(DefaultPool), ["ar://"]),
    AdapterConfig(DataURIAdapter, ["data:"]),
    AdapterConfig(HTTPAdapter(DefaultPool), ["https://", "http://"]),
    AdapterConfig(IPFSAdapter(DefaultPool), ["ipfs://", "https://gateway.pinata.cloud/", "https://ipfs.io/"])
  ]

  /** `DEFAULT_PARSER_CLASSES`. */
  const DefaultParserClasses: seq<ParserClass> := [OpenseaParser, UnknownParser]

  /** `metadata_selector_fn`: picks one outcome from the candidate list. */
  type Selector = seq<Outcome> -> Outcome

  /** What one call of `fetch_token_metadata` does, in order (for stating call counts). */
  datatype Event =
    | Fetched(uri: string)     // fetch_content(token.uri)
    | Consulted(parser: nat)   // parsers[parser].should_parse_token(...)
    | Parsed(parser: nat)      // parsers[parser].parse_metadata(...)

  /** Where the walk over the parsers ends: an early return, or the list exhausted. */
  datatype Walk =
    | Returned(metadata: Metadata, trace: seq<Event>)
    | Exhausted(candidates: seq<Outcome>, trace: seq<Event>)

  /** The error recorded when no parser applies. */
  function NoParsersError(token: Token): ProcessingError {
    FromTokenAndError(token, Exception("Exception", NoParsersMessage))
  }

  /**
   * The loop over `self.parsers` from position `i` on, with
   * `possible_metadatas` so far in `candidates`. With `shortCircuit` (no
   * selector) the first parse that returns ends the walk.
   */
  function WalkFrom(parsers: seq<Parser>, i: nat, token: Token, raw: RawContent, shortCircuit: bool,
                    candidates: seq<Outcome>, trace: seq<Event>): Walk
    requires i <= |parsers|
    decreases |parsers| - i
  {
    if i == |parsers| then Exhausted(candidates, trace)
    else if !parsers[i].shouldParse(token, raw) then
      WalkFrom(parsers, i + 1, token, raw, shortCircuit, candidates, trace + [Consulted(i)])
    else
      var trace' := trace + [Consulted(i), Parsed(i)];
      match parsers[i].parse(token, raw)
      case Success(m) =>
        if shortCircuit then Returned(m, trace')
        else WalkFrom(parsers, i + 1, token, raw, shortCircuit, candidates + [Resolved(m)], trace')
      case Failure(e) =>
        WalkFrom(parsers, i + 1, token, raw, shortCircuit, candidates + [Failed(FromTokenAndError(token, e))], trace')
  }

  /** The whole walk over `parsers`, as `fetch_token_metadata` runs it for `selector`. */
  function WalkOf(parsers: seq<Parser>, token: Token, raw: RawContent, selector: Option<Selector>): Walk {
    WalkFrom(parsers, 0, token, raw, selector.None?, [], [])
  }

  /** The outcome for `token` once its content `raw` is fetched. */
  function Resolve(parsers: seq<Parser>, token: Token, raw: RawContent, selector: Option<Selector>): Outcome {
    match WalkOf(parsers, token, raw, selector)
    case Returned(m, _) => Resolved(m)
    case Exhausted(candidates, _) =>
      var possible := if candidates == [] then [Failed(NoParsersError(token))] else candidates;
      if selector.Some? then selector.value(possible) else possible[0]
  }

  /** `fetch_token_metadata(token, selector)`: a failing fetch raises out of it. */
  function ResolveToken(route: Route, registrations: seq<Registration>, parsers: seq<Parser>,
                        token: Token, selector: Option<Selector>): Result<Outcome, Exception>
  {
    match route(registrations, token.uri)
    case Failure(e) => Failure(e)
    case Success(raw) => Success(Resolve(parsers, token, raw, selector))
  }

  /** The calls one `fetch_token_metadata(token, selector)` makes, in order. */
  ghost function TokenTrace(route: Route, registrations: seq<Registration>, parsers: seq<Parser>,
                            token: Token, selector: Option<Selector>): seq<Event>
  {
    [Fetched(token.uri)] +
      match route(registrations, token.uri)
      case Failure(_) => []
      case Success(raw) => WalkOf(parsers, token, raw, selector).trace
  }

  /** `lambda t: self.fetch_token_metadata(t, select_metadata_fn)`. */
  function TokenResolver(route: Route, registrations: seq<Registration>, parsers: seq<Parser>,
                         selector: Option<Selector>): Token -> Result<Outcome, Exception>
  {
    t => ResolveToken(route, registrations, parsers, t, selector)
  }

  /** The `register_adapter` calls of `mount_adapter(adapter, prefixes)`: one per prefix, in order. */
  function MountRegistrations(adapter: Adapter, prefixes: seq<string>): (rs: seq<Registration>)
    ensures |rs| == |prefixes|
    ensures forall k :: 0 <= k < |prefixes| ==> rs[k] == Registration(adapter, prefixes[k])
  {
    seq(|prefixes|, k requires 0 <= k < |prefixes| => Registration(adapter, prefixes[k]))
  }

  /** The `register_adapter` calls of mounting every config of `configs`, in order. */
  function Registrations(configs: seq<AdapterConfig>): seq<Registration> {
    if configs == [] then []
    else
      var last := configs[|configs| - 1];
      Registrations(configs[..|configs| - 1]) + MountRegistrations(last.adapter, last.mountPrefixes)
  }

  /** Mounting one more config appends its registrations. */
  lemma RegistrationsSnoc(configs: seq<AdapterConfig>, k: nat)
    requires k < |configs|
    ensures Registrations(configs[..k + 1]) ==
      Registrations(configs[..k]) + MountRegistrations(configs[k].adapter, configs[k].mountPrefixes)
  {
    assert configs[..k + 1][..k] == configs[..k];
  }

  /** `[parser_cls(fetcher=fetcher) for parser_cls in classes]`. */
  function InstantiateAll(classes: seq<ParserClass>, instantiate: (ParserClass, Fetcher) -> Parser,
                          fetcher: Fetcher): (ps: seq<Parser>)
    ensures |ps| == |classes|
    ensures forall k :: 0 <= k < |classes| ==> ps[k] == instantiate(classes[k], fetcher)
  {
    seq(|classes|, k requires 0 <= k < |classes| => instantiate(classes[k], fetcher))
  }

  class MetadataPipeline {
    var fetcher: Fetcher
    var parsers: seq<Parser>

    /**
     * `MetadataPipeline(fetcher, parsers, adapter_configs)`. A missing fetcher
     * is a new one whose routing is `newFetcherRoute`; missing parsers are
     * instances of the default classes built by `instantiate`.
     */
    constructor (fetcher: Fetcher?, parsers: Option<seq<Parser>>, adapterConfigs: Option<seq<AdapterConfig>>,
                 newFetcherRoute: Route, instantiate: (ParserClass, Fetcher) -> Parser)
      modifies if fetcher == null then {} else {fetcher}
      ensures fetcher != null ==> this.fetcher == fetcher
      ensures fetcher == null ==> fresh(this.fetcher) && this.fetcher.route == newFetcherRoute
      ensures this.fetcher.registrations ==
        (if fetcher != null then old(fetcher.registrations) else []) +
        Registrations(adapterConfigs.GetOr(DefaultAdapterConfigs))
      ensures this.parsers ==
        if parsers.Some? then parsers.value else InstantiateAll(DefaultParserClasses, instantiate, this.fetcher)
    {
      var f: Fetcher;
      if fetcher != null {
        f := fetcher;
      } else {
        f := new Fetcher(newFetcherRoute);
      }
      this.fetcher := f;
      this.parsers := [];
      new;
      MountAll(adapterConfigs.GetOr(DefaultAdapterConfigs));
      if parsers.Some? {
        this.parsers := parsers.value;
      } else {
        this.parsers := InstantiateAll(DefaultParserClasses, instantiate, f);
      }
    }

    /** The loop of the constructor: `mount_adapter` for each config, in order. */
    method MountAll(configs: seq<AdapterConfig>)
      modifies fetcher
      ensures fetcher.registrations == old(fetcher.registrations) + Registrations(configs)
    {
      for k := 0 to |configs|
        invariant fetcher.registrations == old(fetcher.registrations) + Registrations(configs[..k])
      {
        var config := configs[k];
        MountAdapter(config.adapter, config.mountPrefixes);
        RegistrationsSnoc(configs, k);
      }
      assert configs[..|configs|] == configs;
    }

    /** `mount_adapter(adapter, url_prefixes)`: registers `adapter` under each prefix, in order. */
    method MountAdapter(adapter: Adapter, urlPrefixes: seq<string>)
      modifies fetcher
      ensures fetcher.registrations == old(fetcher.registrations) + MountRegistrations(adapter, urlPrefixes)
    {
      for k := 0 to |urlPrefixes|
        invariant fetcher.registrations == old(fetcher.registrations) + MountRegistrations(adapter, urlPrefixes[..k])
      {
        fetcher.RegisterAdapter(adapter, urlPrefixes[k]);
      }
      assert urlPrefixes[..|urlPrefixes|] == urlPrefixes;
    }

    /**
     * `fetch_token_metadata(token, metadata_selector_fn)`. `trace` is the
     * sequence of calls it makes on the fetcher and on the parsers.
     */
    method FetchTokenMetadata(token: Token, selector: Option<Selector>)
      returns (r: Result<Outcome, Exception>, ghost trace: seq<Event>)
      ensures r == ResolveToken(fetcher.route, fetcher.registrations, parsers, token, selector)
      ensures trace == TokenTrace(fetcher.route, fetcher.registrations, parsers, token, selector)
    {
      var fetched := fetcher.FetchContent(token.uri);
      trace := [Fetched(token.uri)];
      if fetched.Failure? {
        // fetch_content is called outside the try: its exception propagates.
        assert ResolveToken(fetcher.route, fetcher.registrations, parsers, token, selector) == Failure(fetched.error);
        return Failure(fetched.error), trace;
      }
      var raw := fetched.value;
      var possible: seq<Outcome> := [];
      ghost var events: seq<Event> := [];
      ghost var walk := WalkOf(parsers, token, raw, selector);
      for i := 0 to |parsers|
        invariant WalkFrom(parsers, i, token, raw, selector.None?, possible, events) == walk
      {
        var parser := parsers[i];
        if parser.shouldParse(token, raw) {
          events := events + [Consulted(i), Parsed(i)];
          var metadataOrError: Outcome;
          match parser.parse(token, raw) {
            case Success(m) =>
              if selector.None? {
                assert walk == Returned(m, events);
                return Success(Resolved(m)), trace + events;
              }
              metadataOrError := Resolved(m);
            case Failure(e) =>
              metadataOrError := Failed(FromTokenAndError(token, e));
          }
          possible := possible + [metadataOrError];
        } else {
          events := events + [Consulted(i)];
        }
      }
      assert walk == Exhausted(possible, events);
      ghost var candidates := possible;
      if |possible| == 0 {
        possible := possible + [Failed(NoParsersError(token))];
      }
      if selector.Some? {
        r := Success(selector.value(possible));
      } else {
        r := Success(possible[0]);
      }
      assert possible == if candidates == [] then [Failed(NoParsersError(token))] else candidates;
      assert r == Success(Resolve(parsers, token, raw, selector));
      assert fetcher.route(fetcher.registrations, token.uri) == Success(raw);
      trace := trace + events;
    }

    /**
     * `run(tokens, parallelize, select_metadata_fn)`: one outcome per token, in
     * token order, whichever branch runs; the first token whose fetch raises
     * makes the whole call raise.
     */
    method Run(tokens: seq<Token>, parallelize: bool, selector: Option<Selector>, cpus: CpuCount)
      returns (r: Result<seq<Outcome>, Exception>)
      ensures r == MapAll(TokenResolver(fetcher.route, fetcher.registrations, parsers, selector), tokens)
      ensures tokens == [] ==> r == Success([])
      ensures r.Success? ==>
        |r.value| == |tokens| &&
        forall i :: 0 <= i < |tokens| ==>
          ResolveToken(fetcher.route, fetcher.registrations, parsers, tokens[i], selector) == Success(r.value[i])
      ensures r.Failure? ==>
        exists k :: 0 <= k < |tokens| &&
          ResolveToken(fetcher.route, fetcher.registrations, parsers, tokens[k], selector) == Failure(r.error) &&
          forall j :: 0 <= j < k ==> ResolveToken(fetcher.route, fetcher.registrations, parsers, tokens[j], selector).Success?
    {
      var resolve := TokenResolver(fetcher.route, fetcher.registrations, parsers, selector);
      if |tokens| == 0 {
        return Success([]);
      }
      if parallelize {
        ghost var batches;
        r, batches := BatchedParmap(resolve, tokens, ParallelBatchSize, cpus);
      } else {
        r := MapAll(resolve, tokens);
      }
      MapAllSpec(resolve, tokens);
    }
  }
}
