/**
 * What `fetch_token_metadata` promises, proved about the specification
 * functions that `MetadataPipeline.FetchTokenMetadata` is verified against.
 * Each property is stated against a reference definition that does not
 * mention the loop's accumulators: `Candidates` (one outcome per applicable
 * parser, in list order) and `Events` (the calls of an exhaustive walk).
 */
module PipelineProperties {
  import opened Wrappers
  import opened Exceptions
  import opened Models
  import opened Pipeline

  /** `parsers[i].should_parse_token(token, raw_data)`. */
  predicate Applies(parsers: seq<Parser>, token: Token, raw: RawContent, i: nat)
    requires i < |parsers|
  {
    parsers[i].shouldParse(token, raw)
  }

  /** `parsers[i].parse_metadata(...)` raises. */
  predicate Raises(parsers: seq<Parser>, token: Token, raw: RawContent, i: nat)
    requires i < |parsers|
  {
    parsers[i].parse(token, raw).Failure?
  }

  /** The candidate a parser contributes: its metadata, or the error built from what it raised. */
  function OutcomeOf(p: Parser, token: Token, raw: RawContent): Outcome {
    match p.parse(token, raw)
    case Success(m) => Resolved(m)
    case Failure(e) => Failed(FromTokenAndError(token, e))
  }

  /** One candidate per applicable parser from position `i` on, in parser order. */
  function Candidates(parsers: seq<Parser>, token: Token, raw: RawContent, i: nat): seq<Outcome>
    requires i <= |parsers|
    decreases |parsers| - i
  {
    if i == |parsers| then []
    else
      (if Applies(parsers, token, raw, i) then [OutcomeOf(parsers[i], token, raw)] else []) +
      Candidates(parsers, token, raw, i + 1)
  }

  /** The calls of trying parsers `i` to `j - 1`: each is consulted, and parsed when it applies. */
  ghost function Events(parsers: seq<Parser>, token: Token, raw: RawContent, i: nat, j: nat): seq<Event>
    requires i <= j <= |parsers|
    decreases j - i
  {
    if i == j then [] else StepEvents(parsers, token, raw, i) + Events(parsers, token, raw, i + 1, j)
  }

  /** The calls of trying parser `i`. */
  ghost function StepEvents(parsers: seq<Parser>, token: Token, raw: RawContent, i: nat): seq<Event>
    requires i < |parsers|
  {
    if Applies(parsers, token, raw, i) then [Consulted(i), Parsed(i)] else [Consulted(i)]
  }

  // ----- the walk against the reference definitions -----

  /** One turn of the walk that does not return early: parser `i` adds its candidate, if any, and its calls. */
  lemma WalkStep(parsers: seq<Parser>, i: nat, token: Token, raw: RawContent, shortCircuit: bool,
                 candidates: seq<Outcome>, trace: seq<Event>)
    requires i < |parsers|
    requires shortCircuit && Applies(parsers, token, raw, i) ==> Raises(parsers, token, raw, i)
    ensures WalkFrom(parsers, i, token, raw, shortCircuit, candidates, trace) ==
      WalkFrom(parsers, i + 1, token, raw, shortCircuit,
               candidates + (if Applies(parsers, token, raw, i) then [OutcomeOf(parsers[i], token, raw)] else []),
               trace + StepEvents(parsers, token, raw, i))
  {
    if !Applies(parsers, token, raw, i) {
      assert candidates + [] == candidates;
    }
  }

  /** With a selector the walk tries every parser and collects every candidate. */
  lemma {:induction false} ExhaustiveWalk(parsers: seq<Parser>, i: nat, token: Token, raw: RawContent,
                                          candidates: seq<Outcome>, trace: seq<Event>)
    requires i <= |parsers|
    ensures WalkFrom(parsers, i, token, raw, false, candidates, trace) ==
      Exhausted(candidates + Candidates(parsers, token, raw, i), trace + Events(parsers, token, raw, i, |parsers|))
    decreases |parsers| - i
  {
    if i < |parsers| {
      var step := StepEvents(parsers, token, raw, i);
      var c := if Applies(parsers, token, raw, i) then [OutcomeOf(parsers[i], token, raw)] else [];
      var rest := Candidates(parsers, token, raw, i + 1);
      var events := Events(parsers, token, raw, i + 1, |parsers|);
      WalkStep(parsers, i, token, raw, false, candidates, trace);
      ExhaustiveWalk(parsers, i + 1, token, raw, candidates + c, trace + step);
      assert (candidates + c) + rest == candidates + (c + rest);
      assert (trace + step) + events == trace + (step + events);
    }
  }

  /** Without a selector the walk returns the metadata of the first applicable parser that returns. */
  lemma {:induction false} ShortCircuitReturns(parsers: seq<Parser>, i: nat, token: Token, raw: RawContent,
                                               candidates: seq<Outcome>, trace: seq<Event>, k: nat)
    requires i <= k < |parsers|
    requires Applies(parsers, token, raw, k) && !Raises(parsers, token, raw, k)
    requires forall j :: i <= j < k && Applies(parsers, token, raw, j) ==> Raises(parsers, token, raw, j)
    ensures WalkFrom(parsers, i, token, raw, true, candidates, trace) ==
      Returned(parsers[k].parse(token, raw).value, trace + Events(parsers, token, raw, i, k + 1))
    decreases k - i
  {
    var step := StepEvents(parsers, token, raw, i);
    var events := Events(parsers, token, raw, i + 1, k + 1);
    assert trace + Events(parsers, token, raw, i, k + 1) == (trace + step) + events by {
      assert Events(parsers, token, raw, i, k + 1) == step + events;
      assert (trace + step) + events == trace + (step + events);
    }
    if i == k {
      assert events == [];
      assert (trace + step) + events == trace + step;
    } else {
      var c := if Applies(parsers, token, raw, i) then [OutcomeOf(parsers[i], token, raw)] else [];
      WalkStep(parsers, i, token, raw, true, candidates, trace);
      ShortCircuitReturns(parsers, i + 1, token, raw, candidates + c, trace + step, k);
    }
  }

  /** Without a selector, when every applicable parser raises, the walk is the exhaustive one. */
  lemma {:induction false} ShortCircuitExhausts(parsers: seq<Parser>, i: nat, token: Token, raw: RawContent,
                                                candidates: seq<Outcome>, trace: seq<Event>)
    requires i <= |parsers|
    requires forall j :: i <= j < |parsers| && Applies(parsers, token, raw, j) ==> Raises(parsers, token, raw, j)
    ensures WalkFrom(parsers, i, token, raw, true, candidates, trace) ==
      WalkFrom(parsers, i, token, raw, false, candidates, trace)
    decreases |parsers| - i
  {
    if i < |parsers| {
      var c := if Applies(parsers, token, raw, i) then [OutcomeOf(parsers[i], token, raw)] else [];
      WalkStep(parsers, i, token, raw, true, candidates, trace);
      WalkStep(parsers, i, token, raw, false, candidates, trace);
      ShortCircuitExhausts(parsers, i + 1, token, raw, candidates + c, trace + StepEvents(parsers, token, raw, i));
    }
  }

  // ----- what the candidates and the calls are -----

  /** There is a candidate exactly when some parser applies; the first is the first applicable parser's. */
  lemma {:induction false} CandidatesHead(parsers: seq<Parser>, token: Token, raw: RawContent, i: nat)
    requires i <= |parsers|
    ensures Candidates(parsers, token, raw, i) == [] <==>
      forall j :: i <= j < |parsers| ==> !Applies(parsers, token, raw, j)
    ensures forall k ::
      (i <= k < |parsers| && Applies(parsers, token, raw, k) &&
       forall j :: i <= j < k ==> !Applies(parsers, token, raw, j)) ==>
        Candidates(parsers, token, raw, i)[0] == OutcomeOf(parsers[k], token, raw)
    decreases |parsers| - i
  {
    if i < |parsers| {
      CandidatesHead(parsers, token, raw, i + 1);
    }
  }

  /** How many times `x` occurs in `s`. */
  ghost function Count<X>(s: seq<X>, x: X): nat {
    if s == [] then 0 else (if s[0] == x then 1 else 0) + Count(s[1..], x)
  }

  lemma {:induction false} CountAppend<X>(a: seq<X>, b: seq<X>, x: X)
    ensures Count(a + b, x) == Count(a, x) + Count(b, x)
    decreases |a|
  {
    if a == [] {
      assert a + b == b;
    } else {
      assert (a + b)[1..] == a[1..] + b;
      CountAppend(a[1..], b, x);
    }
  }

  /** Parser `p` is consulted once if it is in `[i, j)`, and parsed once if it also applies. */
  lemma {:induction false} EventCounts(parsers: seq<Parser>, token: Token, raw: RawContent, i: nat, j: nat, p: nat)
    requires i <= j <= |parsers|
    ensures Count(Events(parsers, token, raw, i, j), Consulted(p)) == if i <= p < j then 1 else 0
    ensures Count(Events(parsers, token, raw, i, j), Parsed(p)) ==
      if i <= p < j && Applies(parsers, token, raw, p) then 1 else 0
    decreases j - i
  {
    if i < j {
      var step := StepEvents(parsers, token, raw, i);
      var rest := Events(parsers, token, raw, i + 1, j);
      EventCounts(parsers, token, raw, i + 1, j, p);
      CountAppend(step, rest, Consulted(p));
      CountAppend(step, rest, Parsed(p));
      assert step[1..] == [] || step[1..] == [Parsed(i)];
    } else {
      assert Events(parsers, token, raw, i, j) == [];
    }
  }

  /** The calls of trying parsers `[i, j)` touch no parser outside `[i, j)` and never fetch. */
  lemma {:induction false} EventsWithin(parsers: seq<Parser>, token: Token, raw: RawContent, i: nat, j: nat)
    requires i <= j <= |parsers|
    ensures forall e :: e in Events(parsers, token, raw, i, j) ==> !e.Fetched? && i <= e.parser < j
    decreases j - i
  {
    if i < j {
      EventsWithin(parsers, token, raw, i + 1, j);
    }
  }

  // ----- the resolution rule of fetch_token_metadata -----

  /** The walk without a selector stops at the first parser that returns. */
  lemma FirstReturnerWalk(parsers: seq<Parser>, token: Token, raw: RawContent, k: nat)
    requires k < |parsers|
    requires Applies(parsers, token, raw, k) && !Raises(parsers, token, raw, k)
    requires forall j :: 0 <= j < k && Applies(parsers, token, raw, j) ==> Raises(parsers, token, raw, j)
    ensures WalkOf(parsers, token, raw, None) ==
      Returned(parsers[k].parse(token, raw).value, Events(parsers, token, raw, 0, k + 1))
  {
    ShortCircuitReturns(parsers, 0, token, raw, [], [], k);
    assert [] + Events(parsers, token, raw, 0, k + 1) == Events(parsers, token, raw, 0, k + 1);
  }

  /**
   * No selector: the first applicable parser that returns decides the
   * result, no later parser is consulted, and it is parsed exactly once.
   */
  lemma FirstReturningParserWins(parsers: seq<Parser>, token: Token, raw: RawContent, k: nat)
    requires k < |parsers|
    requires Applies(parsers, token, raw, k) && !Raises(parsers, token, raw, k)
    requires forall j :: 0 <= j < k && Applies(parsers, token, raw, j) ==> Raises(parsers, token, raw, j)
    ensures Resolve(parsers, token, raw, None) == Resolved(parsers[k].parse(token, raw).value)
    ensures forall e :: e in WalkOf(parsers, token, raw, None).trace ==> !e.Fetched? && e.parser <= k
    ensures Count(WalkOf(parsers, token, raw, None).trace, Parsed(k)) == 1
  {
    FirstReturnerWalk(parsers, token, raw, k);
    EventsWithin(parsers, token, raw, 0, k + 1);
    EventCounts(parsers, token, raw, 0, k + 1, k);
  }

  /**
   * No selector, every applicable parser raises: the result is the error
   * built from the first applicable parser's exception.
   */
  lemma AllRaiseFirstErrorWins(parsers: seq<Parser>, token: Token, raw: RawContent, k: nat)
    requires k < |parsers| && Applies(parsers, token, raw, k) && Raises(parsers, token, raw, k)
    requires forall j :: 0 <= j < k ==> !Applies(parsers, token, raw, j)
    requires forall j :: 0 <= j < |parsers| && Applies(parsers, token, raw, j) ==> Raises(parsers, token, raw, j)
    ensures Resolve(parsers, token, raw, None) ==
      Failed(FromTokenAndError(token, parsers[k].parse(token, raw).error))
  {
    ShortCircuitExhausts(parsers, 0, token, raw, [], []);
    ExhaustiveWalk(parsers, 0, token, raw, [], []);
    CandidatesHead(parsers, token, raw, 0);
    assert [] + Candidates(parsers, token, raw, 0) == Candidates(parsers, token, raw, 0);
  }

  /**
   * No parser applies: the only candidate is the "No parsers found." error;
   * without a selector it is the result, with one it is all the selector sees.
   */
  lemma NoParserApplies(parsers: seq<Parser>, token: Token, raw: RawContent, selector: Option<Selector>)
    requires forall j :: 0 <= j < |parsers| ==> !Applies(parsers, token, raw, j)
    ensures selector.None? ==> Resolve(parsers, token, raw, selector) == Failed(NoParsersError(token))
    ensures selector.Some? ==>
      Resolve(parsers, token, raw, selector) == selector.value([Failed(NoParsersError(token))])
  {
    ShortCircuitExhausts(parsers, 0, token, raw, [], []);
    ExhaustiveWalk(parsers, 0, token, raw, [], []);
    CandidatesHead(parsers, token, raw, 0);
    assert [] + Candidates(parsers, token, raw, 0) == [];
  }

  /**
   * With a selector: the selector receives one candidate per applicable
   * parser in parser order (or the single no-parser error), its answer is the
   * result, every parser is consulted once and every applicable one parsed once.
   */
  lemma SelectorSeesEveryCandidate(parsers: seq<Parser>, token: Token, raw: RawContent, select: Selector)
    ensures Resolve(parsers, token, raw, Some(select)) ==
      select(if Candidates(parsers, token, raw, 0) == [] then [Failed(NoParsersError(token))]
             else Candidates(parsers, token, raw, 0))
    ensures forall p :: 0 <= p < |parsers| ==>
      Count(WalkOf(parsers, token, raw, Some(select)).trace, Consulted(p)) == 1 &&
      Count(WalkOf(parsers, token, raw, Some(select)).trace, Parsed(p)) ==
        (if Applies(parsers, token, raw, p) then 1 else 0)
  {
    ExhaustiveWalk(parsers, 0, token, raw, [], []);
    assert [] + Candidates(parsers, token, raw, 0) == Candidates(parsers, token, raw, 0);
    assert [] + Events(parsers, token, raw, 0, |parsers|) == Events(parsers, token, raw, 0, |parsers|);
    forall p | 0 <= p < |parsers|
      ensures Count(Events(parsers, token, raw, 0, |parsers|), Consulted(p)) == 1
      ensures Count(Events(parsers, token, raw, 0, |parsers|), Parsed(p)) ==
        (if Applies(parsers, token, raw, p) then 1 else 0)
    {
      EventCounts(parsers, token, raw, 0, |parsers|, p);
    }
  }

  /**
   * Content is fetched once, before any parser runs; a failing fetch raises
   * out of `fetch_token_metadata` and no parser is consulted.
   */
  lemma FetchOnceFirst(route: Route, registrations: seq<Registration>, parsers: seq<Parser>,
                       token: Token, selector: Option<Selector>)
    ensures TokenTrace(route, registrations, parsers, token, selector)[0] == Fetched(token.uri)
    ensures forall k :: 0 < k < |TokenTrace(route, registrations, parsers, token, selector)| ==>
      !TokenTrace(route, registrations, parsers, token, selector)[k].Fetched?
    ensures route(registrations, token.uri).Failure? ==>
      ResolveToken(route, registrations, parsers, token, selector) == Failure(route(registrations, token.uri).error) &&
      TokenTrace(route, registrations, parsers, token, selector) == [Fetched(token.uri)]
  {
    var tr := TokenTrace(route, registrations, parsers, token, selector);
    match route(registrations, token.uri) {
      case Failure(_) =>
      case Success(raw) =>
        var walk := WalkOf(parsers, token, raw, selector);
        var full := WalkFrom(parsers, 0, token, raw, false, [], []);
        ExhaustiveWalk(parsers, 0, token, raw, [], []);
        EventsWithin(parsers, token, raw, 0, |parsers|);
        assert [] + Events(parsers, token, raw, 0, |parsers|) == Events(parsers, token, raw, 0, |parsers|);
        WalkTraceWithin(parsers, token, raw, selector);
        assert tr == [Fetched(token.uri)] + walk.trace;
        forall k | 0 < k < |tr| ensures !tr[k].Fetched? {
          assert tr[k] == walk.trace[k - 1];
          assert tr[k] in walk.trace;
        }
    }
  }

  /** No walk fetches: its trace only consults and parses. */
  lemma WalkTraceWithin(parsers: seq<Parser>, token: Token, raw: RawContent, selector: Option<Selector>)
    ensures forall e :: e in WalkOf(parsers, token, raw, selector).trace ==> !e.Fetched?
  {
    if selector.Some? {
      ExhaustiveWalk(parsers, 0, token, raw, [], []);
      EventsWithin(parsers, token, raw, 0, |parsers|);
    } else if k :| (0 <= k < |parsers| && Applies(parsers, token, raw, k) && !Raises(parsers, token, raw, k) &&
                    forall j :: 0 <= j < k && Applies(parsers, token, raw, j) ==> Raises(parsers, token, raw, j)) {
      ShortCircuitReturns(parsers, 0, token, raw, [], [], k);
      EventsWithin(parsers, token, raw, 0, k + 1);
    } else {
      FirstReturnerOrNone(parsers, token, raw);
      ShortCircuitExhausts(parsers, 0, token, raw, [], []);
      ExhaustiveWalk(parsers, 0, token, raw, [], []);
      EventsWithin(parsers, token, raw, 0, |parsers|);
    }
  }

  /** Either some applicable parser returns, and then there is a first one, or every applicable parser raises. */
  lemma FirstReturnerOrNone(parsers: seq<Parser>, token: Token, raw: RawContent)
    ensures (exists k :: 0 <= k < |parsers| && Applies(parsers, token, raw, k) && !Raises(parsers, token, raw, k) &&
              forall j :: 0 <= j < k && Applies(parsers, token, raw, j) ==> Raises(parsers, token, raw, j)) ||
            (forall j :: 0 <= j < |parsers| && Applies(parsers, token, raw, j) ==> Raises(parsers, token, raw, j))
  {
    var k := 0;
    while k < |parsers| && !(Applies(parsers, token, raw, k) && !Raises(parsers, token, raw, k))
      invariant 0 <= k <= |parsers|
      invariant forall j :: 0 <= j < k && Applies(parsers, token, raw, j) ==> Raises(parsers, token, raw, j)
    {
      k := k + 1;
    }
  }

  // ----- construction -----

  /** Mounting a concatenation of configs mounts the first part, then the second. */
  lemma {:induction false} RegistrationsAppend(a: seq<AdapterConfig>, b: seq<AdapterConfig>)
    ensures Registrations(a + b) == Registrations(a) + Registrations(b)
    decreases |b|
  {
    if b == [] {
      assert a + b == a;
    } else {
      var b', last := b[..|b| - 1], b[|b| - 1];
      var m := MountRegistrations(last.adapter, last.mountPrefixes);
      assert (a + b)[..|a + b| - 1] == a + b';
      assert (a + b)[|a + b| - 1] == last;
      assert Registrations(a + b) == Registrations(a + b') + m;
      assert Registrations(b) == Registrations(b') + m;
      RegistrationsAppend(a, b');
      assert (Registrations(a) + Registrations(b')) + m == Registrations(a) + (Registrations(b') + m);
    }
  }

  /** The default configs register, in order, these seven (adapter, prefix) pairs. */
  lemma DefaultRegistrations()
    ensures Registrations(DefaultAdapterConfigs) == [
      Registration(ARWeaveAdapter(DefaultPool), "ar://"),
      Registration(DataURIAdapter, "data:"),
      Registration(HTTPAdapter(DefaultPool), "https://"),
      Registration(HTTPAdapter(DefaultPool), "http://"),
      Registration(IPFSAdapter(DefaultPool), "ipfs://"),
      Registration(IPFSAdapter(DefaultPool), "https://gateway.pinata.cloud/"),
      Registration(IPFSAdapter(DefaultPool), "https://ipfs.io/")
    ]
  {
    var d := DefaultAdapterConfigs;
    assert d == [d[0]] + [d[1]] + [d[2]] + [d[3]];
    RegistrationsAppend([d[0]] + [d[1]] + [d[2]], [d[3]]);
    RegistrationsAppend([d[0]] + [d[1]], [d[2]]);
    RegistrationsAppend([d[0]], [d[1]]);
    assert Registrations([d[0]]) == Registrations([]) + MountRegistrations(d[0].adapter, d[0].mountPrefixes);
  }

  /** The default parsers are an Opensea parser, then an Unknown parser, both given the fetcher. */
  lemma DefaultParsers(instantiate: (ParserClass, Fetcher) -> Parser, fetcher: Fetcher)
    ensures InstantiateAll(DefaultParserClasses, instantiate, fetcher) ==
      [instantiate(OpenseaParser, fetcher), instantiate(UnknownParser, fetcher)]
  {
  }
}
