/**
 * The values and collaborators the metadata pipeline works with. Their
 * internals (schemas, concrete parsers, adapters' network code, the
 * fetcher's URL routing) are not modelled: each is an opaque value or an
 * abstract function supplied from outside.
 */
module Models {
  import opened Wrappers
  import opened Exceptions

  /** The identity of a token; the pipeline only reads `uri`. */
  datatype Token = Token(chainIdentifier: string, collectionAddress: string, tokenId: nat, uri: string)

  /** What the fetcher returns for a URI: content, MIME type and size. */
  datatype RawContent = RawContent(content: string, mimeType: string, size: nat)

  /** A normalized metadata record (its schema is opaque here). */
  datatype Metadata = Metadata(token: Token, name: string, description: string, parserName: string)

  /** `MetadataProcessingError`: a failure attached to the token it concerns. */
  datatype ProcessingError = ProcessingError(token: Token, error: Exception)

  /** `MetadataProcessingError.from_token_and_error(token=token, e=e)`. */
  function FromTokenAndError(token: Token, e: Exception): ProcessingError {
    ProcessingError(token, e)
  }

  /** `Union[Metadata, MetadataProcessingError]`: what the pipeline returns for one token. */
  datatype Outcome = Resolved(metadata: Metadata) | Failed(failure: ProcessingError)

  /**
   * A parser instance: `should_parse_token` and `parse_metadata`, both given
   * the token and the fetched content; `parse` may raise.
   */
  datatype Parser = Parser(
    shouldParse: (Token, RawContent) -> bool,
    parse: (Token, RawContent) -> Result<Metadata, Exception>)

  /** The parser classes the pipeline instantiates when it is given no parsers. */
  datatype ParserClass = OpenseaParser | UnknownParser

  /** Connection-pool settings passed to an adapter's constructor. */
  datatype PoolSettings = PoolSettings(poolConnections: nat, poolMaxsize: nat, maxRetries: nat)

  /** An adapter instance mounted on the fetcher. */
  datatype Adapter =
    | ARWeaveAdapter(pool: PoolSettings)
    | DataURIAdapter
    | HTTPAdapter(pool: PoolSettings)
    | IPFSAdapter(pool: PoolSettings)
    | CustomAdapter(name: string)

  /** `AdapterConfig`: an adapter and the URL prefixes to mount it on. */
  datatype AdapterConfig = AdapterConfig(adapter: Adapter, mountPrefixes: seq<string>)

  /** One `register_adapter(adapter, prefix)` call on the fetcher. */
  datatype Registration = Registration(adapter: Adapter, prefix: string)

  /**
   * How the fetcher answers `fetch_content(uri)` once the given adapters are
   * registered. Which registration serves which URI is the fetcher's own
   * business and is left abstract.
   */
  type Route = (seq<Registration>, string) -> Result<RawContent, Exception>

  /** The fetcher: the registrations made on it, in order, and its abstract routing. */
  class Fetcher {
    const route: Route
    var registrations: seq<Registration>

    constructor (route: Route)
      ensures this.route == route && registrations == []
    {
      this.route := route;
      registrations := [];
    }

    /** `register_adapter(adapter, prefix)`: records the mount, nothing else changes. */
    method RegisterAdapter(adapter: Adapter, prefix: string)
      modifies this
      ensures registrations == old(registrations) + [Registration(adapter, prefix)]
    {
      registrations := registrations + [Registration(adapter, prefix)];
    }

    /** `fetch_content(uri)`: the content the current registrations give for `uri`, or the exception. */
    method FetchContent(uri: string) returns (r: Result<RawContent, Exception>)
      ensures r == route(registrations, uri)
    {
      r := route(registrations, uri);
    }
  }
}
