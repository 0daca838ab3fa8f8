/**
 * The `API` client: its configuration, fixed at construction, and its one piece of
 * mutable state, the persistent header set. The logger itself is not modelled; every
 * call of it is recorded, in order, in `trace`.
 */
module Client {
  import opened Wrappers
  import opened Types
  import opened Foundation
  import opened Fields

  /** One call of the logger: `(message, complementaryMessage)`. */
  datatype LogEvent = LogEvent(message: string, complementaryMessage: string)

  /** `API.Invoker`, made synchronous: a response or an error. */
  type Invoker = URLRequest -> Result<HTTPResponse, Error>

  /** `API.ResponseMiddleware`, made synchronous, on the response alone. */
  type ResponseMiddleware = HTTPResponse -> Result<HTTPResponse, Error>

  /** `JSONEncoder.encode`, which may throw. */
  type Encoder = Encodable -> Result<Bytes, Error>

  /** `API.HeadersBuilder`. */
  type HeadersBuilder = () -> set<Header>

  /** The default `headersBuilder`: `{ .init() }`. */
  function EmptyHeaders(): set<Header>
  {
    {}
  }

  class API {
    const baseURLComponents: URLComponents
    const jsonEncoder: Encoder
    const headersBuilder: HeadersBuilder
    const invoker: Invoker
    const responseMiddlewares: seq<ResponseMiddleware>
    var persistentHeaders: set<Header>
    var trace: seq<LogEvent>

    /**
     * `init`: the base components are what the configuration closure makes of empty
     * components; every other field is its argument. Nothing is logged yet and no
     * header has been added.
     */
    constructor (baseURLComponents: URLComponents -> URLComponents,
                 jsonEncoder: Encoder,
                 invoker: Invoker,
                 headersBuilder: HeadersBuilder := EmptyHeaders,
                 responseMiddlewares: seq<ResponseMiddleware> := [])
      ensures this.baseURLComponents == baseURLComponents(EmptyComponents)
      ensures this.jsonEncoder == jsonEncoder && this.invoker == invoker
      ensures this.headersBuilder == headersBuilder
      ensures this.responseMiddlewares == responseMiddlewares
      ensures persistentHeaders == {} && trace == []
    {
      var urlComponents := EmptyComponents;
      urlComponents := baseURLComponents(urlComponents);
      this.baseURLComponents := urlComponents;
      this.jsonEncoder := jsonEncoder;
      this.headersBuilder := headersBuilder;
      this.invoker := invoker;
      this.responseMiddlewares := responseMiddlewares;
      persistentHeaders := {};
      trace := [];
    }

    /** `addHeader(_:)`: set insertion, so adding the same header twice is adding it once. */
    method AddHeader(header: Header)
      modifies this`persistentHeaders
      ensures persistentHeaders == old(persistentHeaders) + {header}
      ensures header in persistentHeaders
    {
      persistentHeaders := persistentHeaders + {header};
    }

    /**
     * `allHeaders`: the builder's headers with every persistent header inserted. No
     * header replaces another: two headers with one name and two values both stay.
     */
    method AllHeaders() returns (dynamicHeaders: set<Header>)
      ensures dynamicHeaders == headersBuilder() + persistentHeaders
      ensures forall h :: h in dynamicHeaders <==> h in headersBuilder() || h in persistentHeaders
    {
      dynamicHeaders := headersBuilder();
      var pending := persistentHeaders;
      while pending != {}
        invariant pending <= persistentHeaders
        invariant dynamicHeaders == headersBuilder() + (persistentHeaders - pending)
        decreases |pending|
      {
        var h :| h in pending;
        dynamicHeaders := dynamicHeaders + {h};
        pending := pending - {h};
      }
    }
  }

  /** With the default builder, `allHeaders` is exactly the persistent set. */
  method DefaultAllHeaders(api: API) returns (headers: set<Header>)
    requires api.headersBuilder == EmptyHeaders
    ensures headers == api.persistentHeaders
  {
    headers := api.AllHeaders();
  }

  /**
   * A client made with the default header builder and given one header by `addHeader`
   * sends exactly that header.
   */
  method DefaultClientHeaders(baseURLComponents: URLComponents -> URLComponents, jsonEncoder: Encoder,
                              invoker: Invoker, header: Header) returns (headers: set<Header>)
    ensures headers == {header}
  {
    var api := new API(baseURLComponents, jsonEncoder, invoker);
    api.AddHeader(header);
    headers := DefaultAllHeaders(api);
  }

  /** After `addHeader(h)` then `addHeader(h)` again the set is as after the first. */
  method AddHeaderTwice(api: API, header: Header)
    modifies api`persistentHeaders
    ensures api.persistentHeaders == old(api.persistentHeaders) + {header}
    ensures api.trace == old(api.trace)
  {
    api.AddHeader(header);
    ghost var once := api.persistentHeaders;
    api.AddHeader(header);
    assert api.persistentHeaders == once;
  }
}
