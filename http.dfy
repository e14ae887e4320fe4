/**
 * The Fetch-API values the caching engine handles: requests (the cache key),
 * response snapshots, what a strategy hands back to the page, and the network
 * fetcher, whose answer is a parameter of the model.
 */
module Http {

  datatype Option<+T> = None | Some(value: T)

  /** A request as far as the cache cares: two equal requests are cache-interchangeable. */
  datatype Request = Request(verb: string, url: string)

  /** An immutable response snapshot; headers are abstracted into the body. */
  datatype Response = Response(status: int, body: string)
  {
    /** The Fetch `ok` flag: the status is in the range 200-299. */
    predicate Ok() {
      200 <= status <= 299
    }
  }

  /** Status and body of the synthetic response built by `new Response('Offline', { status: 503 })`. */
  const OFFLINE_STATUS: int := 503
  const OFFLINE_BODY: string := "Offline"

  /**
   * What a strategy resolves to: a real response (from the cache or the network),
   * the synthetic offline response, or `undefined` (only stale-while-revalidate
   * can produce it).
   */
  datatype Reply = Serve(response: Response) | Offline | Undefined
  {
    /** The response object the page receives, if any. */
    function AsResponse(): Option<Response> {
      match this
      case Serve(resp) => Some(resp)
      case Offline => Some(Response(OFFLINE_STATUS, OFFLINE_BODY))
      case Undefined => None
    }
  }

  /** What `fetch(request)` settles to: a response (of any status) or a rejection. */
  datatype FetchResult = Fetched(response: Response) | NetworkError

  /**
   * The network fetcher. `answer` is what the network will give for the next
   * request; `calls` counts how often it was consulted.
   */
  class Network {
    var answer: FetchResult
    var calls: nat

    constructor (answer: FetchResult)
      ensures this.answer == answer && calls == 0
    {
      this.answer := answer;
      calls := 0;
    }

    method Fetch(request: Request) returns (r: FetchResult)
      modifies this`calls
      ensures r == answer
      ensures calls == old(calls) + 1
    {
      r := answer;
      calls := calls + 1;
    }
  }
}
