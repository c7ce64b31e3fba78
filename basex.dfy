/**
 * The venue-independent base of every connector: its options, its symbol
 * directory cache with a time-to-live, and the REST call that classifies a
 * response as data or failure.
 */
module Basex {
  import opened Wrappers
  import Strings

  /** Time-to-live of the symbol directory, in milliseconds. */
  const CACHE_TIME: nat := 60000
  /** What the abstract refresh hook throws. */
  const NOT_IMPLEMENTED := "No implement function"
  /** The message of every failure that was thrown inside the request. */
  const TIMEOUT := "Timeout"
  const JSON_TYPE := "application/json"
  const DEFAULT_METHOD := "GET"

  datatype Credentials = Credentials(access: string, secret: string)

  /** The option object a connector is built with; every property may be missing. */
  datatype Config = Config(
    httpHost: Option<string>,
    wssHost: Option<string>,
    auth: Option<Credentials>,
    depthLimit: Option<int>)

  /** What `+` makes of a string property: its value, or "undefined" when it is missing. */
  function PropertyText(v: Option<string>): string
  {
    v.GetOr("undefined")
  }

  /** What is handed to the network: the full URL, the method and the optional header map. */
  datatype Request = Request(url: string, httpMethod: string, headers: Option<map<string, string>>)

  /**
   * What the network gives back: either the call (or reading its body) was
   * rejected, or a response arrived with a status, an optional content-type
   * header and a body text.
   */
  datatype Response =
    | Rejected
    | Answered(status: int, contentType: Option<string>, body: string)

  /** The `{code: 0, data}` / `{code: -1, msg}` record a request resolves to. */
  datatype FetchResult<+D> = Ok(data: D) | Fail(msg: string) {
    function Code(): int {
      if Ok? then 0 else -1
    }
  }

  /**
   * The classification of a response. `parse` is `JSON.parse`, giving None
   * where it throws. A missing content-type header makes `indexOf` throw on
   * null; that, a failed parse and a rejected call all land in the catch and
   * give "Timeout". The status code is not read.
   */
  function Classify<D>(resp: Response, parse: string -> Option<D>): (r: FetchResult<D>)
    ensures r.Code() == 0 || r.Code() == -1
    ensures r.Ok? <==>
      resp.Answered? && resp.contentType.Some? && Strings.Occurs(resp.contentType.value, JSON_TYPE)
      && parse(resp.body).Some?
    ensures r.Ok? ==> parse(resp.body) == Some(r.data)
    ensures resp.Answered? && resp.contentType.Some? && !Strings.Occurs(resp.contentType.value, JSON_TYPE)
      ==> r == Fail(resp.body)
    ensures resp.Rejected? || resp.contentType.None? ==> r == Fail(TIMEOUT)
    ensures (resp.Answered? && resp.contentType.Some? && Strings.Occurs(resp.contentType.value, JSON_TYPE)
             && parse(resp.body).None?) ==> r == Fail(TIMEOUT)
    ensures r.Fail? && r.msg != TIMEOUT ==> resp.Answered? && r.msg == resp.body
  {
    match resp
    case Rejected => Fail(TIMEOUT)
    case Answered(_, contentType, body) =>
      if contentType.None? then Fail(TIMEOUT)
      else if Strings.IndexOf(contentType.value, JSON_TYPE) > -1 then
        match parse(body)
        case Some(d) => Ok(d)
        case None => Fail(TIMEOUT)
      else Fail(body)
  }

  /** The status code never changes the classification. */
  lemma ClassifyIgnoresStatus<D>(resp: Response, status: int, parse: string -> Option<D>)
    requires resp.Answered?
    ensures Classify(resp.(status := status), parse) == Classify(resp, parse)
  {
  }

  /** The per-request option object; `__fetch` fills in its method. */
  class RequestOption {
    var httpMethod: Option<string>
    var headers: Option<map<string, string>>

    /** The empty object literal `{}`. */
    constructor ()
      ensures httpMethod == None && headers == None
    {
      httpMethod := None;
      headers := None;
    }
  }

  /** One row of the symbol directory: the pair key, the venue's symbol and when it was stored. */
  datatype SymbolEntry = SymbolEntry(symbol: string, exSymbol: string, time: nat)

  /** The `{updateTime, symbols}` record of the symbol directory. */
  class SymbolCache {
    var updateTime: nat
    var symbols: map<string, SymbolEntry>

    constructor ()
      ensures updateTime == 0 && symbols == map[]
    {
      updateTime := 0;
      symbols := map[];
    }
  }

  /** The directory must be refreshed: strictly more than the time-to-live has passed. */
  predicate Stale(now: nat, updateTime: nat): (b: bool)
    ensures b <==> now > updateTime + CACHE_TIME
  {
    now - updateTime > CACHE_TIME
  }

  class Basex {
    const opt: Config
    /** The name of the class the instance was created from. */
    const name: string
    const symbolCache: SymbolCache

    constructor (option: Config, className: string)
      ensures opt == option && name == className
      ensures fresh(symbolCache)
      ensures symbolCache.updateTime == 0 && symbolCache.symbols == map[]
    {
      opt := option;
      name := className;
      symbolCache := new SymbolCache();
    }

    /**
     * Issues `uri` against the REST host through `transport`. A missing or
     * empty method becomes GET, in the caller's option object.
     */
    method Fetch<D>(uri: string, option: RequestOption, transport: Request -> Response, parse: string -> Option<D>)
      returns (r: FetchResult<D>)
      modifies option
      ensures option.httpMethod ==
        if old(option.httpMethod) == None || old(option.httpMethod) == Some("") then Some(DEFAULT_METHOD)
        else old(option.httpMethod)
      ensures option.headers == old(option.headers)
      ensures option.httpMethod.Some?
      ensures r == Classify(transport(Request(PropertyText(opt.httpHost) + uri, option.httpMethod.value, option.headers)), parse)
    {
      if option.httpMethod == None || option.httpMethod == Some("") {
        option.httpMethod := Some(DEFAULT_METHOD);
      }
      var url := PropertyText(opt.httpHost) + uri;
      var response := transport(Request(url, option.httpMethod.value, option.headers));
      r := Classify(response, parse);
    }

    /** The abstract refresh hook `__querySymbols`: every call throws. */
    method QuerySymbolsHook() returns (c: Completion<()>)
      ensures c == Throw(NOT_IMPLEMENTED)
    {
      c := Throw(NOT_IMPLEMENTED);
    }

    /**
     * Returns the directory record itself when it is fresh; when it is stale
     * it calls the refresh hook, which throws, so the call throws.
     */
    method QuerySymbols(now: nat) returns (r: Completion<SymbolCache>)
      ensures r.Throw? <==> Stale(now, symbolCache.updateTime)
      ensures r.Throw? ==> r.reason == NOT_IMPLEMENTED
      ensures r.Normal? ==> r.value == symbolCache
    {
      if now - symbolCache.updateTime > CACHE_TIME {
        var c := QuerySymbolsHook();
        r := if c.Throw? then Throw(c.reason) else Normal(symbolCache);
      } else {
        r := Normal(symbolCache);
      }
    }
  }
}
