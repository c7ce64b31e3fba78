/**
 * The Binance connector: its option defaults, its signed request builder,
 * and the refresh of the symbol directory and of one depth entry from the
 * venue's REST endpoints. The base-class part of an instance is the Basex
 * object held in `base`.
 */
module Binance {
  import opened Wrappers
  import opened Basex
  import Strings

  const DEFAULT_HTTP_HOST := "https://api.binance.com"
  const DEFAULT_WSS_HOST := "wss://stream.binance.com:9443"
  const API_KEY_HEADER := "X-MBX-APIKEY"
  const EXCHANGE_INFO_PATH := "/api/v3/exchangeInfo"
  const DEPTH_PATH := "/api/v3/depth"
  const CLASS_NAME := "Binance"
  /**
   * What is thrown when `crypto.createHmac` is given an `undefined` key (no
   * credentials), or when a property is set on a missing depth entry.
   */
  const TYPE_ERROR := "TypeError"

  /** The two primitives the request builder uses and does not define. */
  datatype Encoders = Encoders(
    uriComponent: string -> string,             // encodeURIComponent
    hmacSha256Hex: (string, string) -> string)  // hex HMAC-SHA256 digest of a message under a key

  // ---------------------------------------------------------------------------
  // Options

  /** The constructor's option merge: the two hosts get defaults, everything the caller gave wins. */
  function WithDefaults(option: Config): (c: Config)
    ensures c.httpHost.Some? && c.wssHost.Some?
    ensures option.httpHost.Some? ==> c.httpHost == option.httpHost
    ensures option.httpHost.None? ==> c.httpHost == Some(DEFAULT_HTTP_HOST)
    ensures option.wssHost.Some? ==> c.wssHost == option.wssHost
    ensures option.wssHost.None? ==> c.wssHost == Some(DEFAULT_WSS_HOST)
    ensures c.auth == option.auth && c.depthLimit == option.depthLimit
  {
    option.(httpHost := Some(option.httpHost.GetOr(DEFAULT_HTTP_HOST)),
            wssHost := Some(option.wssHost.GetOr(DEFAULT_WSS_HOST)))
  }

  // ---------------------------------------------------------------------------
  // Query strings and request URLs

  /** One query parameter, written `key=encodeURIComponent(value)`. */
  function Piece(p: (string, string), enc: Encoders): string
  {
    p.0 + "=" + enc.uriComponent(p.1)
  }

  function Pieces(query: seq<(string, string)>, enc: Encoders): (r: seq<string>)
    ensures |r| == |query|
    ensures forall i :: 0 <= i < |query| ==> r[i] == Piece(query[i], enc)
  {
    seq(|query|, i requires 0 <= i < |query| => Piece(query[i], enc))
  }

  /** The parameters in insertion order, each written behind an '&'. */
  function Params(query: seq<(string, string)>, enc: Encoders): (r: string)
    ensures r == "" <==> query == []
    ensures query != [] ==> r[0] == '&'
  {
    if query == [] then "" else "&" + Piece(query[0], enc) + Params(query[1..], enc)
  }

  function TimestampField(now: nat): string
  {
    "timestamp=" + Strings.NatToString(now)
  }

  /** The text the signature is computed over: the timestamp (when signed) and the parameters. */
  function Unsigned(query: seq<(string, string)>, auth: bool, now: nat, enc: Encoders): string
  {
    (if auth then TimestampField(now) else "") + Params(query, enc)
  }

  /** The whole query string; a signed one ends with the signature of everything before it. */
  function QueryString(query: seq<(string, string)>, auth: bool, now: nat, secret: string, enc: Encoders): (r: string)
    ensures r == "" <==> !auth && query == []
    ensures !auth ==> r == Params(query, enc)
    ensures auth ==> TimestampField(now) <= r
  {
    var p := Unsigned(query, auth, now, enc);
    if auth then p + "&signature=" + enc.hmacSha256Hex(secret, p) else p
  }

  /** The path with its query string, the '?' only when there is one. */
  function RequestPath(uri: string, queryString: string): (r: string)
    ensures queryString == "" ==> r == uri
    ensures queryString != "" ==> r == uri + "?" + queryString
  {
    uri + (if queryString != "" then "?" + queryString else "")
  }

  /** The request a signed or unsigned call hands to the network. */
  function FetchRequest(opt: Config, uri: string, query: seq<(string, string)>, auth: bool, now: nat, enc: Encoders): (r: Request)
    requires auth ==> opt.auth.Some?
    ensures r.httpMethod == DEFAULT_METHOD
    ensures r.headers.Some? <==> auth
    ensures auth ==> r.headers == Some(map[API_KEY_HEADER := opt.auth.value.access])
    ensures PropertyText(opt.httpHost) + uri <= r.url
    ensures r.url == PropertyText(opt.httpHost) + uri <==> !auth && query == []
  {
    var secret := if auth then opt.auth.value.secret else "";
    Request(
      PropertyText(opt.httpHost) + RequestPath(uri, QueryString(query, auth, now, secret, enc)),
      DEFAULT_METHOD,
      if auth then Some(map[API_KEY_HEADER := opt.auth.value.access]) else None)
  }

  lemma {:induction false} ParamsSnoc(query: seq<(string, string)>, p: (string, string), enc: Encoders)
    ensures Params(query + [p], enc) == Params(query, enc) + "&" + Piece(p, enc)
    decreases |query|
  {
    if query != [] {
      assert (query + [p])[1..] == query[1..] + [p];
      ParamsSnoc(query[1..], p, enc);
    }
  }

  /** A head field followed by the parameters is the '&'-join of the head and the pieces. */
  lemma {:induction false} ParamsAsJoin(head: string, query: seq<(string, string)>, enc: Encoders)
    ensures head + Params(query, enc) == Strings.Join([head] + Pieces(query, enc), '&')
    decreases |query|
  {
    if query != [] {
      var x := Piece(query[0], enc);
      var rest := query[1..];
      assert Pieces(query, enc) == [x] + Pieces(rest, enc);
      ParamsAsJoin(x, rest, enc);
      assert ([head] + Pieces(query, enc))[1..] == [x] + Pieces(rest, enc);
    }
  }

  /** Neither a key nor an encoded value holds an '&' (encodeURIComponent escapes it). */
  ghost predicate Separable(query: seq<(string, string)>, enc: Encoders)
  {
    forall i :: 0 <= i < |query| ==> '&' !in query[i].0 && '&' !in enc.uriComponent(query[i].1)
  }

  lemma PiecesSeparable(query: seq<(string, string)>, enc: Encoders)
    requires Separable(query, enc)
    ensures forall i :: 0 <= i < |query| ==> '&' !in Pieces(query, enc)[i]
  {
    forall i | 0 <= i < |query|
      ensures '&' !in Pieces(query, enc)[i]
    {
      assert Pieces(query, enc)[i] == query[i].0 + "=" + enc.uriComponent(query[i].1);
    }
  }

  /**
   * An unsigned query string splits on '&' into an empty first field and
   * then exactly the `key=value` pieces, in order.
   */
  lemma UnsignedQueryDecodes(query: seq<(string, string)>, now: nat, secret: string, enc: Encoders)
    requires Separable(query, enc)
    ensures Strings.Split(QueryString(query, false, now, secret, enc), '&') == [""] + Pieces(query, enc)
  {
    ParamsAsJoin("", query, enc);
    assert "" + Params(query, enc) == Params(query, enc);
    PiecesSeparable(query, enc);
    Strings.SplitJoin([""] + Pieces(query, enc), '&');
  }

  /**
   * A signed query string splits on '&' into the timestamp field, the
   * pieces in order, and a last field that is the signature of exactly the
   * fields before it, joined back with '&'.
   */
  lemma SignedQueryDecodes(query: seq<(string, string)>, now: nat, secret: string, enc: Encoders)
    requires Separable(query, enc)
    requires '&' !in enc.hmacSha256Hex(secret, Unsigned(query, true, now, enc))
    ensures var parts := Strings.Split(QueryString(query, true, now, secret, enc), '&');
      && |parts| == |query| + 2
      && parts[0] == TimestampField(now)
      && parts[1..|parts| - 1] == Pieces(query, enc)
      && parts[|parts| - 1] == "signature=" + enc.hmacSha256Hex(secret, Strings.Join(parts[..|parts| - 1], '&'))
  {
    var ts := TimestampField(now);
    var p := Unsigned(query, true, now, enc);
    var sig := "signature=" + enc.hmacSha256Hex(secret, p);
    var fields := [ts] + Pieces(query, enc);
    ParamsAsJoin(ts, query, enc);
    assert p == Strings.Join(fields, '&');
    Strings.JoinSnoc(fields, sig, '&');
    assert QueryString(query, true, now, secret, enc) == Strings.Join(fields + [sig], '&');
    var digits := Strings.NatToString(now);
    assert '&' !in ts by {
      assert forall i :: 0 <= i < |digits| ==> Strings.IsDigit(digits[i]);
    }
    PiecesSeparable(query, enc);
    Strings.SplitJoin(fields + [sig], '&');
    assert (fields + [sig])[..|fields|] == fields;
  }

  /** Quirk: an unsigned request path with parameters reads `uri?&key=value...`. */
  lemma UnsignedPath(uri: string, query: seq<(string, string)>, now: nat, secret: string, enc: Encoders)
    ensures query == [] ==> RequestPath(uri, QueryString(query, false, now, secret, enc)) == uri
    ensures query != [] ==>
      RequestPath(uri, QueryString(query, false, now, secret, enc))
      == uri + "?&" + Strings.Join(Pieces(query, enc), '&')
  {
    if query != [] {
      var x := Piece(query[0], enc);
      ParamsAsJoin(x, query[1..], enc);
      assert Pieces(query, enc) == [x] + Pieces(query[1..], enc);
      assert Params(query, enc) == "&" + (x + Params(query[1..], enc));
    }
  }

  /** The `for…in` loop of `#fetch`: appends `&key=encodeURIComponent(value)` for each parameter in turn. */
  method AppendParams(start: string, query: seq<(string, string)>, enc: Encoders) returns (queryString: string)
    ensures queryString == start + Params(query, enc)
  {
    queryString := start;
    var i := 0;
    while i < |query|
      invariant 0 <= i <= |query|
      invariant queryString == start + Params(query[..i], enc)
    {
      var piece := query[i].0 + "=" + enc.uriComponent(query[i].1);
      assert piece == Piece(query[i], enc);
      ParamsSnoc(query[..i], query[i], enc);
      assert query[..i + 1] == query[..i] + [query[i]];
      queryString := queryString + "&" + piece;
      i := i + 1;
    }
    assert query[..i] == query;
  }

  // ---------------------------------------------------------------------------
  // Symbol directory

  /** One item of the exchange listing. */
  datatype SymbolInfo = SymbolInfo(baseAsset: string, quoteAsset: string, symbol: string)
  /** The part of the exchange-information payload the refresh reads. */
  datatype ExchangeInfo = ExchangeInfo(symbols: seq<SymbolInfo>)

  /** The normalised `BASE-QUOTE` key of a pair. */
  function PairName(baseAsset: string, quoteAsset: string): string
  {
    baseAsset + "-" + quoteAsset
  }

  function PairKey(s: SymbolInfo): string
  {
    PairName(s.baseAsset, s.quoteAsset)
  }

  function EntryFor(s: SymbolInfo, time: nat): SymbolEntry
  {
    SymbolEntry(PairKey(s), s.symbol, time)
  }

  /** The directory after storing each listed item in turn, stamped `time`. */
  function Merged(m: map<string, SymbolEntry>, listing: seq<SymbolInfo>, time: nat): (r: map<string, SymbolEntry>)
    ensures m.Keys <= r.Keys
    ensures forall k :: k in r ==> (k in m && r[k] == m[k]) || (r[k].symbol == k && r[k].time == time)
    decreases |listing|
  {
    if listing == [] then m
    else
      var last := listing[|listing| - 1];
      Merged(m, listing[..|listing| - 1], time)[PairKey(last) := EntryFor(last, time)]
  }

  function ListedKeys(listing: seq<SymbolInfo>): set<string>
  {
    set i | 0 <= i < |listing| :: PairKey(listing[i])
  }

  /** After a merge the keys are the old keys and the listed pairs, no more. */
  lemma {:induction false} MergedKeys(m: map<string, SymbolEntry>, listing: seq<SymbolInfo>, time: nat)
    ensures Merged(m, listing, time).Keys == m.Keys + ListedKeys(listing)
    decreases |listing|
  {
    if listing != [] {
      var init := listing[..|listing| - 1];
      MergedKeys(m, init, time);
      assert ListedKeys(listing) == ListedKeys(init) + {PairKey(listing[|listing| - 1])} by {
        forall k | k in ListedKeys(listing) ensures k in ListedKeys(init) + {PairKey(listing[|listing| - 1])} {
          var i :| 0 <= i < |listing| && PairKey(listing[i]) == k;
          if i < |listing| - 1 {
            assert init[i] == listing[i];
          }
        }
        forall k | k in ListedKeys(init) ensures k in ListedKeys(listing) {
          var i :| 0 <= i < |init| && PairKey(init[i]) == k;
          assert listing[i] == init[i];
        }
      }
    }
  }

  /** A listed item whose pair does not come again later is stored as its entry: the last listing wins. */
  lemma {:induction false} MergedListed(m: map<string, SymbolEntry>, listing: seq<SymbolInfo>, time: nat, i: nat)
    requires i < |listing|
    requires forall j :: i < j < |listing| ==> PairKey(listing[j]) != PairKey(listing[i])
    ensures PairKey(listing[i]) in Merged(m, listing, time)
    ensures Merged(m, listing, time)[PairKey(listing[i])] == EntryFor(listing[i], time)
    decreases |listing|
  {
    if i < |listing| - 1 {
      var init := listing[..|listing| - 1];
      assert init[i] == listing[i];
      forall j | i < j < |init| ensures PairKey(init[j]) != PairKey(init[i]) {
        assert init[j] == listing[j];
      }
      MergedListed(m, init, time, i);
    }
  }

  /** A pair that is not listed keeps its old entry, or stays absent. */
  lemma {:induction false} MergedUnlisted(m: map<string, SymbolEntry>, listing: seq<SymbolInfo>, time: nat, k: string)
    requires forall i :: 0 <= i < |listing| ==> PairKey(listing[i]) != k
    ensures k in Merged(m, listing, time) <==> k in m
    ensures k in m ==> Merged(m, listing, time)[k] == m[k]
    decreases |listing|
  {
    if listing != [] {
      var init := listing[..|listing| - 1];
      forall i | 0 <= i < |init| ensures PairKey(init[i]) != k {
        assert init[i] == listing[i];
      }
      MergedUnlisted(m, init, time, k);
    }
  }

  // ---------------------------------------------------------------------------
  // Depth entries

  /** One price level of a book: price and quantity, as the venue's decimal texts. */
  datatype Level = Level(price: string, quantity: string)
  /** The part of the depth payload the refresh reads. */
  datatype DepthSnapshot = DepthSnapshot(asks: seq<Level>, bids: seq<Level>)

  /** A cached order book with the time it was last refreshed. */
  class DepthEntry {
    var updateTime: nat
    var asks: seq<Level>
    var bids: seq<Level>

    constructor ()
      ensures updateTime == 0 && asks == [] && bids == []
    {
      updateTime := 0;
      asks := [];
      bids := [];
    }
  }

  /** The text `encodeURIComponent` receives for the depth limit: its decimal, or "undefined". */
  function LimitText(limit: Option<int>): string
  {
    match limit
    case Some(n) => Strings.IntToString(n)
    case None => "undefined"
  }

  function DepthQuery(symbol: string, limit: Option<int>): seq<(string, string)>
  {
    [("symbol", symbol), ("limit", LimitText(limit))]
  }

  /** An unsigned request with two parameters reads `uri?&k1=v1&k2=v2`. */
  lemma UnsignedPathOfTwo(uri: string, k1: string, v1: string, k2: string, v2: string, now: nat, enc: Encoders)
    ensures RequestPath(uri, QueryString([(k1, v1), (k2, v2)], false, now, "", enc))
      == uri + "?&" + k1 + "=" + enc.uriComponent(v1) + "&" + k2 + "=" + enc.uriComponent(v2)
  {
    var a, b := (k1, v1), (k2, v2);
    assert [a, b][1..] == [b];
    assert [b][1..] == [];
    assert Params([a, b], enc) == "&" + Piece(a, enc) + "&" + Piece(b, enc);
  }

  /** The depth request for a pair sends the concatenated assets, and the configured limit. */
  lemma DepthRequestPath(baseAsset: string, quoteAsset: string, limit: Option<int>, now: nat, enc: Encoders)
    ensures RequestPath(DEPTH_PATH, QueryString(DepthQuery(baseAsset + quoteAsset, limit), false, now, "", enc))
      == DEPTH_PATH + "?&symbol=" + enc.uriComponent(baseAsset + quoteAsset) + "&limit=" + enc.uriComponent(LimitText(limit))
  {
    UnsignedPathOfTwo(DEPTH_PATH, "symbol", baseAsset + quoteAsset, "limit", LimitText(limit), now, enc);
    DepthParamsText(DEPTH_PATH, enc.uriComponent(baseAsset + quoteAsset), enc.uriComponent(LimitText(limit)));
  }

  lemma DepthParamsText(uri: string, symbol: string, limit: string)
    ensures uri + "?&" + "symbol" + "=" + symbol + "&" + "limit" + "=" + limit == uri + "?&symbol=" + symbol + "&limit=" + limit
  {
  }

  // ---------------------------------------------------------------------------
  // Symbol normalisation

  /** `#toSymbol`: upper-case, split on '-', glue the first two parts (a missing second part reads "undefined"). */
  function ToSymbol(symbol: string): (r: string)
    ensures '-' !in r
  {
    var s := Strings.Split(Strings.Upper(symbol), '-');
    s[0] + (if |s| > 1 then s[1] else "undefined")
  }

  /** A dash-free base and quote give their upper-cased concatenation. */
  lemma ToSymbolOfPair(baseAsset: string, quoteAsset: string)
    requires '-' !in baseAsset && '-' !in quoteAsset
    ensures ToSymbol(PairName(baseAsset, quoteAsset)) == Strings.Upper(baseAsset) + Strings.Upper(quoteAsset)
  {
    var b, q := Strings.Upper(baseAsset), Strings.Upper(quoteAsset);
    Strings.UpperAppend(baseAsset + "-", quoteAsset);
    Strings.UpperAppend(baseAsset, "-");
    assert Strings.Upper(PairName(baseAsset, quoteAsset)) == b + ['-'] + q;
    Strings.UpperKeepsNonLetter(baseAsset, '-');
    Strings.UpperKeepsNonLetter(quoteAsset, '-');
    assert Strings.Join([b, q], '-') == b + ['-'] + q;
    Strings.SplitJoin([b, q], '-');
  }

  /** For upper-case, dash-free assets the venue symbol is the one the depth request sends. */
  lemma ToSymbolMatchesDepthSymbol(baseAsset: string, quoteAsset: string)
    requires '-' !in baseAsset && '-' !in quoteAsset
    requires Strings.Upper(baseAsset) == baseAsset && Strings.Upper(quoteAsset) == quoteAsset
    ensures ToSymbol(PairName(baseAsset, quoteAsset)) == baseAsset + quoteAsset
  {
    ToSymbolOfPair(baseAsset, quoteAsset);
  }

  /** Quirk: without a '-' the missing second part is glued on as "undefined". */
  lemma ToSymbolWithoutDash(symbol: string)
    requires '-' !in symbol
    ensures ToSymbol(symbol) == Strings.Upper(symbol) + "undefined"
  {
    Strings.UpperKeepsNonLetter(symbol, '-');
    Strings.SplitWithoutSeparator(Strings.Upper(symbol), '-');
  }

  // ---------------------------------------------------------------------------
  // The connector

  class Binance {
    /** The base-class part: options, name and symbol directory. */
    const base: Basex
    /** Depth entries by pair key; they are created outside the operations modelled here. */
    var depths: map<string, DepthEntry>

    constructor (option: Config)
      ensures base.opt == WithDefaults(option) && base.name == CLASS_NAME
      ensures fresh(base) && fresh(base.symbolCache)
      ensures base.symbolCache.updateTime == 0 && base.symbolCache.symbols == map[]
      ensures depths == map[]
    {
      base := new Basex(WithDefaults(option), CLASS_NAME);
      depths := map[];
    }

    /**
     * `#fetch`: builds the query string parameter by parameter, signs it and
     * sets the key header when `auth`, and issues it through the base. With
     * `auth` and no credentials the HMAC key is undefined and the call throws.
     */
    method Fetch<D>(uri: string, query: seq<(string, string)>, auth: bool, now: nat, enc: Encoders,
                    transport: Request -> Response, parse: string -> Option<D>)
      returns (r: Completion<FetchResult<D>>)
      ensures r.Throw? <==> auth && base.opt.auth.None?
      ensures r.Throw? ==> r.reason == TYPE_ERROR
      ensures r.Normal? ==> r.value == Classify(transport(FetchRequest(base.opt, uri, query, auth, now, enc)), parse)
    {
      var queryString := AppendParams(if auth then TimestampField(now) else "", query, enc);
      var option := new RequestOption();
      if auth {
        if base.opt.auth.None? {
          return Throw(TYPE_ERROR);
        }
        var secret := base.opt.auth.value.secret;
        queryString := queryString + "&signature=" + enc.hmacSha256Hex(secret, queryString);
        assert queryString == QueryString(query, auth, now, secret, enc);
        option.headers := Some(map[API_KEY_HEADER := base.opt.auth.value.access]);
      } else {
        assert queryString == QueryString(query, auth, now, "", enc);
      }
      var url := RequestPath(uri, queryString);
      var result := base.Fetch(url, option, transport, parse);
      assert Request(PropertyText(base.opt.httpHost) + url, DEFAULT_METHOD, option.headers)
        == FetchRequest(base.opt, uri, query, auth, now, enc);
      r := Normal(result);
    }

    /**
     * `__refreshSymbols`: on a failed fetch nothing changes; otherwise the
     * directory is stamped `now` and every listed pair is stored in turn.
     */
    method RefreshSymbols(now: nat, enc: Encoders, transport: Request -> Response, parse: string -> Option<ExchangeInfo>)
      modifies base.symbolCache
      ensures var res := Classify(transport(FetchRequest(base.opt, EXCHANGE_INFO_PATH, [], false, now, enc)), parse);
        && (res.Fail? ==> unchanged(base.symbolCache))
        && (res.Ok? ==> base.symbolCache.updateTime == now
                        && base.symbolCache.symbols == Merged(old(base.symbolCache.symbols), res.data.symbols, now))
    {
      var result := Fetch(EXCHANGE_INFO_PATH, [], false, now, enc, transport, parse);
      var res := result.value;
      if res.Code() != 0 {
        return;
      }
      base.symbolCache.updateTime := now;
      var listing := res.data.symbols;
      var i := 0;
      while i < |listing|
        invariant 0 <= i <= |listing|
        invariant base.symbolCache.updateTime == now
        invariant base.symbolCache.symbols == Merged(old(base.symbolCache.symbols), listing[..i], now)
      {
        var s := listing[i];
        var ss := s.baseAsset + "-" + s.quoteAsset;
        assert listing[..i + 1][..i] == listing[..i];
        base.symbolCache.symbols := base.symbolCache.symbols[ss := SymbolEntry(ss, s.symbol, base.symbolCache.updateTime)];
        i := i + 1;
      }
      assert listing[..i] == listing;
    }

    /**
     * `__refreshDepth`: on a failed fetch nothing changes; otherwise the
     * pair's entry gets both books and the time `now`, and a pair without an
     * entry throws.
     */
    method RefreshDepth(baseAsset: string, quoteAsset: string, now: nat, enc: Encoders,
                        transport: Request -> Response, parse: string -> Option<DepthSnapshot>)
      returns (c: Completion<()>)
      modifies if PairName(baseAsset, quoteAsset) in depths then {depths[PairName(baseAsset, quoteAsset)]} else {}
      ensures depths == old(depths)
      ensures var key := PairName(baseAsset, quoteAsset);
        var res := Classify(transport(FetchRequest(base.opt, DEPTH_PATH,
                                        DepthQuery(baseAsset + quoteAsset, base.opt.depthLimit), false, now, enc)), parse);
        && (res.Fail? ==> c == Normal(()) && (key in depths ==> unchanged(depths[key])))
        && (res.Ok? && key !in depths ==> c == Throw(TYPE_ERROR))
        && (res.Ok? && key in depths ==>
              c == Normal(()) && depths[key].updateTime == now
              && depths[key].asks == res.data.asks && depths[key].bids == res.data.bids)
    {
      var result := Fetch(DEPTH_PATH, DepthQuery(baseAsset + quoteAsset, base.opt.depthLimit), false, now, enc, transport, parse);
      var res := result.value;
      if res.Code() != 0 {
        return Normal(());
      }
      var key := PairName(baseAsset, quoteAsset);
      if key !in depths {
        return Throw(TYPE_ERROR);
      }
      var depth := depths[key];
      depth.updateTime := now;
      depth.asks := res.data.asks;
      depth.bids := res.data.bids;
      c := Normal(());
    }

    /**
     * `querySymbols` as evidently intended for this venue: when the
     * directory is stale it runs `__refreshSymbols`, then returns the
     * directory record itself.
     */
    method QuerySymbols(now: nat, enc: Encoders, transport: Request -> Response, parse: string -> Option<ExchangeInfo>)
      returns (r: Completion<SymbolCache>)
      modifies base.symbolCache
      ensures r == Normal(base.symbolCache)
      ensures !Stale(now, old(base.symbolCache.updateTime)) ==> unchanged(base.symbolCache)
      ensures Stale(now, old(base.symbolCache.updateTime)) ==>
        var res := Classify(transport(FetchRequest(base.opt, EXCHANGE_INFO_PATH, [], false, now, enc)), parse);
        && (res.Fail? ==> unchanged(base.symbolCache))
        && (res.Ok? ==> base.symbolCache.updateTime == now
                        && base.symbolCache.symbols == Merged(old(base.symbolCache.symbols), res.data.symbols, now))
    {
      if now - base.symbolCache.updateTime > CACHE_TIME {
        RefreshSymbols(now, enc, transport, parse);
      }
      r := Normal(base.symbolCache);
    }
  }

  // ---------------------------------------------------------------------------
  // What a caller of a new instance observes

  /**
   * On a new instance the inherited `querySymbols` throws at any time past
   * the time-to-live, because the refresh hook it calls is not overridden;
   * at the boundary and before, it returns the empty directory.
   */
  method FreshInstanceInheritedQuery(option: Config, now: nat) returns (r: Completion<SymbolCache>)
    ensures r.Throw? <==> now > CACHE_TIME
    ensures r.Throw? ==> r.reason == NOT_IMPLEMENTED
    ensures r.Normal? ==> r.value.updateTime == 0 && r.value.symbols == map[]
  {
    var b := new Binance(option);
    r := b.base.QuerySymbols(now);
  }

  /**
   * With the refresh wired in, a new instance queried past the time-to-live
   * fills its directory from a JSON listing.
   */
  method FreshInstanceRefreshingQuery(option: Config, now: nat, info: ExchangeInfo, enc: Encoders)
    returns (table: map<string, SymbolEntry>, stamp: nat)
    requires now > CACHE_TIME
    ensures stamp == now
    ensures table == Merged(map[], info.symbols, now)
  {
    var b := new Binance(option);
    var transport := (req: Request) => Answered(200, Some(JSON_TYPE), "");
    var parse := (text: string) => Some(info);
    var r := b.QuerySymbols(now, enc, transport, parse);
    table, stamp := r.value.symbols, r.value.updateTime;
  }
}
