# Binance connector: REST cache and request plumbing, in Dafny

This project models the REST side of a small trading-venue connector. The
connector has a venue-independent base class (`Basex`) and one venue (`Binance`).
The model covers:

- **The base class** (`basex.dfy`, module `Basex`):
  - the option record and the instance name;
  - the symbol-directory record `{updateTime, symbols}` and its 60 000 ms time-to-live;
  - the abstract refresh hook, which always throws;
  - `__fetch`, which defaults the HTTP method in the caller's option object, joins the
    REST host and the path, and classifies a response into `{code: 0, data}` or
    `{code: -1, msg}`.
- **The venue** (`binance.dfy`, module `Binance`):
  - the constructor's host defaults;
  - `#fetch`, which builds the query string parameter by parameter, adds the
    timestamp, the HMAC signature and the API-key header on signed calls, and adds the
    `?` part of the URL only when there is a query string;
  - `__refreshSymbols`, which merges an exchange listing into the directory;
  - `__refreshDepth`, which replaces both books of a depth entry;
  - `#toSymbol`, the pair-to-venue-symbol normalisation.
- **JavaScript string operations the code uses** (`strings.dfy`, module `Strings`):
  `split`, `join`, `indexOf`, `toUpperCase` on ASCII, and the decimal text of a number.
  `wrappers.dfy` holds `Option`, for missing properties, and `Completion`, for a call
  that returns normally or throws.

How the source's features appear in the model:

- **State.** The source changes state in place, so the model does too.
  - `SymbolCache`, `DepthEntry`, `RequestOption`, `Basex` and `Binance` are classes.
  - Their methods state the new state with `modifies`, `old` and `unchanged`.
  - Each of those methods is proved against a function of the old state: `Merged`,
    `QueryString`/`FetchRequest` and `Classify`. The properties the source promises are
    lemmas about those functions.
- **Inheritance.** `Binance extends Basex` is composition: `Binance.base` is the base-class
  part of an instance. The inherited `querySymbols` is `b.base.QuerySymbols`.
- **The class name.** `this.constructor.name` is the `className` argument of the
  `Basex` constructor.
- **Outside inputs.** These become parameters:
  - the clock (`now`);
  - the network: `transport`, a function from the `Request` handed to `fetch` to the
    `Response` it produces;
  - `JSON.parse`: `parse`, where `None` means it throws;
  - `encodeURIComponent` (section 19.2.6.5 of ECMA-262) and hex HMAC-SHA256 (RFC 2104):
    the two functions of an `Encoders` value.
- **Behaviour a reader might not expect, which the model follows:**
  - A symbol refresh merges into the existing map. It does not replace the map.
  - Classification never reads the status code. A JSON body with status 500 is `code: 0`.
  - Directory keys are stored as the venue lists them. Nothing upper-cases them.
  - The `AbortController` timer in `__fetch` has no effect: its signal is never passed
    to `fetch`.

## Model

| member | source | states |
|---|---|---|
| `Basex.Basex.constructor` | exchanges/basex.js:4-8 | the options are kept as given, the name is the creating class's name, and the directory starts as a fresh `{updateTime: 0, symbols: {}}` |
| `Basex.Classify` | exchanges/basex.js:29-40 | `code` is 0 exactly when a response arrived whose content type contains `application/json` and whose body parses, and then `data` is the parse. Any other content type gives `{code: -1, msg: body}`. A rejected call, a missing content-type header and a failed parse all give `msg: 'Timeout'`. The code is always 0 or -1 |
| `Basex.ClassifyIgnoresStatus` | exchanges/basex.js:31-36 | the status code never changes the classification |
| `Strings.IndexOf` | exchanges/basex.js:34 | `indexOf` gives the first position where the substring occurs, and -1 exactly when it occurs nowhere |
| `Basex.Basex.Fetch` | exchanges/basex.js:18-44 | a missing or empty method becomes `GET` in the caller's option object and an existing one is kept. The request goes to `httpHost + uri` with that method and the option's headers. The result is the classification of the response |
| `Basex.Basex.QuerySymbolsHook` | exchanges/basex.js:51 | the abstract refresh hook always throws `'No implement function'` |
| `Basex.Stale` | exchanges/basex.js:58 | the directory is stale exactly when `now > updateTime + 60000`: strictly more than the 60 000 ms time-to-live has passed since it was stamped |
| `Basex.Basex.QuerySymbols` | exchanges/basex.js:57-62 | throws exactly when `now - updateTime > 60000` (strict), because the hook it calls throws. Otherwise it returns the directory record itself |
| `Binance.WithDefaults` | exchanges/binance.js:22 | `httpHost` defaults to `https://api.binance.com` and `wssHost` to `wss://stream.binance.com:9443`. Values the caller gives override the defaults; the other options pass through unchanged |
| `Binance.Binance.constructor` | exchanges/binance.js:21-24 | the base part holds the merged options and the name `Binance`, with an empty directory stamped 0 |
| `Binance.Params` | exchanges/binance.js:46-48 | the parameter text is empty exactly when there are no parameters; otherwise it starts with `&` |
| `Binance.ParamsSnoc` | exchanges/binance.js:46-48 | appending a parameter appends `&key=enc(value)`: insertion order is kept |
| `Binance.ParamsAsJoin` | exchanges/binance.js:45-48 | a head field followed by the parameters is the `&`-join of the head and the `key=enc(value)` pieces |
| `Binance.AppendParams` | exchanges/binance.js:46-48 | the `for…in` loop appends `&key=enc(value)` for each parameter in insertion order: the result is the start text followed by `Params` of the whole query |
| `Binance.Binance.Fetch` | exchanges/binance.js:44-61 | the loop builds exactly `QueryString`. A signed call with no credentials throws. Otherwise the request is `httpHost + uri` plus `?qs` (only when `qs` is non-empty), with method GET. It carries the header `X-MBX-APIKEY = access` exactly when signed and no headers when unsigned. The result is the classification of the response |
| `Binance.QueryString` | exchanges/binance.js:45-51 | the query string is empty exactly when the call is unsigned and has no parameters. An unsigned one is exactly the parameter text; a signed one starts with `timestamp=<now>` |
| `Binance.FetchRequest` | exchanges/binance.js:44-55 | the request uses method GET. It carries headers exactly when signed, and then only `X-MBX-APIKEY = access`. Its URL starts with `httpHost + uri` and is exactly that when the call is unsigned and has no parameters |
| `Binance.RequestPath` | exchanges/binance.js:54 | the URL is `uri` alone for an empty query string, and `uri + '?' + qs` otherwise |
| `Binance.UnsignedPath` | exchanges/binance.js:45-48 | an unsigned URL is `uri` with no parameters, and `uri?&k1=v1&k2=v2…` with parameters (the leading `&` quirk) |
| `Binance.UnsignedQueryDecodes` | exchanges/binance.js:45-48 | splitting an unsigned query string on `&` gives an empty field, then exactly the `key=enc(value)` pieces in insertion order |
| `Binance.SignedQueryDecodes` | exchanges/binance.js:45-51 | a signed query string splits into `timestamp=<now>`, the pieces in order, and a last field `signature=hmac(secret, P)`, where `P` is exactly the `&`-join of all the fields before it |
| `Strings.ParseNatToString` | exchanges/binance.js:45 | the decimal text of the timestamp reads back as the timestamp |
| `Binance.Binance.RefreshSymbols` | exchanges/binance.js:25-35 | a failed fetch changes neither `updateTime` nor any entry. A successful one sets `updateTime = now` and the map to the old map merged with the listing, in listing order |
| `Binance.Merged` | exchanges/binance.js:31-34 | the merge keeps every old key. Every entry is either the old entry under that key, or a new one whose `symbol` is its own key and whose `time` is the refresh time |
| `Binance.MergedKeys` | exchanges/binance.js:31-34 | after a merge the keys are the old keys plus `base-quote` of every listed item, and nothing else |
| `Binance.MergedListed` | exchanges/binance.js:31-34 | a listed item not repeated later is stored as `{symbol: base-quote, exSymbol: symbol, time: updateTime}`: for duplicate keys the last item wins |
| `Binance.MergedUnlisted` | exchanges/binance.js:31-34 | a key absent from the listing keeps its old entry, or stays absent |
| `Binance.Binance.RefreshDepth` | exchanges/binance.js:36-43 | a failed fetch leaves the depth entry unchanged. A successful one sets `updateTime = now` and replaces both `asks` and `bids` with the fetched books. A pair with no entry throws. The map of entries itself never changes |
| `Binance.UnsignedPathOfTwo` | exchanges/binance.js:45-54 | an unsigned call with two parameters requests `uri?&k1=enc(v1)&k2=enc(v2)` |
| `Binance.DepthRequestPath` | exchanges/binance.js:37 | the depth request is `/api/v3/depth?&symbol=enc(base+quote)&limit=enc(depthLimit)` |
| `Strings.Upper` | exchanges/binance.js:63 | upper-casing keeps the length and maps each character on its own: `a`-`z` to `A`-`Z`, every other character unchanged |
| `Strings.Split` | exchanges/binance.js:63 | `split` on one character always gives at least one part, and no part contains the separator |
| `Strings.Join` | exchanges/binance.js:63 | joining no parts gives the empty string; joining one or more starts with the first part. It is the inverse `SplitJoin` and `JoinSplit` check `split` against |
| `Strings.SplitJoin` | exchanges/binance.js:63 | splitting a join of separator-free parts gives back those parts |
| `Strings.JoinSplit` | exchanges/binance.js:63 | joining the parts of a split gives back the string |
| `Strings.UpperKeepsNonLetter` | exchanges/binance.js:63 | upper-casing neither adds nor removes a `-` |
| `Binance.ToSymbol` | exchanges/binance.js:62-65 | the venue symbol never contains a `-` |
| `Binance.ToSymbolOfPair` | exchanges/binance.js:62-65 | `toSymbol('b-q')` is `upper(b) + upper(q)` for dash-free `b` and `q` |
| `Binance.ToSymbolMatchesDepthSymbol` | exchanges/binance.js:62-65 | for upper-case, dash-free assets, `toSymbol(base + '-' + quote)` is `base + quote`, the symbol the depth refresh sends |
| `Binance.ToSymbolWithoutDash` | exchanges/binance.js:62-65 | without a `-`, the missing second part is appended as the text `undefined` |
| `Binance.FreshInstanceInheritedQuery` | exchanges/basex.js:57-62 | on a new Binance instance the inherited `querySymbols` throws `'No implement function'` exactly when `now > 60000`. At `now == 60000` and before, it returns the empty directory |
| `Binance.Binance.QuerySymbols` | exchanges/binance.js:25-35 | corrected `querySymbols`. When stale it runs the symbol refresh, with that refresh's failure and merge outcomes; when fresh it changes nothing. In both cases it returns the directory record itself |
| `Binance.FreshInstanceRefreshingQuery` | exchanges/binance.js:25-35 | a new instance queried past the time-to-live through the corrected query holds exactly the merged listing, stamped `now` |

## Findings

| source | as written | input that shows it | evidently intended | confidence | as-written member | corrected member |
|---|---|---|---|---|---|---|
| exchanges/basex.js:59 | a stale `querySymbols` calls the abstract `__querySymbols`, which throws. `Binance` defines `__refreshSymbols` (exchanges/binance.js:25) and never overrides `__querySymbols` | `new Binance()` and then `querySymbols()` at `now = 60001` throws `'No implement function'` | a stale `querySymbols` runs the venue's `__refreshSymbols` and returns the refreshed directory (the skipped `querySymbols` test expects `BTC-USDT` among the symbols) | high; not executed | `Binance.FreshInstanceInheritedQuery` | `Binance.Binance.QuerySymbols` |

## Left out

- HTTP I/O (`node-fetch`, `response.text()`) and `JSON.parse` happen outside the model. They are the `transport` and `parse` parameters.
- The payload is assumed to have the shape the refreshes read (`symbols`, `asks`, `bids`). A payload without these fields would throw or store `undefined` in the source.
- The `AbortController` timer (`setTimeout`, `clearTimeout`) is left out. Its signal never reaches `fetch`, so it has no observable effect.
- `option.timeout` is not modelled as a field of `RequestOption`. `__fetch` passes the whole option object to `fetch`, and `node-fetch` applies its own `timeout` option, but no modelled caller sets one. A call that times out is the `Rejected` response, which gives `'Timeout'`.
- The `log`, `error` and `trace` console output is left out.
- The internals of `encodeURIComponent` and HMAC-SHA256 are left out. They are `Encoders` parameters. The decoding lemmas take as a hypothesis that encoded values, keys and the hex digest contain no `&`; `encodeURIComponent` escapes `&`.
- `Date.now()` is the `now` parameter. The source reads the clock separately in `#fetch` and in each refresh; the model passes one reading to both.
- Concurrency between awaited calls is left out: each modelled operation runs to completion without interleaving.
- `Strings.Upper`: only ASCII letters are upper-cased. JavaScript's full Unicode case mapping is not modelled.
- `for…in` enumerates integer-like keys first, in ascending order. The model keeps sequence order, which matches the source's non-numeric keys (`symbol`, `limit`).
- Query values are given in their string form. The only non-string value, `depthLimit`, is an optional integer; a missing one is the text `undefined`.
- A property given explicitly as `undefined` is treated as missing, so in the model it never overrides a default.
- `__fetch`'s default argument `option = {}` is left out: every caller passes an object.
- The depth entry's nested `depth: {asks, bids}` object is flattened into `DepthEntry`. The model does not capture aliasing of that inner object.
- `__depths` entries are created by code outside the modelled files: `queryDepth`, `subscribeDepth` and the streaming manager. Streaming, reconnection and event dispatch are not part of this model.
- Neither constructor in the modelled files initialises `__depths`. The model starts it as the empty map. With either, a depth refresh for a pair without an entry throws the same `TypeError` at exchanges/binance.js:39-40.
- The message of a thrown `TypeError` is abstracted to the constant `TypeError`.
