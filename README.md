# Portfolio tracker: quote resolution and holding reconciliation

This project models the core of a small portfolio tracker for Indian
equities and mutual funds, and proves properties of it in Dafny 4.11.

The core has four parts:

- **Ticker normalisation** (`Ticker`). A raw ticker is trimmed as Python's `str.strip()` trims it and upper-cased. Then exactly one trailing `.NS` (National Stock Exchange) or `.BO` (Bombay Stock Exchange) is removed.
- **Quote resolution** (`Quote`). This is `get_stock_data`. It tries four tiers in a fixed order and stops at the first success:
  1. the NSE listing: the daily-history close, else the quote's `regularMarketPrice`, else its `previousClose`;
  2. the BSE listing, tried the same way;
  3. a direct chart request;
  4. a sentinel record.

  Each upstream answer is an input (`TickerFeed`, `DirectReply`), and each failure is a `...Raised` case. The resolver is a deterministic procedure. It returns its record and the list of upstream calls it made (`Call`), so "BSE is never consulted" can be stated. `Resolve` is the specification: it normalises the raw ticker and runs `ResolveBase`, the tier chain on the base symbol. `ResolvePicksFirstTier` and `ResolveCallsFollowTierOrder` state the tier order for any base. `TryExchange` is the step-by-step tier, proved equal to `ExchangeQuote` and `ExchangeCalls`; `GetStockData` is the step-by-step resolver, proved equal to `Resolve`.
- **Reconciliation** (`Holdings`, `Portfolio`). The stock and fund pages walk the stored holdings map and fill a view map one key at a time. `MergeStock` and `FundViewOf` give the per-field rule for one key. `UserPortfolio.StockViews` and `UserPortfolio.FundViews` are the loops, proved to produce exactly that rule at every stored key. The dashboard and the stocks page run the same stock loop. Only the stocks page records the error message, which is the `reportErrors` flag.
- **Write guards** (`Holdings.StockWrite`, `Holdings.FundWrite`). These decide whether the "add" forms write, and which record goes under which key. `Holdings.StockWriteOnQuote` is the stock decision once the resolver has answered; `Holdings.StockWriteDecision` states what the stock decision guarantees. `DecideStock` runs the stock checks step by step. `UserPortfolio.AddStock` and `UserPortfolio.AddMutualFund` perform the overwrite on the stored map and change nothing else.

The user's stored document is the class `UserPortfolio`, with its two maps as fields. The live market is a function from base ticker to `Lookup`, and the fund service is a function from scheme code to `FundReply`.

Behaviour of the code worth knowing (the model follows the code):

- A base symbol is not always suffix-free. Only one suffix is dropped, so `INFY.NS.NS` becomes `INFY.NS` (`Ticker.OnlyOneSuffixRemoved`).
- A typed `.NS` or `.BO` selects nothing: it is dropped from the key and from the lookup, and the resolver always tries NSE first, then BSE. Only a second suffix survives.
- The direct tier does not check that its price is positive. A zero or negative chart price comes back under `NSE` (`Quote.DirectPriceIsNotChecked`). So a price of 0 does not always mean `Unknown`; only the converse holds: `Unknown` implies the sentinel, priced 0.
- Stored `name` and `exchange` take precedence whenever they are present. This holds even when the resolver found a live quote.
- A fund reply whose status is not 200 passes the stored record through unchanged.
- A fund reply whose `data` list is empty or null, or whose `meta` is null, raises inside the handler. The row then shows the default name and NAV 0 with an error, and the add form writes nothing for a null `meta`.

## Model

| member | source | states |
|---|---|---|
| `Ticker.TrimStart` | app.py:39 | leading whitespace (Python's `isspace` set) is dropped, the rest is kept as a suffix of the input, and the result does not start with whitespace |
| `Ticker.TrimEnd` | app.py:39 | trailing whitespace is dropped, the rest is kept as a prefix, and the result does not end with whitespace |
| `Ticker.Strip` | app.py:39 | the result sits inside the input with only whitespace around it, and has none at either end |
| `Ticker.Upper` | app.py:39 | same length, each character upper-cased in place, no lower-case ASCII letter left |
| `Ticker.DropExchangeSuffix` | app.py:42-45 | a ticker ending in `.NS` or `.BO` loses exactly those three characters; any other ticker is returned unchanged |
| `Ticker.BaseSymbolIsNormalForm` | app.py:39-45 | every base ticker has no leading whitespace and no lower-case letter |
| `Ticker.BaseSymbol` | app.py:39-45 | the base ticker: the stripped, upper-cased ticker with one exchange suffix dropped; its properties are stated by `BaseSymbolIsNormalForm` and the suffix lemmas that follow |
| `Ticker.QualifiedNormalisesToBase` | app.py:39-48 | normalising `base + ".NS"` or `base + ".BO"` gives back `base` |
| `Ticker.OnlyOneSuffixRemoved` | app.py:42-45 | a base with two suffixes normalises to the base with its inner suffix, as `INFY.NS.NS` gives `INFY.NS` |
| `Ticker.LowerCaseSuffixRemoved` | app.py:352-354 | `" " + b + ".bo "` normalises to `b` upper-cased, so `" infy.bo "` is stored under `INFY` |
| `Quote.QuotePrice` | app.py:66-73 | the quote fallback uses `regularMarketPrice`; when that reads as 0 it takes `previousClose` if that converts and keeps 0 otherwise; it gives no price when the read or the first conversion raised |
| `Quote.DisplayName` | app.py:75-81 | the name is `shortName`, else `longName`, else the qualified symbol, and the symbol when the read raised |
| `Quote.ExchangeQuote` | app.py:54-90 | a tier succeeds only with a strictly positive price; a history close wins when present, and a close of 0 fails the tier; the record carries the tier's exchange, qualified symbol and display name |
| `Quote.ExchangeCalls` | app.py:57-81 | a tier calls only its own exchange; the quote read happens exactly when history gave no close |
| `Quote.TryExchange` | app.py:96-137 | the step-by-step tier, with `price` and `name` reassigned under their own handlers, returns the tier's record and calls |
| `Quote.DirectQuote` | app.py:143-167 | a 200 reply whose first result's meta has a convertible `regularMarketPrice` yields that price unchecked, under NSE, with `shortName` or the base as name |
| `Quote.Resolve` | app.py:37-175 | `get_stock_data` on a raw ticker is the tier chain on its base symbol; an `Unknown` record is priced 0 and comes only after the chart request; a BSE record is priced above 0 and no chart request is made |
| `Quote.ResolveBase` | app.py:47-175 | the tier chain on a base ticker; its tier order is stated by the two lemmas below |
| `Quote.ResolvePicksFirstTier` | app.py:47-175 | the record comes from the first tier that succeeds, NSE before BSE before the chart request; `Unknown` appears exactly when every tier failed, and then the record is the sentinel; any other record carries the symbol qualified for its exchange; a non-zero price never comes with `Unknown` |
| `Quote.ResolveCallsFollowTierOrder` | app.py:47-175 | a positive NSE price means only NSE is called; BSE is called only after NSE failed; the chart endpoint is called exactly when both failed; calls are made in tier order |
| `Quote.GetStockData` | app.py:37-175 | the step-by-step resolver returns exactly `Resolve`'s record and calls |
| `Quote.NameNeverBlocksPrice` | app.py:75-90 | the name read never decides success; a failed name read yields the qualified symbol as name |
| `Quote.ResolvedSymbolResolvesAgain` | app.py:213-219 | resolving a resolved record's symbol reproduces the same record and calls |
| `Quote.DirectPriceIsNotChecked` | app.py:150-165 | when both exchanges fail, a chart price of 0 or below is returned under NSE |
| `Holdings.LiveQuote` | app.py:214-219 | calling the resolver yields an error exactly when an exception escapes it, with that message, and otherwise the resolver's record |
| `Holdings.MergeStock` | app.py:213-238 | quantity and purchase price come only from the stored record (default 0); the current price comes only from the resolver (0 when it raised); name and exchange are stored-or-live; the symbol is stored-or-key; an error appears only on a failed key of the stocks page |
| `Holdings.StockViewOf` | app.py:214-238 | a stored key's row is looked up under its stored symbol or the key; it carries an error exactly when the lookup raised on the stocks page, and otherwise the resolver's price |
| `Holdings.ReconcileStocks` | app.py:212-238 | the stock view has exactly the stored keys |
| `Holdings.StoredAndLiveFieldsAreSeparate` | app.py:221-228 | quantity and purchase price do not depend on the market, and the price does not depend on the stored name, quantity, purchase price or exchange (only on the stored symbol, under which it is looked up) |
| `Holdings.StockViewsAreIsolated` | app.py:265-293 | a key's row depends only on its own record and on what the market answers for its symbol |
| `Holdings.FailedKeyDegrades` | app.py:282-293 | a key whose resolution raised keeps a row with price 0, its stored fields and the error message |
| `Holdings.SchemeName` | app.py:385 | `meta.scheme_name`, or `Fund <code>` when either key is absent; nothing when `meta` is null, on which `.get` raises |
| `Holdings.LatestNav` | app.py:386 | the NAV is that of `data[0]` (0 when it has no `nav`) exactly when it converts; no `data` key gives 0; a null or empty list raises |
| `Holdings.FundViewOf` | app.py:381-403 | status 200 with a readable name and NAV gives exactly the priced row; any other status passes the stored record through; each failure gives `Fund <code>` with NAV 0 and the first fault; units and purchase NAV always come from the stored record |
| `Holdings.ReconcileFunds` | app.py:379-403 | the fund view has exactly the stored codes |
| `Holdings.NavTakesNewestPoint` | app.py:386 | replies that differ only in older data points give the same row |
| `Holdings.FundViewsAreIsolated` | app.py:380-403 | a code's row depends only on its own record and its own reply |
| `Holdings.Apply` | app.py:356 | a write replaces one key wholesale and keeps every other key; a rejection changes nothing |
| `Holdings.StockTicker` | app.py:333 | the symbol field is used when it is non-empty; when it is missing or empty, the ticker field is used, so nothing comes back exactly when the ticker field is missing too |
| `Holdings.StockWrite` | app.py:327-356 | a write needs both numbers and the ticker field, and goes under the ticker field's base |
| `Holdings.StockWriteOnQuote` | app.py:338-354 | once the resolver answered, a write happens exactly for a non-zero price and a present ticker field; a zero price is reported by ticker; the record keeps the resolved symbol |
| `Holdings.StockWriteDecision` | app.py:327-356 | with parsed numbers and a ticker field, a write happens exactly when the resolver answers with a non-zero price, and once it answers the decision is `StockWriteOnQuote`'s; invalid numbers are reported first; it goes under the base of the ticker field, not the symbol field; it holds the resolved name, exchange and qualified symbol and the given numbers; a zero price is reported by ticker |
| `Holdings.FundWrite` | app.py:420-442 | a write happens exactly for parsed numbers and a 200 JSON reply whose `meta` is not null, under the scheme code; any other status is reported as an unknown scheme; a null `meta` raises and writes nothing |
| `Holdings.StockWriteKeepsExchangesKnown` | app.py:338-349 | adding a stock never stores the exchange `Unknown` |
| `Holdings.AddedStockReadsBack` | app.py:343-356 | after an add, the row under the written key shows the entered quantity and purchase price and the resolved name, exchange and symbol; under the same market it shows the same non-zero price |
| `Holdings.AddedFundReadsBack` | app.py:426-437 | after a fund add, the row shows the entered units and purchase NAV |
| `Portfolio.CallResolver` | app.py:214-219 | a call to the resolver under a handler yields the resolver's record, or the message of the exception that escaped it |
| `Portfolio.DecideStock` | app.py:331-354 | the step-by-step checks of `add_stock` reach exactly the decision `StockWrite` describes |
| `Portfolio.UserPortfolio.StockViews` | app.py:212-238 | the loop builds a row for exactly the stored keys, each equal to that key's merge |
| `Portfolio.UserPortfolio.FundViews` | app.py:379-403 | the loop builds a row for exactly the stored codes, each equal to that code's fund view |
| `Portfolio.UserPortfolio.AddStock` | app.py:327-356 | the stored stocks become the guarded overwrite `StockWrite` decides; funds are unchanged |
| `Portfolio.UserPortfolio.AddMutualFund` | app.py:420-442 | the stored funds become the guarded overwrite `FundWrite` decides; stocks are unchanged |

## Left out

- Flask routing, templates, redirects, flash messages and JSON responses, including the `get_stock_info` route. These are presentation. The flash text is modelled only as the `WriteError` case it reports.
- Firebase initialisation, sign-in, token checks and the database reads and writes. The stored document is the `UserPortfolio` object. A failed page read sends the user back to the login page (app.py:247-248, 296-298, 406-407); a failed write in the add forms (app.py:356, 437) is caught and reported as a message on the stocks or funds page (app.py:360-362, 443-445). Neither is modelled: `UserPortfolio.AddStock` and `UserPortfolio.AddMutualFund` assume the write succeeds.
- The time-series library, `requests.get` and the fund service are not modelled as network calls. Their answers are inputs, and their exceptions are `...Raised` cases.
- The calls trace records upstream calls only. Building the library's ticker object makes no call, so it is not recorded.
- Ticker.Upper: upper-cases ASCII letters only. Python's `str.upper()` also maps other Unicode letters, and some of those mappings change the length, so non-ASCII tickers are not modelled faithfully.
- Floating point is not modelled: prices are `real`, NaN and infinities are not represented, and form numbers are `Option<real>` (None when `float()` rejects them). A NaN history close, which is truthy but not positive, is outside the model.
- Holdings.LiveQuote: an exception escaping `get_stock_data` is an input (`Lookup.Escapes`). The model does not derive it from a stored value that is not text.
- A JSON key present with the value `null` is modelled for the fund reply's `meta` and `data` (`Entry.Null`). For name fields it is not: a null `shortName` or `longName` in the quote dictionary (app.py:78, 125), a null `shortName` in the chart meta (app.py:157-158) and a null `scheme_name` (app.py:385, 428) make the source's name `None`, while the model treats them as absent and falls back to the next name. Names are `string`, never `None`.
- Payloads of another JSON shape than the one the code expects (a list where an object is expected, a `data` entry that is not an object) are not modelled; they raise in the source and are outside the model's input types.
- The message of an exception (`str(e)`) is carried as given. Exceptions raised inside the fund view are tagged by kind (`FundFault`) rather than by Python's text.
- Python dictionaries keep insertion order, but Dafny maps have none. The views are compared by key.
- Logging (`print`, `traceback`), `load_dotenv` and the random secret key.
- The dashboard passes stored funds to its template unchanged. Only the funds page builds fund views.
