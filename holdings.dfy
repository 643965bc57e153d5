/**
 * Holdings and their views: the records stored per user, the per-field
 * merge of a stored record with a live quote or NAV, and the decision each
 * "add" form makes about what to write and under which key.
 */
module Holdings {
  import opened Wrappers
  import opened Ticker
  import opened Quote

  // ---------------------------------------------------------------------
  // Live data as seen from the portfolio pages
  // ---------------------------------------------------------------------

  /**
   * What happens when the resolver is called on a symbol with a given base:
   * it answers from these upstream sources, or an exception escapes it (the
   * resolver catches every upstream failure itself; what escapes comes from
   * outside its handlers, such as a stored symbol that is not text).
   */
  datatype Lookup = Answers(upstream: Upstream) | Escapes(message: string)

  /** The live market, by base ticker. */
  type Market = string -> Lookup

  /** Calling the resolver on `symbol`: its record, or the message of the exception that escaped. */
  function LiveQuote(symbol: string, market: Market): (live: Result<QuoteResult, string>)
    ensures live.Err? <==> market(BaseSymbol(symbol)).Escapes?
    ensures live.Err? ==> live.error == market(BaseSymbol(symbol)).message
    ensures live.Ok? ==> live.value == Resolve(symbol, market(BaseSymbol(symbol)).upstream).quote
  {
    match market(BaseSymbol(symbol))
    case Answers(up) => Ok(Resolve(symbol, up).quote)
    case Escapes(message) => Err(message)
  }

  // ---------------------------------------------------------------------
  // Stocks
  // ---------------------------------------------------------------------

  /** A stored stock holding; any field may be absent from the stored document. */
  datatype StockRecord = StockRecord(
    symbol: Option<string>, name: Option<string>, quantity: Option<real>,
    purchasePrice: Option<real>, exchange: Option<Exchange>)

  /** One row of the stocks page; `error` is only ever set on the stocks page, never on the dashboard. */
  datatype StockView = StockView(
    name: string, currentPrice: real, quantity: real, purchasePrice: real,
    exchange: Exchange, symbol: string, error: Option<string>)

  /** The symbol the resolver is called with: the stored symbol, else the key. */
  function SymbolToUse(ticker: string, details: StockRecord): string {
    details.symbol.GetOr(ticker)
  }

  /**
   * The view of one stored stock, given what resolving it gave. The
   * per-field rule: quantity and purchase price only from the stored record
   * (0 when absent), the current price only from the resolver (0 when it
   * raised), name and exchange from the stored record when present, and the
   * symbol stored-or-key.
   */
  function MergeStock(ticker: string, details: StockRecord, live: Result<QuoteResult, string>, reportErrors: bool): (v: StockView)
    ensures v.quantity == details.quantity.GetOr(0.0) && v.purchasePrice == details.purchasePrice.GetOr(0.0)
    ensures v.currentPrice == if live.Ok? then live.value.currentPrice else 0.0
    ensures v.symbol == details.symbol.GetOr(ticker)
    ensures v.name == details.name.GetOr(if live.Ok? then live.value.name else ticker)
    ensures v.exchange == details.exchange.GetOr(if live.Ok? then live.value.exchange else Unknown)
    ensures v.error.Some? <==> live.Err? && reportErrors
  {
    match live
    case Ok(info) =>
      var symbolToUse := SymbolToUse(ticker, details);
      StockView(details.name.GetOr(info.name), info.currentPrice, details.quantity.GetOr(0.0),
                details.purchasePrice.GetOr(0.0), details.exchange.GetOr(info.exchange),
                details.symbol.GetOr(symbolToUse), None)
    case Err(message) =>
      StockView(details.name.GetOr(ticker), 0.0, details.quantity.GetOr(0.0),
                details.purchasePrice.GetOr(0.0), details.exchange.GetOr(Unknown),
                details.symbol.GetOr(ticker), if reportErrors then Some(message) else None)
  }

  /** The view of the stock stored under `ticker`, resolved against `market`. */
  function StockViewOf(ticker: string, details: StockRecord, market: Market, reportErrors: bool): (v: StockView)
    // the row is looked up under the stored symbol, or under the key when none is stored
    ensures v.symbol == SymbolToUse(ticker, details)
    ensures v.error.Some? <==> reportErrors && market(BaseSymbol(SymbolToUse(ticker, details))).Escapes?
    ensures market(BaseSymbol(SymbolToUse(ticker, details))).Answers? ==>
      v.currentPrice == Resolve(SymbolToUse(ticker, details), market(BaseSymbol(SymbolToUse(ticker, details))).upstream).quote.currentPrice
  {
    MergeStock(ticker, details, LiveQuote(SymbolToUse(ticker, details), market), reportErrors)
  }

  /** The whole stocks view: one entry per stored key, each resolved on its own. */
  function ReconcileStocks(stored: map<string, StockRecord>, market: Market, reportErrors: bool): (views: map<string, StockView>)
    ensures views.Keys == stored.Keys
  {
    map ticker | ticker in stored :: StockViewOf(ticker, stored[ticker], market, reportErrors)
  }

  /**
   * Quantity and purchase price never depend on the market, and the price
   * never depends on the stored name, quantity, purchase price or exchange.
   */
  lemma StoredAndLiveFieldsAreSeparate(ticker: string, details: StockRecord, m1: Market, m2: Market, reportErrors: bool,
                                      other: StockRecord)
    requires other.symbol == details.symbol
    ensures StockViewOf(ticker, details, m1, reportErrors).quantity == StockViewOf(ticker, details, m2, reportErrors).quantity
    ensures StockViewOf(ticker, details, m1, reportErrors).purchasePrice == StockViewOf(ticker, details, m2, reportErrors).purchasePrice
    ensures StockViewOf(ticker, details, m1, reportErrors).currentPrice == StockViewOf(ticker, other, m1, reportErrors).currentPrice
  {
  }

  /**
   * Isolation: the entry for one key depends only on that key's stored
   * record and on what the market answers for its symbol, so a failure for
   * any other key cannot change it.
   */
  lemma StockViewsAreIsolated(s1: map<string, StockRecord>, s2: map<string, StockRecord>, m1: Market, m2: Market,
                              reportErrors: bool, ticker: string)
    requires ticker in s1 && ticker in s2 && s1[ticker] == s2[ticker]
    requires m1(BaseSymbol(SymbolToUse(ticker, s1[ticker]))) == m2(BaseSymbol(SymbolToUse(ticker, s1[ticker])))
    ensures ReconcileStocks(s1, m1, reportErrors)[ticker] == ReconcileStocks(s2, m2, reportErrors)[ticker]
  {
  }

  /**
   * A key whose resolution raised still has an entry: price 0, the stored
   * fields, and on the stocks page the error message.
   */
  lemma FailedKeyDegrades(stored: map<string, StockRecord>, market: Market, ticker: string)
    requires ticker in stored
    requires market(BaseSymbol(SymbolToUse(ticker, stored[ticker]))).Escapes?
    ensures var v := ReconcileStocks(stored, market, true)[ticker];
      && v.currentPrice == 0.0
      && v.error == Some(market(BaseSymbol(SymbolToUse(ticker, stored[ticker]))).message)
      && v.name == stored[ticker].name.GetOr(ticker)
      && v.symbol == stored[ticker].symbol.GetOr(ticker)
      && v.quantity == stored[ticker].quantity.GetOr(0.0)
      && v.purchasePrice == stored[ticker].purchasePrice.GetOr(0.0)
      && v.exchange == stored[ticker].exchange.GetOr(Unknown)
  {
  }

  // ---------------------------------------------------------------------
  // Mutual funds
  // ---------------------------------------------------------------------

  /** A stored fund holding. */
  datatype FundRecord = FundRecord(name: Option<string>, units: Option<real>, purchaseNav: Option<real>)

  /** A key of a JSON object: absent, present with `null`, or present with a value. */
  datatype Entry<+T> = Absent | Null | Present(value: T)

  datatype NavPoint = NavPoint(nav: Field)
  datatype FundMeta = FundMeta(schemeName: Option<string>)

  /** The fund payload: its `meta` object and its `data` list (newest first). */
  datatype FundBody = FundBody(meta: Entry<FundMeta>, data: Entry<seq<NavPoint>>)

  /** The fund lookup: it raised, or a status and a body (None when the body is not JSON). */
  datatype FundReply = FundRaised(message: string) | FundReply(status: int, body: Option<FundBody>)

  /** The fund service, by scheme code. */
  type FundApi = string -> FundReply

  /** Why a fund row could not be priced. */
  datatype FundFault =
    | RequestFailed(message: string)
    | ReplyNotJson
    | MetaIsNull    // `.get` on a null `meta`
    | DataIsNull    // `[0]` on a null `data`
    | NoNavPoints   // `[0]` on an empty `data`
    | NavNotNumeric

  /** One row of the funds page: priced from the reply, or the stored record passed through unchanged. */
  datatype FundView =
    | FundLive(name: string, currentNav: real, units: real, purchaseNav: real, error: Option<FundFault>)
    | FundAsStored(record: FundRecord)

  function DefaultFundName(code: string): string {
    "Fund " + code
  }

  /**
   * `meta.scheme_name`, else "Fund <code>" when either key is absent; None
   * when `meta` is null, on which `.get` raises.
   */
  function SchemeName(body: FundBody, code: string): (name: Option<string>)
    ensures name.None? <==> body.meta.Null?
    ensures body.meta.Absent? || (body.meta.Present? && body.meta.value.schemeName.None?) ==>
      name == Some(DefaultFundName(code))
    ensures body.meta.Present? && body.meta.value.schemeName.Some? ==> name == body.meta.value.schemeName
  {
    match body.meta
    case Absent => Some(DefaultFundName(code))
    case Null => None
    case Present(meta) => Some(meta.schemeName.GetOr(DefaultFundName(code)))
  }

  /**
   * The NAV of the newest data point. Without a `data` key the source reads
   * the default `[{}]`, whose only entry has no `nav`, so 0. A null or empty
   * list raises on `[0]`, and a NAV `float()` rejects raises too.
   */
  function LatestNav(body: FundBody): (r: Result<real, FundFault>)
    ensures body.data.Absent? ==> r == Ok(0.0)
    ensures body.data.Null? ==> r == Err(DataIsNull)
    ensures body.data == Present([]) ==> r == Err(NoNavPoints)
    ensures body.data.Present? && |body.data.value| > 0 ==>
      var nav := FloatOrZero(body.data.value[0].nav);
      && (r.Ok? <==> nav.Some?)
      && (r.Ok? ==> nav == Some(r.value))
      && (r.Err? ==> r.error == NavNotNumeric)
  {
    match body.data
    case Absent => Ok(0.0)
    case Null => Err(DataIsNull)
    case Present(points) =>
      if |points| == 0 then Err(NoNavPoints)
      else match FloatOrZero(points[0].nav)
        case None => Err(NavNotNumeric)
        case Some(nav) => Ok(nav)
  }

  /** The row shown when pricing a fund raised: the default name, NAV 0, the stored units. */
  function FailedFund(code: string, details: FundRecord, fault: FundFault): FundView {
    FundLive(DefaultFundName(code), 0.0, details.units.GetOr(0.0), details.purchaseNav.GetOr(0.0), Some(fault))
  }

  /** The view of the fund stored under `code`, given the fund service's reply. */
  function FundViewOf(code: string, details: FundRecord, reply: FundReply): (v: FundView)
    // any status other than 200 passes the stored record through verbatim
    ensures v.FundAsStored? <==> reply.FundReply? && reply.status != 200
    ensures v.FundAsStored? ==> v.record == details
    // units and purchase NAV only ever come from the stored record
    ensures v.FundLive? ==> v.units == details.units.GetOr(0.0) && v.purchaseNav == details.purchaseNav.GetOr(0.0)
    // a failure shows the default name and NAV 0
    ensures v.FundLive? && v.error.Some? ==> v.name == DefaultFundName(code) && v.currentNav == 0.0
    // a priced row takes its name and NAV from a 200 reply's body
    ensures v.FundLive? && v.error.None? ==>
      && reply.FundReply? && reply.status == 200 && reply.body.Some?
      && Some(v.name) == SchemeName(reply.body.value, code)
      && LatestNav(reply.body.value) == Ok(v.currentNav)
    // and a 200 reply whose name and NAV can be read always gives that priced row
    ensures (&& reply.FundReply? && reply.status == 200 && reply.body.Some?
             && SchemeName(reply.body.value, code).Some? && LatestNav(reply.body.value).Ok?)
            ==> v == FundLive(SchemeName(reply.body.value, code).value, LatestNav(reply.body.value).value,
                            details.units.GetOr(0.0), details.purchaseNav.GetOr(0.0), None)
    // the fault shown is the first step that raised
    ensures reply.FundRaised? ==> v == FailedFund(code, details, RequestFailed(reply.message))
    ensures reply.FundReply? && reply.status == 200 && reply.body.None? ==> v == FailedFund(code, details, ReplyNotJson)
    ensures reply.FundReply? && reply.status == 200 && reply.body.Some? && reply.body.value.meta.Null? ==>
      v == FailedFund(code, details, MetaIsNull)
    ensures (&& reply.FundReply? && reply.status == 200 && reply.body.Some?
             && SchemeName(reply.body.value, code).Some? && LatestNav(reply.body.value).Err?)
            ==> v == FailedFund(code, details, LatestNav(reply.body.value).error)
  {
    match reply
    case FundRaised(message) => FailedFund(code, details, RequestFailed(message))
    case FundReply(status, body) =>
      if status != 200 then FundAsStored(details)
      else match body
        case None => FailedFund(code, details, ReplyNotJson)
        case Some(b) =>
          match SchemeName(b, code)
          case None => FailedFund(code, details, MetaIsNull)
          case Some(name) =>
            match LatestNav(b)
            case Err(fault) => FailedFund(code, details, fault)
            case Ok(nav) => FundLive(name, nav, details.units.GetOr(0.0), details.purchaseNav.GetOr(0.0), None)
  }

  /** The whole funds view: one entry per stored scheme code, each looked up on its own. */
  function ReconcileFunds(stored: map<string, FundRecord>, api: FundApi): (views: map<string, FundView>)
    ensures views.Keys == stored.Keys
  {
    map code | code in stored :: FundViewOf(code, stored[code], api(code))
  }

  /** Only the newest data point matters: replies that differ in older points give the same row. */
  lemma NavTakesNewestPoint(code: string, details: FundRecord, meta: Entry<FundMeta>, newest: NavPoint,
                            older1: seq<NavPoint>, older2: seq<NavPoint>)
    ensures FundViewOf(code, details, FundReply(200, Some(FundBody(meta, Present([newest] + older1)))))
         == FundViewOf(code, details, FundReply(200, Some(FundBody(meta, Present([newest] + older2)))))
  {
    assert ([newest] + older1)[0] == newest == ([newest] + older2)[0];
  }

  /** Isolation for funds: a code's row depends only on its stored record and its own reply. */
  lemma FundViewsAreIsolated(s1: map<string, FundRecord>, s2: map<string, FundRecord>, a1: FundApi, a2: FundApi, code: string)
    requires code in s1 && code in s2 && s1[code] == s2[code] && a1(code) == a2(code)
    ensures ReconcileFunds(s1, a1)[code] == ReconcileFunds(s2, a2)[code]
  {
  }

  // ---------------------------------------------------------------------
  // The "add" forms
  // ---------------------------------------------------------------------

  /** The message Python gives when `.strip()` is called on a missing form field. */
  const NoneHasNoStrip: string := "'NoneType' object has no attribute 'strip'"
  const NoneHasNoGet: string := "'NoneType' object has no attribute 'get'"

  /** Why an "add" form wrote nothing. */
  datatype WriteError =
    | InvalidNumber                     // a quantity, price, units or NAV field `float()` rejects
    | StockNotFound(ticker: Option<string>)
    | SchemeNotFound(code: string)
    | FundReplyNotJson
    | Raised(message: string)

  /** What an "add" form decides: overwrite `key` with `record`, or write nothing. */
  datatype Write<R> = Store(key: string, record: R) | Reject(error: WriteError)

  /** The stored map after a decision: the one key replaced wholesale, or nothing changed. */
  function Apply<R>(stored: map<string, R>, w: Write<R>): (after: map<string, R>)
    ensures w.Reject? ==> after == stored
    ensures w.Store? ==> after.Keys == stored.Keys + {w.key} && after[w.key] == w.record
    ensures forall k :: k in stored && !(w.Store? && k == w.key) ==> k in after && after[k] == stored[k]
  {
    match w
    case Store(key, record) => stored[key := record]
    case Reject(_) => stored
  }

  /** The ticker `add_stock` resolves: the symbol field when non-empty, else the ticker field. */
  function StockTicker(ticker: Option<string>, symbol: Option<string>): (t: Option<string>)
    ensures t.None? <==> (symbol.None? || symbol.value == "") && ticker.None?
    ensures t.Some? ==> t == symbol || t == ticker
    ensures symbol.Some? && symbol.value != "" ==> t == symbol
    ensures symbol.None? || symbol.value == "" ==> t == ticker
  {
    if symbol.Some? && symbol.value != "" then symbol else ticker
  }

  /** What `add_stock` writes (its properties: `StockWriteDecision`). */
  function StockWrite(ticker: Option<string>, symbol: Option<string>, quantity: Option<real>, purchasePrice: Option<real>,
                      market: Market): (w: Write<StockRecord>)
    ensures w.Store? ==> quantity.Some? && purchasePrice.Some? && ticker.Some? && w.key == BaseSymbol(ticker.value)
  {
    if quantity.None? || purchasePrice.None? then Reject(InvalidNumber)
    else match StockTicker(ticker, symbol)
      case None => Reject(Raised(NoneHasNoStrip))
      case Some(stockTicker) =>
        match LiveQuote(stockTicker, market)
        case Err(message) => Reject(Raised(message))
        case Ok(info) => StockWriteOnQuote(ticker, quantity, purchasePrice, info)
  }

  /** The rest of `add_stock` once the resolver has answered with `info`. */
  function StockWriteOnQuote(ticker: Option<string>, quantity: Option<real>, purchasePrice: Option<real>,
                             info: QuoteResult): (w: Write<StockRecord>)
    ensures w.Store? <==> info.currentPrice != 0.0 && ticker.Some?
    ensures info.currentPrice == 0.0 ==> w == Reject(StockNotFound(ticker))
    ensures w.Store? ==> w.key == BaseSymbol(ticker.value) && w.record.symbol == Some(info.symbol)
  {
    if info.currentPrice == 0.0 then Reject(StockNotFound(ticker))
    else if ticker.None? then Reject(Raised(NoneHasNoStrip))
    else Store(BaseSymbol(ticker.value), StockRecord(Some(info.symbol), Some(info.name), quantity, purchasePrice, Some(info.exchange)))
  }

  /**
   * The decision `add_stock` takes. Unparsable numbers and a failed or
   * unresolved lookup write nothing; otherwise a complete record, with the
   * resolved name, exchange and symbol, goes under the base of the ticker
   * field (never of the symbol field), and that record names a real
   * exchange and the symbol qualified for it.
   */
  lemma StockWriteDecision(ticker: Option<string>, symbol: Option<string>, quantity: Option<real>, purchasePrice: Option<real>,
                           market: Market)
    ensures var w := StockWrite(ticker, symbol, quantity, purchasePrice, market);
      w.Store? ==>
      && ticker.Some? && w.key == BaseSymbol(ticker.value)
      && StockTicker(ticker, symbol).Some?
      && var live := LiveQuote(StockTicker(ticker, symbol).value, market);
      && live.Ok? && live.value.currentPrice != 0.0
      && w.record == StockRecord(Some(live.value.symbol), Some(live.value.name), quantity, purchasePrice,
                                 Some(live.value.exchange))
    ensures var w := StockWrite(ticker, symbol, quantity, purchasePrice, market);
      w.Store? ==> quantity.Some? && purchasePrice.Some?
    // a stored record always names a real exchange and the symbol qualified for it
    ensures var w := StockWrite(ticker, symbol, quantity, purchasePrice, market);
      w.Store? ==>
      var ex := w.record.exchange.value;
      ex != Unknown && w.record.symbol == Some(Qualified(BaseSymbol(StockTicker(ticker, symbol).value), ex))
    // an unresolved ticker is reported by name, and nothing is written
    ensures var w := StockWrite(ticker, symbol, quantity, purchasePrice, market);
      (&& quantity.Some? && purchasePrice.Some? && StockTicker(ticker, symbol).Some?
       && LiveQuote(StockTicker(ticker, symbol).value, market).Ok?
       && LiveQuote(StockTicker(ticker, symbol).value, market).value.currentPrice == 0.0)
      ==> w == Reject(StockNotFound(ticker))
    ensures var w := StockWrite(ticker, symbol, quantity, purchasePrice, market);
      quantity.None? || purchasePrice.None? ==> w == Reject(InvalidNumber)
    // once the numbers parse and the resolver answers, the decision is the one on that quote
    ensures var w := StockWrite(ticker, symbol, quantity, purchasePrice, market);
      (&& quantity.Some? && purchasePrice.Some? && StockTicker(ticker, symbol).Some?
       && LiveQuote(StockTicker(ticker, symbol).value, market).Ok?)
      ==> w == StockWriteOnQuote(ticker, quantity, purchasePrice, LiveQuote(StockTicker(ticker, symbol).value, market).value)
    // so a parsed add with a ticker field and a non-zero resolved price writes
    ensures var w := StockWrite(ticker, symbol, quantity, purchasePrice, market);
      (&& quantity.Some? && purchasePrice.Some? && ticker.Some?
       && LiveQuote(StockTicker(ticker, symbol).value, market).Ok?
       && LiveQuote(StockTicker(ticker, symbol).value, market).value.currentPrice != 0.0)
      ==> w.Store?
  {
    var stockTicker := StockTicker(ticker, symbol);
    if stockTicker.Some? && market(BaseSymbol(stockTicker.value)).Answers? {
      ResolvePicksFirstTier(BaseSymbol(stockTicker.value), market(BaseSymbol(stockTicker.value)).upstream);
    }
  }

  /**
   * What `add_mutual_fund` writes: only after a 200 reply with a JSON body,
   * the scheme name (or "Fund <code>"), units and purchase NAV under the
   * scheme code. The NAV series is not looked at.
   */
  function FundWrite(code: string, units: Option<real>, purchaseNav: Option<real>, reply: FundReply): (w: Write<FundRecord>)
    ensures w.Store? <==>
      && units.Some? && purchaseNav.Some? && reply.FundReply? && reply.status == 200 && reply.body.Some?
      && SchemeName(reply.body.value, code).Some?
    ensures w.Store? ==> w.key == code && w.record == FundRecord(SchemeName(reply.body.value, code), units, purchaseNav)
    ensures units.Some? && purchaseNav.Some? && reply.FundReply? && reply.status != 200 ==> w == Reject(SchemeNotFound(code))
    // a null `meta` raises inside the handler and nothing is written
    ensures (&& units.Some? && purchaseNav.Some? && reply.FundReply? && reply.status == 200 && reply.body.Some?
             && reply.body.value.meta.Null?)
            ==> w == Reject(Raised(NoneHasNoGet))
  {
    if units.None? || purchaseNav.None? then Reject(InvalidNumber)
    else match reply
      case FundRaised(message) => Reject(Raised(message))
      case FundReply(status, body) =>
        if status != 200 then Reject(SchemeNotFound(code))
        else if body.None? then Reject(FundReplyNotJson)
        else match SchemeName(body.value, code)
          case None => Reject(Raised(NoneHasNoGet))
          case Some(name) => Store(code, FundRecord(Some(name), units, purchaseNav))
  }

  // ---------------------------------------------------------------------
  // Writes followed by reads
  // ---------------------------------------------------------------------

  /** Every stored stock names a real exchange (or none). */
  ghost predicate KnownExchanges(stored: map<string, StockRecord>) {
    forall k :: k in stored ==> stored[k].exchange != Some(Unknown)
  }

  /** `add_stock` keeps every stored exchange known. */
  lemma StockWriteKeepsExchangesKnown(stored: map<string, StockRecord>, ticker: Option<string>, symbol: Option<string>,
                                      quantity: Option<real>, purchasePrice: Option<real>, market: Market)
    requires KnownExchanges(stored)
    ensures KnownExchanges(Apply(stored, StockWrite(ticker, symbol, quantity, purchasePrice, market)))
  {
    StockWriteDecision(ticker, symbol, quantity, purchasePrice, market);
  }

  /**
   * Adding a stock and then viewing it: the row under the written key shows
   * the quantity and purchase price just entered and the resolved name,
   * exchange and symbol, whatever the market does later; and while the
   * market still answers as it did, the current price is the one that was
   * resolved when adding, which is not zero.
   */
  lemma {:induction false} AddedStockReadsBack(stored: map<string, StockRecord>, ticker: Option<string>, symbol: Option<string>,
                                              quantity: Option<real>, purchasePrice: Option<real>, market: Market,
                                              later: Market, reportErrors: bool)
    requires StockWrite(ticker, symbol, quantity, purchasePrice, market).Store?
    ensures var w := StockWrite(ticker, symbol, quantity, purchasePrice, market);
      var v := ReconcileStocks(Apply(stored, w), later, reportErrors)[w.key];
      && v.quantity == quantity.value && v.purchasePrice == purchasePrice.value
      && Some(v.name) == w.record.name && Some(v.exchange) == w.record.exchange && Some(v.symbol) == w.record.symbol
    ensures var w := StockWrite(ticker, symbol, quantity, purchasePrice, market);
      var base := BaseSymbol(StockTicker(ticker, symbol).value);
      var v := ReconcileStocks(Apply(stored, w), later, reportErrors)[w.key];
      later(base) == market(base) ==>
        v.currentPrice == LiveQuote(StockTicker(ticker, symbol).value, market).value.currentPrice
        && v.currentPrice != 0.0 && v.error.None?
  {
    var w := StockWrite(ticker, symbol, quantity, purchasePrice, market);
    StockWriteDecision(ticker, symbol, quantity, purchasePrice, market);
    var stockTicker := StockTicker(ticker, symbol).value;
    var base := BaseSymbol(stockTicker);
    var after := Apply(stored, w);
    assert after[w.key] == w.record;
    var up := market(base).upstream;
    var q := Resolve(stockTicker, up).quote;
    BaseSymbolIsNormalForm(stockTicker);
    QualifiedNormalisesToBase(base, if q.exchange == NSE then NseSuffix else BseSuffix);
    assert SymbolToUse(w.key, w.record) == q.symbol;
    assert BaseSymbol(q.symbol) == base;
    if later(base) == market(base) {
      ResolvedSymbolResolvesAgain(stockTicker, up);
    }
  }

  /**
   * Adding a fund and then viewing it: the row shows the units and purchase
   * NAV just entered; if the later lookup fails with a status other than 200
   * it is the written record itself.
   */
  lemma AddedFundReadsBack(stored: map<string, FundRecord>, code: string, units: Option<real>, purchaseNav: Option<real>,
                           reply: FundReply, api: FundApi)
    requires FundWrite(code, units, purchaseNav, reply).Store?
    ensures var w := FundWrite(code, units, purchaseNav, reply);
      var v := ReconcileFunds(Apply(stored, w), api)[code];
      && (v.FundLive? ==> v.units == units.value && v.purchaseNav == purchaseNav.value)
      && (v.FundAsStored? ==> v.record == w.record && v.record.units == units)
  {
  }
}
