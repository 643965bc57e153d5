/**
 * One user's stored portfolio document: the stocks and mutual funds maps
 * the page handlers read, build views from, and overwrite one key at a time.
 */
module Portfolio {
  import opened Wrappers
  import opened Ticker
  import opened Quote
  import opened Holdings

  /** A call to the resolver inside a `try`: its record, or the message of the exception that escaped it. */
  method CallResolver(symbol: string, market: Market) returns (live: Result<QuoteResult, string>)
    ensures live == LiveQuote(symbol, market)
  {
    match market(BaseSymbol(symbol)) {
      case Answers(up) =>
        var info, _ := GetStockData(symbol, up);
        live := Ok(info);
      case Escapes(message) =>
        live := Err(message);
    }
  }

  /**
   * The checks of `add_stock` before anything is written: parse the
   * numbers, resolve the symbol field (or the ticker field), refuse a zero
   * price, and key the record by the ticker's base.
   */
  method DecideStock(ticker: Option<string>, symbol: Option<string>, quantity: Option<real>, purchasePrice: Option<real>,
                     market: Market) returns (outcome: Write<StockRecord>)
    ensures outcome == StockWrite(ticker, symbol, quantity, purchasePrice, market)
  {
    if quantity.None? || purchasePrice.None? {
      return Reject(InvalidNumber);
    }
    var stockTicker := if symbol.Some? && symbol.value != "" then symbol else ticker;
    assert stockTicker == StockTicker(ticker, symbol);
    if stockTicker.None? {
      return Reject(Raised(NoneHasNoStrip));
    }
    var live := CallResolver(stockTicker.value, market);
    if live.Err? {
      return Reject(Raised(live.error));
    }
    var info := live.value;
    assert StockWrite(ticker, symbol, quantity, purchasePrice, market) == StockWriteOnQuote(ticker, quantity, purchasePrice, info);
    if info.currentPrice == 0.0 {
      return Reject(StockNotFound(ticker));
    }
    if ticker.None? {
      return Reject(Raised(NoneHasNoStrip));
    }
    var record := StockRecord(Some(info.symbol), Some(info.name), quantity, purchasePrice, Some(info.exchange));
    outcome := Store(BaseSymbol(ticker.value), record);
  }

  class UserPortfolio {
    var stocks: map<string, StockRecord>
    var funds: map<string, FundRecord>

    constructor (stocks: map<string, StockRecord>, funds: map<string, FundRecord>)
      ensures this.stocks == stocks && this.funds == funds
    {
      this.stocks := stocks;
      this.funds := funds;
    }

    /**
     * The stock rows of the dashboard (`reportErrors` false) and of the
     * stocks page (`reportErrors` true): the stored map is walked key by key
     * and each key's row is filled in on its own.
     */
    method StockViews(market: Market, reportErrors: bool) returns (views: map<string, StockView>)
      ensures views.Keys == stocks.Keys
      ensures forall ticker :: ticker in views ==> views[ticker] == StockViewOf(ticker, stocks[ticker], market, reportErrors)
    {
      views := map[];
      var pending := stocks.Keys;
      while pending != {}
        invariant pending <= stocks.Keys
        invariant views.Keys == stocks.Keys - pending
        invariant forall ticker :: ticker in views ==> views[ticker] == StockViewOf(ticker, stocks[ticker], market, reportErrors)
        decreases pending
      {
        var ticker :| ticker in pending;
        var details := stocks[ticker];
        var live := CallResolver(details.symbol.GetOr(ticker), market);
        var view := MergeStock(ticker, details, live, reportErrors);
        assert view == StockViewOf(ticker, stocks[ticker], market, reportErrors);
        views := views[ticker := view];
        pending := pending - {ticker};
      }
    }

    /** The funds page: each stored scheme code is looked up on its own. */
    method FundViews(api: FundApi) returns (views: map<string, FundView>)
      ensures views.Keys == funds.Keys
      ensures forall code :: code in views ==> views[code] == FundViewOf(code, funds[code], api(code))
    {
      views := map[];
      var pending := funds.Keys;
      while pending != {}
        invariant pending <= funds.Keys
        invariant views.Keys == funds.Keys - pending
        invariant forall code :: code in views ==> views[code] == FundViewOf(code, funds[code], api(code))
        decreases pending
      {
        var code :| code in pending;
        views := views[code := FundViewOf(code, funds[code], api(code))];
        pending := pending - {code};
      }
    }

    /**
     * `add_stock`: take the decision, then overwrite the entry under the
     * ticker's base when it says so. Nothing else in the document changes.
     */
    method AddStock(ticker: Option<string>, symbol: Option<string>, quantity: Option<real>, purchasePrice: Option<real>,
                    market: Market) returns (outcome: Write<StockRecord>)
      modifies this
      ensures outcome == StockWrite(ticker, symbol, quantity, purchasePrice, market)
      ensures stocks == Apply(old(stocks), outcome)
      ensures funds == old(funds)
    {
      outcome := DecideStock(ticker, symbol, quantity, purchasePrice, market);
      if outcome.Store? {
        stocks := stocks[outcome.key := outcome.record];
      }
    }

    /**
     * `add_mutual_fund`: parse the numbers, look the scheme up, and only on
     * a 200 reply overwrite the entry under the scheme code.
     */
    method AddMutualFund(code: string, units: Option<real>, purchaseNav: Option<real>, reply: FundReply)
      returns (outcome: Write<FundRecord>)
      modifies this
      ensures outcome == FundWrite(code, units, purchaseNav, reply)
      ensures funds == Apply(old(funds), outcome)
      ensures stocks == old(stocks)
    {
      if units.None? || purchaseNav.None? {
        return Reject(InvalidNumber);
      }
      match reply {
        case FundRaised(message) =>
          outcome := Reject(Raised(message));
        case FundReply(status, body) =>
          if status != 200 {
            outcome := Reject(SchemeNotFound(code));
          } else if body.None? {
            outcome := Reject(FundReplyNotJson);
          } else {
            var name := SchemeName(body.value, code);
            if name.None? {
              outcome := Reject(Raised(NoneHasNoGet));
            } else {
              var record := FundRecord(name, units, purchaseNav);
              funds := funds[code := record];
              outcome := Store(code, record);
            }
          }
      }
    }
  }
}
