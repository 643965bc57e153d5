/**
 * The quote resolver, `get_stock_data`: try the National Stock Exchange
 * listing, then the Bombay Stock Exchange listing, then a direct chart
 * request, and fall back to a sentinel record. Every upstream call is an
 * input here: what the time-series library and the chart endpoint answered
 * (or that they raised) is given, and the resolver is the deterministic
 * procedure that decides what to return and which calls it makes.
 */
module Quote {
  import opened Wrappers
  import opened Ticker

  datatype Exchange = NSE | BSE | Unknown

  /** The record `get_stock_data` returns. */
  datatype QuoteResult = QuoteResult(name: string, currentPrice: real, exchange: Exchange, symbol: string)

  /** What is returned when every tier failed. */
  function Sentinel(base: string): QuoteResult {
    QuoteResult(base, 0.0, Unknown, base)
  }

  /** The exchange-qualified symbol for a base ticker. */
  function Qualified(base: string, ex: Exchange): string {
    match ex
    case NSE => base + NseSuffix
    case BSE => base + BseSuffix
    case Unknown => base
  }

  // ---------------------------------------------------------------------
  // What the upstream sources answer
  // ---------------------------------------------------------------------

  /** A numeric field of an upstream payload: absent, a number, or something `float()` rejects. */
  datatype Field = Missing | Number(value: real) | Unconvertible

  /** The daily-history query: it raised, came back without a close, or gave the last close. */
  datatype History = HistoryRaised | HistoryEmpty | HistoryClose(close: real)

  /** One read of the library's quote dictionary (`stock.info`): it raised, or these fields. */
  datatype Info =
    | InfoRaised
    | InfoFields(regularMarketPrice: Field, previousClose: Field, shortName: Option<string>, longName: Option<string>)

  /**
   * Everything one exchange tier can observe. Building the library's ticker
   * object can raise; otherwise there is the history query and two separate
   * reads of `stock.info`, one for the price and one for the name.
   */
  datatype TickerFeed = TickerRaised | TickerFeed(history: History, quoteInfo: Info, nameInfo: Info)

  /** The `meta` object of the first chart result. */
  datatype ChartMeta = ChartMeta(regularMarketPrice: Field, shortName: Option<string>)

  /**
   * The chart payload: not JSON at all, or the list under `chart.result`
   * (None when either key is absent or null); each entry holds its `meta`
   * object or lacks one.
   */
  datatype ChartBody = Unparsable | ChartBody(results: Option<seq<Option<ChartMeta>>>)

  /** The direct chart request: it raised, or a status and a body. */
  datatype DirectReply = DirectRaised | DirectReply(status: int, body: ChartBody)

  /** What all the upstream sources answer for one base ticker. */
  datatype Upstream = Upstream(nse: TickerFeed, bse: TickerFeed, direct: DirectReply)

  /** An upstream call the resolver makes, in the order it makes them. */
  datatype Call = HistoryCall(ex: Exchange) | QuoteInfoCall(ex: Exchange) | NameInfoCall(ex: Exchange) | ChartCall

  predicate TouchesExchange(c: Call, ex: Exchange) {
    !c.ChartCall? && c.ex == ex
  }

  /** Position of a call in the chain: NSE calls, then BSE calls, then the chart request. */
  function Stage(c: Call): nat {
    if c.ChartCall? then 2 else if c.ex == BSE then 1 else 0
  }

  predicate Consulted(calls: seq<Call>, ex: Exchange) {
    exists i :: 0 <= i < |calls| && TouchesExchange(calls[i], ex)
  }

  // ---------------------------------------------------------------------
  // One exchange tier
  // ---------------------------------------------------------------------

  /** `float(d.get(key, 0))`: a missing key reads as 0; None when `float()` raises. */
  function FloatOrZero(f: Field): Option<real> {
    match f
    case Missing => Some(0.0)
    case Number(v) => Some(v)
    case Unconvertible => None
  }

  /**
   * The price the quote fallback leaves behind: `regularMarketPrice`, or
   * `previousClose` when that reads as zero; None when the read or the first
   * conversion raised. A failed second conversion leaves the zero in place.
   */
  function QuotePrice(info: Info): (p: Option<real>)
    ensures p.None? <==> info.InfoRaised? || FloatOrZero(info.regularMarketPrice).None?
    ensures p.Some? ==>
      || FloatOrZero(info.regularMarketPrice) == p
      || (FloatOrZero(info.regularMarketPrice) == Some(0.0) && FloatOrZero(info.previousClose) == p)
    ensures p.Some? && FloatOrZero(info.regularMarketPrice).value != 0.0 ==> p == FloatOrZero(info.regularMarketPrice)
    // a zero `regularMarketPrice` gives way to `previousClose` when that converts, and stays 0 when it raises
    ensures info.InfoFields? && FloatOrZero(info.regularMarketPrice) == Some(0.0) ==>
      p == if FloatOrZero(info.previousClose).Some? then FloatOrZero(info.previousClose) else Some(0.0)
  {
    match info
    case InfoRaised => None
    case InfoFields(rmp, pc, _, _) =>
      match FloatOrZero(rmp)
      case None => None
      case Some(v) =>
        if v != 0.0 then Some(v)
        else if FloatOrZero(pc).Some? then FloatOrZero(pc)
        else Some(0.0)
  }

  /** `price` after both methods: the history close when there is one, else the quote fallback. */
  function TierPrice(history: History, quoteInfo: Info): Option<real> {
    if history.HistoryClose? then Some(history.close) else QuotePrice(quoteInfo)
  }

  /** `shortName`, else `longName`, else the qualified symbol; the symbol too when the read raised. */
  function DisplayName(info: Info, symbol: string): (name: string)
    ensures info.InfoFields? && info.shortName.Some? ==> name == info.shortName.value
    ensures info.InfoFields? && info.shortName.None? && info.longName.Some? ==> name == info.longName.value
    ensures info.InfoRaised? || (info.shortName.None? && info.longName.None?) ==> name == symbol
  {
    match info
    case InfoRaised => symbol
    case InfoFields(_, _, short, long) => short.GetOr(long.GetOr(symbol))
  }

  /** The record one exchange tier returns, or None when the chain moves on. */
  function ExchangeQuote(feed: TickerFeed, symbol: string, ex: Exchange): (r: Option<QuoteResult>)
    ensures r.Some? ==> r.value.currentPrice > 0.0 && r.value.exchange == ex && r.value.symbol == symbol
    ensures r.Some? ==> feed.TickerFeed? && r.value.name == DisplayName(feed.nameInfo, symbol)
    // the history close wins when there is one, and a close of zero fails the tier
    ensures feed.TickerFeed? && feed.history.HistoryClose? ==>
      (r.Some? <==> feed.history.close > 0.0) && (r.Some? ==> r.value.currentPrice == feed.history.close)
    // otherwise the quote fallback decides
    ensures feed.TickerFeed? && !feed.history.HistoryClose? ==>
      var q := QuotePrice(feed.quoteInfo);
      (r.Some? <==> q.Some? && q.value > 0.0) && (r.Some? ==> r.value.currentPrice == q.value)
  {
    match feed
    case TickerRaised => None
    case TickerFeed(history, quoteInfo, nameInfo) =>
      var price := TierPrice(history, quoteInfo);
      if price.Some? && price.value > 0.0 then Some(QuoteResult(DisplayName(nameInfo, symbol), price.value, ex, symbol))
      else None
  }

  /** The upstream calls one exchange tier makes. */
  function ExchangeCalls(feed: TickerFeed, ex: Exchange): (calls: seq<Call>)
    ensures forall c :: c in calls ==> TouchesExchange(c, ex)
    ensures QuoteInfoCall(ex) in calls <==> feed.TickerFeed? && !feed.history.HistoryClose?
  {
    match feed
    case TickerRaised => []
    case TickerFeed(history, _, _) =>
      [HistoryCall(ex)] + (if history.HistoryClose? then [] else [QuoteInfoCall(ex)]) + [NameInfoCall(ex)]
  }

  /**
   * One exchange tier as the source runs it: `price` and `name` start unset
   * and are reassigned step by step, each step guarded by its own handler.
   */
  method TryExchange(feed: TickerFeed, symbol: string, ex: Exchange) returns (found: Option<QuoteResult>, calls: seq<Call>)
    ensures found == ExchangeQuote(feed, symbol, ex)
    ensures calls == ExchangeCalls(feed, ex)
  {
    calls := [];
    if feed.TickerRaised? {
      return None, calls;
    }
    var price: Option<real> := None;
    var name: string;
    // method 1: the latest daily close
    calls := calls + [HistoryCall(ex)];
    if feed.history.HistoryClose? {
      price := Some(feed.history.close);
    }
    // method 2: the quote dictionary, only when history left no price
    if price.None? {
      calls := calls + [QuoteInfoCall(ex)];
      if feed.quoteInfo.InfoFields? {
        var first := FloatOrZero(feed.quoteInfo.regularMarketPrice);
        if first.Some? {
          price := first;
          if first.value == 0.0 {
            var second := FloatOrZero(feed.quoteInfo.previousClose);
            if second.Some? {
              price := second;
            }
          }
        }
      }
    }
    // the company name, read separately
    calls := calls + [NameInfoCall(ex)];
    name := DisplayName(feed.nameInfo, symbol);
    if price.Some? && price.value > 0.0 {
      found := Some(QuoteResult(name, price.value, ex, symbol));
    } else {
      found := None;
    }
  }

  // ---------------------------------------------------------------------
  // The direct chart request
  // ---------------------------------------------------------------------

  /** The `meta` of the first chart result, when the reply is a 200 whose payload has one. */
  function ChartMetaOf(reply: DirectReply): Option<ChartMeta> {
    if reply.DirectReply? && reply.status == 200 && reply.body.ChartBody?
      && reply.body.results.Some? && |reply.body.results.value| > 0
    then reply.body.results.value[0]
    else None
  }

  /**
   * The direct tier: a 200 reply whose first result's meta carries a
   * convertible `regularMarketPrice` gives an NSE record with that price,
   * positive or not; everything else (including a price `float()` rejects,
   * whose exception is caught) moves on to the sentinel.
   */
  function DirectQuote(reply: DirectReply, base: string): (r: Option<QuoteResult>)
    ensures r.Some? <==> ChartMetaOf(reply).Some? && ChartMetaOf(reply).value.regularMarketPrice.Number?
    ensures r.Some? ==>
      var meta := ChartMetaOf(reply).value;
      && r.value.currentPrice == meta.regularMarketPrice.value
      && r.value.exchange == NSE && r.value.symbol == base + NseSuffix
      && r.value.name == meta.shortName.GetOr(base)
  {
    match ChartMetaOf(reply)
    case None => None
    case Some(meta) =>
      match meta.regularMarketPrice
      case Number(price) => Some(QuoteResult(meta.shortName.GetOr(base), price, NSE, base + NseSuffix))
      case _ => None
  }

  // ---------------------------------------------------------------------
  // The whole chain
  // ---------------------------------------------------------------------

  datatype Resolution = Resolution(quote: QuoteResult, calls: seq<Call>)

  /**
   * `get_stock_data(raw)`: the record it returns and the upstream calls it
   * makes. The exchange tiers only ever return a positive price, and the
   * sentinel, priced 0, comes only after the chart request was made.
   */
  function Resolve(raw: string, up: Upstream): (r: Resolution)
    ensures r.quote.exchange == Unknown ==> r.quote.currentPrice == 0.0 && ChartCall in r.calls
    ensures r.quote.exchange == BSE ==> r.quote.currentPrice > 0.0 && ChartCall !in r.calls
  {
    ResolvePicksFirstTier(BaseSymbol(raw), up);
    ResolveCallsFollowTierOrder(BaseSymbol(raw), up);
    ResolveBase(BaseSymbol(raw), up)
  }

  /** The tier chain once the raw ticker has been normalised to `base`. */
  function ResolveBase(base: string, up: Upstream): Resolution {
    match ExchangeQuote(up.nse, base + NseSuffix, NSE)
    case Some(q) => Resolution(q, ExchangeCalls(up.nse, NSE))
    case None =>
      match ExchangeQuote(up.bse, base + BseSuffix, BSE)
      case Some(q) => Resolution(q, ExchangeCalls(up.nse, NSE) + ExchangeCalls(up.bse, BSE))
      case None =>
        var calls := ExchangeCalls(up.nse, NSE) + ExchangeCalls(up.bse, BSE) + [ChartCall];
        match DirectQuote(up.direct, base)
        case Some(q) => Resolution(q, calls)
        case None => Resolution(Sentinel(base), calls)
  }

  /**
   * The record comes from the first tier that succeeds: NSE, then BSE, then
   * the chart endpoint. 'Unknown' appears exactly when every tier failed,
   * and then the record is the sentinel; any other record carries the
   * symbol qualified for its exchange.
   */
  lemma ResolvePicksFirstTier(base: string, up: Upstream)
    ensures var r := ResolveBase(base, up).quote;
      var nse := ExchangeQuote(up.nse, base + NseSuffix, NSE);
      var bse := ExchangeQuote(up.bse, base + BseSuffix, BSE);
      var direct := DirectQuote(up.direct, base);
      && (nse.Some? ==> r == nse.value && r.exchange == NSE && r.symbol == base + NseSuffix)
      && (nse.None? && bse.Some? ==> r == bse.value && r.exchange == BSE && r.symbol == base + BseSuffix)
      && (nse.None? && bse.None? && direct.Some? ==> r == direct.value)
      && (r.exchange == Unknown <==> nse.None? && bse.None? && direct.None?)
      && (r.exchange == Unknown ==> r == Sentinel(base))
      && (r.exchange != Unknown ==> r.symbol == Qualified(base, r.exchange))
      && (r.currentPrice != 0.0 ==> r.exchange != Unknown)
  {
  }

  /**
   * The calls: when NSE yields a positive price only NSE is called; BSE is
   * consulted only after NSE failed; the chart endpoint exactly when both
   * failed; and every NSE call precedes every BSE call, which precedes the
   * chart request.
   */
  lemma ResolveCallsFollowTierOrder(base: string, up: Upstream)
    ensures var r := ResolveBase(base, up);
      var nse := ExchangeQuote(up.nse, base + NseSuffix, NSE);
      var bse := ExchangeQuote(up.bse, base + BseSuffix, BSE);
      && (nse.Some? ==> forall c :: c in r.calls ==> TouchesExchange(c, NSE))
      && (Consulted(r.calls, BSE) ==> nse.None?)
      && (ChartCall in r.calls <==> nse.None? && bse.None?)
    ensures var calls := ResolveBase(base, up).calls;
      forall i, j :: 0 <= i < j < |calls| ==> Stage(calls[i]) <= Stage(calls[j])
  {
    var nseCalls := ExchangeCalls(up.nse, NSE);
    var bseCalls := ExchangeCalls(up.bse, BSE);
    if ExchangeQuote(up.nse, base + NseSuffix, NSE).Some? {
      assert forall i :: 0 <= i < |nseCalls| ==> nseCalls[i] in nseCalls;
    } else {
      OrderedConcat(nseCalls, bseCalls, 0, 1);
      if ExchangeQuote(up.bse, base + BseSuffix, BSE).None? {
        OrderedConcat(nseCalls + bseCalls, [ChartCall], 1, 2);
      }
    }
  }

  /** Two call lists in stage order, the first no later than the second, stay in order when joined. */
  lemma OrderedConcat(a: seq<Call>, b: seq<Call>, sa: nat, sb: nat)
    requires sa <= sb
    requires forall c :: c in a ==> Stage(c) <= sa
    requires forall c :: c in b ==> sa <= Stage(c) <= sb
    requires forall i, j :: 0 <= i < j < |a| ==> Stage(a[i]) <= Stage(a[j])
    requires forall i, j :: 0 <= i < j < |b| ==> Stage(b[i]) <= Stage(b[j])
    ensures forall c :: c in a + b ==> Stage(c) <= sb
    ensures forall i, j :: 0 <= i < j < |a + b| ==> Stage((a + b)[i]) <= Stage((a + b)[j])
  {
    forall i, j | 0 <= i < j < |a + b| ensures Stage((a + b)[i]) <= Stage((a + b)[j]) {
      if j < |a| {
      } else if i >= |a| {
        assert (a + b)[i] == b[i - |a|] && (a + b)[j] == b[j - |a|];
      } else {
        assert (a + b)[i] in a && (a + b)[j] in b;
      }
    }
  }

  /**
   * `get_stock_data` as the source runs it: build the qualified symbols, try
   * each exchange, return at the first positive price, then try the chart
   * endpoint, then fall back to the sentinel.
   */
  method GetStockData(ticker: string, up: Upstream) returns (quote: QuoteResult, calls: seq<Call>)
    ensures Resolution(quote, calls) == Resolve(ticker, up)
  {
    var base := BaseSymbol(ticker);
    var nseTicker := base + NseSuffix;
    var found, tried := TryExchange(up.nse, nseTicker, NSE);
    calls := tried;
    if found.Some? {
      return found.value, calls;
    }
    var bseTicker := base + BseSuffix;
    found, tried := TryExchange(up.bse, bseTicker, BSE);
    calls := calls + tried;
    if found.Some? {
      return found.value, calls;
    }
    calls := calls + [ChartCall];
    if up.direct.DirectReply? && up.direct.status == 200 && up.direct.body.ChartBody? {
      var results := up.direct.body.results;
      if results.Some? && |results.value| > 0 && results.value[0].Some? {
        var meta := results.value[0].value;
        if meta.regularMarketPrice.Number? {
          var price := meta.regularMarketPrice.value;
          var name := base;
          if meta.shortName.Some? {
            name := meta.shortName.value;
          }
          return QuoteResult(name, price, NSE, base + NseSuffix), calls;
        }
      }
    }
    return Sentinel(base), calls;
  }

  // ---------------------------------------------------------------------
  // Properties relating several resolutions
  // ---------------------------------------------------------------------

  /**
   * The name read never decides whether a tier succeeds: two feeds that
   * differ only in the name read give the same price, and a name read that
   * raised yields the qualified symbol as the name.
   */
  lemma NameNeverBlocksPrice(history: History, quoteInfo: Info, names: Info, symbol: string, ex: Exchange)
    ensures var withNames := ExchangeQuote(TickerFeed(history, quoteInfo, names), symbol, ex);
      var failedNames := ExchangeQuote(TickerFeed(history, quoteInfo, InfoRaised), symbol, ex);
      && (withNames.Some? <==> failedNames.Some?)
      && (failedNames.Some? ==>
            failedNames.value.name == symbol && failedNames.value.currentPrice == withNames.value.currentPrice)
  {
  }

  /**
   * Resolving the symbol of a resolved record resolves the same base again,
   * so it reproduces the same record and the same calls: a stored
   * "TCS.NS" is priced exactly as "TCS" was.
   */
  lemma {:induction false} ResolvedSymbolResolvesAgain(raw: string, up: Upstream)
    requires Resolve(raw, up).quote.exchange != Unknown
    ensures Resolve(Resolve(raw, up).quote.symbol, up) == Resolve(raw, up)
  {
    var base := BaseSymbol(raw);
    var q := Resolve(raw, up).quote;
    ResolvePicksFirstTier(base, up);
    BaseSymbolIsNormalForm(raw);
    QualifiedNormalisesToBase(base, if q.exchange == NSE then NseSuffix else BseSuffix);
    assert BaseSymbol(q.symbol) == base;
  }

  /**
   * The direct tier has no positivity check: when both exchanges fail and
   * the chart endpoint reports a zero or negative price, that price comes
   * back under NSE, so a zero price does not always mean the sentinel.
   */
  lemma DirectPriceIsNotChecked(raw: string, nse: TickerFeed, bse: TickerFeed, price: real)
    requires price <= 0.0
    requires ExchangeQuote(nse, BaseSymbol(raw) + NseSuffix, NSE).None?
    requires ExchangeQuote(bse, BaseSymbol(raw) + BseSuffix, BSE).None?
    ensures var reply := DirectReply(200, ChartBody(Some([Some(ChartMeta(Number(price), None))])));
      var q := Resolve(raw, Upstream(nse, bse, reply)).quote;
      q.currentPrice == price && q.exchange == NSE && q.name == BaseSymbol(raw)
  {
    var base := BaseSymbol(raw);
    var reply := DirectReply(200, ChartBody(Some([Some(ChartMeta(Number(price), None))])));
    assert ChartMetaOf(reply) == Some(ChartMeta(Number(price), None));
    assert DirectQuote(reply, base) == Some(QuoteResult(base, price, NSE, base + NseSuffix));
  }
}
