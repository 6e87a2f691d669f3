/** Records and enumerations of the trading bot (src/models.py), with the
    default field values the source declares.  Money, prices and quantities are
    exact reals; timestamps are whole seconds and calendar dates are day numbers. */
module Models {
  import opened Wrappers

  /** Seconds on a common clock; the source's `datetime`. */
  type Timestamp = int

  /** A calendar day number; the source's `date`. */
  type Date = int

  datatype OrderType = Buy | Sell | BuyToCover | SellShort {
    /** The string value of the enumeration member. */
    function Value(): string {
      match this
      case Buy => "BUY"
      case Sell => "SELL"
      case BuyToCover => "BUY_TO_COVER"
      case SellShort => "SELL_SHORT"
    }
  }

  datatype OrderStatus = Pending | Filled | Cancelled | Rejected {
    function Value(): string {
      match this
      case Pending => "PENDING"
      case Filled => "FILLED"
      case Cancelled => "CANCELLED"
      case Rejected => "REJECTED"
    }
  }

  datatype MarketSentiment = Bullish | Bearish | Neutral

  /** Looks an order type up by its string value, as the enumeration's
      constructor does when a record is built from a string. */
  function ParseOrderType(s: string): (r: Option<OrderType>)
    ensures r.Some? <==> s in {"BUY", "SELL", "BUY_TO_COVER", "SELL_SHORT"}
    ensures r.Some? ==> r.value.Value() == s
  {
    if s == "BUY" then Some(Buy)
    else if s == "SELL" then Some(Sell)
    else if s == "BUY_TO_COVER" then Some(BuyToCover)
    else if s == "SELL_SHORT" then Some(SellShort)
    else None
  }

  function ParseOrderStatus(s: string): (r: Option<OrderStatus>)
    ensures r.Some? <==> s in {"PENDING", "FILLED", "CANCELLED", "REJECTED"}
    ensures r.Some? ==> r.value.Value() == s
  {
    if s == "PENDING" then Some(Pending)
    else if s == "FILLED" then Some(Filled)
    else if s == "CANCELLED" then Some(Cancelled)
    else if s == "REJECTED" then Some(Rejected)
    else None
  }

  /** Each enumeration has exactly four members and their string values tell
      them apart, so parsing a member's value gives the member back. */
  lemma EnumValuesRoundTrip(t: OrderType, st: OrderStatus)
    ensures ParseOrderType(t.Value()) == Some(t)
    ensures ParseOrderStatus(st.Value()) == Some(st)
    ensures t.Value() == "BUY" <==> t == Buy
  {
    match t
    case Buy =>
    case Sell =>
    case BuyToCover =>
    case SellShort =>
  }

  datatype Trade = Trade(
    id: Option<int>,
    symbol: string,
    orderType: OrderType,
    quantity: real,
    price: real,
    timestamp: Timestamp,
    status: OrderStatus,
    orderId: Option<string>,
    commission: real,
    notes: Option<string>)

  /** A trade record built with the declared defaults for every field the
      caller does not give. */
  function NewTrade(symbol: string, orderType: OrderType, quantity: real, price: real,
                    timestamp: Timestamp, notes: Option<string>): (t: Trade)
    ensures t.status == Pending && t.commission == 0.0
    ensures t.id == None && t.orderId == None
    ensures t.symbol == symbol && t.orderType == orderType && t.quantity == quantity
    ensures t.price == price && t.timestamp == timestamp && t.notes == notes
  {
    Trade(None, symbol, orderType, quantity, price, timestamp, Pending, None, 0.0, notes)
  }

  datatype Position = Position(
    id: Option<int>,
    symbol: string,
    quantity: real,
    averagePrice: real,
    currentPrice: real,
    marketValue: real,
    unrealizedPnl: real,
    realizedPnl: real,
    lastUpdated: Timestamp)

  datatype MarketData = MarketData(
    symbol: string,
    price: real,
    volume: int,
    high: real,
    low: real,
    open: real,
    previousClose: real,
    change: real,
    changePercent: real,
    timestamp: Timestamp,
    marketCap: Option<real>,
    peRatio: Option<real>)

  datatype NewsEvent = NewsEvent(
    id: Option<int>,
    title: string,
    description: string,
    source: string,
    url: string,
    publishedAt: Timestamp,
    sentiment: MarketSentiment,
    confidence: real,
    symbols: seq<string>,
    impactScore: real)

  /** A news event built with the declared defaults: no symbols, no impact. */
  function NewNewsEvent(title: string, description: string, source: string, url: string,
                        publishedAt: Timestamp, sentiment: MarketSentiment, confidence: real): (e: NewsEvent)
    ensures e.symbols == [] && e.impactScore == 0.0 && e.id == None
    ensures e.title == title && e.source == source && e.sentiment == sentiment
    ensures e.publishedAt == publishedAt && e.confidence == confidence
  {
    NewsEvent(None, title, description, source, url, publishedAt, sentiment, confidence, [], 0.0)
  }

  datatype Portfolio = Portfolio(
    id: Option<int>,
    totalValue: real,
    cashBalance: real,
    investedAmount: real,
    dailyPnl: real,
    totalPnl: real,
    dailyReturn: real,
    totalReturn: real,
    lastUpdated: Timestamp,
    positions: seq<Position>)

  /** A portfolio built with the declared defaults: it holds no positions. */
  function NewPortfolio(totalValue: real, cashBalance: real, investedAmount: real, dailyPnl: real,
                        totalPnl: real, dailyReturn: real, totalReturn: real,
                        lastUpdated: Timestamp): (p: Portfolio)
    ensures p.positions == [] && p.id == None
    ensures p.totalValue == totalValue && p.cashBalance == cashBalance
    ensures p.investedAmount == investedAmount && p.dailyPnl == dailyPnl && p.totalPnl == totalPnl
    ensures p.dailyReturn == dailyReturn && p.totalReturn == totalReturn && p.lastUpdated == lastUpdated
  {
    Portfolio(None, totalValue, cashBalance, investedAmount, dailyPnl, totalPnl,
              dailyReturn, totalReturn, lastUpdated, [])
  }

  /** The indicator values a signal carries, keyed by name. */
  type Indicators = map<string, real>

  datatype TradingSignal = TradingSignal(
    id: Option<int>,
    symbol: string,
    signalType: OrderType,
    confidence: real,
    priceTarget: real,
    stopLoss: real,
    reasoning: string,
    timestamp: Timestamp,
    newsEvents: seq<NewsEvent>,
    technicalIndicators: Indicators)

  datatype BotStatus = BotStatus(
    isRunning: bool,
    lastHeartbeat: Timestamp,
    activeTrades: int,
    dailyTrades: int,
    currentCapital: real,
    dailyPnl: real,
    errors: seq<string>,
    warnings: seq<string>)

  /** What the market source answered for each symbol during one phase of a
      cycle; a symbol missing from the map is a fetch that returned nothing. */
  type QuoteBook = map<string, MarketData>

  function QuoteFor(book: QuoteBook, symbol: string): (r: Option<MarketData>)
    ensures r.Some? <==> symbol in book
    ensures r.Some? ==> r.value == book[symbol]
  {
    if symbol in book then Some(book[symbol]) else None
  }

  /** Every price the book quotes is non-negative, as the market source's are. */
  predicate NonNegativePrices(book: QuoteBook) {
    forall s :: s in book ==> book[s].price >= 0.0
  }

  function Abs(x: real): (r: real)
    ensures r >= 0.0 && (r == x || r == -x)
  {
    if x < 0.0 then -x else x
  }

  function Min(a: real, b: real): (r: real)
    ensures r <= a && r <= b && (r == a || r == b)
  {
    if a <= b then a else b
  }

  function Max(a: real, b: real): (r: real)
    ensures r >= a && r >= b && (r == a || r == b)
  {
    if a >= b then a else b
  }
}
