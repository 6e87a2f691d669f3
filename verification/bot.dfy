/** The orchestrator of src/bot.py: the bot's state, the capital check and
    position sizing, signal execution, portfolio re-valuation, the risk gate,
    the daily reset, one cycle of the main loop, status reporting and
    shutdown.  The market source is an oracle: each phase of a cycle reads its
    quotes from a `QuoteBook`, and the clock is the `today`/`now` inputs. */
module Bot {
  import opened Wrappers
  import opened Models
  import opened Execution
  import opened Monitor
  import opened Strategy

  /** The trading settings the core reads from the configuration. */
  datatype Settings = Settings(initialCapital: real, maxDailyLoss: real)

  /** The declared defaults: ten dollars of capital and no daily loss allowed. */
  function DefaultSettings(): (s: Settings)
    ensures s.initialCapital == 10.0 && s.maxDailyLoss == 0.0
  {
    Settings(10.0, 0.0)
  }

  datatype Bot = Bot(
    isRunning: bool,
    ledger: Ledger,
    dailyPnl: real,
    totalPnl: real,
    initialCapital: real,
    currentCapital: real,
    dailyTrades: int,
    lastHeartbeat: Timestamp,
    errors: seq<string>,
    warnings: seq<string>,
    activeTrades: seq<Trade>,
    dailyStartValue: real,
    lastResetDate: Date,
    strategy: Engine)

  /** The bot after construction and component initialisation: all capital in
      cash, nothing held, no trades, both daily counters starting today. */
  function NewBot(s: Settings, now: Timestamp, today: Date): (b: Bot)
    ensures !b.isRunning
    ensures b.ledger.portfolio.positions == [] && b.ledger.openSymbols == []
    ensures b.ledger.portfolio.cashBalance == s.initialCapital
    ensures b.ledger.portfolio.totalValue == s.initialCapital
    ensures b.ledger.portfolio.investedAmount == 0.0
    ensures b.initialCapital == s.initialCapital && b.currentCapital == s.initialCapital
    ensures b.dailyStartValue == s.initialCapital
    ensures b.dailyPnl == 0.0 && b.totalPnl == 0.0 && b.dailyTrades == 0
    ensures b.activeTrades == [] && b.errors == [] && b.warnings == []
    ensures b.lastResetDate == today && b.strategy == NewEngine(today)
    ensures Sound(b.ledger) <==> s.initialCapital >= 0.0
    ensures CountersAgree(b)
  {
    var p := NewPortfolio(s.initialCapital, s.initialCapital, 0.0, 0.0, 0.0, 0.0, 0.0, now);
    Bot(false, Ledger(p, []), 0.0, 0.0, s.initialCapital, s.initialCapital, 0, now, [], [], [],
        s.initialCapital, today, NewEngine(today))
  }

  /** `start`, up to the main loop. Component initialisation comes first and
      runs whatever the configuration: a fresh portfolio holding only the
      initial capital in cash, and a fresh strategy engine. The held-symbols
      list is not touched. The bot then runs only with a valid configuration. */
  function Start(b: Bot, configValid: bool, now: Timestamp, today: Date): (r: Bot)
    ensures r.isRunning == (configValid || b.isRunning)
    ensures r.ledger.portfolio.positions == []
    ensures r.ledger.portfolio.cashBalance == b.initialCapital
    ensures r.ledger.portfolio.totalValue == b.initialCapital
    ensures r.ledger.portfolio.investedAmount == 0.0
    ensures r.ledger.portfolio.lastUpdated == now
    ensures r.ledger.openSymbols == b.ledger.openSymbols
    ensures r.strategy == NewEngine(today)
    ensures r == b.(ledger := r.ledger, strategy := r.strategy, isRunning := r.isRunning)
  {
    var p := NewPortfolio(b.initialCapital, b.initialCapital, 0.0, 0.0, 0.0, 0.0, 0.0, now);
    var b1 := b.(ledger := Ledger(p, b.ledger.openSymbols), strategy := NewEngine(today));
    if configValid then b1.(isRunning := true) else b1
  }

  /** On a freshly constructed bot, as the program's entry point starts it,
      re-initialisation changes nothing: starting only sets the running flag. */
  lemma StartFreshBot(s: Settings, configValid: bool, now: Timestamp, today: Date)
    ensures Start(NewBot(s, now, today), configValid, now, today) == NewBot(s, now, today).(isRunning := configValid)
  {
  }

  /** Restarting a bot that holds positions drops them from the portfolio but
      not from the held-symbols list, so the two fall out of step exactly when
      that list is not empty. */
  lemma StartDesyncs(b: Bot, configValid: bool, now: Timestamp, today: Date)
    ensures Synced(Start(b, configValid, now, today).ledger) <==> b.ledger.openSymbols == []
  {
    var r := Start(b, configValid, now, today);
    assert Symbols(r.ledger.portfolio.positions) == [];
    if b.ledger.openSymbols != [] {
      assert b.ledger.openSymbols[0] in multiset(b.ledger.openSymbols);
    }
  }

  // ---------------------------------------------------------------------
  // Capital and sizing

  /** `_check_capital_availability`: at least a tenth of the current capital
      is still in cash. */
  predicate CheckCapital(b: Bot) {
    b.ledger.portfolio.cashBalance >= b.currentCapital * 0.1
  }

  /** Python's `int()` on a float: truncation toward zero. */
  function Trunc(x: real): (r: int)
    ensures x >= 0.0 ==> 0 <= r && r as real <= x < r as real + 1.0
    ensures x < 0.0 ==> r <= 0 && r as real - 1.0 < x <= r as real
  {
    if x >= 0.0 then x.Floor else -((-x).Floor)
  }

  /** `_calculate_position_size`: a fifth of the cash, priced at the signal's
      target, in whole shares; a zero target divides by zero. */
  function PositionSize(cash: real, target: real): (r: Option<int>)
    ensures r.None? <==> target == 0.0
    ensures r.Some? && cash >= 0.0 && target > 0.0 ==>
      && r.value >= 0
      && r.value as real * target <= cash * 0.2 < (r.value as real + 1.0) * target
    ensures r.Some? && cash >= 0.0 && target < 0.0 ==> r.value <= 0
  {
    if target == 0.0 then None
    else
      var shares := cash * 0.2 / target;
      var n := Trunc(shares);
      SharesBounds(cash, target, n);
      Some(n)
  }

  /** Whole shares truncated from a fifth of the cash over a positive price
      cost at most that fifth, and one more share would cost more. */
  lemma SharesBounds(cash: real, target: real, n: int)
    requires target != 0.0 && n == Trunc(cash * 0.2 / target)
    ensures cash >= 0.0 && target > 0.0 ==>
      n as real * target <= cash * 0.2 < (n as real + 1.0) * target
  {
    if target > 0.0 && cash >= 0.0 {
      QuotientBounds(cash * 0.2, target, n as real);
    }
  }

  /** For a positive divisor, bounds on a quotient carry over to the dividend. */
  lemma QuotientBounds(x: real, t: real, k: real)
    requires t > 0.0 && k <= x / t < k + 1.0
    ensures k * t <= x < (k + 1.0) * t
  {
    var q := x / t;
    var m := k + 1.0;
    assert q * t == x;
    MulMonotone(k, q, t);
    MulStrict(q, m, t);
    assert q * t < m * t;
    assert x < m * t;
  }

  lemma MulStrict(a: real, b: real, c: real)
    requires a < b && c > 0.0
    ensures a * c < b * c
  {
  }

  lemma MulMonotone(a: real, b: real, c: real)
    requires a <= b && c >= 0.0
    ensures a * c <= b * c
  {
  }

  /** The order `_execute_signal` builds from a signal and a share count. */
  function SignalTrade(s: TradingSignal, shares: int, now: Timestamp): (t: Trade)
    ensures t.symbol == s.symbol && t.orderType == s.signalType && t.price == s.priceTarget
    ensures t.quantity == shares as real && t.status == Pending
  {
    NewTrade(s.symbol, s.signalType, shares as real, s.priceTarget, now, Some(s.reasoning))
  }

  // ---------------------------------------------------------------------
  // Executing signals

  datatype Attempt = Attempt(bot: Bot, ok: bool)

  /** The signal gets as far as the executor: it validates against the fresh
      quote, the capital check passes and the target is not zero. */
  predicate Reaches(b: Bot, s: TradingSignal, quote: Option<MarketData>) {
    && ValidateSignal(b.strategy.config, s, quote)
    && CheckCapital(b)
    && s.priceTarget != 0.0
  }

  /** `_execute_signal`: validate, check capital, size, execute; a filled
      trade is recorded among the active trades. */
  function ExecuteSignal(b: Bot, s: TradingSignal, quote: Option<MarketData>, now: Timestamp): (r: Attempt)
    ensures !Reaches(b, s, quote) ==> r == Attempt(b, false)
    ensures Reaches(b, s, quote) ==>
      var t := SignalTrade(s, PositionSize(b.ledger.portfolio.cashBalance, s.priceTarget).value, now);
      var f := ExecuteTrade(b.ledger, t, now);
      && r.ok == f.ok
      && r.bot.ledger == f.ledger
      && r.bot.activeTrades == b.activeTrades + (if f.ok then [t.(status := Filled)] else [])
    ensures r.bot == b.(ledger := r.bot.ledger, activeTrades := r.bot.activeTrades)
  {
    if !ValidateSignal(b.strategy.config, s, quote) then Attempt(b, false)
    else if !CheckCapital(b) then Attempt(b, false)
    else
      match PositionSize(b.ledger.portfolio.cashBalance, s.priceTarget)
      case None => Attempt(b, false)
      case Some(shares) =>
        var f := ExecuteTrade(b.ledger, SignalTrade(s, shares, now), now);
        if f.ok then Attempt(b.(ledger := f.ledger, activeTrades := b.activeTrades + [f.trade]), true)
        else Attempt(b.(ledger := f.ledger), false)
  }

  /** The capital check guards every trade: with less than a tenth of the
      current capital in cash a signal is refused and the bot is left as it
      was, and a signal that executes had at least that much cash behind it. */
  lemma ShortOfCashRefuses(b: Bot, s: TradingSignal, quote: Option<MarketData>, now: Timestamp)
    ensures b.ledger.portfolio.cashBalance < b.currentCapital * 0.1 ==>
      ExecuteSignal(b, s, quote, now) == Attempt(b, false)
    ensures ExecuteSignal(b, s, quote, now).ok ==>
      b.ledger.portfolio.cashBalance >= b.currentCapital * 0.1
  {
  }

  /** One turn of the execution loop: the signal is executed against its
      validation quote, and a success counts one trade for the bot and one
      for the strategy engine. */
  function Step(b: Bot, s: TradingSignal, quotes: QuoteBook, now: Timestamp): (r: Bot)
    ensures r.ledger == ExecuteSignal(b, s, QuoteFor(quotes, s.symbol), now).bot.ledger
    ensures 0 <= r.dailyTrades - b.dailyTrades <= 1
    ensures r.dailyTrades - b.dailyTrades == 1 <==> ExecuteSignal(b, s, QuoteFor(quotes, s.symbol), now).ok
    ensures |r.activeTrades| - |b.activeTrades| == r.dailyTrades - b.dailyTrades
    ensures r.activeTrades[..|b.activeTrades|] == b.activeTrades
    ensures forall t <- r.activeTrades[|b.activeTrades|..] :: t.status == Filled
    ensures r.strategy == b.strategy.(dailyTrades := b.strategy.dailyTrades + (r.dailyTrades - b.dailyTrades))
    ensures r == b.(ledger := r.ledger, activeTrades := r.activeTrades,
                    dailyTrades := r.dailyTrades, strategy := r.strategy)
  {
    var a := ExecuteSignal(b, s, QuoteFor(quotes, s.symbol), now);
    if a.ok then a.bot.(dailyTrades := a.bot.dailyTrades + 1, strategy := UpdateTradeCount(a.bot.strategy))
    else a.bot
  }

  /** The execution loop of the main cycle: each success counts one trade for
      the bot and one for the strategy engine. */
  function ExecuteSignals(b: Bot, signals: seq<TradingSignal>, quotes: QuoteBook, now: Timestamp)
    : (r: Bot)
    ensures 0 <= r.dailyTrades - b.dailyTrades <= |signals|
    ensures |r.activeTrades| - |b.activeTrades| == r.dailyTrades - b.dailyTrades
    ensures r.strategy == b.strategy.(dailyTrades := b.strategy.dailyTrades + (r.dailyTrades - b.dailyTrades))
    ensures r.activeTrades[..|b.activeTrades|] == b.activeTrades
    ensures forall t <- r.activeTrades[|b.activeTrades|..] :: t.status == Filled
    ensures r == b.(ledger := r.ledger, activeTrades := r.activeTrades,
                    dailyTrades := r.dailyTrades, strategy := r.strategy)
    decreases |signals|
  {
    if |signals| == 0 then b
    else
      var b1 := Step(b, signals[0], quotes, now);
      var r := ExecuteSignals(b1, signals[1..], quotes, now);
      assert r.activeTrades[..|b1.activeTrades|] == b1.activeTrades;
      assert b1.activeTrades[..|b.activeTrades|] == b.activeTrades;
      assert r.activeTrades[|b.activeTrades|..] ==
             b1.activeTrades[|b.activeTrades|..] + r.activeTrades[|b1.activeTrades|..];
      r
  }

  /** The orders the bot issues are admissible as long as the cash is
      non-negative and no BUY targets a negative price. */
  lemma SignalTradeAdmissible(b: Bot, s: TradingSignal, quote: Option<MarketData>, now: Timestamp)
    requires Reaches(b, s, quote) && b.ledger.portfolio.cashBalance >= 0.0
    requires s.signalType == Buy ==> s.priceTarget >= 0.0
    ensures Admissible(SignalTrade(s, PositionSize(b.ledger.portfolio.cashBalance, s.priceTarget).value, now))
  {
    var cash := b.ledger.portfolio.cashBalance;
    var n := PositionSize(cash, s.priceTarget).value;
    if s.priceTarget > 0.0 {
      assert n >= 0;
      MulMonotone(0.0, n as real, s.priceTarget);
    } else {
      assert n <= 0;
      assert (-(n as real)) * (-s.priceTarget) >= 0.0;
    }
  }

  /** Executing one signal keeps the ledger invariant. */
  lemma ExecuteSignalPreservesSound(b: Bot, s: TradingSignal, quote: Option<MarketData>, now: Timestamp)
    requires Sound(b.ledger)
    requires s.signalType == Buy ==> s.priceTarget >= 0.0
    ensures Sound(ExecuteSignal(b, s, quote, now).bot.ledger)
  {
    if Reaches(b, s, quote) {
      SignalTradeAdmissible(b, s, quote, now);
      var t := SignalTrade(s, PositionSize(b.ledger.portfolio.cashBalance, s.priceTarget).value, now);
      ExecuteTradePreservesSound(b.ledger, t, now);
    }
  }

  lemma {:induction false} ExecuteSignalsPreservesSound(b: Bot, signals: seq<TradingSignal>, quotes: QuoteBook,
                                                        now: Timestamp)
    requires Sound(b.ledger) && BuysNonNegative(signals)
    ensures Sound(ExecuteSignals(b, signals, quotes, now).ledger)
    decreases |signals|
  {
    if |signals| > 0 {
      var s := signals[0];
      ExecuteSignalPreservesSound(b, s, QuoteFor(quotes, s.symbol), now);
      var b1 := Step(b, s, quotes, now);
      assert forall x <- signals[1..] :: x in signals;
      ExecuteSignalsPreservesSound(b1, signals[1..], quotes, now);
      assert ExecuteSignals(b, signals, quotes, now) == ExecuteSignals(b1, signals[1..], quotes, now);
    }
  }

  /** A BUY whose target exceeds a fifth of the cash sizes to zero shares, and
      the executor fills it: it costs nothing, appends a position of zero
      shares and counts as a trade. */
  lemma ZeroShareBuyFills(b: Bot, s: TradingSignal, quote: Option<MarketData>, now: Timestamp)
    requires Reaches(b, s, quote) && s.signalType == Buy
    requires 0.0 <= b.ledger.portfolio.cashBalance * 0.2 < s.priceTarget
    ensures ExecuteSignal(b, s, quote, now).ok
    ensures var ps := ExecuteSignal(b, s, quote, now).bot.ledger.portfolio.positions;
      && ps == b.ledger.portfolio.positions + [OpenedPosition(SignalTrade(s, 0, now), now)]
      && ps[|ps| - 1].quantity == 0.0
    ensures ExecuteSignal(b, s, quote, now).bot.ledger.portfolio.cashBalance == b.ledger.portfolio.cashBalance
  {
    ZeroShares(b.ledger.portfolio.cashBalance, s.priceTarget);
  }

  /** A fifth of the cash below the target sizes to no shares at all. */
  lemma ZeroShares(cash: real, target: real)
    requires 0.0 <= cash * 0.2 < target
    ensures PositionSize(cash, target) == Some(0)
  {
    var n := PositionSize(cash, target).value;
    assert n as real * target <= cash * 0.2 < target;
    if n >= 1 {
      MulMonotone(1.0, n as real, target);
      assert false;
    }
  }

  // ---------------------------------------------------------------------
  // Portfolio valuation

  /** Every position with a quote re-priced at it; the others keep their
      last known values. */
  function RepriceAll(ps: seq<Position>, quotes: QuoteBook): (r: seq<Position>)
    ensures |r| == |ps|
    ensures forall i :: 0 <= i < |ps| ==>
      r[i] == if ps[i].symbol in quotes then Revalue(ps[i], quotes[ps[i].symbol].price) else ps[i]
  {
    seq(|ps|, i requires 0 <= i < |ps| =>
      if ps[i].symbol in quotes then Revalue(ps[i], quotes[ps[i].symbol].price) else ps[i])
  }

  /** The sum of the positions' market values. */
  function MarketValue(ps: seq<Position>): real {
    if |ps| == 0 then 0.0 else ps[0].marketValue + MarketValue(ps[1..])
  }

  /** The sum of quantity times price, each position priced at its quote. */
  function QuotedValue(ps: seq<Position>, quotes: QuoteBook): real
    requires forall p <- ps :: p.symbol in quotes
  {
    if |ps| == 0 then 0.0
    else
      assert ps[0] in ps;
      ps[0].quantity * quotes[ps[0].symbol].price + QuotedValue(ps[1..], quotes)
  }

  /** `_update_portfolio`.  Positions are re-priced and the portfolio's total
      and invested amounts and the profit figures are set; the two returns
      divide by the initial capital and by the day's starting value, and a
      zero there raises, leaving the later fields (including the current
      capital) as they were. */
  function UpdatePortfolio(b: Bot, quotes: QuoteBook, now: Timestamp): (r: Bot)
    ensures r.ledger.portfolio.positions == RepriceAll(b.ledger.portfolio.positions, quotes)
    ensures r.ledger.openSymbols == b.ledger.openSymbols
    ensures r.ledger.portfolio.cashBalance == b.ledger.portfolio.cashBalance
    ensures var p := r.ledger.portfolio;
      && p.totalValue == p.cashBalance + MarketValue(p.positions)
      && p.investedAmount == p.totalValue - p.cashBalance
      && r.totalPnl == p.totalValue - b.initialCapital
      && r.dailyPnl == p.totalValue - b.dailyStartValue
      && p.totalPnl == r.totalPnl && p.dailyPnl == r.dailyPnl
    ensures b.initialCapital != 0.0 ==>
      r.ledger.portfolio.totalReturn * b.initialCapital == r.totalPnl * 100.0
    ensures b.initialCapital != 0.0 && b.dailyStartValue != 0.0 ==>
      && r.ledger.portfolio.dailyReturn * b.dailyStartValue == r.dailyPnl * 100.0
      && r.ledger.portfolio.lastUpdated == now
      && r.currentCapital == r.ledger.portfolio.totalValue
    ensures b.initialCapital == 0.0 ==>
      r.ledger.portfolio.totalReturn == b.ledger.portfolio.totalReturn
    ensures b.initialCapital == 0.0 || b.dailyStartValue == 0.0 ==>
      && r.ledger.portfolio.dailyReturn == b.ledger.portfolio.dailyReturn
      && r.ledger.portfolio.lastUpdated == b.ledger.portfolio.lastUpdated
      && r.currentCapital == b.currentCapital
    ensures r == b.(ledger := r.ledger, totalPnl := r.totalPnl, dailyPnl := r.dailyPnl,
                    currentCapital := r.currentCapital)
    ensures r.ledger.portfolio == b.ledger.portfolio.(
      positions := r.ledger.portfolio.positions, totalValue := r.ledger.portfolio.totalValue,
      investedAmount := r.ledger.portfolio.investedAmount, totalPnl := r.ledger.portfolio.totalPnl,
      dailyPnl := r.ledger.portfolio.dailyPnl, totalReturn := r.ledger.portfolio.totalReturn,
      dailyReturn := r.ledger.portfolio.dailyReturn, lastUpdated := r.ledger.portfolio.lastUpdated)
  {
    var p := b.ledger.portfolio;
    var positions := RepriceAll(p.positions, quotes);
    var total := p.cashBalance + MarketValue(positions);
    var totalPnl := total - b.initialCapital;
    var dailyPnl := total - b.dailyStartValue;
    var p1 := p.(positions := positions, totalValue := total, investedAmount := total - p.cashBalance,
                 totalPnl := totalPnl, dailyPnl := dailyPnl);
    var b1 := b.(totalPnl := totalPnl, dailyPnl := dailyPnl);
    if b.initialCapital == 0.0 then b1.(ledger := b.ledger.(portfolio := p1))
    else
      var p2 := p1.(totalReturn := (totalPnl / b.initialCapital) * 100.0);
      if b.dailyStartValue == 0.0 then b1.(ledger := b.ledger.(portfolio := p2))
      else
        var p3 := p2.(dailyReturn := (dailyPnl / b.dailyStartValue) * 100.0, lastUpdated := now);
        b1.(ledger := b.ledger.(portfolio := p3), currentCapital := total)
  }

  lemma RepriceAllIdempotent(ps: seq<Position>, quotes: QuoteBook)
    ensures RepriceAll(RepriceAll(ps, quotes), quotes) == RepriceAll(ps, quotes)
  {
    var once := RepriceAll(ps, quotes);
    var twice := RepriceAll(once, quotes);
    forall i | 0 <= i < |ps|
      ensures twice[i] == once[i]
    {
      assert once[i].symbol == ps[i].symbol;
      assert once[i].quantity == ps[i].quantity && once[i].averagePrice == ps[i].averagePrice;
    }
  }

  /** Re-valuing twice against the same quotes gives what re-valuing once
      gave: the update is a function of the positions' quantities and average
      prices, which it does not change. */
  lemma UpdatePortfolioIdempotent(b: Bot, quotes: QuoteBook, now: Timestamp)
    ensures UpdatePortfolio(UpdatePortfolio(b, quotes, now), quotes, now) == UpdatePortfolio(b, quotes, now)
  {
    RepriceAllIdempotent(b.ledger.portfolio.positions, quotes);
  }

  /** When every position is quoted, the total value is the cash plus each
      position's quantity at its quote. */
  lemma {:induction false} MarketValueAtQuotes(ps: seq<Position>, quotes: QuoteBook)
    requires forall p <- ps :: p.symbol in quotes
    ensures MarketValue(RepriceAll(ps, quotes)) == QuotedValue(ps, quotes)
    decreases |ps|
  {
    if |ps| > 0 {
      var r := RepriceAll(ps, quotes);
      assert forall p <- ps[1..] :: p in ps;
      MarketValueAtQuotes(ps[1..], quotes);
      RepriceAllHead(ps, quotes);
      assert MarketValue(r) == r[0].marketValue + MarketValue(r[1..]);
    }
  }

  lemma RepriceAllHead(ps: seq<Position>, quotes: QuoteBook)
    requires |ps| > 0 && ps[0].symbol in quotes
    ensures RepriceAll(ps, quotes)[0].marketValue == ps[0].quantity * quotes[ps[0].symbol].price
    ensures RepriceAll(ps, quotes)[1..] == RepriceAll(ps[1..], quotes)
  {
  }

  lemma UpdatePortfolioValuesAtQuotes(b: Bot, quotes: QuoteBook, now: Timestamp)
    requires forall p <- b.ledger.portfolio.positions :: p.symbol in quotes
    ensures UpdatePortfolio(b, quotes, now).ledger.portfolio.totalValue
            == b.ledger.portfolio.cashBalance + QuotedValue(b.ledger.portfolio.positions, quotes)
  {
    MarketValueAtQuotes(b.ledger.portfolio.positions, quotes);
  }

  lemma SymbolsRepriceAll(ps: seq<Position>, quotes: QuoteBook)
    ensures Symbols(RepriceAll(ps, quotes)) == Symbols(ps)
  {
  }

  /** Re-valuing at non-negative prices keeps the ledger invariant. */
  lemma UpdatePortfolioPreservesSound(b: Bot, quotes: QuoteBook, now: Timestamp)
    requires Sound(b.ledger) && NonNegativePrices(quotes)
    ensures Sound(UpdatePortfolio(b, quotes, now).ledger)
  {
    var ps := b.ledger.portfolio.positions;
    var r := RepriceAll(ps, quotes);
    SymbolsRepriceAll(ps, quotes);
    forall p <- r ensures SoundPosition(p) {
      var i :| 0 <= i < |r| && r[i] == p;
      assert ps[i] in ps;
    }
  }

  // ---------------------------------------------------------------------
  // Risk gate and daily reset

  /** `_check_risk_limits`: the day's loss may not exceed the allowed
      fraction of the initial capital, nor the total loss half of it. */
  function CheckRiskLimits(b: Bot, maxDailyLoss: real): (r: bool)
    ensures r <==> b.dailyPnl >= -b.initialCapital * maxDailyLoss && b.totalPnl >= -b.initialCapital * 0.5
  {
    if b.dailyPnl < -b.initialCapital * maxDailyLoss then false
    else if b.totalPnl < -b.initialCapital * 0.5 then false
    else true
  }

  /** Under the default settings (no daily loss allowed) any loss on the day,
      however small, stops trading for the rest of the cycle. */
  lemma DefaultRiskGateHaltsOnAnyLoss(b: Bot)
    requires b.dailyPnl < 0.0
    ensures !CheckRiskLimits(b, DefaultSettings().maxDailyLoss)
  {
  }

  /** `_reset_daily_counters`: on a later day the trade count and the day's
      profit restart, measured from the current capital. */
  function ResetDailyCounters(b: Bot, today: Date): (r: Bot)
    ensures today > b.lastResetDate ==>
      && r.dailyTrades == 0 && r.dailyPnl == 0.0
      && r.dailyStartValue == b.currentCapital && r.lastResetDate == today
    ensures today <= b.lastResetDate ==> r == b
    ensures r == b.(dailyTrades := r.dailyTrades, dailyPnl := r.dailyPnl,
                    dailyStartValue := r.dailyStartValue, lastResetDate := r.lastResetDate)
  {
    if today > b.lastResetDate then
      b.(dailyTrades := 0, dailyStartValue := b.currentCapital, dailyPnl := 0.0, lastResetDate := today)
    else b
  }

  /** A second reset on the same day changes nothing. */
  lemma ResetDailyCountersIdempotent(b: Bot, today: Date)
    ensures ResetDailyCounters(ResetDailyCounters(b, today), today) == ResetDailyCounters(b, today)
  {
  }

  // ---------------------------------------------------------------------
  // One cycle of the main loop

  /** What the outside world supplies to one cycle: the clock, and the
      market source's answers in each phase. `statusFailure` is the message of
      the exception the market-status request raises, if it raises. */
  datatype CycleInput = CycleInput(
    today: Date,
    now: Timestamp,
    statusFailure: Option<string>,
    pricing: QuoteBook,
    movers: seq<MarketData>,
    news: seq<NewsEvent>,
    newsQuotes: QuoteBook,
    validation: QuoteBook,
    monitoring: QuoteBook)

  /** The body of the main loop: reset, the market-status request (whose
      raise is caught by the loop's handler, which records it and skips the
      rest of the cycle), re-value, the risk gate (which skips the rest of the
      cycle), then trading. */
  function Cycle(b: Bot, input: CycleInput, maxDailyLoss: real): (r: Bot)
    ensures input.statusFailure.Some? ==>
      r == ResetDailyCounters(b, input.today).(errors := b.errors + [input.statusFailure.value])
    ensures input.statusFailure.None? ==>
      var b2 := UpdatePortfolio(ResetDailyCounters(b, input.today), input.pricing, input.now);
      && (!CheckRiskLimits(b2, maxDailyLoss) ==> r == b2)
      && (CheckRiskLimits(b2, maxDailyLoss) ==> r == Trading(b2, input))
    ensures r.isRunning == b.isRunning && r.initialCapital == b.initialCapital
    ensures r.errors == b.errors + (if input.statusFailure.Some? then [input.statusFailure.value] else [])
    ensures r.warnings == b.warnings
    ensures |r.activeTrades| >= |b.activeTrades|
  {
    var b1 := ResetDailyCounters(b, input.today);
    match input.statusFailure
    case Some(message) => b1.(errors := b1.errors + [message])
    case None =>
      var b2 := UpdatePortfolio(b1, input.pricing, input.now);
      if !CheckRiskLimits(b2, maxDailyLoss) then b2
      else Trading(b2, input)
  }

  /** The trading part of a cycle: signal generation and execution,
      monitoring, and the heartbeat. */
  function Trading(b: Bot, input: CycleInput): (r: Bot)
    ensures var g := GenerateSignals(b.strategy, input.today, b.ledger.openSymbols, input.movers,
                                     input.news, input.newsQuotes, input.now);
      var b3 := ExecuteSignals(b.(strategy := g.engine), g.signals, input.validation, input.now);
      && r.ledger == MonitorPositions(b3.ledger, input.monitoring, input.now)
      && r == b3.(ledger := r.ledger, lastHeartbeat := input.now)
    ensures r.isRunning == b.isRunning && r.initialCapital == b.initialCapital
    ensures r.errors == b.errors && r.warnings == b.warnings
    ensures |r.activeTrades| >= |b.activeTrades|
  {
    var g := GenerateSignals(b.strategy, input.today, b.ledger.openSymbols, input.movers,
                             input.news, input.newsQuotes, input.now);
    var b3 := ExecuteSignals(b.(strategy := g.engine), g.signals, input.validation, input.now);
    var b4 := b3.(ledger := MonitorPositions(b3.ledger, input.monitoring, input.now));
    b4.(lastHeartbeat := input.now)
  }

  /** The market source's answers are well formed: no negative price. */
  predicate WellFormed(input: CycleInput) {
    && NonNegativePrices(input.pricing)
    && NonNegativeMovers(input.movers)
    && NonNegativePrices(input.newsQuotes)
    && NonNegativePrices(input.validation)
    && NonNegativePrices(input.monitoring)
  }

  /** A cycle keeps the ledger invariant: cash and every quantity stay
      non-negative and the held-symbols list stays in step with the positions. */
  lemma CyclePreservesSound(b: Bot, input: CycleInput, maxDailyLoss: real)
    requires Sound(b.ledger) && WellFormed(input) && b.strategy.config.profitTarget >= -1.0
    ensures Sound(Cycle(b, input, maxDailyLoss).ledger)
  {
    var b1 := ResetDailyCounters(b, input.today);
    var b2 := UpdatePortfolio(b1, input.pricing, input.now);
    UpdatePortfolioPreservesSound(b1, input.pricing, input.now);
    if input.statusFailure.None? && CheckRiskLimits(b2, maxDailyLoss) {
      TradingPreservesSound(b2, input);
    }
  }

  lemma TradingPreservesSound(b: Bot, input: CycleInput)
    requires Sound(b.ledger) && WellFormed(input) && b.strategy.config.profitTarget >= -1.0
    ensures Sound(Trading(b, input).ledger)
  {
    var g := GenerateSignals(b.strategy, input.today, b.ledger.openSymbols, input.movers,
                             input.news, input.newsQuotes, input.now);
    BuyTargetsNonNegative(b.strategy, input.today, b.ledger.openSymbols, input.movers,
                          input.news, input.newsQuotes, input.now);
    ExecuteSignalsPreservesSound(b.(strategy := g.engine), g.signals, input.validation, input.now);
    var b3 := ExecuteSignals(b.(strategy := g.engine), g.signals, input.validation, input.now);
    MonitorPreservesSound(b3.ledger, input.monitoring, input.now);
  }

  /** The bot's and the strategy engine's daily trade counts agree: both count
      the day's successful executions, and the engine, whose reset only runs
      when signals are generated, may lag behind the bot's reset only while
      no trade has been made. */
  predicate CountersAgree(b: Bot) {
    && b.strategy.lastReset <= b.lastResetDate
    && (b.strategy.lastReset == b.lastResetDate ==> b.dailyTrades == b.strategy.dailyTrades)
    && (b.strategy.lastReset < b.lastResetDate ==> b.dailyTrades == 0)
  }

  /** Cycles on a clock that does not run backwards keep the two counters in
      agreement, and the engine's count within its daily maximum. */
  lemma CycleKeepsCounters(b: Bot, input: CycleInput, maxDailyLoss: real)
    requires CountersAgree(b) && input.today >= b.lastResetDate
    requires 0 <= b.strategy.dailyTrades <= b.strategy.config.maxDailyTrades
    ensures CountersAgree(Cycle(b, input, maxDailyLoss))
    ensures Cycle(b, input, maxDailyLoss).strategy.dailyTrades <= b.strategy.config.maxDailyTrades
  {
    var b1 := ResetDailyCounters(b, input.today);
    var b2 := UpdatePortfolio(b1, input.pricing, input.now);
    assert b2.lastResetDate == input.today && CountersAgree(b2);
    if input.statusFailure.None? && CheckRiskLimits(b2, maxDailyLoss) {
      TradingKeepsCounters(b2, input);
    }
  }

  lemma TradingKeepsCounters(b: Bot, input: CycleInput)
    requires CountersAgree(b) && b.lastResetDate == input.today
    requires 0 <= b.strategy.dailyTrades <= b.strategy.config.maxDailyTrades
    ensures CountersAgree(Trading(b, input))
    ensures Trading(b, input).strategy.dailyTrades <= b.strategy.config.maxDailyTrades
  {
    var g := GenerateSignals(b.strategy, input.today, b.ledger.openSymbols, input.movers,
                             input.news, input.newsQuotes, input.now);
    var e := ResetDailyCounter(b.strategy, input.today);
    assert g.engine == e && |g.signals| <= Budget(e);
    var b' := b.(strategy := e);
    assert CountersAgree(b') && b'.strategy.lastReset == b'.lastResetDate;
    ExecuteSignalsKeepCounters(b', g.signals, input.validation, input.now);
    var b3 := ExecuteSignals(b', g.signals, input.validation, input.now);
    assert Trading(b, input).strategy == b3.strategy && Trading(b, input).dailyTrades == b3.dailyTrades;
  }

  /** Executing at most the remaining budget of signals keeps the two counts
      equal and within the daily maximum. */
  lemma ExecuteSignalsKeepCounters(b: Bot, signals: seq<TradingSignal>, quotes: QuoteBook, now: Timestamp)
    requires CountersAgree(b) && b.strategy.lastReset == b.lastResetDate
    requires 0 <= b.strategy.dailyTrades <= b.strategy.config.maxDailyTrades
    requires |signals| <= Budget(b.strategy)
    ensures var r := ExecuteSignals(b, signals, quotes, now);
      && CountersAgree(r) && r.strategy.lastReset == r.lastResetDate
      && r.strategy.dailyTrades <= b.strategy.config.maxDailyTrades
  {
  }

  /** When the risk gate closes, the cycle generates and executes nothing:
      no trade is recorded and no position is monitored or closed. */
  lemma RiskGateStopsTrading(b: Bot, input: CycleInput, maxDailyLoss: real)
    requires !CheckRiskLimits(UpdatePortfolio(ResetDailyCounters(b, input.today), input.pricing, input.now),
                              maxDailyLoss)
    ensures Cycle(b, input, maxDailyLoss).activeTrades == b.activeTrades
    ensures input.statusFailure.None? ==>
      Cycle(b, input, maxDailyLoss).ledger.portfolio.positions
      == RepriceAll(b.ledger.portfolio.positions, input.pricing)
    ensures Cycle(b, input, maxDailyLoss).strategy == b.strategy
    ensures Cycle(b, input, maxDailyLoss).lastHeartbeat == b.lastHeartbeat
  {
  }

  /** The main loop: cycles, one per input, while the bot runs. */
  function Run(b: Bot, inputs: seq<CycleInput>, maxDailyLoss: real): (r: Bot)
    ensures r.isRunning == b.isRunning && r.initialCapital == b.initialCapital
    decreases |inputs|
  {
    if |inputs| == 0 || !b.isRunning then b
    else Run(Cycle(b, inputs[0], maxDailyLoss), inputs[1..], maxDailyLoss)
  }

  /** Over any run of well-formed cycles the ledger invariant holds
      throughout. */
  lemma {:induction false} RunPreservesSound(b: Bot, inputs: seq<CycleInput>, maxDailyLoss: real)
    requires Sound(b.ledger) && b.strategy.config.profitTarget >= -1.0
    requires forall i <- inputs :: WellFormed(i)
    ensures Sound(Run(b, inputs, maxDailyLoss).ledger)
    decreases |inputs|
  {
    if |inputs| > 0 && b.isRunning {
      CyclePreservesSound(b, inputs[0], maxDailyLoss);
      assert forall i <- inputs[1..] :: i in inputs;
      var c := Cycle(b, inputs[0], maxDailyLoss);
      assert c.strategy.config == b.strategy.config;
      RunPreservesSound(c, inputs[1..], maxDailyLoss);
    }
  }

  /** The message Python gives for the market-status request: the market
      source of this repository defines no such method. */
  const NoMarketStatus := "'MarketDataEngine' object has no attribute 'get_market_status'"

  /** With the market-status request raising on every cycle, as it does
      against this repository's market source, the main loop never re-values,
      trades or monitors: the ledger, the active trades and the engine stay as
      they were, and each cycle records exactly one error. */
  lemma {:induction false} RunWithoutMarketStatus(b: Bot, inputs: seq<CycleInput>, maxDailyLoss: real)
    requires b.isRunning
    requires forall i <- inputs :: i.statusFailure == Some(NoMarketStatus)
    ensures var r := Run(b, inputs, maxDailyLoss);
      && r.ledger == b.ledger && r.activeTrades == b.activeTrades && r.strategy == b.strategy
      && r.errors == b.errors + seq(|inputs|, _ => NoMarketStatus)
    decreases |inputs|
  {
    if |inputs| > 0 {
      var c := Cycle(b, inputs[0], maxDailyLoss);
      assert inputs[0] in inputs;
      assert c.errors == b.errors + [NoMarketStatus];
      assert forall i <- inputs[1..] :: i in inputs;
      RunWithoutMarketStatus(c, inputs[1..], maxDailyLoss);
      assert [NoMarketStatus] + seq(|inputs| - 1, _ => NoMarketStatus) == seq(|inputs|, _ => NoMarketStatus);
    }
  }

  // ---------------------------------------------------------------------
  // Status and shutdown

  /** The last (at most) five entries of a list, as `xs[-5:]` gives them. */
  function LastFive<T>(xs: seq<T>): (r: seq<T>)
    ensures |r| == if |xs| < 5 then |xs| else 5
    ensures xs == xs[..|xs| - |r|] + r
  {
    if |xs| < 5 then xs else xs[|xs| - 5..]
  }

  /** `get_status` (and the record `_log_status` builds after its heartbeat). */
  function Status(b: Bot): (s: BotStatus)
    ensures s.isRunning == b.isRunning && s.lastHeartbeat == b.lastHeartbeat
    ensures s.activeTrades == |b.activeTrades| && s.dailyTrades == b.dailyTrades
    ensures s.currentCapital == b.currentCapital && s.dailyPnl == b.dailyPnl
    ensures |s.errors| == (if |b.errors| < 5 then |b.errors| else 5)
    ensures |s.warnings| == (if |b.warnings| < 5 then |b.warnings| else 5)
    ensures b.errors == b.errors[..|b.errors| - |s.errors|] + s.errors
    ensures b.warnings == b.warnings[..|b.warnings| - |s.warnings|] + s.warnings
  {
    BotStatus(b.isRunning, b.lastHeartbeat, |b.activeTrades|, b.dailyTrades, b.currentCapital,
              b.dailyPnl, LastFive(b.errors), LastFive(b.warnings))
  }

  /** `stop`: the bot stops running and closes every position. */
  function Stop(b: Bot, now: Timestamp): (r: Bot)
    ensures !r.isRunning
    ensures r.ledger.portfolio.positions == []
    ensures r.ledger.portfolio.cashBalance
            == b.ledger.portfolio.cashBalance + ValueFrom(b.ledger.portfolio.positions, 0)
    ensures Synced(b.ledger) ==> r.ledger.openSymbols == []
    ensures r == b.(isRunning := false, ledger := r.ledger)
  {
    CloseAllEmpties(b.ledger, now);
    b.(isRunning := false, ledger := CloseAllPositions(b.ledger, now))
  }
}
