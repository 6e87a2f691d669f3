/** The signal pipeline of src/strategy.py: three scoring heuristics
    (momentum, news, technical), the generators that turn scores into signals,
    the filter, the ranking by confidence cut to the day's remaining trade
    budget, the engine's own daily counter, and the re-validation of a signal
    against a fresh quote. */
module Strategy {
  import opened Wrappers
  import opened Seqs
  import opened Models

  datatype StrategyConfig = StrategyConfig(
    minConfidence: real,
    maxPositionSize: real,
    minVolume: int,
    maxDailyTrades: int,
    profitTarget: real,
    stopLoss: real,
    momentumThreshold: real)

  /** The declared defaults of the strategy configuration. */
  function DefaultConfig(): (c: StrategyConfig)
    ensures c.minConfidence == 0.7 && c.maxPositionSize == 0.3 && c.minVolume == 1000000
    ensures c.maxDailyTrades == 20 && c.profitTarget == 0.05 && c.stopLoss == 0.02
    ensures c.momentumThreshold == 0.03
  {
    StrategyConfig(0.7, 0.3, 1000000, 20, 0.05, 0.02, 0.03)
  }

  /** The strategy engine's state: its configuration and its own count of
      trades for the day. */
  datatype Engine = Engine(config: StrategyConfig, dailyTrades: int, lastReset: Date)

  function NewEngine(today: Date): (e: Engine)
    ensures e.config == DefaultConfig() && e.dailyTrades == 0 && e.lastReset == today
  {
    Engine(DefaultConfig(), 0, today)
  }

  /** `_reset_daily_counter`: the count restarts only on a later day. */
  function ResetDailyCounter(e: Engine, today: Date): (r: Engine)
    ensures today > e.lastReset ==> r == e.(dailyTrades := 0, lastReset := today)
    ensures today <= e.lastReset ==> r == e
    ensures r.config == e.config && r.lastReset >= e.lastReset
  {
    if today > e.lastReset then e.(dailyTrades := 0, lastReset := today) else e
  }

  /** A second reset on the same day changes nothing. */
  lemma ResetDailyCounterIdempotent(e: Engine, today: Date)
    ensures ResetDailyCounter(ResetDailyCounter(e, today), today) == ResetDailyCounter(e, today)
  {
  }

  /** `update_trade_count`. */
  function UpdateTradeCount(e: Engine): (r: Engine)
    ensures r.dailyTrades == e.dailyTrades + 1
    ensures r.config == e.config && r.lastReset == e.lastReset
  {
    e.(dailyTrades := e.dailyTrades + 1)
  }

  // ---------------------------------------------------------------------
  // Momentum

  /** `_calculate_momentum_score`; the intraday range is divided by the open
      price, so an open of zero raises (here: `None`). */
  function MomentumScore(d: MarketData): (r: Option<real>)
    ensures r.None? <==> d.open == 0.0
    ensures r.Some? ==> r.value <= 1.0
    ensures r.Some? && d.high >= d.low && d.open > 0.0 && d.volume >= 0 ==> r.value >= 0.0
  {
    if d.open == 0.0 then None
    else
      var base := Min(Abs(d.changePercent) / 10.0, 1.0);
      var volumeFactor := Min(d.volume as real / 10000000.0, 1.0);
      var volatility := (d.high - d.low) / d.open;
      var volatilityFactor := Min(volatility * 10.0, 1.0);
      Some(Min(base * 0.5 + volumeFactor * 0.3 + volatilityFactor * 0.2, 1.0))
  }

  /** The signal the momentum heuristic emits for a mover with the given score. */
  function MomentumSignalOf(c: StrategyConfig, d: MarketData, score: real, now: Timestamp): TradingSignal {
    TradingSignal(None, d.symbol, if d.changePercent > 0.0 then Buy else Sell, score,
                  d.price * (1.0 + (d.changePercent / 100.0) * 0.5),
                  d.price * (1.0 - c.stopLoss),
                  "Momentum signal", now, [],
                  map["momentum_score" := score, "price_change" := d.changePercent,
                      "volume" := d.volume as real])
  }

  /** The momentum heuristic's treatment of one mover: skipped when the move is
      below the threshold or the volume below the floor, emitted when the score
      beats the minimum confidence, and a raise when the score cannot be
      computed. */
  function MomentumSignal(c: StrategyConfig, d: MarketData, now: Timestamp): (r: Result<Option<TradingSignal>>)
    ensures r.Failure? <==>
      Abs(d.changePercent) >= c.momentumThreshold * 100.0 && d.volume >= c.minVolume && d.open == 0.0
    ensures r.Success? && r.value.Some? <==>
      && Abs(d.changePercent) >= c.momentumThreshold * 100.0
      && d.volume >= c.minVolume
      && MomentumScore(d).Some?
      && MomentumScore(d).value > c.minConfidence
    ensures r.Success? && r.value.Some? ==>
      var s := r.value.value;
      && s.symbol == d.symbol
      && s.confidence == MomentumScore(d).value
      && c.minConfidence < s.confidence <= 1.0
      && (s.signalType == Buy <==> d.changePercent > 0.0)
      && (s.signalType != Buy ==> s.signalType == Sell)
      && s.priceTarget == d.price * (1.0 + d.changePercent / 200.0)
      && s.stopLoss == d.price * (1.0 - c.stopLoss)
  {
    if Abs(d.changePercent) < c.momentumThreshold * 100.0 then Success(None)
    else if d.volume < c.minVolume then Success(None)
    else
      match MomentumScore(d)
      case None => Failure("division by zero")
      case Some(score) =>
        if score > c.minConfidence then Success(Some(MomentumSignalOf(c, d, score, now)))
        else Success(None)
  }

  /** The momentum heuristic's signal for one mover, treating a raise as no signal. */
  function MomentumPick(c: StrategyConfig, d: MarketData, now: Timestamp): Option<TradingSignal> {
    match MomentumSignal(c, d, now)
    case Success(o) => o
    case Failure(_) => None
  }

  /** The momentum heuristic's outcome for every mover, position by position. */
  function MomentumPicks(c: StrategyConfig, movers: seq<MarketData>, now: Timestamp)
    : (r: seq<Option<TradingSignal>>)
    ensures |r| == |movers|
    ensures forall i :: 0 <= i < |movers| ==> r[i] == MomentumPick(c, movers[i], now)
  {
    seq(|movers|, i requires 0 <= i < |movers| => MomentumPick(c, movers[i], now))
  }

  /** `_generate_momentum_signals`: one signal per qualifying mover, in order;
      a raise for any mover aborts the whole batch. */
  function MomentumSignals(c: StrategyConfig, movers: seq<MarketData>, now: Timestamp)
    : (r: Result<seq<TradingSignal>>)
    ensures r.Failure? <==> exists i :: 0 <= i < |movers| && MomentumSignal(c, movers[i], now).Failure?
    ensures r.Success? ==> |r.value| <= |movers|
    ensures r.Success? ==> forall s <- r.value ::
      exists d <- movers :: MomentumSignal(c, d, now) == Success(Some(s))
  {
    if |movers| == 0 then Success([])
    else
      match MomentumSignal(c, movers[0], now)
      case Failure(e) => Failure(e)
      case Success(head) =>
        match MomentumSignals(c, movers[1..], now)
        case Failure(e) =>
          assert forall i :: 0 <= i < |movers| - 1 ==> movers[1..][i] == movers[i + 1];
          Failure(e)
        case Success(tail) =>
          assert forall i :: 0 < i < |movers| ==> movers[i] == movers[1..][i - 1];
          assert forall d <- movers[1..] :: d in movers;
          Success((if head.Some? then [head.value] else []) + tail)
  }

  /** The momentum batch, when it does not raise, holds exactly the signals
      of the qualifying movers, in the movers' order. */
  lemma {:induction false} MomentumSignalsInOrder(c: StrategyConfig, movers: seq<MarketData>, now: Timestamp)
    ensures var r := MomentumSignals(c, movers, now);
      r.Success? ==> r.value == Present(MomentumPicks(c, movers, now))
    decreases |movers|
  {
    var r := MomentumSignals(c, movers, now);
    if |movers| > 0 && r.Success? {
      MomentumSignalsInOrder(c, movers[1..], now);
      assert MomentumPicks(c, movers, now)[1..] == MomentumPicks(c, movers[1..], now);
      assert MomentumSignal(c, movers[0], now) == Success(MomentumPicks(c, movers, now)[0]);
    }
  }

  // ---------------------------------------------------------------------
  // News

  const CredibleSources: seq<string> := ["Reuters", "Bloomberg", "CNBC", "MarketWatch"]

  /** Hours between publication and `now`. */
  function HoursOld(now: Timestamp, publishedAt: Timestamp): real {
    (now - publishedAt) as real / 3600.0
  }

  /** The recency factor: decays linearly from 1 to 0 over a day and never
      goes below 0. */
  function RecencyFactor(hoursOld: real): (r: real)
    ensures r >= 0.0
    ensures hoursOld >= 0.0 ==> r <= 1.0
    ensures hoursOld >= 24.0 ==> r == 0.0
  {
    Max(0.0, 1.0 - hoursOld / 24.0)
  }

  /** `_calculate_news_confidence`: impact, plus agreement of sentiment with the
      day's move, plus recency, plus a bonus for a credible source, capped at 1. */
  function NewsConfidence(e: NewsEvent, d: MarketData, hoursOld: real): (r: real)
    ensures r <= 1.0
    ensures r >= Min(e.impactScore, 1.0)
  {
    var alignment :=
      if e.sentiment == Bullish && d.changePercent > 0.0 then 0.2
      else if e.sentiment == Bearish && d.changePercent < 0.0 then 0.2
      else 0.0;
    var credibility := if e.source in CredibleSources then 0.1 else 0.0;
    Min(e.impactScore + alignment + RecencyFactor(hoursOld) + credibility, 1.0)
  }

  /** The news heuristic for one symbol of one event, given that symbol's quote. */
  function NewsSignal(c: StrategyConfig, e: NewsEvent, symbol: string, quote: Option<MarketData>,
                      now: Timestamp): (r: Option<TradingSignal>)
    ensures quote.None? ==> r.None?
    ensures r.Some? <==>
      quote.Some? && NewsConfidence(e, quote.value, HoursOld(now, e.publishedAt)) > c.minConfidence
    ensures r.Some? ==>
      var s := r.value;
      var price := quote.value.price;
      && s.symbol == symbol
      && c.minConfidence < s.confidence <= 1.0
      && (s.signalType == Buy <==> e.sentiment == Bullish)
      && (s.signalType != Buy ==> s.signalType == Sell)
      && s.priceTarget == (if e.sentiment == Bullish then price * (1.0 + c.profitTarget)
                           else price * (1.0 - c.profitTarget))
      && s.stopLoss == price * (1.0 - c.stopLoss)
      && s.newsEvents == [e]
  {
    match quote
    case None => None
    case Some(d) =>
      var confidence := NewsConfidence(e, d, HoursOld(now, e.publishedAt));
      if confidence > c.minConfidence then
        var target := if e.sentiment == Bullish then d.price * (1.0 + c.profitTarget)
                      else d.price * (1.0 - c.profitTarget);
        var title := if |e.title| <= 50 then e.title else e.title[..50];
        Some(TradingSignal(None, symbol, if e.sentiment == Bullish then Buy else Sell, confidence,
                           target, d.price * (1.0 - c.stopLoss),
                           "News signal: " + title + "...", now, [e], map[]))
      else None
  }

  /** What the news generator promises of every signal it emits for event `e`. */
  predicate NewsSound(c: StrategyConfig, s: TradingSignal, quotes: QuoteBook) {
    && |s.newsEvents| == 1
    && s.newsEvents[0].impactScore >= 0.7
    && s.symbol in s.newsEvents[0].symbols
    && s.symbol in quotes
    && c.minConfidence < s.confidence <= 1.0
    && (s.signalType == Buy <==> s.newsEvents[0].sentiment == Bullish)
    && (s.signalType != Buy ==> s.signalType == Sell)
    && s.priceTarget == (if s.newsEvents[0].sentiment == Bullish
                         then quotes[s.symbol].price * (1.0 + c.profitTarget)
                         else quotes[s.symbol].price * (1.0 - c.profitTarget))
  }

  /** The news heuristic's outcome for every symbol of `symbols`, position by position. */
  function NewsPicks(c: StrategyConfig, e: NewsEvent, symbols: seq<string>, quotes: QuoteBook,
                     now: Timestamp): (r: seq<Option<TradingSignal>>)
    ensures |r| == |symbols|
    ensures forall j :: 0 <= j < |symbols| ==>
      r[j] == NewsSignal(c, e, symbols[j], QuoteFor(quotes, symbols[j]), now)
  {
    seq(|symbols|, j requires 0 <= j < |symbols| =>
      NewsSignal(c, e, symbols[j], QuoteFor(quotes, symbols[j]), now))
  }

  /** The inner loop over one event's symbols. */
  function EventSignals(c: StrategyConfig, e: NewsEvent, symbols: seq<string>, quotes: QuoteBook,
                        now: Timestamp): (r: seq<TradingSignal>)
    requires e.impactScore >= 0.7
    requires forall sym <- symbols :: sym in e.symbols
    ensures |r| <= |symbols|
    ensures forall s <- r :: NewsSound(c, s, quotes) && s.newsEvents == [e]
  {
    if |symbols| == 0 then []
    else
      var head := NewsSignal(c, e, symbols[0], QuoteFor(quotes, symbols[0]), now);
      assert forall sym <- symbols[1..] :: sym in symbols;
      (if head.Some? then [head.value] else []) + EventSignals(c, e, symbols[1..], quotes, now)
  }

  /** One event's signals are exactly those of its quoted symbols whose
      confidence clears the bar, in the symbols' order. */
  lemma {:induction false} EventSignalsInOrder(c: StrategyConfig, e: NewsEvent, symbols: seq<string>,
                                               quotes: QuoteBook, now: Timestamp)
    requires e.impactScore >= 0.7
    requires forall sym <- symbols :: sym in e.symbols
    ensures EventSignals(c, e, symbols, quotes, now) == Present(NewsPicks(c, e, symbols, quotes, now))
    decreases |symbols|
  {
    if |symbols| > 0 {
      assert forall sym <- symbols[1..] :: sym in symbols;
      EventSignalsInOrder(c, e, symbols[1..], quotes, now);
      assert NewsPicks(c, e, symbols, quotes, now)[1..] == NewsPicks(c, e, symbols[1..], quotes, now);
    }
  }

  /** What `_generate_news_signals` emits for one event: nothing for an event
      below 0.7 impact or naming no symbol, else one signal per symbol. */
  function EventBatch(c: StrategyConfig, e: NewsEvent, quotes: QuoteBook, now: Timestamp)
    : seq<TradingSignal>
  {
    if e.impactScore < 0.7 then []
    else if |e.symbols| == 0 then []
    else EventSignals(c, e, e.symbols, quotes, now)
  }

  /** What each event of `events` yields, position by position. */
  function EventBatches(c: StrategyConfig, events: seq<NewsEvent>, quotes: QuoteBook, now: Timestamp)
    : (r: seq<seq<TradingSignal>>)
    ensures |r| == |events|
    ensures forall i :: 0 <= i < |events| ==> r[i] == EventBatch(c, events[i], quotes, now)
  {
    seq(|events|, i requires 0 <= i < |events| => EventBatch(c, events[i], quotes, now))
  }

  /** `_generate_news_signals`: events below 0.7 impact, or naming no symbol,
      are skipped; so are symbols the market source has no quote for. */
  function NewsSignals(c: StrategyConfig, events: seq<NewsEvent>, quotes: QuoteBook, now: Timestamp)
    : (r: seq<TradingSignal>)
    ensures forall s <- r :: NewsSound(c, s, quotes) && s.newsEvents[0] in events
    ensures (forall e <- events :: e.impactScore < 0.7 || e.symbols == []) ==> r == []
  {
    if |events| == 0 then []
    else
      var head := EventBatch(c, events[0], quotes, now);
      assert forall x <- events[1..] :: x in events;
      head + NewsSignals(c, events[1..], quotes, now)
  }

  /** The news batch is the events' own signal lists joined in event order. */
  lemma {:induction false} NewsSignalsInOrder(c: StrategyConfig, events: seq<NewsEvent>, quotes: QuoteBook,
                                              now: Timestamp)
    ensures NewsSignals(c, events, quotes, now) == Flatten(EventBatches(c, events, quotes, now))
    decreases |events|
  {
    if |events| > 0 {
      NewsSignalsInOrder(c, events[1..], quotes, now);
      assert EventBatches(c, events, quotes, now)[1..] == EventBatches(c, events[1..], quotes, now);
    }
  }

  /** Events are handled independently: the news batch of two event lists
      is the two batches joined. */
  lemma NewsSignalsAppend(c: StrategyConfig, a: seq<NewsEvent>, b: seq<NewsEvent>, quotes: QuoteBook,
                          now: Timestamp)
    ensures NewsSignals(c, a + b, quotes, now) == NewsSignals(c, a, quotes, now) + NewsSignals(c, b, quotes, now)
  {
    NewsSignalsInOrder(c, a + b, quotes, now);
    NewsSignalsInOrder(c, a, quotes, now);
    NewsSignalsInOrder(c, b, quotes, now);
    EventBatchesAppend(c, a, b, quotes, now);
    FlattenAppend(EventBatches(c, a, quotes, now), EventBatches(c, b, quotes, now));
  }

  lemma EventBatchesAppend(c: StrategyConfig, a: seq<NewsEvent>, b: seq<NewsEvent>, quotes: QuoteBook,
                           now: Timestamp)
    ensures EventBatches(c, a + b, quotes, now) == EventBatches(c, a, quotes, now) + EventBatches(c, b, quotes, now)
  {
    var whole, parts := EventBatches(c, a + b, quotes, now),
                        EventBatches(c, a, quotes, now) + EventBatches(c, b, quotes, now);
    forall i | 0 <= i < |a + b|
      ensures whole[i] == parts[i]
    {
      if i < |a| {
        assert (a + b)[i] == a[i];
      } else {
        assert (a + b)[i] == b[i - |a|];
      }
    }
  }

  // ---------------------------------------------------------------------
  // Technical

  /** `_calculate_rsi`: a stand-in taking one of three values. */
  function Rsi(d: MarketData): (r: real)
    ensures r == 40.0 || r == 50.0 || r == 60.0
    ensures r == 50.0 <==> d.previousClose == 0.0
    ensures r == 60.0 <==> d.previousClose != 0.0 && d.price > d.previousClose
  {
    if d.previousClose == 0.0 then 50.0
    else if d.price - d.previousClose > 0.0 then 60.0
    else 40.0
  }

  /** `_calculate_macd`: the relative change from the previous close. */
  function Macd(d: MarketData): (r: real)
    ensures r != 0.0 <==> d.previousClose != 0.0 && d.price != d.previousClose
    ensures d.previousClose > 0.0 ==> (r > 0.0 <==> d.price > d.previousClose)
  {
    if d.previousClose == 0.0 then 0.0
    else (d.price - d.previousClose) / d.previousClose
  }

  /** `_calculate_technical_score`.  The RSI stand-in never leaves [30, 70], so
      its part is always 0 and the score is at most 0.5. */
  function TechnicalScore(d: MarketData): (r: real)
    ensures 0.0 <= r <= 0.5
    ensures r == (if Macd(d) != 0.0 then 0.2 else 0.0)
               + (if d.changePercent > 5.0 || d.changePercent < -5.0 then 0.3 else 0.0)
  {
    var rsi := Rsi(d);
    var macd := Macd(d);
    var rsiScore := if rsi < 30.0 then 0.3 else if rsi > 70.0 then 0.3 else 0.0;
    var macdScore := if macd > 0.0 then 0.2 else if macd < 0.0 then 0.2 else 0.0;
    var priceScore := if d.changePercent > 5.0 then 0.3 else if d.changePercent < -5.0 then 0.3 else 0.0;
    Min(rsiScore + macdScore + priceScore, 1.0)
  }

  /** The technical heuristic for one mover: emitted when the score beats the
      minimum confidence; BUY only above 0.8, which the score never reaches. */
  function TechnicalSignal(c: StrategyConfig, d: MarketData, now: Timestamp): (r: Option<TradingSignal>)
    ensures r.Some? <==> TechnicalScore(d) > c.minConfidence
    ensures r.Some? ==>
      && r.value.symbol == d.symbol
      && r.value.signalType == Sell
      && r.value.confidence == TechnicalScore(d)
      && r.value.priceTarget == d.price * (1.0 + c.profitTarget)
      && r.value.stopLoss == d.price * (1.0 - c.stopLoss)
  {
    var score := TechnicalScore(d);
    if score > c.minConfidence then
      Some(TradingSignal(None, d.symbol, if score > 0.8 then Buy else Sell, score,
                         d.price * (1.0 + c.profitTarget), d.price * (1.0 - c.stopLoss),
                         "Technical analysis signal", now, [],
                         map["technical_score" := score, "rsi" := Rsi(d), "macd" := Macd(d)]))
    else None
  }

  /** The technical heuristic's outcome for every mover, position by position. */
  function TechnicalPicks(c: StrategyConfig, movers: seq<MarketData>, now: Timestamp)
    : (r: seq<Option<TradingSignal>>)
    ensures |r| == |movers|
    ensures forall i :: 0 <= i < |movers| ==> r[i] == TechnicalSignal(c, movers[i], now)
  {
    seq(|movers|, i requires 0 <= i < |movers| => TechnicalSignal(c, movers[i], now))
  }

  /** `_generate_technical_signals`. */
  function TechnicalSignals(c: StrategyConfig, movers: seq<MarketData>, now: Timestamp)
    : (r: seq<TradingSignal>)
    ensures |r| <= |movers|
    ensures forall s <- r :: s.signalType == Sell && c.minConfidence < s.confidence <= 0.5
    ensures forall s <- r :: exists d <- movers :: TechnicalSignal(c, d, now) == Some(s)
  {
    if |movers| == 0 then []
    else
      var head := TechnicalSignal(c, movers[0], now);
      assert forall d <- movers[1..] :: d in movers;
      (if head.Some? then [head.value] else []) + TechnicalSignals(c, movers[1..], now)
  }

  /** The technical batch holds exactly the signals of the qualifying movers,
      in the movers' order. */
  lemma {:induction false} TechnicalSignalsInOrder(c: StrategyConfig, movers: seq<MarketData>, now: Timestamp)
    ensures TechnicalSignals(c, movers, now) == Present(TechnicalPicks(c, movers, now))
    decreases |movers|
  {
    if |movers| > 0 {
      TechnicalSignalsInOrder(c, movers[1..], now);
      assert TechnicalPicks(c, movers, now)[1..] == TechnicalPicks(c, movers[1..], now);
    }
  }

  /** Movers are scored independently: the technical batch of two mover
      lists is the two batches joined. */
  lemma TechnicalSignalsAppend(c: StrategyConfig, a: seq<MarketData>, b: seq<MarketData>, now: Timestamp)
    ensures TechnicalSignals(c, a + b, now) == TechnicalSignals(c, a, now) + TechnicalSignals(c, b, now)
  {
    TechnicalSignalsInOrder(c, a + b, now);
    TechnicalSignalsInOrder(c, a, now);
    TechnicalSignalsInOrder(c, b, now);
    TechnicalPicksAppend(c, a, b, now);
    PresentAppend(TechnicalPicks(c, a, now), TechnicalPicks(c, b, now));
  }

  lemma TechnicalPicksAppend(c: StrategyConfig, a: seq<MarketData>, b: seq<MarketData>, now: Timestamp)
    ensures TechnicalPicks(c, a + b, now) == TechnicalPicks(c, a, now) + TechnicalPicks(c, b, now)
  {
    var whole, parts := TechnicalPicks(c, a + b, now), TechnicalPicks(c, a, now) + TechnicalPicks(c, b, now);
    forall i | 0 <= i < |a + b|
      ensures whole[i] == parts[i]
    {
      if i < |a| {
        assert (a + b)[i] == a[i];
      } else {
        assert (a + b)[i] == b[i - |a|];
      }
    }
  }

  /** With a minimum confidence of 0.5 or more (the default is 0.7) the
      technical heuristic never emits a signal. */
  lemma {:induction false} TechnicalSilentByDefault(c: StrategyConfig, movers: seq<MarketData>, now: Timestamp)
    requires c.minConfidence >= 0.5
    ensures TechnicalSignals(c, movers, now) == []
    decreases |movers|
  {
    if |movers| > 0 {
      assert TechnicalSignal(c, movers[0], now).None?;
      TechnicalSilentByDefault(c, movers[1..], now);
    }
  }

  // ---------------------------------------------------------------------
  // Filtering and ranking

  /** `_filter_signals`' test: not already held, confident enough, and a
      target no more than twice the stop. */
  predicate Keep(c: StrategyConfig, s: TradingSignal, held: seq<string>) {
    && s.symbol !in held
    && s.confidence >= c.minConfidence
    && s.priceTarget <= s.stopLoss * 2.0
  }

  predicate IsSubsequence<T(==)>(a: seq<T>, b: seq<T>)
    decreases |b|
  {
    if |a| == 0 then true
    else if |b| == 0 then false
    else if a[0] == b[0] then IsSubsequence(a[1..], b[1..])
    else IsSubsequence(a, b[1..])
  }

  /** `_filter_signals`: the order-preserving subsequence of the kept signals,
      each kept one as often as it occurs. */
  function FilterSignals(c: StrategyConfig, signals: seq<TradingSignal>, held: seq<string>)
    : (r: seq<TradingSignal>)
    ensures IsSubsequence(r, signals)
    ensures forall s <- r :: Keep(c, s, held)
    ensures forall s :: multiset(r)[s] == if Keep(c, s, held) then multiset(signals)[s] else 0
  {
    if |signals| == 0 then []
    else
      var rest := FilterSignals(c, signals[1..], held);
      assert signals == [signals[0]] + signals[1..];
      if Keep(c, signals[0], held) then
        assert ([signals[0]] + rest)[1..] == rest;
        [signals[0]] + rest
      else
        SubsequenceSkip(rest, signals);
        rest
  }

  /** A subsequence takes no element more often than it occurs. */
  lemma {:induction false} SubsequenceMultiset<T>(a: seq<T>, b: seq<T>)
    requires IsSubsequence(a, b)
    ensures multiset(a) <= multiset(b)
    decreases |b|
  {
    if |a| > 0 {
      assert b == [b[0]] + b[1..];
      if a[0] == b[0] {
        SubsequenceMultiset(a[1..], b[1..]);
        assert a == [a[0]] + a[1..];
      } else {
        SubsequenceMultiset(a, b[1..]);
      }
    }
  }

  /** The contract of `FilterSignals` determines its result: any ordered
      subsequence of kept signals holding each kept signal as often as the
      input does is the filter's output. */
  lemma {:induction false} FilterUnique(c: StrategyConfig, signals: seq<TradingSignal>, held: seq<string>,
                                        r: seq<TradingSignal>)
    requires IsSubsequence(r, signals)
    requires forall s <- r :: Keep(c, s, held)
    requires forall s :: multiset(r)[s] == if Keep(c, s, held) then multiset(signals)[s] else 0
    ensures r == FilterSignals(c, signals, held)
    decreases |signals|
  {
    if |signals| > 0 {
      var h, t := signals[0], signals[1..];
      assert signals == [h] + t;
      if Keep(c, h, held) {
        assert multiset(r)[h] > 0;
        assert h in r;
        if r[0] != h {
          SubsequenceMultiset(r, t);
          assert false;
        }
        assert r == [h] + r[1..];
        forall s ensures multiset(r[1..])[s] == if Keep(c, s, held) then multiset(t)[s] else 0 {
        }
        FilterUnique(c, t, held, r[1..]);
        assert FilterSignals(c, signals, held) == [h] + FilterSignals(c, t, held);
      } else {
        if |r| > 0 {
          assert r[0] in r;
        }
        assert IsSubsequence(r, t);
        forall s ensures multiset(r)[s] == if Keep(c, s, held) then multiset(t)[s] else 0 {
          if Keep(c, s, held) {
            assert s != h;
          }
        }
        FilterUnique(c, t, held, r);
      }
    }
  }

  lemma SubsequenceSkip<T>(a: seq<T>, b: seq<T>)
    requires |b| > 0 && IsSubsequence(a, b[1..])
    ensures IsSubsequence(a, b)
    decreases |a| + |b|
  {
    if |a| > 0 && a[0] == b[0] {
      SubsequenceTail(a, b[1..]);
    }
  }

  lemma SubsequenceTail<T>(a: seq<T>, b: seq<T>)
    requires |a| > 0 && IsSubsequence(a, b)
    ensures IsSubsequence(a[1..], b)
    decreases |a| + |b|
  {
    if a[0] == b[0] {
      SubsequenceSkip(a[1..], b);
    } else {
      SubsequenceTail(a, b[1..]);
      SubsequenceSkip(a[1..], b);
    }
  }

  predicate NonIncreasing(s: seq<TradingSignal>) {
    forall i, j :: 0 <= i < j < |s| ==> s[i].confidence >= s[j].confidence
  }

  /** Inserts `x` before the first element it is at least as confident as, so
      that among equal confidences the earlier signal stays first. */
  function InsertByConfidence(x: TradingSignal, s: seq<TradingSignal>): (r: seq<TradingSignal>)
    requires NonIncreasing(s)
    ensures NonIncreasing(r)
    ensures multiset(r) == multiset(s) + multiset{x}
  {
    if |s| == 0 || x.confidence >= s[0].confidence then
      HeadIsMost(s);
      PrependNonIncreasing(x, s);
      [x] + s
    else
      var rest := InsertByConfidence(x, s[1..]);
      InsertBelowHead(x, s, rest);
      [s[0]] + rest
  }

  /** The head of a ranked list is at least as confident as all of it. */
  lemma HeadIsMost(s: seq<TradingSignal>)
    requires NonIncreasing(s)
    ensures |s| > 0 ==> forall z <- s :: z.confidence <= s[0].confidence
  {
  }

  lemma PrependNonIncreasing(y: TradingSignal, s: seq<TradingSignal>)
    requires NonIncreasing(s)
    requires forall z <- s :: z.confidence <= y.confidence
    ensures NonIncreasing([y] + s)
  {
    var r := [y] + s;
    forall i, j | 0 <= i < j < |r|
      ensures r[i].confidence >= r[j].confidence
    {
      assert r[j] == s[j - 1] && s[j - 1] in s;
      if i > 0 {
        assert r[i] == s[i - 1];
      }
    }
  }

  /** The recursive case of the insertion: the head stays in front of the
      insertion into the tail. */
  lemma InsertBelowHead(x: TradingSignal, s: seq<TradingSignal>, rest: seq<TradingSignal>)
    requires NonIncreasing(s) && |s| > 0 && x.confidence < s[0].confidence
    requires NonIncreasing(rest) && multiset(rest) == multiset(s[1..]) + multiset{x}
    ensures NonIncreasing([s[0]] + rest)
    ensures multiset([s[0]] + rest) == multiset(s) + multiset{x}
  {
    assert s == [s[0]] + s[1..];
    HeadIsMost(s);
    forall z <- rest
      ensures z.confidence <= s[0].confidence
    {
      assert z in multiset(rest);
      if z != x {
        assert z in multiset(s[1..]);
        assert z in s;
      }
    }
    PrependNonIncreasing(s[0], rest);
  }

  /** Python's `sorted(..., key=confidence, reverse=True)`: a stable sort into
      non-increasing confidence. */
  function SortByConfidence(s: seq<TradingSignal>): (r: seq<TradingSignal>)
    ensures NonIncreasing(r)
    ensures multiset(r) == multiset(s)
    ensures |r| == |s|
  {
    if |s| == 0 then []
    else
      assert s == [s[0]] + s[1..];
      InsertByConfidence(s[0], SortByConfidence(s[1..]))
  }

  /** The signals of confidence exactly `c`, in order. */
  function WithConfidence(s: seq<TradingSignal>, c: real): seq<TradingSignal> {
    if |s| == 0 then []
    else (if s[0].confidence == c then [s[0]] else []) + WithConfidence(s[1..], c)
  }

  lemma {:induction false} InsertStable(x: TradingSignal, s: seq<TradingSignal>, c: real)
    requires NonIncreasing(s)
    ensures WithConfidence(InsertByConfidence(x, s), c) == WithConfidence([x] + s, c)
    decreases |s|
  {
    if |s| == 0 || x.confidence >= s[0].confidence {
    } else {
      var rest := InsertByConfidence(x, s[1..]);
      assert InsertByConfidence(x, s) == [s[0]] + rest;
      InsertStable(x, s[1..], c);
      var w := WithConfidence(s[1..], c);
      WithConfidenceCons(x, s[1..], c);
      WithConfidenceCons(s[0], rest, c);
      assert s == [s[0]] + s[1..];
      WithConfidenceCons(s[0], s[1..], c);
      WithConfidenceCons(x, s, c);
      if s[0].confidence == c {
        assert WithConfidence(rest, c) == w;
        assert WithConfidence([x] + s, c) == WithConfidence(s, c) == [s[0]] + w;
      } else {
        assert WithConfidence(s, c) == w;
      }
    }
  }

  lemma WithConfidenceCons(y: TradingSignal, t: seq<TradingSignal>, c: real)
    ensures WithConfidence([y] + t, c) == (if y.confidence == c then [y] else []) + WithConfidence(t, c)
  {
    assert ([y] + t)[1..] == t;
  }

  /** The sort is stable: for every confidence value, the signals with that
      confidence keep their relative order. */
  lemma {:induction false} SortStable(s: seq<TradingSignal>, c: real)
    ensures WithConfidence(SortByConfidence(s), c) == WithConfidence(s, c)
    decreases |s|
  {
    if |s| > 0 {
      SortStable(s[1..], c);
      InsertStable(s[0], SortByConfidence(s[1..]), c);
      assert ([s[0]] + SortByConfidence(s[1..]))[1..] == SortByConfidence(s[1..]);
      assert ([s[0]] + s[1..]) == s;
    }
  }

  // ---------------------------------------------------------------------
  // Generation and validation

  /** The filtered candidates of all three heuristics, or the raise of the
      momentum heuristic. */
  function Candidates(c: StrategyConfig, held: seq<string>, movers: seq<MarketData>,
                      news: seq<NewsEvent>, quotes: QuoteBook, now: Timestamp)
    : (r: Result<seq<TradingSignal>>)
    ensures r.Failure? <==> MomentumSignals(c, movers, now).Failure?
    ensures r.Success? ==> forall s <- r.value :: Keep(c, s, held)
    ensures r.Success? ==>
      var all := MomentumSignals(c, movers, now).value + NewsSignals(c, news, quotes, now)
                 + TechnicalSignals(c, movers, now);
      && IsSubsequence(r.value, all)
      && forall s :: multiset(r.value)[s] == if Keep(c, s, held) then multiset(all)[s] else 0
  {
    match MomentumSignals(c, movers, now)
    case Failure(e) => Failure(e)
    case Success(momentum) =>
      Success(FilterSignals(c, momentum + NewsSignals(c, news, quotes, now) + TechnicalSignals(c, movers, now), held))
  }

  /** Cutting a ranked list splits its multiset in two, with everything kept
      at least as confident as everything cut. */
  lemma PrefixIsTop(sorted: seq<TradingSignal>, n: nat)
    requires NonIncreasing(sorted) && n <= |sorted|
    ensures NonIncreasing(sorted[..n])
    ensures multiset(sorted) - multiset(sorted[..n]) == multiset(sorted[n..])
    ensures forall x <- sorted[..n], y <- multiset(sorted[n..]) :: x.confidence >= y.confidence
  {
    assert sorted == sorted[..n] + sorted[n..];
    PrefixAboveSuffix(sorted, n);
    forall x <- sorted[..n], y <- multiset(sorted[n..])
      ensures x.confidence >= y.confidence
    {
      assert y in sorted[n..];
    }
  }

  lemma PrefixAboveSuffix(sorted: seq<TradingSignal>, n: nat)
    requires NonIncreasing(sorted) && n <= |sorted|
    ensures forall x <- sorted[..n], y <- sorted[n..] :: x.confidence >= y.confidence
  {
    forall x <- sorted[..n], y <- sorted[n..]
      ensures x.confidence >= y.confidence
    {
      var i :| 0 <= i < n && sorted[..n][i] == x;
      var j :| 0 <= j < |sorted| - n && sorted[n..][j] == y;
      assert sorted[i] == x && sorted[n + j] == y;
    }
  }

  /** The prefix of a ranked permutation of `cands` is a top selection of them. */
  lemma PrefixOfRankedIsTop(cands: seq<TradingSignal>, sorted: seq<TradingSignal>, n: nat)
    requires NonIncreasing(sorted) && multiset(sorted) == multiset(cands) && n <= |sorted|
    ensures NonIncreasing(sorted[..n])
    ensures multiset(sorted[..n]) <= multiset(cands)
    ensures forall x <- sorted[..n], y <- multiset(cands) - multiset(sorted[..n]) :: x.confidence >= y.confidence
  {
    PrefixIsTop(sorted, n);
    assert sorted == sorted[..n] + sorted[n..];
  }

  /** The `budget` most confident candidates, most confident first: no
      candidate left out is more confident than one kept. */
  function Rank(cands: seq<TradingSignal>, budget: nat): (r: seq<TradingSignal>)
    ensures |r| == (if |cands| < budget then |cands| else budget)
    ensures NonIncreasing(r)
    ensures multiset(r) <= multiset(cands)
    ensures forall x <- r, y <- multiset(cands) - multiset(r) :: x.confidence >= y.confidence
    ensures forall conf :: WithConfidence(r, conf) <= WithConfidence(cands, conf)
  {
    var sorted := SortByConfidence(cands);
    var n := if |sorted| < budget then |sorted| else budget;
    PrefixOfRankedIsTop(cands, sorted, n);
    CutKeepsEarliest(cands, n);
    sorted[..n]
  }

  /** Of the signals tied at any confidence, a cut of the stable sort keeps the
      earliest ones of the input. */
  lemma CutKeepsEarliest(cands: seq<TradingSignal>, n: nat)
    requires n <= |cands|
    ensures forall conf :: WithConfidence(SortByConfidence(cands)[..n], conf) <= WithConfidence(cands, conf)
  {
    var sorted := SortByConfidence(cands);
    forall conf ensures WithConfidence(sorted[..n], conf) <= WithConfidence(cands, conf) {
      WithConfidencePrefix(sorted, n, conf);
      SortStable(cands, conf);
    }
  }

  /** The signals of one confidence in a prefix are a prefix of those in the whole. */
  lemma {:induction false} WithConfidencePrefix(s: seq<TradingSignal>, n: nat, conf: real)
    requires n <= |s|
    ensures WithConfidence(s[..n], conf) <= WithConfidence(s, conf)
    decreases n
  {
    if n > 0 {
      WithConfidencePrefix(s[1..], n - 1, conf);
      assert s[..n] == [s[0]] + s[1..][..n - 1];
      assert s == [s[0]] + s[1..];
      WithConfidenceCons(s[0], s[1..][..n - 1], conf);
      WithConfidenceCons(s[0], s[1..], conf);
    }
  }

  datatype Generated = Generated(engine: Engine, signals: seq<TradingSignal>)

  /** `generate_signals`: after the engine's daily reset, nothing once the day's
      trade budget is used up (or when a heuristic raised); otherwise the
      filtered candidates ranked by confidence and cut to the remaining budget. */
  function GenerateSignals(e: Engine, today: Date, held: seq<string>, movers: seq<MarketData>,
                           news: seq<NewsEvent>, quotes: QuoteBook, now: Timestamp)
    : (r: Generated)
    ensures r.engine == ResetDailyCounter(e, today)
    ensures |r.signals| <= Budget(r.engine)
    ensures Budget(r.engine) == 0 ==> r.signals == []
    ensures Budget(r.engine) > 0 ==>
      var cands := Candidates(e.config, held, movers, news, quotes, now);
      && (cands.Failure? ==> r.signals == [])
      && (cands.Success? ==> r.signals == Rank(cands.value, Budget(r.engine)))
  {
    var e1 := ResetDailyCounter(e, today);
    if e1.dailyTrades >= e1.config.maxDailyTrades then Generated(e1, [])
    else
      match Candidates(e1.config, held, movers, news, quotes, now)
      case Failure(_) => Generated(e1, [])
      case Success(filtered) => Generated(e1, Rank(filtered, Budget(e1)))
  }

  /** Every generated signal passed the filter, and the list is ranked by
      confidence. */
  lemma GeneratedSignalsKept(e: Engine, today: Date, held: seq<string>, movers: seq<MarketData>,
                             news: seq<NewsEvent>, quotes: QuoteBook, now: Timestamp)
    ensures var r := GenerateSignals(e, today, held, movers, news, quotes, now);
      && NonIncreasing(r.signals)
      && (forall s <- r.signals :: Keep(e.config, s, held))
  {
    var r := GenerateSignals(e, today, held, movers, news, quotes, now);
    var cands := Candidates(e.config, held, movers, news, quotes, now);
    if Budget(r.engine) > 0 && cands.Success? {
      assert forall s <- r.signals :: s in multiset(cands.value);
    }
  }

  /** The trades left in the engine's day, never negative. */
  function Budget(e: Engine): nat {
    if e.dailyTrades >= e.config.maxDailyTrades then 0 else e.config.maxDailyTrades - e.dailyTrades
  }

  /** `validate_signal`: rejected without a fresh quote; a BUY when the price
      has already passed its target, any other side when the price has fallen
      below its target; and on too little volume. */
  function ValidateSignal(c: StrategyConfig, s: TradingSignal, quote: Option<MarketData>): (r: bool)
    ensures r <==>
      && quote.Some?
      && (s.signalType == Buy ==> quote.value.price <= s.priceTarget)
      && (s.signalType != Buy ==> quote.value.price >= s.priceTarget)
      && quote.value.volume >= c.minVolume
  {
    match quote
    case None => false
    case Some(d) =>
      if s.signalType == Buy && d.price > s.priceTarget then false
      else if s.signalType != Buy && d.price < s.priceTarget then false
      else if d.volume < c.minVolume then false
      else true
  }

  // ---------------------------------------------------------------------
  // Properties across the pipeline

  /** Every price the movers report is non-negative. */
  predicate NonNegativeMovers(movers: seq<MarketData>) {
    forall d <- movers :: d.price >= 0.0
  }

  predicate BuysNonNegative(signals: seq<TradingSignal>) {
    forall s <- signals :: s.signalType == Buy ==> s.priceTarget >= 0.0
  }

  lemma {:induction false} MomentumBuysNonNegative(c: StrategyConfig, movers: seq<MarketData>, now: Timestamp)
    requires NonNegativeMovers(movers)
    ensures var m := MomentumSignals(c, movers, now); m.Success? ==> BuysNonNegative(m.value)
  {
    var m := MomentumSignals(c, movers, now);
    if m.Success? {
      forall s <- m.value | s.signalType == Buy
        ensures s.priceTarget >= 0.0
      {
        var d :| d in movers && MomentumSignal(c, d, now) == Success(Some(s));
        MomentumBuyTarget(c, d, s, now);
      }
    }
  }

  lemma MomentumBuyTarget(c: StrategyConfig, d: MarketData, s: TradingSignal, now: Timestamp)
    requires MomentumSignal(c, d, now) == Success(Some(s)) && d.price >= 0.0 && s.signalType == Buy
    ensures s.priceTarget >= 0.0
  {
    assert d.changePercent > 0.0;
    assert s.priceTarget == d.price * (1.0 + d.changePercent / 200.0);
  }

  lemma NewsBuysNonNegative(c: StrategyConfig, news: seq<NewsEvent>, quotes: QuoteBook, now: Timestamp)
    requires NonNegativePrices(quotes) && c.profitTarget >= -1.0
    ensures BuysNonNegative(NewsSignals(c, news, quotes, now))
  {
    var r := NewsSignals(c, news, quotes, now);
    forall s <- r | s.signalType == Buy
      ensures s.priceTarget >= 0.0
    {
      NewsBuyTarget(c, s, quotes);
    }
  }

  lemma NewsBuyTarget(c: StrategyConfig, s: TradingSignal, quotes: QuoteBook)
    requires NewsSound(c, s, quotes) && NonNegativePrices(quotes) && c.profitTarget >= -1.0
    requires s.signalType == Buy
    ensures s.priceTarget >= 0.0
  {
    var price := quotes[s.symbol].price;
    assert price >= 0.0;
    assert s.priceTarget == price * (1.0 + c.profitTarget);
    ProductNonNegative(price, 1.0 + c.profitTarget);
  }

  lemma ProductNonNegative(a: real, b: real)
    requires a >= 0.0 && b >= 0.0
    ensures a * b >= 0.0
  {
  }

  /** Filtering keeps only signals of its input. */
  lemma FilterMembers(c: StrategyConfig, signals: seq<TradingSignal>, held: seq<string>)
    ensures forall s <- FilterSignals(c, signals, held) :: s in signals
  {
    var r := FilterSignals(c, signals, held);
    forall s <- r ensures s in signals {
      assert multiset(r)[s] > 0;
    }
  }

  /** The BUY candidates of all three heuristics have non-negative targets
      when prices are non-negative and the profit target is above -100%. */
  lemma CandidateBuysNonNegative(c: StrategyConfig, held: seq<string>, movers: seq<MarketData>,
                                 news: seq<NewsEvent>, quotes: QuoteBook, now: Timestamp)
    requires NonNegativeMovers(movers) && NonNegativePrices(quotes)
    requires c.profitTarget >= -1.0
    ensures var cands := Candidates(c, held, movers, news, quotes, now);
      cands.Success? ==> BuysNonNegative(cands.value)
  {
    var m := MomentumSignals(c, movers, now);
    if m.Success? {
      MomentumBuysNonNegative(c, movers, now);
      NewsBuysNonNegative(c, news, quotes, now);
      var all := m.value + NewsSignals(c, news, quotes, now) + TechnicalSignals(c, movers, now);
      assert BuysNonNegative(all);
      FilterMembers(c, all, held);
    }
  }

  /** With non-negative prices and a profit target above -100%, every BUY
      signal the pipeline produces has a non-negative target, so sizing a BUY
      never yields a negative quantity. */
  lemma BuyTargetsNonNegative(e: Engine, today: Date, held: seq<string>, movers: seq<MarketData>,
                              news: seq<NewsEvent>, quotes: QuoteBook, now: Timestamp)
    requires NonNegativeMovers(movers) && NonNegativePrices(quotes)
    requires e.config.profitTarget >= -1.0
    ensures forall s <- GenerateSignals(e, today, held, movers, news, quotes, now).signals ::
      s.signalType == Buy ==> s.priceTarget >= 0.0
  {
    var r := GenerateSignals(e, today, held, movers, news, quotes, now);
    var cands := Candidates(e.config, held, movers, news, quotes, now);
    CandidateBuysNonNegative(e.config, held, movers, news, quotes, now);
    if Budget(r.engine) > 0 && cands.Success? {
      assert forall s <- r.signals :: s in multiset(cands.value);
    }
  }
}
