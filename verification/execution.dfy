/** The simulated order executor of src/bot.py (`_execute_trade`): a BUY or
    SELL applied to the portfolio and to the bot's list of held symbols
    (`current_positions`), together with the ledger invariant it keeps. */
module Execution {
  import opened Wrappers
  import opened Models

  /** The state `_execute_trade` touches: the portfolio and the bot's list of
      held symbols, which gains one entry per BUY and loses one per closed
      position. */
  datatype Ledger = Ledger(portfolio: Portfolio, openSymbols: seq<string>)

  /** The outcome of one execution: the new ledger, the trade record as the
      executor left it, and the boolean the source returns. */
  datatype Fill = Fill(ledger: Ledger, trade: Trade, ok: bool)

  function Symbols(ps: seq<Position>): (r: seq<string>)
    ensures |r| == |ps|
    ensures forall i :: 0 <= i < |ps| ==> r[i] == ps[i].symbol
  {
    seq(|ps|, i requires 0 <= i < |ps| => ps[i].symbol)
  }

  function RemoveAt<T>(s: seq<T>, i: nat): (r: seq<T>)
    requires i < |s|
    ensures |r| == |s| - 1
    ensures forall j :: 0 <= j < i ==> r[j] == s[j]
    ensures forall j :: i <= j < |r| ==> r[j] == s[j + 1]
  {
    s[..i] + s[i + 1..]
  }

  lemma RemoveAtMultiset<T>(s: seq<T>, i: nat)
    requires i < |s|
    ensures multiset(RemoveAt(s, i)) == multiset(s) - multiset{s[i]}
  {
    assert s == s[..i] + [s[i]] + s[i + 1..];
  }

  /** The index of the first position held in `symbol`: the one the source's
      SELL loop stops at. */
  function FirstMatch(ps: seq<Position>, symbol: string): (r: Option<nat>)
    ensures r.Some? ==> r.value < |ps| && ps[r.value].symbol == symbol
    ensures r.Some? ==> forall j :: 0 <= j < r.value ==> ps[j].symbol != symbol
    ensures r.None? <==> forall j :: 0 <= j < |ps| ==> ps[j].symbol != symbol
  {
    if |ps| == 0 then None
    else if ps[0].symbol == symbol then Some(0)
    else
      match FirstMatch(ps[1..], symbol)
      case None => None
      case Some(i) => Some(i + 1)
  }

  /** Python's `list.remove(x)`: drops the first occurrence of `x`, and raises
      (here: `None`) when there is none. */
  function RemoveFirst(s: seq<string>, x: string): (r: Option<seq<string>>)
    ensures r.None? <==> x !in s
    ensures r.Some? ==> multiset(r.value) == multiset(s) - multiset{x}
  {
    if |s| == 0 then None
    else if s[0] == x then
      assert s == [s[0]] + s[1..];
      Some(s[1..])
    else
      match RemoveFirst(s[1..], x)
      case None => None
      case Some(t) =>
        assert s == [s[0]] + s[1..];
        Some([s[0]] + t)
  }

  /** The position a successful BUY appends. */
  function OpenedPosition(t: Trade, now: Timestamp): Position {
    Position(None, t.symbol, t.quantity, t.price, t.price, t.quantity * t.price, 0.0, 0.0, now)
  }

  /** A non-BUY order finds a position to sell from: the first one held in its
      symbol holds at least the requested quantity. */
  predicate CanSell(ps: seq<Position>, t: Trade) {
    var m := FirstMatch(ps, t.symbol);
    m.Some? && ps[m.value].quantity >= t.quantity
  }

  /** `_execute_trade`.  A BUY of quantity q at price p succeeds iff the cash
      covers q*p, and then appends a new position (it never merges); every
      other order type is a SELL from the first position held in the symbol.
      When that position is emptied it is removed, and its symbol is removed
      from the held-symbols list; if that symbol is missing there, the list
      removal raises after the portfolio has already been changed, and the
      source's handler returns false. */
  function ExecuteTrade(l: Ledger, t: Trade, now: Timestamp): (f: Fill)
    // BUY
    ensures t.orderType == Buy ==> (f.ok <==> l.portfolio.cashBalance >= t.quantity * t.price)
    ensures t.orderType == Buy && f.ok ==>
      && f.ledger.portfolio.cashBalance == l.portfolio.cashBalance - t.quantity * t.price
      && f.ledger.portfolio.investedAmount == l.portfolio.investedAmount + t.quantity * t.price
      && f.ledger.portfolio.positions == l.portfolio.positions + [OpenedPosition(t, now)]
      && f.ledger.openSymbols == l.openSymbols + [t.symbol]
    // SELL
    ensures t.orderType != Buy && CanSell(l.portfolio.positions, t) ==>
      var i := FirstMatch(l.portfolio.positions, t.symbol).value;
      var held := l.portfolio.positions[i];
      var left := held.quantity - t.quantity;
      && f.ledger.portfolio.cashBalance == l.portfolio.cashBalance + t.quantity * t.price
      && f.ledger.portfolio.investedAmount == l.portfolio.investedAmount - t.quantity * t.price
      && (left != 0.0 ==>
            && f.ok
            && f.ledger.portfolio.positions == l.portfolio.positions[i := held.(quantity := left)]
            && f.ledger.openSymbols == l.openSymbols)
      && (left == 0.0 ==>
            && f.ledger.portfolio.positions == RemoveAt(l.portfolio.positions, i)
            && (f.ok <==> t.symbol in l.openSymbols)
            && (f.ok ==> RemoveFirst(l.openSymbols, t.symbol) == Some(f.ledger.openSymbols))
            && (!f.ok ==> f.ledger.openSymbols == l.openSymbols))
    ensures t.orderType != Buy && !CanSell(l.portfolio.positions, t) ==> !f.ok
    // failure without any change
    ensures (t.orderType == Buy || !CanSell(l.portfolio.positions, t)) && !f.ok ==> f.ledger == l
    // only cash, invested amount and positions of the portfolio ever change
    ensures f.ledger.portfolio == l.portfolio.(cashBalance := f.ledger.portfolio.cashBalance,
                                               investedAmount := f.ledger.portfolio.investedAmount,
                                               positions := f.ledger.portfolio.positions)
    // the record is FILLED on success and otherwise left as it was
    ensures f.trade == if f.ok then t.(status := Filled) else t
  {
    var p := l.portfolio;
    if t.orderType.Value() == "BUY" then
      var cost := t.quantity * t.price;
      if p.cashBalance >= cost then
        var p' := p.(cashBalance := p.cashBalance - cost,
                     investedAmount := p.investedAmount + cost,
                     positions := p.positions + [OpenedPosition(t, now)]);
        Fill(Ledger(p', l.openSymbols + [t.symbol]), t.(status := Filled), true)
      else
        Fill(l, t, false)
    else
      match FirstMatch(p.positions, t.symbol)
      case None => Fill(l, t, false)
      case Some(i) =>
        var held := p.positions[i];
        if held.quantity >= t.quantity then
          var proceeds := t.quantity * t.price;
          var left := held.quantity - t.quantity;
          var p' := p.(cashBalance := p.cashBalance + proceeds,
                       investedAmount := p.investedAmount - proceeds);
          if left == 0.0 then
            var emptied := p'.(positions := RemoveAt(p.positions, i));
            match RemoveFirst(l.openSymbols, t.symbol)
            case None => Fill(Ledger(emptied, l.openSymbols), t, false)
            case Some(rest) => Fill(Ledger(emptied, rest), t.(status := Filled), true)
          else
            Fill(Ledger(p'.(positions := p.positions[i := held.(quantity := left)]), l.openSymbols),
                 t.(status := Filled), true)
        else
          Fill(l, t, false)
  }

  /** A position re-priced at `price`: its market value and unrealized gain
      follow from its quantity and average price. */
  function Revalue(o: Position, price: real): Position {
    o.(currentPrice := price,
       marketValue := o.quantity * price,
       unrealizedPnl := (price - o.averagePrice) * o.quantity)
  }

  /** Each held symbol is listed once per open position in it. */
  predicate Synced(l: Ledger) {
    multiset(Symbols(l.portfolio.positions)) == multiset(l.openSymbols)
  }

  predicate SoundPosition(p: Position) {
    p.quantity >= 0.0 && p.currentPrice >= 0.0
  }

  /** The ledger invariant: no negative cash, no negative quantity or price in
      a position, and the held-symbols list in step with the positions. */
  predicate Sound(l: Ledger) {
    && l.portfolio.cashBalance >= 0.0
    && (forall p <- l.portfolio.positions :: SoundPosition(p))
    && Synced(l)
  }

  /** The orders the bot issues: a BUY with non-negative quantity and price,
      or a SELL whose proceeds are non-negative. */
  predicate Admissible(t: Trade) {
    if t.orderType == Buy then t.quantity >= 0.0 && t.price >= 0.0
    else t.quantity * t.price >= 0.0
  }

  lemma SymbolsAppend(ps: seq<Position>, p: Position)
    ensures Symbols(ps + [p]) == Symbols(ps) + [p.symbol]
  {
  }

  lemma SymbolsUpdate(ps: seq<Position>, i: nat, p: Position)
    requires i < |ps| && p.symbol == ps[i].symbol
    ensures Symbols(ps[i := p]) == Symbols(ps)
  {
  }

  lemma SymbolsRemoveAt(ps: seq<Position>, i: nat)
    requires i < |ps|
    ensures Symbols(RemoveAt(ps, i)) == RemoveAt(Symbols(ps), i)
  {
  }

  /** While the held-symbols list is in step with the positions, the list
      removal in a SELL cannot raise: a SELL succeeds exactly when it finds a
      position holding enough. */
  lemma SyncedSellOutcome(l: Ledger, t: Trade, now: Timestamp)
    requires Synced(l) && t.orderType != Buy
    ensures ExecuteTrade(l, t, now).ok <==> CanSell(l.portfolio.positions, t)
  {
    var ps := l.portfolio.positions;
    var m := FirstMatch(ps, t.symbol);
    if m.Some? {
      var i := m.value;
      assert Symbols(ps)[i] == t.symbol;
      assert t.symbol in multiset(Symbols(ps));
      assert t.symbol in multiset(l.openSymbols);
    }
  }

  /** Every execution keeps the held-symbols list in step with the positions. */
  lemma ExecuteTradePreservesSynced(l: Ledger, t: Trade, now: Timestamp)
    requires Synced(l)
    ensures Synced(ExecuteTrade(l, t, now).ledger)
  {
    var f := ExecuteTrade(l, t, now);
    var ps := l.portfolio.positions;
    if t.orderType == Buy {
      if f.ok {
        SymbolsAppend(ps, OpenedPosition(t, now));
      }
    } else if CanSell(ps, t) {
      SyncedSellOutcome(l, t, now);
      var i := FirstMatch(ps, t.symbol).value;
      var held := ps[i];
      var left := held.quantity - t.quantity;
      if left == 0.0 {
        SymbolsRemoveAt(ps, i);
        RemoveAtMultiset(Symbols(ps), i);
      } else {
        SymbolsUpdate(ps, i, held.(quantity := left));
      }
    }
  }

  /** Executing an admissible order keeps the ledger invariant, whatever the
      outcome. */
  lemma ExecuteTradePreservesSound(l: Ledger, t: Trade, now: Timestamp)
    requires Sound(l) && Admissible(t)
    ensures Sound(ExecuteTrade(l, t, now).ledger)
  {
    ExecuteTradePreservesSynced(l, t, now);
    var f := ExecuteTrade(l, t, now);
    var ps := l.portfolio.positions;
    if t.orderType != Buy && CanSell(ps, t) {
      var i := FirstMatch(ps, t.symbol).value;
      var held := ps[i];
      var left := held.quantity - t.quantity;
      assert held in ps && SoundPosition(held);
      if left == 0.0 {
        forall p <- f.ledger.portfolio.positions
          ensures SoundPosition(p)
        {
          assert p in ps;
        }
      } else {
        forall p <- f.ledger.portfolio.positions
          ensures SoundPosition(p)
        {
          assert p in ps || p == held.(quantity := left);
        }
      }
    }
  }

  /** A run of executions, each on the ledger the previous one left. */
  function ExecuteAll(l: Ledger, ts: seq<Trade>, now: Timestamp): (r: Ledger)
    decreases |ts|
  {
    if |ts| == 0 then l else ExecuteAll(ExecuteTrade(l, ts[0], now).ledger, ts[1..], now)
  }

  /** Over any run of admissible orders the cash balance and every position's
      quantity stay non-negative. */
  lemma {:induction false} ExecuteAllPreservesSound(l: Ledger, ts: seq<Trade>, now: Timestamp)
    requires Sound(l)
    requires forall t <- ts :: Admissible(t)
    ensures Sound(ExecuteAll(l, ts, now))
    ensures ExecuteAll(l, ts, now).portfolio.cashBalance >= 0.0
    decreases |ts|
  {
    if |ts| > 0 {
      ExecuteTradePreservesSound(l, ts[0], now);
      assert forall t <- ts[1..] :: t in ts;
      ExecuteAllPreservesSound(ExecuteTrade(l, ts[0], now).ledger, ts[1..], now);
    }
  }

  /** Buying a symbol that is not held and then selling the same quantity at
      the same price restores the ledger exactly (also for zero shares). */
  lemma BuyThenSellRestores(l: Ledger, buy: Trade, sell: Trade, now: Timestamp)
    requires Synced(l)
    requires buy.symbol !in Symbols(l.portfolio.positions)
    requires buy.orderType == Buy && sell.orderType == Sell
    requires sell.symbol == buy.symbol && sell.quantity == buy.quantity && sell.price == buy.price
    requires l.portfolio.cashBalance >= buy.quantity * buy.price
    ensures ExecuteTrade(l, buy, now).ok
    ensures ExecuteTrade(ExecuteTrade(l, buy, now).ledger, sell, now).ok
    ensures ExecuteTrade(ExecuteTrade(l, buy, now).ledger, sell, now).ledger == l
  {
    var ps := l.portfolio.positions;
    var l1 := ExecuteTrade(l, buy, now).ledger;
    FreshBuyIsFirstMatch(l, buy, now);
    RemoveFirstAppended(l.openSymbols, buy.symbol);
    assert RemoveAt(l1.portfolio.positions, |ps|) == ps;
    var f2 := ExecuteTrade(l1, sell, now);
    assert f2.ok;
    assert f2.ledger.openSymbols == l.openSymbols;
    assert f2.ledger.portfolio.positions == ps;
    assert f2.ledger.portfolio.cashBalance == l.portfolio.cashBalance;
  }

  /** After a BUY in a symbol not held, the new position is the first match
      for that symbol, and the symbol was not listed before. */
  lemma FreshBuyIsFirstMatch(l: Ledger, buy: Trade, now: Timestamp)
    requires Synced(l)
    requires buy.symbol !in Symbols(l.portfolio.positions)
    requires buy.orderType == Buy && l.portfolio.cashBalance >= buy.quantity * buy.price
    ensures buy.symbol !in l.openSymbols
    ensures ExecuteTrade(l, buy, now).ok
    ensures ExecuteTrade(l, buy, now).ledger.portfolio.positions == l.portfolio.positions + [OpenedPosition(buy, now)]
    ensures ExecuteTrade(l, buy, now).ledger.openSymbols == l.openSymbols + [buy.symbol]
    ensures FirstMatch(ExecuteTrade(l, buy, now).ledger.portfolio.positions, buy.symbol) == Some(|l.portfolio.positions|)
  {
    var ps := l.portfolio.positions;
    var ps1 := ps + [OpenedPosition(buy, now)];
    assert forall j :: 0 <= j < |ps| ==> ps[j].symbol != buy.symbol by {
      forall j | 0 <= j < |ps| ensures ps[j].symbol != buy.symbol {
        assert Symbols(ps)[j] == ps[j].symbol;
      }
    }
    assert ps1[|ps|].symbol == buy.symbol;
    assert forall j :: 0 <= j < |ps| ==> ps1[j] == ps[j];
    assert FirstMatch(ps1, buy.symbol) == Some(|ps|);
    assert buy.symbol !in multiset(Symbols(ps));
    assert buy.symbol !in multiset(l.openSymbols);
  }

  /** Removing a symbol that was appended last, and nowhere before, gives
      back the list as it was. */
  lemma {:induction false} RemoveFirstAppended(s: seq<string>, x: string)
    requires x !in s
    ensures RemoveFirst(s + [x], x) == Some(s)
  {
    var sx := s + [x];
    if |s| == 0 {
      assert sx == [x];
    } else {
      var t := s[1..];
      assert s == [s[0]] + t;
      assert x !in t;
      RemoveFirstAppended(t, x);
      assert sx[1..] == t + [x];
      assert RemoveFirst(sx[1..], x) == Some(t);
      assert sx[0] != x;
    }
  }
}
