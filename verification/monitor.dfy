/** Position monitoring and closing in src/bot.py (`_monitor_positions`,
    `_close_position`, `_close_all_positions`).

    The source walks over a COPY of the position list while `_execute_trade`
    sells from, and removes from, the live list; a close may therefore act on
    a different position object than the one being monitored (an earlier one
    held in the same symbol).  A `Pass` keeps the identity the source relies
    on: `objs[k]` is the current state of the k-th position of the copy, and
    `live` lists, in order, which of those objects are still in the
    portfolio. */
module Monitor {
  import opened Wrappers
  import opened Models
  import opened Execution

  datatype Pass = Pass(ledger: Ledger, objs: seq<Position>, live: seq<nat>)

  predicate InRange(objs: seq<Position>, live: seq<nat>) {
    forall j :: 0 <= j < |live| ==> live[j] < |objs|
  }

  function Project(objs: seq<Position>, live: seq<nat>): (r: seq<Position>)
    requires InRange(objs, live)
    ensures |r| == |live|
    ensures forall j :: 0 <= j < |live| ==> r[j] == objs[live[j]]
  {
    seq(|live|, j requires 0 <= j < |live| => objs[live[j]])
  }

  predicate Increasing(live: seq<nat>) {
    forall i, j :: 0 <= i < j < |live| ==> live[i] < live[j]
  }

  /** The portfolio's position list is exactly the live objects, in order. */
  predicate Coupled(ps: Pass) {
    && Increasing(ps.live)
    && InRange(ps.objs, ps.live)
    && ps.ledger.portfolio.positions == Project(ps.objs, ps.live)
  }

  function Range(n: nat): (r: seq<nat>)
    ensures |r| == n && forall j :: 0 <= j < n ==> r[j] == j
  {
    seq(n, j requires 0 <= j < n => j as nat)
  }

  /** The start of a pass: the copy is the current list, all of it live. */
  function Begin(l: Ledger): (ps: Pass)
    ensures Coupled(ps) && ps.ledger == l && ps.objs == l.portfolio.positions
  {
    Pass(l, l.portfolio.positions, Range(|l.portfolio.positions|))
  }

  /** The SELL order `_close_position` issues: the position's whole quantity
      at its current price. */
  function CloseOrder(o: Position, reason: string, now: Timestamp): (t: Trade)
    ensures t.orderType == Sell && t.status == Pending
    ensures t.symbol == o.symbol && t.quantity == o.quantity && t.price == o.currentPrice
  {
    NewTrade(o.symbol, Sell, o.quantity, o.currentPrice, now, Some("Closing position: " + reason))
  }

  /** `_close_position(objs[k])`: the order is built from object k, but the
      executor sells from the first live position held in that symbol; the
      object it sold from loses the quantity and leaves the list when emptied. */
  function CloseObject(ps: Pass, k: nat, reason: string, now: Timestamp): (r: Pass)
    requires Coupled(ps) && k < |ps.objs|
    ensures Coupled(r) && |r.objs| == |ps.objs|
    ensures r.ledger == ExecuteTrade(ps.ledger, CloseOrder(ps.objs[k], reason, now), now).ledger
    ensures forall j :: 0 <= j < |ps.objs| ==>
      r.objs[j] == ps.objs[j].(quantity := r.objs[j].quantity)
  {
    var o := ps.objs[k];
    var t := CloseOrder(o, reason, now);
    var f := ExecuteTrade(ps.ledger, t, now);
    var positions := ps.ledger.portfolio.positions;
    match FirstMatch(positions, o.symbol)
    case None => ps.(ledger := f.ledger)
    case Some(i) =>
      if positions[i].quantity >= o.quantity then
        var id := ps.live[i];
        var left := ps.objs[id].quantity - o.quantity;
        var objs' := ps.objs[id := ps.objs[id].(quantity := left)];
        var live' := if left == 0.0 then RemoveAt(ps.live, i) else ps.live;
        CoupledAfterSell(ps, i, left, t, now);
        Pass(f.ledger, objs', live')
      else
        ps.(ledger := f.ledger)
  }

  lemma CoupledAfterSell(ps: Pass, i: nat, left: real, t: Trade, now: Timestamp)
    requires Coupled(ps) && t.orderType == Sell
    requires FirstMatch(ps.ledger.portfolio.positions, t.symbol) == Some(i)
    requires ps.ledger.portfolio.positions[i].quantity >= t.quantity
    requires left == ps.objs[ps.live[i]].quantity - t.quantity
    ensures
      var id := ps.live[i];
      var objs' := ps.objs[id := ps.objs[id].(quantity := left)];
      var live' := if left == 0.0 then RemoveAt(ps.live, i) else ps.live;
      Coupled(Pass(ExecuteTrade(ps.ledger, t, now).ledger, objs', live'))
  {
    var id := ps.live[i];
    var positions := ps.ledger.portfolio.positions;
    var o' := ps.objs[id].(quantity := left);
    assert CanSell(positions, t);
    assert positions[i] == ps.objs[id];
    var after := ExecuteTrade(ps.ledger, t, now).ledger.portfolio.positions;
    if left == 0.0 {
      assert after == RemoveAt(positions, i);
      ProjectRemove(ps.objs, ps.live, i, o');
      RemoveAtIncreasing(ps.live, i);
    } else {
      assert after == positions[i := positions[i].(quantity := left)];
      ProjectUpdate(ps.objs, ps.live, i, o');
    }
  }

  lemma ProjectRemove(objs: seq<Position>, live: seq<nat>, i: nat, o: Position)
    requires Increasing(live) && InRange(objs, live) && i < |live|
    ensures InRange(objs[live[i] := o], RemoveAt(live, i))
    ensures Project(objs[live[i] := o], RemoveAt(live, i)) == RemoveAt(Project(objs, live), i)
  {
    var id := live[i];
    var objs' := objs[id := o];
    var live' := RemoveAt(live, i);
    assert InRange(objs', live');
    forall j | 0 <= j < |live'|
      ensures Project(objs', live')[j] == RemoveAt(Project(objs, live), i)[j]
    {
      if j < i {
        assert live'[j] == live[j] && live[j] < id;
      } else {
        assert live'[j] == live[j + 1] && live[j + 1] > id;
      }
    }
  }

  lemma RemoveAtIncreasing(live: seq<nat>, i: nat)
    requires Increasing(live) && i < |live|
    ensures Increasing(RemoveAt(live, i))
  {
    var r := RemoveAt(live, i);
    forall a, b | 0 <= a < b < |r|
      ensures r[a] < r[b]
    {
      var a' := if a < i then a else a + 1;
      var b' := if b < i then b else b + 1;
      assert r[a] == live[a'] && r[b] == live[b'];
    }
  }

  lemma ProjectUpdate(objs: seq<Position>, live: seq<nat>, i: nat, o: Position)
    requires Increasing(live) && InRange(objs, live) && i < |live|
    ensures InRange(objs[live[i] := o], live)
    ensures Project(objs[live[i] := o], live) == Project(objs, live)[i := o]
  {
    var id := live[i];
    var a := Project(objs[id := o], live);
    var b := Project(objs, live)[i := o];
    forall j | 0 <= j < |live|
      ensures a[j] == b[j]
    {
      if j != i {
        assert live[j] != id;
      }
    }
  }

  /** Object k re-priced at `price`, also in the list when it is live. */
  function Reprice(ps: Pass, k: nat, price: real, now: Timestamp): (r: Pass)
    requires Coupled(ps) && k < |ps.objs|
    ensures Coupled(r) && |r.objs| == |ps.objs| && r.live == ps.live
    ensures r.objs[k] == Revalue(ps.objs[k], price).(lastUpdated := now)
    ensures forall j :: 0 <= j < |ps.objs| && j != k ==> r.objs[j] == ps.objs[j]
    ensures r.ledger.openSymbols == ps.ledger.openSymbols
    ensures r.ledger.portfolio == ps.ledger.portfolio.(positions := r.ledger.portfolio.positions)
  {
    var objs' := ps.objs[k := Revalue(ps.objs[k], price).(lastUpdated := now)];
    Pass(ps.ledger.(portfolio := ps.ledger.portfolio.(positions := Project(objs', ps.live))), objs', ps.live)
  }

  /** The stop-loss rule: at or below 98% of the average price. */
  predicate StopLossHit(price: real, averagePrice: real) {
    price <= averagePrice * 0.98
  }

  /** The profit-target rule: at or above 105% of the average price. */
  predicate ProfitTargetHit(price: real, averagePrice: real) {
    price >= averagePrice * 1.05
  }

  /** With a positive average price the two rules never fire together. */
  lemma TriggersExclusive(price: real, averagePrice: real)
    requires averagePrice > 0.0
    ensures !(StopLossHit(price, averagePrice) && ProfitTargetHit(price, averagePrice))
  {
  }

  /** One iteration of `_monitor_positions` for object k: skipped without a
      quote; otherwise re-priced, then closed on stop-loss, then (checked
      independently, on the same quote) closed on profit target. */
  function MonitorObject(ps: Pass, k: nat, quotes: QuoteBook, now: Timestamp): (r: Pass)
    requires Coupled(ps) && k < |ps.objs|
    ensures Coupled(r) && |r.objs| == |ps.objs|
    ensures ps.objs[k].symbol !in quotes ==> r == ps
    ensures ps.objs[k].symbol in quotes ==>
      var o := ps.objs[k];
      var price := quotes[o.symbol].price;
      var ps1 := Reprice(ps, k, price, now);
      && (!StopLossHit(price, o.averagePrice) && !ProfitTargetHit(price, o.averagePrice) ==> r == ps1)
      && (StopLossHit(price, o.averagePrice) && !ProfitTargetHit(price, o.averagePrice) ==>
            r.ledger == ExecuteTrade(ps1.ledger, CloseOrder(ps1.objs[k], "Stop loss", now), now).ledger)
      && (ProfitTargetHit(price, o.averagePrice) && !StopLossHit(price, o.averagePrice) ==>
            r.ledger == ExecuteTrade(ps1.ledger, CloseOrder(ps1.objs[k], "Profit target", now), now).ledger)
  {
    var o := ps.objs[k];
    match QuoteFor(quotes, o.symbol)
    case None => ps
    case Some(q) =>
      var ps1 := Reprice(ps, k, q.price, now);
      var ps2 := if StopLossHit(q.price, o.averagePrice) then CloseObject(ps1, k, "Stop loss", now) else ps1;
      if ProfitTargetHit(q.price, o.averagePrice) then CloseObject(ps2, k, "Profit target", now) else ps2
  }

  function MonitorFrom(ps: Pass, k: nat, quotes: QuoteBook, now: Timestamp): (r: Pass)
    requires Coupled(ps) && k <= |ps.objs|
    ensures Coupled(r) && |r.objs| == |ps.objs|
    decreases |ps.objs| - k
  {
    if k == |ps.objs| then ps
    else MonitorFrom(MonitorObject(ps, k, quotes, now), k + 1, quotes, now)
  }

  /** `_monitor_positions` on the ledger: it never adds a position, and a
      pass in which no position is quoted changes nothing. */
  function MonitorPositions(l: Ledger, quotes: QuoteBook, now: Timestamp): (r: Ledger)
    ensures |r.portfolio.positions| <= |l.portfolio.positions|
    ensures (forall p <- l.portfolio.positions :: p.symbol !in quotes) ==> r == l
  {
    var ps := MonitorFrom(Begin(l), 0, quotes, now);
    CoupledBound(ps);
    MonitorFromUnquoted(Begin(l), 0, quotes, now);
    ps.ledger
  }

  /** Objects without a quote are skipped, so a pass over unquoted objects
      leaves the pass as it was. */
  lemma {:induction false} MonitorFromUnquoted(ps: Pass, k: nat, quotes: QuoteBook, now: Timestamp)
    requires Coupled(ps) && k <= |ps.objs|
    ensures (forall j :: k <= j < |ps.objs| ==> ps.objs[j].symbol !in quotes) ==>
      MonitorFrom(ps, k, quotes, now) == ps
    decreases |ps.objs| - k
  {
    if k < |ps.objs| && forall j :: k <= j < |ps.objs| ==> ps.objs[j].symbol !in quotes {
      assert MonitorObject(ps, k, quotes, now) == ps;
      MonitorFromUnquoted(ps, k + 1, quotes, now);
    }
  }

  /** A pass lists no more positions than its copy holds. */
  lemma CoupledBound(ps: Pass)
    requires Coupled(ps)
    ensures |ps.ledger.portfolio.positions| <= |ps.objs|
  {
    if |ps.live| > 0 {
      IncreasingAbove(ps.live, |ps.live| - 1);
    }
  }

  lemma {:induction false} IncreasingAbove(live: seq<nat>, j: nat)
    requires Increasing(live) && j < |live|
    ensures live[j] >= j
  {
    if j > 0 {
      IncreasingAbove(live, j - 1);
    }
  }

  function CloseAllFrom(ps: Pass, k: nat, now: Timestamp): (r: Pass)
    requires Coupled(ps) && k <= |ps.objs|
    ensures Coupled(r) && |r.objs| == |ps.objs|
    decreases |ps.objs| - k
  {
    if k == |ps.objs| then ps
    else CloseAllFrom(CloseObject(ps, k, "Bot shutdown", now), k + 1, now)
  }

  /** `_close_all_positions` on the ledger: a close of every position of a
      copy of the list, at its last known price. The portfolio ends empty and
      each position's quantity times that price goes to cash. */
  function CloseAllPositions(l: Ledger, now: Timestamp): (r: Ledger)
    ensures r.portfolio.positions == []
    ensures r.portfolio.cashBalance == l.portfolio.cashBalance + ValueFrom(l.portfolio.positions, 0)
  {
    var ps := Begin(l);
    assert ClosingFrom(ps, 0, l.portfolio.positions);
    CloseAllFromEmpties(ps, 0, l.portfolio.positions, now);
    CloseAllFromReturnsValue(ps, 0, l.portfolio.positions, now);
    CloseAllFrom(ps, 0, now).ledger
  }

  // ---------------------------------------------------------------------
  // The ledger invariant across a pass

  predicate SoundPass(ps: Pass) {
    && Coupled(ps)
    && ps.ledger.portfolio.cashBalance >= 0.0
    && Synced(ps.ledger)
    && forall o <- ps.objs :: SoundPosition(o)
  }

  lemma SoundPassLedger(ps: Pass)
    requires SoundPass(ps)
    ensures Sound(ps.ledger)
  {
    forall p <- ps.ledger.portfolio.positions
      ensures SoundPosition(p)
    {
      var j :| 0 <= j < |ps.live| && ps.ledger.portfolio.positions[j] == p;
      assert p == ps.objs[ps.live[j]];
    }
  }

  lemma CloseObjectPreservesSound(ps: Pass, k: nat, reason: string, now: Timestamp)
    requires SoundPass(ps) && k < |ps.objs|
    ensures SoundPass(CloseObject(ps, k, reason, now))
  {
    var o := ps.objs[k];
    var t := CloseOrder(o, reason, now);
    assert o in ps.objs;
    SoundPassLedger(ps);
    ExecuteTradePreservesSound(ps.ledger, t, now);
    var r := CloseObject(ps, k, reason, now);
    var positions := ps.ledger.portfolio.positions;
    var m := FirstMatch(positions, o.symbol);
    if m.Some? && positions[m.value].quantity >= o.quantity {
      var i := m.value;
      var id := ps.live[i];
      assert positions[i] == ps.objs[id];
      forall p <- r.objs
        ensures SoundPosition(p)
      {
        var j :| 0 <= j < |r.objs| && r.objs[j] == p;
        assert ps.objs[j] in ps.objs;
      }
    }
  }

  lemma RepricePreservesSound(ps: Pass, k: nat, price: real, now: Timestamp)
    requires SoundPass(ps) && k < |ps.objs| && price >= 0.0
    ensures SoundPass(Reprice(ps, k, price, now))
  {
    var r := Reprice(ps, k, price, now);
    assert ps.objs[k] in ps.objs;
    forall p <- r.objs
      ensures SoundPosition(p)
    {
      var j :| 0 <= j < |r.objs| && r.objs[j] == p;
      assert ps.objs[j] in ps.objs;
    }
    assert Symbols(r.ledger.portfolio.positions) == Symbols(ps.ledger.portfolio.positions);
  }

  lemma MonitorObjectPreservesSound(ps: Pass, k: nat, quotes: QuoteBook, now: Timestamp)
    requires SoundPass(ps) && k < |ps.objs| && NonNegativePrices(quotes)
    ensures SoundPass(MonitorObject(ps, k, quotes, now))
  {
    var o := ps.objs[k];
    if o.symbol in quotes {
      var q := quotes[o.symbol];
      var ps1 := Reprice(ps, k, q.price, now);
      RepricePreservesSound(ps, k, q.price, now);
      var ps2 := if StopLossHit(q.price, o.averagePrice) then CloseObject(ps1, k, "Stop loss", now) else ps1;
      if StopLossHit(q.price, o.averagePrice) {
        CloseObjectPreservesSound(ps1, k, "Stop loss", now);
      }
      var r := if ProfitTargetHit(q.price, o.averagePrice) then CloseObject(ps2, k, "Profit target", now) else ps2;
      if ProfitTargetHit(q.price, o.averagePrice) {
        CloseObjectPreservesSound(ps2, k, "Profit target", now);
      }
      assert MonitorObject(ps, k, quotes, now) == r;
    }
  }

  lemma {:induction false} MonitorFromPreservesSound(ps: Pass, k: nat, quotes: QuoteBook, now: Timestamp)
    requires SoundPass(ps) && k <= |ps.objs| && NonNegativePrices(quotes)
    ensures SoundPass(MonitorFrom(ps, k, quotes, now))
    decreases |ps.objs| - k
  {
    if k < |ps.objs| {
      MonitorObjectPreservesSound(ps, k, quotes, now);
      MonitorFromPreservesSound(MonitorObject(ps, k, quotes, now), k + 1, quotes, now);
    }
  }

  lemma BeginSound(l: Ledger)
    requires Sound(l)
    ensures SoundPass(Begin(l))
  {
  }

  /** Monitoring keeps the ledger invariant when every quote price is
      non-negative: cash never goes negative and no quantity does. */
  lemma MonitorPreservesSound(l: Ledger, quotes: QuoteBook, now: Timestamp)
    requires Sound(l) && NonNegativePrices(quotes)
    ensures Sound(MonitorPositions(l, quotes, now))
  {
    BeginSound(l);
    MonitorFromPreservesSound(Begin(l), 0, quotes, now);
    SoundPassLedger(MonitorFrom(Begin(l), 0, quotes, now));
  }

  // ---------------------------------------------------------------------
  // Closing every position

  /** What closing one object at its current price returns to cash. */
  function Worth(o: Position): real {
    o.quantity * o.currentPrice
  }

  /** The value of objects k.. of a pass at their current prices. */
  function ValueFrom(objs: seq<Position>, k: nat): real
    decreases |objs| - k
  {
    if k >= |objs| then 0.0 else Worth(objs[k]) + ValueFrom(objs, k + 1)
  }

  lemma ValueFromStep(objs: seq<Position>, k: nat)
    requires k < |objs|
    ensures ValueFrom(objs, k) == Worth(objs[k]) + ValueFrom(objs, k + 1)
  {
  }

  /** During the shutdown pass, object k is always the first live position:
      every earlier object has already been closed and removed. */
  predicate ClosingFrom(ps: Pass, k: nat, orig: seq<Position>) {
    && |ps.objs| == |orig|
    && k <= |orig|
    && ps.live == Range(|orig|)[k..]
    && ps.objs[k..] == orig[k..]
  }

  /** Cash plus the value still to be returned: constant during shutdown. */
  function Owed(ps: Pass, k: nat, orig: seq<Position>): real {
    ps.ledger.portfolio.cashBalance + ValueFrom(orig, k)
  }

  lemma {:induction false} CloseAllFromEmpties(ps: Pass, k: nat, orig: seq<Position>, now: Timestamp)
    requires Coupled(ps) && ClosingFrom(ps, k, orig)
    ensures CloseAllFrom(ps, k, now).ledger.portfolio.positions == []
    decreases |orig| - k
  {
    if k == |orig| {
      assert |ps.live| == 0;
    } else {
      var ps' := CloseObject(ps, k, "Bot shutdown", now);
      CloseFirstLive(ps, k, orig, now);
      CloseAllFromEmpties(ps', k + 1, orig, now);
      assert CloseAllFrom(ps, k, now) == CloseAllFrom(ps', k + 1, now);
    }
  }

  lemma {:induction false} CloseAllFromReturnsValue(ps: Pass, k: nat, orig: seq<Position>, now: Timestamp)
    requires Coupled(ps) && ClosingFrom(ps, k, orig)
    ensures CloseAllFrom(ps, k, now).ledger.portfolio.cashBalance == Owed(ps, k, orig)
    decreases |orig| - k
  {
    if k == |orig| {
      assert CloseAllFrom(ps, k, now) == ps;
    } else {
      var ps' := CloseObject(ps, k, "Bot shutdown", now);
      CloseFirstLive(ps, k, orig, now);
      CloseAllFromReturnsValue(ps', k + 1, orig, now);
      assert CloseAllFrom(ps, k, now) == CloseAllFrom(ps', k + 1, now);
    }
  }

  lemma CloseFirstLive(ps: Pass, k: nat, orig: seq<Position>, now: Timestamp)
    requires Coupled(ps) && ClosingFrom(ps, k, orig) && k < |orig|
    ensures ClosingFrom(CloseObject(ps, k, "Bot shutdown", now), k + 1, orig)
    ensures Owed(CloseObject(ps, k, "Bot shutdown", now), k + 1, orig) == Owed(ps, k, orig)
  {
    var n := |orig|;
    assert ps.live[0] == Range(n)[k..][0] == k;
    assert ps.objs[k] == ps.objs[k..][0] == orig[k];
    CloseFront(ps, k, "Bot shutdown", now);
    var ps' := CloseObject(ps, k, "Bot shutdown", now);
    assert ps'.live == Range(n)[k..][1..] == Range(n)[k + 1..];
    assert ps'.objs[k + 1..] == ps.objs[k + 1..] == ps.objs[k..][1..];
    ValueFromStep(orig, k);
  }

  /** Closing the object that backs the first live position sells it in full:
      it leaves the list and its value at the current price goes to cash. */
  lemma CloseFront(ps: Pass, k: nat, reason: string, now: Timestamp)
    requires Coupled(ps) && k < |ps.objs| && |ps.live| > 0 && ps.live[0] == k
    ensures CloseObject(ps, k, reason, now).live == ps.live[1..]
    ensures CloseObject(ps, k, reason, now).objs == ps.objs[k := ps.objs[k].(quantity := 0.0)]
    ensures CloseObject(ps, k, reason, now).ledger.portfolio.cashBalance
            == ps.ledger.portfolio.cashBalance + Worth(ps.objs[k])
  {
    var o := ps.objs[k];
    var positions := ps.ledger.portfolio.positions;
    assert positions[0] == o;
    FrontSaleProceeds(ps.ledger, CloseOrder(o, reason, now), o, now);
    CloseFrontShape(ps, k, reason, now);
  }

  lemma CloseFrontShape(ps: Pass, k: nat, reason: string, now: Timestamp)
    requires Coupled(ps) && k < |ps.objs| && |ps.live| > 0 && ps.live[0] == k
    ensures CloseObject(ps, k, reason, now).live == ps.live[1..]
    ensures CloseObject(ps, k, reason, now).objs == ps.objs[k := ps.objs[k].(quantity := 0.0)]
  {
    var o := ps.objs[k];
    var positions := ps.ledger.portfolio.positions;
    assert positions[0] == o;
    assert FirstMatch(positions, o.symbol) == Some(0);
    assert RemoveAt(ps.live, 0) == ps.live[1..];
    var f := ExecuteTrade(ps.ledger, CloseOrder(o, reason, now), now);
    assert CloseObject(ps, k, reason, now)
           == Pass(f.ledger, ps.objs[k := ps.objs[k].(quantity := 0.0)], RemoveAt(ps.live, 0));
  }

  /** Selling the whole of the first position held: the proceeds go to cash,
      and the symbol leaves the held-symbols list when it is there. */
  lemma FrontSaleProceeds(l: Ledger, t: Trade, o: Position, now: Timestamp)
    requires t.orderType == Sell && t.symbol == o.symbol
    requires t.quantity == o.quantity && t.price == o.currentPrice
    requires |l.portfolio.positions| > 0 && l.portfolio.positions[0] == o
    ensures ExecuteTrade(l, t, now).ledger.portfolio.cashBalance == l.portfolio.cashBalance + Worth(o)
    ensures ExecuteTrade(l, t, now).ledger.portfolio.positions == l.portfolio.positions[1..]
    ensures RemoveFirst(l.openSymbols, o.symbol).Some? ==>
      ExecuteTrade(l, t, now).ledger.openSymbols == RemoveFirst(l.openSymbols, o.symbol).value
  {
    assert FirstMatch(l.portfolio.positions, t.symbol) == Some(0);
    assert CanSell(l.portfolio.positions, t);
  }

  /** `_close_all_positions` closes every position, whatever duplicates the
      list holds, and returns each one's quantity times its last known price
      to cash; when the held-symbols list was in step, it ends empty too. */
  lemma CloseAllEmpties(l: Ledger, now: Timestamp)
    ensures CloseAllPositions(l, now).portfolio.positions == []
    ensures CloseAllPositions(l, now).portfolio.cashBalance
            == l.portfolio.cashBalance + ValueFrom(l.portfolio.positions, 0)
    ensures Synced(l) ==> CloseAllPositions(l, now).openSymbols == []
  {
    var ps := Begin(l);
    if Synced(l) {
      CloseAllFromSynced(ps, 0, now);
      var r := CloseAllPositions(l, now);
      assert multiset(r.openSymbols) == multiset(Symbols([]));
    }
  }

  /** Closing every position keeps the ledger invariant: the portfolio ends
      empty and cash only grows, since no position has negative value. */
  lemma CloseAllPreservesSound(l: Ledger, now: Timestamp)
    requires Sound(l)
    ensures Sound(CloseAllPositions(l, now))
  {
    CloseAllEmpties(l, now);
    ValueFromNonNegative(l.portfolio.positions, 0);
  }

  lemma {:induction false} ValueFromNonNegative(objs: seq<Position>, k: nat)
    requires forall o <- objs :: SoundPosition(o)
    ensures ValueFrom(objs, k) >= 0.0
    decreases |objs| - k
  {
    if k < |objs| {
      var o := objs[k];
      assert SoundPosition(o);
      assert Worth(o) >= 0.0;
      ValueFromNonNegative(objs, k + 1);
    }
  }

  lemma {:induction false} CloseAllFromSynced(ps: Pass, k: nat, now: Timestamp)
    requires Coupled(ps) && k <= |ps.objs| && Synced(ps.ledger)
    ensures Synced(CloseAllFrom(ps, k, now).ledger)
    decreases |ps.objs| - k
  {
    if k < |ps.objs| {
      ExecuteTradePreservesSynced(ps.ledger, CloseOrder(ps.objs[k], "Bot shutdown", now), now);
      CloseAllFromSynced(CloseObject(ps, k, "Bot shutdown", now), k + 1, now);
    }
  }

  // ---------------------------------------------------------------------
  // Consequences for single and duplicate holdings

  /** A sole position whose quote is at or below its stop-loss price is sold
      in full at that quote: the portfolio and the held-symbols list end
      empty and the proceeds go to cash. */
  lemma StopLossClosesSolePosition(l: Ledger, quotes: QuoteBook, now: Timestamp)
    requires |l.portfolio.positions| == 1
    requires l.openSymbols == [l.portfolio.positions[0].symbol]
    requires l.portfolio.positions[0].symbol in quotes
    requires l.portfolio.positions[0].averagePrice > 0.0
    requires StopLossHit(quotes[l.portfolio.positions[0].symbol].price, l.portfolio.positions[0].averagePrice)
    ensures MonitorPositions(l, quotes, now).portfolio.positions == []
    ensures MonitorPositions(l, quotes, now).openSymbols == []
    ensures MonitorPositions(l, quotes, now).portfolio.cashBalance
            == l.portfolio.cashBalance
               + l.portfolio.positions[0].quantity * quotes[l.portfolio.positions[0].symbol].price
  {
    SoleStopLossStep(l, quotes, now);
    SoleRepricedClose(l, quotes[l.portfolio.positions[0].symbol].price, "Stop loss", now);
  }

  /** Closing the re-priced sole position empties both lists and credits its
      quantity at the new price to cash. */
  lemma SoleRepricedClose(l: Ledger, price: real, reason: string, now: Timestamp)
    requires |l.portfolio.positions| == 1
    requires l.openSymbols == [l.portfolio.positions[0].symbol]
    ensures var r := CloseObject(Reprice(Begin(l), 0, price, now), 0, reason, now).ledger;
      && r.portfolio.positions == []
      && r.openSymbols == []
      && r.portfolio.cashBalance == l.portfolio.cashBalance + l.portfolio.positions[0].quantity * price
  {
    SoleRepriced(l, price, now);
    SoleCloseEmpties(Reprice(Begin(l), 0, price, now), reason, now);
  }

  /** Monitoring a sole position on a stop-loss is one close of its re-priced copy. */
  lemma SoleStopLossStep(l: Ledger, quotes: QuoteBook, now: Timestamp)
    requires |l.portfolio.positions| == 1
    requires l.portfolio.positions[0].symbol in quotes
    requires l.portfolio.positions[0].averagePrice > 0.0
    requires StopLossHit(quotes[l.portfolio.positions[0].symbol].price, l.portfolio.positions[0].averagePrice)
    ensures MonitorPositions(l, quotes, now)
            == CloseObject(Reprice(Begin(l), 0, quotes[l.portfolio.positions[0].symbol].price, now),
                           0, "Stop loss", now).ledger
  {
    MonitorSingle(l, quotes, now);
    MonitorObjectStopLoss(Begin(l), 0, quotes, now);
  }

  /** Re-pricing the sole position of a pass keeps it the only live object. */
  lemma SoleRepriced(l: Ledger, price: real, now: Timestamp)
    requires |l.portfolio.positions| == 1
    requires l.openSymbols == [l.portfolio.positions[0].symbol]
    ensures var ps1 := Reprice(Begin(l), 0, price, now);
      && ps1.live == [0] && |ps1.objs| == 1
      && ps1.ledger.openSymbols == [ps1.objs[0].symbol]
      && Worth(ps1.objs[0]) == l.portfolio.positions[0].quantity * price
  {
    var ps := Begin(l);
    assert ps.live == [0];
  }

  /** On a stop-loss, and with a positive average price, monitoring object k
      re-prices it and closes it once, never for the profit target too. */
  lemma MonitorObjectStopLoss(ps: Pass, k: nat, quotes: QuoteBook, now: Timestamp)
    requires Coupled(ps) && k < |ps.objs|
    requires ps.objs[k].symbol in quotes && ps.objs[k].averagePrice > 0.0
    requires StopLossHit(quotes[ps.objs[k].symbol].price, ps.objs[k].averagePrice)
    ensures MonitorObject(ps, k, quotes, now)
            == CloseObject(Reprice(ps, k, quotes[ps.objs[k].symbol].price, now), k, "Stop loss", now)
  {
    TriggersExclusive(quotes[ps.objs[k].symbol].price, ps.objs[k].averagePrice);
  }

  /** Closing the only live object of a pass whose held-symbols list names
      just its symbol empties both lists and credits its value to cash. */
  lemma SoleCloseEmpties(ps: Pass, reason: string, now: Timestamp)
    requires Coupled(ps) && ps.live == [0] && |ps.objs| > 0
    requires ps.ledger.openSymbols == [ps.objs[0].symbol]
    ensures CloseObject(ps, 0, reason, now).ledger.portfolio.positions == []
    ensures CloseObject(ps, 0, reason, now).ledger.openSymbols == []
    ensures CloseObject(ps, 0, reason, now).ledger.portfolio.cashBalance
            == ps.ledger.portfolio.cashBalance + Worth(ps.objs[0])
  {
    var o := ps.objs[0];
    CloseFront(ps, 0, reason, now);
    assert ps.ledger.portfolio.positions[0] == o;
    assert RemoveFirst([o.symbol], o.symbol) == Some([]);
    FrontSaleProceeds(ps.ledger, CloseOrder(o, reason, now), o, now);
  }

  /** With a single position, monitoring is one step on it. */
  lemma MonitorSingle(l: Ledger, quotes: QuoteBook, now: Timestamp)
    requires |l.portfolio.positions| == 1
    ensures MonitorPositions(l, quotes, now) == MonitorObject(Begin(l), 0, quotes, now).ledger
  {
    var ps := MonitorObject(Begin(l), 0, quotes, now);
    assert MonitorFrom(ps, 1, quotes, now) == ps;
  }

  /** With two positions in one symbol, a stop-loss on the second sells from
      the first: monitoring a holding bought at 100 and one bought at 200,
      quoted at 102, leaves the losing holding open and halves the other. */
  lemma DuplicateStopLossSellsEarlierPosition(now: Timestamp)
    ensures
      var first := Position(None, "X", 10.0, 100.0, 100.0, 1000.0, 0.0, 0.0, 0);
      var second := Position(None, "X", 5.0, 200.0, 200.0, 1000.0, 0.0, 0.0, 0);
      var p := NewPortfolio(2000.0, 0.0, 2000.0, 0.0, 0.0, 0.0, 0.0, 0).(positions := [first, second]);
      var quote := MarketData("X", 102.0, 0, 0.0, 0.0, 0.0, 0.0, 0.0, 0.0, 0, None, None);
      var r := MonitorPositions(Ledger(p, ["X", "X"]), map["X" := quote], now);
      && |r.portfolio.positions| == 2
      && r.portfolio.positions[0].averagePrice == 100.0 && r.portfolio.positions[0].quantity == 5.0
      && r.portfolio.positions[1].averagePrice == 200.0 && r.portfolio.positions[1].quantity == 5.0
  {
    var first := Position(None, "X", 10.0, 100.0, 100.0, 1000.0, 0.0, 0.0, 0);
    var second := Position(None, "X", 5.0, 200.0, 200.0, 1000.0, 0.0, 0.0, 0);
    var p := NewPortfolio(2000.0, 0.0, 2000.0, 0.0, 0.0, 0.0, 0.0, 0).(positions := [first, second]);
    var quote := MarketData("X", 102.0, 0, 0.0, 0.0, 0.0, 0.0, 0.0, 0.0, 0, None, None);
    var quotes := map["X" := quote];
    var l := Ledger(p, ["X", "X"]);
    var ps := Begin(l);
    assert ps.live == [0, 1];
    var ps1 := MonitorObject(ps, 0, quotes, now);
    var a := Reprice(ps, 0, 102.0, now);
    assert ps1 == a;
    assert a.objs[1] == second && a.objs[0].quantity == 10.0;
    var b := Reprice(a, 1, 102.0, now);
    assert b.ledger.portfolio.positions == [b.objs[0], b.objs[1]];
    assert FirstMatch(b.ledger.portfolio.positions, "X") == Some(0);
    var c := CloseObject(b, 1, "Stop loss", now);
    assert c.objs[0].quantity == 5.0 && c.objs[1].quantity == 5.0 && c.live == [0, 1];
    assert MonitorObject(ps1, 1, quotes, now) == c;
    assert MonitorFrom(c, 2, quotes, now) == c;
    assert MonitorFrom(ps1, 1, quotes, now) == c;
    assert MonitorFrom(ps, 0, quotes, now) == c;
    assert c.objs[0].averagePrice == 100.0 && c.objs[1].averagePrice == 200.0;
    assert c.ledger.portfolio.positions == [c.objs[0], c.objs[1]];
  }
}
