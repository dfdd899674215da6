/** The risk gate every order request passes through. */
module Risk {
  import opened Collections
  import opened Ledger
  import opened Positions
  import opened Exposure
  import opened CircuitBreaking
  import opened KillSwitching
  import opened Validation

  datatype Gate = Passed | KillSwitchActive | BreakerActive | LimitBreached

  /** What the gate looks at besides the positions: the day's profit, the strategy's, how many orders are open and
      whether the portfolio greeks are over their limits. */
  datatype Picture = Picture(dayPnl: real, strategyPnl: real, openOrders: nat, greeksBreached: bool)

  /** The order as a fill at some price, for its effect on positions. */
  function AsFill(r: Request): Fill { Fill(r.strategy, r.token, r.symbol, r.side, r.quantity, r.price) }

  /** Every limit that applies to the order holds: reducing orders answer only to the number of open orders. */
  ghost predicate WithinLimits(limits: Exposure.Limits, r: Request, lots: int, p: Picture, reducing: bool) {
    && p.openOrders < limits.maxOpenOrders
    && (!reducing ==>
          && p.dayPnl >= -limits.maxDayLoss && p.strategyPnl >= -limits.maxStrategyLoss
          && lots + r.quantity / LotSizeOf(r.symbol) <= limits.maxTotalLots
          && !p.greeksBreached)
  }

  method CheckLimits(limits: Exposure.Limits, r: Request, lots: int, p: Picture, reducing: bool) returns (ok: bool)
    ensures ok && (reducing || !p.greeksBreached) <==> WithinLimits(limits, r, lots, p, reducing)
  {
    if !reducing {
      if p.dayPnl < -limits.maxDayLoss {
        return false;
      }
      if p.strategyPnl < -limits.maxStrategyLoss {
        return false;
      }
      var newLots := lots + r.quantity / LotSizeOf(r.symbol);
      if newLots > limits.maxTotalLots {
        return false;
      }
    }
    ok := !(p.openOrders >= limits.maxOpenOrders);
  }

  class RiskManager {
    const limits: Exposure.Limits
    const breaker: CircuitBreaker
    const killSwitch: KillSwitch
    const tracker: PositionTracker

    ghost predicate Valid()
      reads this, breaker, tracker
    {
      breaker.Valid() && tracker.Valid()
    }

    constructor (limits: Exposure.Limits, breaker: CircuitBreaker, killSwitch: KillSwitch, tracker: PositionTracker)
      requires breaker.Valid() && tracker.Valid()
      ensures Valid() && this.limits == limits && this.breaker == breaker && this.killSwitch == killSwitch
      ensures this.tracker == tracker
    {
      this.limits := limits;
      this.breaker := breaker;
      this.killSwitch := killSwitch;
      this.tracker := tracker;
    }

    ghost predicate Reducing(r: Request)
      requires tracker.Valid()
      reads this, tracker
    {
      ReducesFirst(tracker.GetOpenPositions(r.strategy), AsFill(r))
    }

    /** The kill switch stops everything, the breaker everything that does not reduce risk, and the limits the rest.
        Only an order that passes shows the day's profit to the breaker, and the reading cannot stop that order. */
    method ValidateOrder(r: Request, p: Picture, now: real, later: real) returns (gate: Gate)
      requires Valid() && breaker.clock <= now <= later
      modifies breaker`state, breaker`triggeredAt, breaker`snapshots, breaker`history, breaker`clock
      ensures Valid()
      ensures gate == KillSwitchActive <==> killSwitch.activated
      ensures gate == BreakerActive <==> !killSwitch.activated && old(breaker.IsActive()) && !Reducing(r)
      ensures gate == Passed <==>
        && !killSwitch.activated && (old(breaker.IsActive()) ==> Reducing(r))
        && WithinLimits(limits, r, LotsHeld(tracker.GetOpenPositions("")), p, Reducing(r))
      ensures gate == Passed ==> p.openOrders < limits.maxOpenOrders
      ensures gate == Passed && !Reducing(r) ==>
        && p.dayPnl >= -limits.maxDayLoss && p.strategyPnl >= -limits.maxStrategyLoss && !p.greeksBreached
        && LotsHeld(tracker.GetOpenPositions("")) + r.quantity / LotSizeOf(r.symbol) <= limits.maxTotalLots
      ensures gate != Passed ==>
        && breaker.state == old(breaker.state) && breaker.triggeredAt == old(breaker.triggeredAt)
        && breaker.snapshots == old(breaker.snapshots) && breaker.history == old(breaker.history)
        && breaker.clock == old(breaker.clock)
      ensures gate == Passed && !old(breaker.AutoResets(now)) ==>
        && breaker.history == old(breaker.history) + [Snapshot(now, p.dayPnl)]
        && (breaker.state == OPEN <==> old(breaker.state) == OPEN || breaker.Alarm(breaker.history, p.dayPnl, now))
      ensures gate == Passed && old(breaker.AutoResets(now)) ==> breaker.state == CLOSED && Reducing(r)
    {
      if killSwitch.activated {
        return KillSwitchActive;
      }
      var reducing := IsRiskReducing(tracker.GetOpenPositions(r.strategy), AsFill(r));
      if breaker.IsActive() && !reducing {
        return BreakerActive;
      }
      var lots := CountTotalLots(tracker.GetOpenPositions(""));
      var ok := CheckLimits(limits, r, lots, p, reducing);
      if !ok {
        return LimitBreached;
      }
      if p.greeksBreached && !reducing {
        return LimitBreached;
      }
      breaker.CheckPnl(p.dayPnl, now, later);
      gate := Passed;
    }

    /** What the gate lets through is what the runs of Exposure admit, as long as no open position is hidden. */
    lemma PassedIsAdmitted(r: Request, p: Picture)
      requires Valid() && tracker.Disjoint() && r.strategy != "" && r.quantity > 0
      requires WithinLimits(limits, r, LotsHeld(tracker.GetOpenPositions("")), p, Reducing(r))
      ensures Admits(limits, tracker.positions, AsFill(r)) && p.openOrders < limits.maxOpenOrders
    {
      VisibleLots(tracker);
      ReducingIsOwnKey(tracker, AsFill(r));
    }

    /** With nothing open no order can reduce risk. */
    lemma NothingReducesOnAFlatDesk(r: Request)
      requires Valid() && tracker.positions.entries == map[]
      ensures !Reducing(r)
    {
      var all := Visible(tracker.positions, tracker.closed);
      VisibleIsValid(tracker.positions, tracker.closed);
      forall k | k in all.entries ensures all.entries[k].quantity == 0 {
        NetQuantityOfKey(tracker.positions, tracker.closed, tracker.history, k);
      }
      NoneListedOpen(all.order, all.entries, r.strategy);
    }

    /** A halted desk with nothing open stays halted: whatever orders are sent, however long after, none passes, and
        without one that passes the timer that would lift the halt is never looked at. */
    method FlatDeskStaysHalted(orders: seq<Asked>) returns (gates: seq<Gate>)
      requires Valid() && breaker.IsActive() && tracker.positions.entries == map[]
      requires forall i :: 0 <= i < |orders| ==> breaker.clock <= orders[i].now <= orders[i].later
      modifies breaker`state, breaker`triggeredAt, breaker`snapshots, breaker`history, breaker`clock
      ensures Valid() && breaker.IsActive() && breaker.state == old(breaker.state)
      ensures breaker.triggeredAt == old(breaker.triggeredAt) && breaker.history == old(breaker.history)
      ensures |gates| == |orders|
      ensures forall i :: 0 <= i < |gates| ==> gates[i] == if killSwitch.activated then KillSwitchActive else BreakerActive
    {
      gates := [];
      while |gates| < |orders|
        invariant |gates| <= |orders| && Valid() && breaker.IsActive() && breaker.state == old(breaker.state)
        invariant breaker.triggeredAt == old(breaker.triggeredAt) && breaker.history == old(breaker.history)
        invariant breaker.clock == old(breaker.clock)
        invariant forall i :: 0 <= i < |gates| ==> gates[i] == if killSwitch.activated then KillSwitchActive else BreakerActive
        decreases |orders| - |gates|
      {
        var o := orders[|gates|];
        NothingReducesOnAFlatDesk(o.r);
        var gate := ValidateOrder(o.r, o.p, o.now, o.later);
        gates := gates + [gate];
      }
    }
  }

  /** An order sent to the gate, what the gate sees, and the clock. */
  datatype Asked = Asked(r: Request, p: Picture, now: real, later: real)

  lemma {:induction false} NoneListedOpen(keys: seq<Key>, entries: map<Key, Position>, strategy: string)
    requires forall k :: k in keys ==> k in entries && entries[k].quantity == 0
    ensures OpenOnes(Listing(keys, entries, strategy)) == []
  {
    if keys != [] {
      NoneListedOpen(keys[1..], entries, strategy);
      var rest := Listing(keys[1..], entries, strategy);
      if strategy == "" || keys[0].0 == strategy {
        assert Listing(keys, entries, strategy) == [entries[keys[0]]] + rest && ([entries[keys[0]]] + rest)[1..] == rest;
      } else {
        assert Listing(keys, entries, strategy) == [] + rest == rest;
      }
    }
  }
}
