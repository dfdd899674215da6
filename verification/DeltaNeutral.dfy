/** The delta-neutral strategy: short options whose net delta is hedged with futures up to a cap. */
module DeltaNeutral {
  import opened Collections
  import opened Ledger
  import opened MaxPain
  import opened OptionChain
  import opened Strategy
  import opened Valuation
  import SS = ShortStrangle

  datatype Params = Params(underlying: string, lots: int, entryTime: int, exitTime: int, filters: Filters,
                           asStrangle: bool, deltaThreshold: real, rebalanceMinutes: int, strangleDelta: real,
                           stopLossPct: real, maxHedgeLots: int)

  datatype OrderStatus = FILLED | REJECTED | OTHER

  /** The futures contract used for hedging, once it is known. */
  datatype Future = Future(token: int, symbol: string)

  // ---- The hedge rule ----

  /** Whole lots, long or short, that bring a net delta nearest to zero. */
  function LotsFor(net: real, lot: int): int
    requires lot > 0
  {
    RoundHalfEven(-net / lot as real)
  }

  /** Signed hedge quantity for a net delta when at most `capacity` more lots are allowed. */
  function HedgeFor(net: real, lot: int, capacity: nat): int
    requires lot > 0
  {
    Limited(LotsFor(net, lot), capacity, lot)
  }

  function Capacity(maxLots: int, hedgeQty: int, lot: int): nat
    requires lot > 0
  {
    Max(0, maxLots - Abs(hedgeQty) / lot)
  }

  lemma QuotientTimes(y: real, l: real)
    requires l > 0.0
    ensures y / l * l == y
  {
  }

  lemma NearestMultiple(net: real, x: real, n: real, l: real)
    requires l > 0.0 && x * l == -net && -0.5 <= n - x <= 0.5
    ensures -(l / 2.0) <= net + n * l <= l / 2.0
    ensures x > 0.5 ==> net < -(l / 2.0)
    ensures x < -0.5 ==> net > l / 2.0
  {
    OffByHalf(net, x, n, n - x, l);
    FarSides(net, x, l);
  }

  lemma OffByHalf(net: real, x: real, n: real, off: real, l: real)
    requires l > 0.0 && x * l == -net && off == n - x && -0.5 <= off <= 0.5
    ensures -(l / 2.0) <= net + n * l <= l / 2.0
  {
    Spread(n, x, off, l);
    HalfOff(off, l);
    WithinHalf(net, x * l, n * l, off * l, l);
  }

  lemma FarSides(net: real, x: real, l: real)
    requires l > 0.0 && x * l == -net
    ensures x > 0.5 ==> net < -(l / 2.0)
    ensures x < -0.5 ==> net > l / 2.0
  {
    if x > 0.5 { StrictlyScaled(0.5, x, l); }
    if x < -0.5 { StrictlyScaled(x, -0.5, l); }
  }

  lemma HalfOff(off: real, l: real)
    requires l > 0.0 && -0.5 <= off <= 0.5
    ensures -(l / 2.0) <= off * l <= l / 2.0
  {
    Scaled(-0.5, off, l);
    Scaled(off, 0.5, l);
  }

  lemma WithinHalf(net: real, xl: real, nl: real, rest: real, l: real)
    requires xl == -net && rest == nl - xl && -(l / 2.0) <= rest <= l / 2.0
    ensures -(l / 2.0) <= net + nl <= l / 2.0
  {
  }

  lemma Spread(n: real, x: real, off: real, l: real)
    requires off == n - x
    ensures off * l == n * l - x * l
  {
    assert off * l == (n - x) * l;
  }

  lemma StrictlyScaled(a: real, b: real, l: real)
    requires a < b && l > 0.0
    ensures a * l < b * l
  {
  }

  lemma Scaled(a: real, b: real, l: real)
    requires a <= b && l > 0.0
    ensures a * l <= b * l
  {
  }

  /** The chosen lots leave at most half a lot, and are only chosen when there is more than that to remove. */
  ghost predicate Nearest(net: real, n: int, l: real) {
    && -(l / 2.0) <= net + Times(n, l) <= l / 2.0
    && (n > 0 ==> net < -(l / 2.0))
    && (n < 0 ==> net > l / 2.0)
  }

  lemma LotsAreNearest(net: real, lot: int)
    requires lot > 0
    ensures Nearest(net, LotsFor(net, lot), lot as real)
  {
    QuotientTimes(-net, lot as real);
    RoundedIsNearest(net, -net / lot as real, lot as real);
  }

  lemma RoundedIsNearest(net: real, x: real, l: real)
    requires l > 0.0 && x * l == -net
    ensures Nearest(net, RoundHalfEven(x), l)
  {
    var n := RoundHalfEven(x);
    RoundHalfEvenError(x);
    RoundingSides(x, n);
    NearestMultiple(net, x, n as real, l);
    TimesIsProduct(n, l);
  }

  lemma RoundingSides(x: real, n: int)
    requires -0.5 <= n as real - x <= 0.5 && (n == 0 <==> -0.5 <= x <= 0.5)
    ensures n > 0 ==> x > 0.5
    ensures n < 0 ==> x < -0.5
  {
  }

  lemma UnitsOfLots(n: int, lot: int)
    requires lot > 0
    ensures (n * lot) as real == Times(n, lot as real)
  {
    TimesIsProduct(n, lot as real);
  }

  /** Once filled at unchanged greeks a hedge strictly shrinks the net delta: to at most half a lot when it was
      not capped, and without changing its sign when it was. */
  lemma HedgeShrinksDelta(net: real, lot: int, capacity: nat)
    requires lot > 0 && capacity > 0 && LotsFor(net, lot) != 0
    ensures var after := net + HedgeFor(net, lot, capacity) as real;
            var capped := capacity < Abs(LotsFor(net, lot));
            && AbsR(after) < AbsR(net)
            && (!capped ==> AbsR(after) <= lot as real / 2.0)
            && (capped ==> (net > 0.0 ==> after > 0.0) && (net < 0.0 ==> after < 0.0))
  {
    LotsAreNearest(net, lot);
    LotsShrinkDelta(net, lot, LotsFor(net, lot), capacity);
  }

  lemma LotsShrinkDelta(net: real, lot: int, lots: int, capacity: nat)
    requires lot > 0 && capacity > 0 && lots != 0 && Nearest(net, lots, lot as real)
    ensures var after := net + Limited(lots, capacity, lot) as real;
            && AbsR(after) < AbsR(net)
            && (capacity >= Abs(lots) ==> AbsR(after) <= lot as real / 2.0)
            && (capacity < Abs(lots) ==> (net > 0.0 ==> after > 0.0) && (net < 0.0 ==> after < 0.0))
  {
    var l := lot as real;
    var n: int := Abs(lots);
    var c := Min(n, capacity);
    UnitsOfLots(c, lot);
    TimesMonotone(1, c, l);
    TimesAdds(n, -n, l);
    if c < n {
      TimesMonotone(c, n - 1, l);
      TimesAdds(n - 1, 1, l);
    }
  }

  function Limited(lots: int, capacity: nat, lot: int): int {
    if lots > 0 then Min(Abs(lots), capacity) * lot else -(Min(Abs(lots), capacity) * lot)
  }

  // ---- The cap ----

  /** The tracked hedge and the pending one are h and p whole lots, together within the cap. */
  ghost predicate WithinCap(hedge: int, pending: int, h: int, p: int, lot: int, maxLots: int) {
    && lot > 0 && hedge == h * lot && pending == p * lot
    && Abs(h) + Abs(p) <= Max(0, maxLots)
  }

  lemma DivExact(k: int, lot: int)
    requires lot > 0
    ensures (k * lot) / lot == k
  {
    var d, m := (k * lot) / lot, (k * lot) % lot;
    assert (k - d) * lot == m;
    if k > d {
      MulMonotone(1, k - d, lot);
    } else if k < d {
      MulMonotone(k - d, -1, lot);
    }
  }

  lemma AbsOfLots(h: int, lot: int)
    requires lot > 0
    ensures Abs(h * lot) == Abs(h) * lot
  {
    if h < 0 { assert (-h) * lot == -(h * lot); MulMonotone(h, 0, lot); } else { MulMonotone(0, h, lot); }
  }

  lemma CapacityInLots(h: int, lot: int, maxLots: int)
    requires lot > 0
    ensures Capacity(maxLots, h * lot, lot) == Max(0, maxLots - Abs(h))
  {
    AbsOfLots(h, lot);
    DivExact(Abs(h), lot);
  }

  /** The lots of a new hedge, which together with those already tracked stay within the cap. */
  lemma NewHedgeWithinCap(hedge: int, pending: int, h: int, p: int, lot: int, maxLots: int, net: real) returns (n: int)
    requires WithinCap(hedge, pending, h, p, lot, maxLots)
    ensures WithinCap(hedge, HedgeFor(net, lot, Capacity(maxLots, hedge, lot)), h, n, lot, maxLots)
  {
    CapacityInLots(h, lot, maxLots);
    var lots := LotsFor(net, lot);
    var capped := Min(Abs(lots), Capacity(maxLots, hedge, lot));
    n := if lots > 0 then capped else -capped;
    assert (-capped) * lot == -(capped * lot);
  }

  lemma FilledWithinCap(hedge: int, pending: int, h: int, p: int, lot: int, maxLots: int)
    requires WithinCap(hedge, pending, h, p, lot, maxLots)
    ensures WithinCap(hedge + pending, 0, h + p, 0, lot, maxLots)
  {
    assert (h + p) * lot == h * lot + p * lot;
  }

  lemma CapInUnits(hedge: int, pending: int, h: int, p: int, lot: int, maxLots: int)
    requires WithinCap(hedge, pending, h, p, lot, maxLots)
    ensures hedge % lot == 0 && Abs(hedge) <= Max(0, maxLots) * lot
  {
    DivExact(h, lot);
    AbsOfLots(h, lot);
    MulMonotone(Abs(h), Max(0, maxLots), lot);
  }

  /** No hedge is sent exactly when none is called for or the cap is reached, and then not even one that would bring the
      futures position back down. */
  lemma StuckAtTheCap(h: int, lot: int, maxLots: int, net: real)
    requires lot > 0
    ensures HedgeFor(net, lot, Capacity(maxLots, h * lot, lot)) == 0 <==> LotsFor(net, lot) == 0 || Abs(h) >= maxLots
  {
    CapacityInLots(h, lot, maxLots);
    var capped := Min(Abs(LotsFor(net, lot)), Max(0, maxLots - Abs(h)));
    if capped > 0 { MulMonotone(1, capped, lot); }
  }

  // ---- Portfolio delta ----

  /** Delta of the last quote of that instrument, zero when it is not quoted. */
  ghost function QuotedDelta(strikes: seq<Entry>, isCall: bool, token: int, n: nat): real
    requires n <= |strikes|
  {
    if n == 0 then 0.0
    else
      var q := QuoteOf(strikes[n - 1], isCall);
      if q.Some? && q.value.token == token then q.value.delta else QuotedDelta(strikes, isCall, token, n - 1)
  }

  /** Two short options against the futures held. */
  ghost function ShortDelta(strikes: seq<Entry>, ceToken: int, peToken: int, quantity: int, hedgeQty: int): real {
    hedgeQty as real - Times(quantity, QuotedDelta(strikes, true, ceToken, |strikes|))
    - Times(quantity, QuotedDelta(strikes, false, peToken, |strikes|))
  }

  method PortfolioDelta(strikes: seq<Entry>, ceToken: int, peToken: int, quantity: int, hedgeQty: int) returns (net: real)
    ensures net == ShortDelta(strikes, ceToken, peToken, quantity, hedgeQty)
  {
    var ce, pe := 0.0, 0.0;
    var k := 0;
    while k < |strikes|
      invariant 0 <= k <= |strikes|
      invariant ce == QuotedDelta(strikes, true, ceToken, k) && pe == QuotedDelta(strikes, false, peToken, k)
    {
      if strikes[k].ce.Some? && strikes[k].ce.value.token == ceToken {
        ce := strikes[k].ce.value.delta;
      }
      if strikes[k].pe.Some? && strikes[k].pe.value.token == peToken {
        pe := strikes[k].pe.value.delta;
      }
      k := k + 1;
    }
    TimesIsProduct(quantity, ce);
    TimesIsProduct(quantity, pe);
    net := -(ce * quantity as real) - pe * quantity as real + hedgeQty as real;
  }

  // ---- The strategy ----

  datatype Position = Position(ce: Tracked, pe: Tracked, quantity: int, entryPremium: real) {

    predicate StopLossHit(p: Params, m: Market) {
      p.stopLossPct > 0.0 && entryPremium > 0.0 &&
      (m.Ltp(ce.token) + m.Ltp(pe.token) - entryPremium) / entryPremium * 100.0 > p.stopLossPct
    }
  }

  /** The futures position as the strategy tracks it: confirmed and awaiting a fill. */
  datatype Hedge = Hedge(qty: int, pending: int)

  function Now(m: Market): int { m.date * 86400 + m.time }

  predicate RebalanceDue(p: Params, m: Market, last: Option<int>) {
    last.Some? ==> Now(m) - last.value >= p.rebalanceMinutes * 60
  }

  /** So many minutes have passed since the last hedge, or since the entry. */
  ghost predicate Waited(p: Params, m: Market, last: Option<int>) {
    last.Some? ==> m.date * 86400 + m.time >= last.value + 60 * p.rebalanceMinutes
  }

  /** The hedge a tick calls for: none within the threshold, else the nearest lots within the cap. */
  function HedgeCall(p: Params, net: real, hedge: int, lot: int): int
    requires lot > 0
  {
    if AbsR(net) <= p.deltaThreshold then 0 else HedgeFor(net, lot, Capacity(p.maxHedgeLots, hedge, lot))
  }

  ghost function NetDelta(m: Market, expiry: Option<int>, position: Position, hedge: int): real {
    if expiry.Some? && expiry.value in m.chains then
      ShortDelta(m.chains[expiry.value].strikes, position.ce.token, position.pe.token, position.quantity, hedge)
    else 0.0
  }

  /** A hedge is called for exactly when the net delta is beyond the threshold and beyond half a lot and the cap leaves
      room; it then goes against the net delta. */
  lemma HedgeIsCalledFor(p: Params, net: real, h: int, lot: int)
    requires lot > 0
    ensures HedgeCall(p, net, h * lot, lot) != 0 <==>
            AbsR(net) > p.deltaThreshold && AbsR(net) > lot as real / 2.0 && Abs(h) < p.maxHedgeLots
    ensures HedgeCall(p, net, h * lot, lot) > 0 ==> net < 0.0
    ensures HedgeCall(p, net, h * lot, lot) < 0 ==> net > 0.0
  {
    StuckAtTheCap(h, lot, p.maxHedgeLots, net);
    LotsAreNearest(net, lot);
    NoLotsWithinHalf(net, lot);
    var lots, room := LotsFor(net, lot), Capacity(p.maxHedgeLots, h * lot, lot);
    MulMonotone(0, Min(Abs(lots), room), lot);
  }

  lemma NoLotsWithinHalf(net: real, lot: int)
    requires lot > 0
    ensures LotsFor(net, lot) == 0 <==> AbsR(net) <= lot as real / 2.0
  {
    var l, n := lot as real, LotsFor(net, lot);
    LotsAreNearest(net, lot);
    if n != 0 && AbsR(net) <= l / 2.0 { assert false; }
    TimesIsProduct(0, l);
  }

  function HedgeLegs(f: Future, qty: int): seq<Leg> { [Leg(f.symbol, f.token, if qty > 0 then BUY else SELL, Abs(qty))] }

  /** The order for a hedge is for exactly that many futures, bought or sold. */
  lemma HedgeLegsNet(f: Future, qty: int, token: int)
    ensures Net(HedgeLegs(f, qty), token) == if token == f.token then qty else 0
  {
    NetOfOne(HedgeLegs(f, qty)[0], token);
  }

  /** The net delta is what the legs held are worth at their deltas, and the futures one each. */
  lemma DeltaIsOfLegs(strikes: seq<Entry>, ce: Tracked, pe: Tracked, quantity: int, hedgeQty: int, delta: int -> real)
    requires delta(ce.token) == QuotedDelta(strikes, true, ce.token, |strikes|)
    requires delta(pe.token) == QuotedDelta(strikes, false, pe.token, |strikes|)
    ensures ShortDelta(strikes, ce.token, pe.token, quantity, hedgeQty)
            == Worth(SS.Legs(ce, pe, quantity), delta) + hedgeQty as real
  {
    SS.LegsWorth(ce, pe, quantity, delta);
    TimesIsProduct(quantity, delta(ce.token));
    TimesIsProduct(quantity, delta(pe.token));
    SS.Sum(quantity as real, delta(ce.token), delta(pe.token));
  }

  // ---- When to leave, in money ----

  /** Buying the legs back would cost more than the stop loss allows, if there is one. */
  ghost predicate StopIsDue(p: Params, m: Market, pos: Position) {
    p.stopLossPct > 0.0
    && StopOrTarget(Worth(SS.Legs(pos.ce, pos.pe, pos.quantity), Quotes(m)), pos.quantity as real * pos.entryPremium,
                    p.stopLossPct, 0.0)
  }

  lemma StopsAreDue(p: Params, m: Market, pos: Position)
    requires pos.quantity >= 1
    ensures pos.StopLossHit(p, m) <==> StopIsDue(p, m, pos)
  {
    SS.LegsWorth(pos.ce, pos.pe, pos.quantity, Quotes(m));
    PerUnitStopOrTarget(pos.quantity, pos.entryPremium, m.Ltp(pos.ce.token) + m.Ltp(pos.pe.token), p.stopLossPct, 0.0);
  }

  /** The premium on the books is what the legs bring in at these prices. */
  ghost predicate Credited(pos: Position, m: Market) {
    pos.quantity as real * pos.entryPremium == -Worth(SS.Legs(pos.ce, pos.pe, pos.quantity), Quotes(m))
  }

  lemma PremiumIsCredited(pos: Position, m: Market)
    requires pos.entryPremium == m.Ltp(pos.ce.token) + m.Ltp(pos.pe.token)
    ensures Credited(pos, m)
  {
    SS.LegsWorth(pos.ce, pos.pe, pos.quantity, Quotes(m));
  }

  /** Every leg is bought back, and the futures held are given up. */
  ghost predicate ClosesAll(legs: seq<Leg>, pos: Position, future: Option<Future>, hedge: int) {
    forall t :: Net(legs, t) == -Net(SS.Legs(pos.ce, pos.pe, pos.quantity), t)
                                - if future.Some? && t == future.value.token then hedge else 0
  }

  lemma ExitClosesAll(legs: seq<Leg>, pos: Position, future: Option<Future>, hedge: int)
    requires legs == [ToLeg(pos.ce, BUY, pos.quantity), ToLeg(pos.pe, BUY, pos.quantity)]
                     + if hedge != 0 && future.Some? then HedgeLegs(future.value, -hedge) else []
    ensures ClosesAll(legs, pos, future, hedge)
  {
    var back := [ToLeg(pos.ce, BUY, pos.quantity), ToLeg(pos.pe, BUY, pos.quantity)];
    SS.ClosingLegs(pos.ce, pos.pe, pos.quantity);
    forall t ensures Net(legs, t) == -Net(SS.Legs(pos.ce, pos.pe, pos.quantity), t)
                                     - if future.Some? && t == future.value.token then hedge else 0
    {
      ClosingCancels(SS.Legs(pos.ce, pos.pe, pos.quantity), t);
      if hedge != 0 && future.Some? {
        NetConcat(back, HedgeLegs(future.value, -hedge), t);
        HedgeLegsNet(future.value, -hedge, t);
      } else {
        assert legs == back;
      }
    }
  }

  /** The hedge called for now; a non-zero one, taken as the new pending hedge, keeps within the cap. */
  method DecideHedge(p: Params, m: Market, expiry: Option<int>, position: Position, hedge: Hedge, lot: int,
                     ghost h: int, ghost pending: int) returns (call: int, ghost lots: int)
    requires WithinCap(hedge.qty, hedge.pending, h, pending, lot, p.maxHedgeLots)
    ensures call == HedgeCall(p, NetDelta(m, expiry, position, hedge.qty), hedge.qty, lot)
    ensures call != 0 ==> WithinCap(hedge.qty, call, h, lots, lot, p.maxHedgeLots)
  {
    var net := 0.0;
    if expiry.Some? && expiry.value in m.chains {
      net := PortfolioDelta(m.chains[expiry.value].strikes, position.ce.token, position.pe.token, position.quantity, hedge.qty);
    }
    lots := NewHedgeWithinCap(hedge.qty, hedge.pending, h, pending, lot, p.maxHedgeLots, net);
    call := HedgeCall(p, net, hedge.qty, lot);
  }

  predicate FiltersAllow(p: Params, m: Market, expiry: Option<int>) {
    !VixBlocks(p.filters, m.vix) && !PcrBlocks(p.filters, m, expiry) && !MaxPainBlocks(p.filters, m, expiry)
  }

  // ---- Entries ----

  function AtTheMoney(p: Params, spot: real): real {
    var interval := StrikeInterval(p.underlying);
    (RoundHalfEven(spot / interval as real) * interval) as real
  }

  /** The strike at the money is on the grid of strikes, and no more than half a step from the spot. */
  lemma AtTheMoneyIsNearest(p: Params, spot: real) returns (n: int)
    ensures var step := if p.underlying in {"NIFTY", "FINNIFTY"} then 50 else 100;
            AtTheMoney(p, spot) == (n * step) as real && AbsR(AtTheMoney(p, spot) - spot) <= step as real / 2.0
  {
    var step := StrikeInterval(p.underlying);
    var steps := spot / step as real;
    n := RoundHalfEven(steps);
    RoundHalfEvenError(steps);
    QuotientTimes(spot, step as real);
    OffByHalf(-spot, steps, n as real, n as real - steps, step as real);
  }

  /** The first entry at exactly that strike. */
  function EntryAt(strikes: seq<Entry>, strike: real): Option<Entry> {
    if strikes == [] then None else if strikes[0].strike == strike then Some(strikes[0]) else EntryAt(strikes[1..], strike)
  }

  /** One leg of a straddle: what the first entry at the strike quotes on that side, or else whatever was tracked before. */
  function StraddleLeg(strikes: seq<Entry>, strike: real, isCall: bool, before: Tracked): Tracked {
    var e := EntryAt(strikes, strike);
    if e.Some? && QuoteOf(e.value, isCall).Some? then TrackedAt([e.value], 0, isCall) else before
  }

  /** With only the call quoted at the money, the put sold is whatever put was tracked before, at whatever strike. */
  lemma StalePutIsSold(p: Params, spot: real, quoted: OptionData, stale: Tracked)
    ensures var strikes := [Entry(AtTheMoney(p, spot), Some(quoted), None)];
            StraddleLeg(strikes, AtTheMoney(p, spot), false, stale) == stale
  {
  }

  lemma {:induction false} EntryAtIsFirst(strikes: seq<Entry>, strike: real, i: nat)
    requires i < |strikes| && strikes[i].strike == strike && forall j :: 0 <= j < i ==> strikes[j].strike != strike
    ensures EntryAt(strikes, strike) == Some(strikes[i])
  {
    if i > 0 {
      assert forall j :: 0 <= j < i - 1 ==> strikes[1..][j] == strikes[j + 1];
      EntryAtIsFirst(strikes[1..], strike, i - 1);
    }
  }

  lemma {:induction false} NoEntryAt(strikes: seq<Entry>, strike: real)
    requires forall i :: 0 <= i < |strikes| ==> strikes[i].strike != strike
    ensures EntryAt(strikes, strike) == None
  {
    if strikes != [] { NoEntryAt(strikes[1..], strike); }
  }

  ghost predicate AnyEligible(strikes: seq<Entry>, isCall: bool) { exists i :: 0 <= i < |strikes| && Eligible(strikes[i], isCall) }

  /** The filters let the entry pass, and both legs can be found. */
  ghost predicate EntryPossible(p: Params, m: Market, expiry: Option<int>, spot: real, before: Position) {
    var strikes := m.Strikes(expiry);
    && Unfiltered(p.filters, m, expiry) && strikes != []
    && if p.asStrangle then AnyEligible(strikes, true) && AnyEligible(strikes, false)
       else
         && spot > 0.0
         && StraddleLeg(strikes, AtTheMoney(p, spot), true, before.ce).token != 0
         && StraddleLeg(strikes, AtTheMoney(p, spot), false, before.pe).token != 0
  }

  /** The position an entry takes: the deltas nearest the target in a strangle, the legs at the money in a straddle. */
  ghost predicate Taken(p: Params, m: Market, expiry: Option<int>, spot: real, lot: int, before: Position, after: Position) {
    var strikes := m.Strikes(expiry);
    && after.quantity == VixAdjustedLots(p.filters, p.lots, m.vix) * lot
    && Credited(after, m)
    && if p.asStrangle then SS.Selected(strikes, true, p.strangleDelta, after.ce) && SS.Selected(strikes, false, -p.strangleDelta, after.pe)
       else
         && after.ce == StraddleLeg(strikes, AtTheMoney(p, spot), true, before.ce)
         && after.pe == StraddleLeg(strikes, AtTheMoney(p, spot), false, before.pe)
  }

  class DeltaNeutralStrategy {
    const params: Params
    const lotSize: int

    var entered: bool
    var stoppedForDay: bool
    var position: Position
    var future: Option<Future>
    var hedge: Hedge
    var lastRebalance: Option<int>
    var expiry: Option<int>

    ghost var hedgeLots: int     // hedge.qty in lots
    ghost var pendingLots: int   // hedge.pending in lots
    ghost var ordered: int       // futures ordered and not reported rejected, over the strategy's life

    ghost predicate Valid()
      reads this
    {
      lotSize > 0 && WithinCap(hedge.qty, hedge.pending, hedgeLots, pendingLots, lotSize, params.maxHedgeLots)
    }

    /** Futures ordered that the strategy neither holds nor waits for in its own books. */
    ghost function Untracked(): int
      reads this
    {
      ordered - hedge.qty - hedge.pending
    }

    constructor (params: Params)
      ensures Valid() && !entered && Untracked() == 0 && hedge == Hedge(0, 0) && this.params == params
      ensures lotSize == LotSize(params.underlying)
      ensures expiry == None && future == None
    {
      this.params := params;
      lotSize := LotSize(params.underlying);
      entered, stoppedForDay, future, lastRebalance, expiry := false, false, None, None, None;
      position := Position(Tracked(0, "", 0.0), Tracked(0, "", 0.0), params.lots * LotSize(params.underlying), 0.0);
      hedge, hedgeLots, pendingLots, ordered := Hedge(0, 0), 0, 0, 0;
    }

    /** The tracked hedge is whole lots and never beyond the cap, in every reachable state. */
    lemma TrackedHedgeIsCapped()
      requires Valid()
      ensures hedge.qty % lotSize == 0 && Abs(hedge.qty) <= Max(0, params.maxHedgeLots) * lotSize
    {
      CapInUnits(hedge.qty, hedge.pending, hedgeLots, pendingLots, lotSize, params.maxHedgeLots);
    }

    method OnStart(nextExpiry: int)
      requires Valid()
      modifies this`expiry
      ensures Valid() && expiry == Some(nextExpiry)
    {
      expiry := Some(nextExpiry);
    }

    predicate MustExit(m: Market)
      reads this
    {
      entered && (m.time >= params.exitTime || position.StopLossHit(params, m))
    }

    /** One tick. `resolved` is what looking up the futures contract yields now, `spot` the index price. */
    method OnTick(m: Market, spot: real, resolved: Option<Future>) returns (signal: Option<Signal>)
      requires Valid()
      modifies this
      ensures Valid()
      ensures expiry == if old(expiry).Some? && m.date > old(expiry).value then Some(m.nextExpiry) else old(expiry)
      ensures (signal.Some? && signal.value.kind == EXIT) <==> old(MustExit(m))
      ensures old(position).quantity >= 1 ==>
        ((signal.Some? && signal.value.kind == EXIT) <==>
           old(entered && (m.time >= params.exitTime || StopIsDue(params, m, position))))
      ensures signal.Some? && signal.value.kind == EXIT ==>
        && !entered && stoppedForDay && hedge == Hedge(0, old(hedge).pending)
        && ClosesAll(signal.value.legs, old(position), future, old(hedge).qty)
        && (old(hedge).qty != 0 && future.Some? ==> Untracked() == old(Untracked()))
      ensures signal.Some? && signal.value.kind == ENTRY ==>
        && !old(entered) && !old(stoppedForDay) && m.time >= params.entryTime
        && EntryPossible(params, m, expiry, spot, old(position)) && Taken(params, m, expiry, spot, lotSize, old(position), position)
        && signal.value.legs == SS.Legs(position.ce, position.pe, position.quantity)
        && entered && lastRebalance == Some(m.date * 86400 + m.time) && hedge == old(hedge) && Untracked() == old(Untracked())
      ensures signal.Some? && signal.value.kind == ADJUST ==>
        var call := HedgeCall(params, NetDelta(m, expiry, position, hedge.qty), hedge.qty, lotSize);
        && old(entered) && entered && call != 0 && Waited(params, m, old(lastRebalance)) && lastRebalance == Some(m.date * 86400 + m.time)
        && future.Some? && signal.value.legs == HedgeLegs(future.value, call)
        && hedge == Hedge(old(hedge).qty, call)
        && Untracked() == old(Untracked()) + old(hedge).pending
      ensures signal.None? ==>
        && entered == old(entered) && hedge == old(hedge) && Untracked() == old(Untracked())
        && (!entered && !stoppedForDay && m.time >= params.entryTime ==> !EntryPossible(params, m, expiry, spot, old(position)))
        && (entered && Waited(params, m, old(lastRebalance)) && future.Some? ==>
              HedgeCall(params, NetDelta(m, expiry, position, hedge.qty), hedge.qty, lotSize) == 0)
    {
      if position.quantity >= 1 { StopsAreDue(params, m, position); }
      expiry := Rolled(expiry, m);
      signal := None;
      if m.time >= params.exitTime && entered {
        signal := CreateExitSignal();
      } else if !entered && !stoppedForDay && m.time >= params.entryTime {
        signal := TryEntry(m, spot, resolved);
      } else if entered {
        if position.StopLossHit(params, m) {
          signal := CreateExitSignal();
        } else {
          signal := CheckDeltaHedge(m, resolved);
        }
      }
    }

    method CheckDeltaHedge(m: Market, resolved: Option<Future>) returns (signal: Option<Signal>)
      requires Valid() && entered
      modifies this`future, this`hedge, this`lastRebalance, this`pendingLots, this`ordered
      ensures Valid()
      ensures signal.Some? ==>
        var call := HedgeCall(params, NetDelta(m, expiry, position, hedge.qty), hedge.qty, lotSize);
        && signal.value.kind == ADJUST && call != 0 && Waited(params, m, old(lastRebalance)) && lastRebalance == Some(m.date * 86400 + m.time)
        && future.Some? && signal.value.legs == HedgeLegs(future.value, call)
        && hedge == Hedge(old(hedge).qty, call)
        && Untracked() == old(Untracked()) + old(hedge).pending
      ensures signal.None? ==>
        && hedge == old(hedge) && Untracked() == old(Untracked())
        && (Waited(params, m, old(lastRebalance)) && future.Some? ==>
              HedgeCall(params, NetDelta(m, expiry, position, hedge.qty), hedge.qty, lotSize) == 0)
    {
      if !RebalanceDue(params, m, lastRebalance) {
        return None;
      }
      var call, lots := DecideHedge(params, m, expiry, position, hedge, lotSize, hedgeLots, pendingLots);
      if call == 0 {
        return None;
      }
      if future.None? {
        future := resolved;
        if future.None? {
          return None;
        }
      }
      lastRebalance := Some(Now(m));
      pendingLots := lots;
      ordered := ordered + call;
      hedge := hedge.(pending := call);
      signal := Some(Signal(ADJUST, HedgeLegs(future.value, call)));
    }

    /** A report on a futures order: a fill confirms whatever is pending, a rejection of `quantity` (signed)
        discards it. What the strategy loses track of is the difference between the two. */
    method OnOrderUpdate(token: int, status: OrderStatus, quantity: int)
      requires Valid()
      modifies this`hedge, this`hedgeLots, this`pendingLots, this`ordered
      ensures Valid()
      ensures future.None? || token != future.value.token || status == OTHER ==> hedge == old(hedge) && ordered == old(ordered)
      ensures future.Some? && token == future.value.token && status == FILLED ==>
        hedge == Hedge(old(hedge).qty + old(hedge).pending, 0) && Untracked() == old(Untracked())
      ensures future.Some? && token == future.value.token && status == REJECTED ==>
        hedge == Hedge(old(hedge).qty, 0) && Untracked() == old(Untracked()) + old(hedge).pending - quantity
    {
      if future.None? || token != future.value.token {
        return;
      }
      if status == FILLED {
        FilledWithinCap(hedge.qty, hedge.pending, hedgeLots, pendingLots, lotSize, params.maxHedgeLots);
        hedge := Hedge(hedge.qty + hedge.pending, 0);
        hedgeLots, pendingLots := hedgeLots + pendingLots, 0;
      } else if status == REJECTED {
        ordered := ordered - quantity;
        hedge := hedge.(pending := 0);
        pendingLots := 0;
      }
    }

    method CreateExitSignal() returns (signal: Option<Signal>)
      requires Valid() && entered
      modifies this`entered, this`stoppedForDay, this`hedge, this`hedgeLots, this`ordered
      ensures Valid() && !entered && stoppedForDay && hedge == Hedge(0, old(hedge).pending)
      ensures signal.Some? && signal.value.kind == EXIT
      ensures signal.value.legs ==
        [ToLeg(position.ce, BUY, position.quantity), ToLeg(position.pe, BUY, position.quantity)]
        + if old(hedge).qty != 0 && future.Some? then HedgeLegs(future.value, -old(hedge).qty) else []
      ensures ClosesAll(signal.value.legs, position, future, old(hedge).qty)
      ensures ordered == old(ordered) - if old(hedge).qty != 0 && future.Some? then old(hedge).qty else 0
    {
      var legs := [ToLeg(position.ce, BUY, position.quantity), ToLeg(position.pe, BUY, position.quantity)];
      if hedge.qty != 0 && future.Some? {
        legs := legs + HedgeLegs(future.value, -hedge.qty);
        ordered := ordered - hedge.qty;
      }
      ExitClosesAll(legs, position, future, hedge.qty);
      entered := false;
      stoppedForDay := true;
      hedge := hedge.(qty := 0);
      hedgeLots := 0;
      signal := Some(Signal(EXIT, legs));
    }

    method TryEntry(m: Market, spot: real, resolved: Option<Future>) returns (signal: Option<Signal>)
      requires Valid() && !entered
      modifies this`entered, this`position, this`future, this`lastRebalance
      ensures Valid()
      ensures signal.Some? <==> EntryPossible(params, m, expiry, spot, old(position))
      ensures signal.Some? ==>
        && signal.value.kind == ENTRY && entered && lastRebalance == Some(m.date * 86400 + m.time)
        && signal.value.legs == SS.Legs(position.ce, position.pe, position.quantity)
        && Taken(params, m, expiry, spot, lotSize, old(position), position)
      ensures signal.None? ==> !entered && future == old(future) && lastRebalance == old(lastRebalance)
    {
      if !FiltersAllow(params, m, expiry) {
        return None;
      }
      position := position.(quantity := VixAdjustedLots(params.filters, params.lots, m.vix) * lotSize);
      var strikes := m.Strikes(expiry);
      if strikes == [] {
        return None;
      }
      if params.asStrangle {
        var found := SS.FindStrangle(strikes, params.strangleDelta, -params.strangleDelta);
        if found.None? {
          return None;
        }
        SS.SelectedAreEligible(strikes, params.strangleDelta, -params.strangleDelta, found.value.0, found.value.1);
        position := position.(ce := found.value.0, pe := found.value.1);
      } else {
        if spot <= 0.0 {
          return None;
        }
        var atm := AtTheMoney(params, spot);
        var ce, pe := FindStraddle(strikes, atm, position.ce, position.pe);
        position := position.(ce := ce, pe := pe);
        if position.ce.token == 0 || position.pe.token == 0 {
          return None;
        }
      }
      position := position.(entryPremium := m.Ltp(position.ce.token) + m.Ltp(position.pe.token));
      PremiumIsCredited(position, m);
      if resolved.Some? && expiry.Some? {
        future := resolved;
      }
      entered := true;
      lastRebalance := Some(Now(m));
      signal := Some(Signal(ENTRY, SS.Legs(position.ce, position.pe, position.quantity)));
    }

    /** A new day forgets that the strategy is in a position, and nothing else: its legs stay tracked, but no exit will
        come for them, and the hedge that belongs to them stays on the books. */
    method ResetDayState()
      requires Valid()
      modifies this`entered, this`stoppedForDay
      ensures Valid() && !entered && !stoppedForDay && forall m :: !MustExit(m)
      ensures Untracked() == old(Untracked())
    {
      entered := false;
      stoppedForDay := false;
    }
  }

  /** The quotes of the first entry at exactly that strike; a side that is not quoted keeps the leg tracked before. */
  method FindStraddle(strikes: seq<Entry>, atm: real, oldCe: Tracked, oldPe: Tracked) returns (ce: Tracked, pe: Tracked)
    ensures ce == StraddleLeg(strikes, atm, true, oldCe) && pe == StraddleLeg(strikes, atm, false, oldPe)
  {
    ce, pe := oldCe, oldPe;
    var k := 0;
    while k < |strikes|
      invariant 0 <= k <= |strikes| && ce == oldCe && pe == oldPe
      invariant forall j :: 0 <= j < k ==> strikes[j].strike != atm
    {
      if strikes[k].strike == atm {
        EntryAtIsFirst(strikes, atm, k);
        if strikes[k].ce.Some? { ce := TrackedAt(strikes, k, true); }
        if strikes[k].pe.Some? { pe := TrackedAt(strikes, k, false); }
        return;
      }
      k := k + 1;
    }
    NoEntryAt(strikes, atm);
  }
}
