/** The iron condor strategy: two short options near the money, each covered by a long wing further out. */
module IronCondor {
  import opened Collections
  import opened Ledger
  import opened MaxPain
  import opened OptionChain
  import opened Strategy
  import opened Payoff
  import opened Valuation

  datatype Params = Params(underlying: string, lots: int, entryTime: int, exitTime: int, filters: Filters,
                           shortCallDelta: real, shortPutDelta: real, wingWidthStrikes: nat,
                           adjustmentThresholdPct: real, stopLossPct: real, profitTargetPct: real)

  datatype Spread = Spread(short: Tracked, long: Tracked)

  const LAST_ADJUSTMENT_TIME := 51300  // 14:15
  const COOLDOWN := 30.0

  /** The legs of a condor in the order of its entry signal. */
  function Legs(call: Spread, put: Spread, quantity: int): seq<Leg> {
    [ToLeg(call.short, SELL, quantity), ToLeg(put.short, SELL, quantity),
     ToLeg(call.long, BUY, quantity), ToLeg(put.long, BUY, quantity)]
  }

  /** The legs that roll one spread into another. */
  function RollLegs(from: Spread, to: Spread, quantity: int): seq<Leg> {
    [ToLeg(from.short, BUY, quantity), ToLeg(from.long, SELL, quantity),
     ToLeg(to.short, SELL, quantity), ToLeg(to.long, BUY, quantity)]
  }

  function SpreadNet(s: Spread, quantity: int, token: int): int {
    (if s.long.token == token then quantity else 0) - (if s.short.token == token then quantity else 0)
  }

  lemma LegsNet(call: Spread, put: Spread, quantity: int, token: int)
    ensures Net(Legs(call, put, quantity), token) == SpreadNet(call, quantity, token) + SpreadNet(put, quantity, token)
  {
    var legs := Legs(call, put, quantity);
    NetOfFour(legs[0], legs[1], legs[2], legs[3], token);
    NetOfTwo(legs[0], legs[1], token);
    NetOfTwo(legs[2], legs[3], token);
    forall i | 0 <= i < 4 { NetOfOne(legs[i], token); }
  }

  lemma RollLegsNet(from: Spread, to: Spread, quantity: int, token: int)
    ensures Net(RollLegs(from, to, quantity), token) == SpreadNet(to, quantity, token) - SpreadNet(from, quantity, token)
  {
    var legs := RollLegs(from, to, quantity);
    NetOfFour(legs[0], legs[1], legs[2], legs[3], token);
    NetOfTwo(legs[0], legs[1], token);
    NetOfTwo(legs[2], legs[3], token);
    forall i | 0 <= i < 4 { NetOfOne(legs[i], token); }
  }

  /** Both legs are the contracts the strategy takes them for, and the wing is exactly the offset further out. */
  ghost predicate Covered(s: Spread, isCall: bool, wing: real, contract: int -> Contract) {
    && s.long.strike == (if isCall then s.short.strike + wing else s.short.strike - wing)
    && contract(s.short.token) == Contract(s.short.strike, isCall)
    && contract(s.long.token) == Contract(s.long.strike, isCall)
  }

  /** A spread a strategy may open from a chain: short at the delta nearest the target, wing at the offset. */
  ghost predicate Selected(strikes: seq<Entry>, isCall: bool, target: real, wing: real, s: Spread) {
    exists i: nat, w: nat :: SelectedAt(strikes, isCall, target, wing, s, i, w)
  }

  ghost predicate CanSelect(strikes: seq<Entry>, isCall: bool, target: real, wing: real) {
    exists s :: Selected(strikes, isCall, target, wing, s)
  }

  ghost predicate SelectedAt(strikes: seq<Entry>, isCall: bool, target: real, wing: real, s: Spread, i: nat, w: nat) {
    && BestAmong(strikes, |strikes|, isCall, target, i)
    && IsWing(strikes, w, isCall, WingStrike(strikes[i].strike, isCall, wing))
    && s == Spread(TrackedAt(strikes, i, isCall), TrackedAt(strikes, w, isCall))
  }

  function WingStrike(short: real, isCall: bool, wing: real): real { if isCall then short + wing else short - wing }

  lemma SelectedIsCovered(strikes: seq<Entry>, isCall: bool, target: real, wing: real, s: Spread, contract: int -> Contract)
    requires Strategy.Consistent(strikes, contract) && Selected(strikes, isCall, target, wing, s)
    ensures Covered(s, isCall, wing, contract)
  {
    var i: nat, w: nat :| SelectedAt(strikes, isCall, target, wing, s, i, w);
    assert QuoteOk(strikes[i], isCall, contract) && QuoteOk(strikes[w], isCall, contract);
  }

  // ---- Never naked ----

  /** The legs of a covered condor lose, at any settlement price, at most one wing per unit, or two if the
      short strikes cross. */
  lemma CoveredLegsFloor(call: Spread, put: Spread, quantity: int, wing: real, contract: int -> Contract, spot: real)
    requires quantity >= 0 && wing >= 0.0
    requires Covered(call, true, wing, contract) && Covered(put, false, wing, contract)
    ensures var worth := Worth(Legs(call, put, quantity), AtExpiry(contract, spot));
            && (put.short.strike <= call.short.strike ==> worth >= -(quantity as real * wing))
            && worth >= -(quantity as real * (2.0 * wing))
  {
    var price := AtExpiry(contract, spot);
    CondorWorth(call, put, quantity, price);
    SpreadFloor(call.short.strike, call.long.strike, true, wing, spot);
    SpreadFloor(put.short.strike, put.long.strike, false, wing, spot);
    var net := (price(call.long.token) - price(call.short.token)) + (price(put.long.token) - price(put.short.token));
    FloorOfNet(Worth(Legs(call, put, quantity), price), quantity as real, net, 0.0, net, wing, put.short.strike <= call.short.strike);
  }

  lemma CondorWorth(call: Spread, put: Spread, quantity: int, price: int -> real)
    ensures Worth(Legs(call, put, quantity), price) ==
            quantity as real * ((price(call.long.token) - price(call.short.token)) + (price(put.long.token) - price(put.short.token)))
  {
    var legs := Legs(call, put, quantity);
    var three, two, one := legs[..3], legs[..2], legs[..1];
    assert one[..0] == [] && two[..1] == one && three[..2] == two;
    assert Worth(one, price) == Times(-quantity, price(call.short.token));
    assert Worth(two, price) == Worth(one, price) + Times(-quantity, price(put.short.token));
    assert Worth(three, price) == Worth(two, price) + Times(quantity, price(call.long.token));
    assert Worth(legs, price) == Worth(three, price) + Times(quantity, price(put.long.token));
    CondorProducts(quantity, price(call.short.token), price(put.short.token), price(call.long.token), price(put.long.token));
  }

  lemma CondorProducts(q: int, a: real, b: real, c: real, d: real)
    ensures Times(-q, a) + Times(-q, b) + Times(q, c) + Times(q, d) == q as real * ((c - a) + (d - b))
  {
    TimesNegated(q, a);
    TimesNegated(q, b);
    TimesIsProduct(q, c);
    TimesIsProduct(q, d);
    Factor(q as real, a, b, c, d);
  }

  lemma Factor(r: real, a: real, b: real, c: real, d: real)
    ensures -(r * a) - r * b + r * c + r * d == r * ((c - a) + (d - b))
  {
  }

  /** The position being held, or last held. */
  datatype Position = Position(call: Spread, put: Spread, quantity: int, entryCredit: real) {

    function OpenLegs(): seq<Leg> { Legs(call, put, quantity) }

    /** What closing the four legs would cost. */
    function Debit(m: Market): real {
      (m.Ltp(call.short.token) + m.Ltp(put.short.token)) - (m.Ltp(call.long.token) + m.Ltp(put.long.token))
    }

    predicate ProfitTargetHit(p: Params, m: Market) {
      entryCredit > 0.0 && p.profitTargetPct > 0.0 && (entryCredit - Debit(m)) / entryCredit * 100.0 >= p.profitTargetPct
    }

    predicate StopLossHit(p: Params, m: Market) {
      entryCredit > 0.0 && (Debit(m) - entryCredit) / entryCredit * 100.0 > p.stopLossPct
    }

    predicate MustExit(p: Params, m: Market) {
      m.time >= p.exitTime || ProfitTargetHit(p, m) || StopLossHit(p, m)
    }

    function SpreadOf(isCall: bool): Spread { if isCall then call else put }

    /** Closing one side would cost too much of the credit received. */
    predicate Threatened(p: Params, m: Market, isCall: bool) {
      entryCredit > 0.0 &&
      (m.Ltp(SpreadOf(isCall).short.token) - m.Ltp(SpreadOf(isCall).long.token)) / entryCredit > p.adjustmentThresholdPct / 100.0
    }

    predicate MayAdjust(p: Params, m: Market, lastAdjustment: real) {
      && !MustExit(p, m) && entryCredit > 0.0
      && m.wall - lastAdjustment >= COOLDOWN && m.time < LAST_ADJUSTMENT_TIME
    }

    /** The side to be adjusted: the call side first. */
    function SideToAdjust(p: Params, m: Market): Option<bool> {
      if Threatened(p, m, true) then Some(true) else if Threatened(p, m, false) then Some(false) else None
    }

    ghost predicate CoveredBy(wing: real, contract: int -> Contract) {
      Covered(call, true, wing, contract) && Covered(put, false, wing, contract) && quantity >= 1
    }
  }

  // ---- When to leave and when to roll, in money ----

  /** What the position brought in when it was opened, or last rolled. */
  ghost function Received(pos: Position): real { pos.quantity as real * pos.entryCredit }

  /** It is time, or what closing the legs would cost now exceeds what they brought in by more than the stop loss, or falls
      short of it by at least the profit target. */
  ghost predicate ExitIsDue(p: Params, m: Market, pos: Position) {
    || m.time >= p.exitTime
    || StopOrTarget(Worth(Legs(pos.call, pos.put, pos.quantity), Quotes(m)), Received(pos), p.stopLossPct, p.profitTargetPct)
  }

  /** Closing the two legs of one side would cost more than a share of what the position brought in. */
  ghost predicate TooDear(p: Params, m: Market, pos: Position, isCall: bool) {
    var side := if isCall then pos.call else pos.put;
    -Worth([ToLeg(side.short, SELL, pos.quantity), ToLeg(side.long, BUY, pos.quantity)], Quotes(m)) * 100.0
    > p.adjustmentThresholdPct * Received(pos)
  }

  /** One side is to be rolled: nothing calls for an exit, half a minute has passed since the last roll, it is not yet a
      quarter past two, and closing this side is too dear, the put side only if the call side is not. */
  ghost predicate RollIsDue(p: Params, m: Market, pos: Position, last: real, isCall: bool) {
    && !ExitIsDue(p, m, pos) && Received(pos) > 0.0 && m.wall - last >= 30.0 && m.time < 14 * 3600 + 15 * 60
    && TooDear(p, m, pos, isCall) && (isCall || !TooDear(p, m, pos, true))
  }

  lemma SpreadWorth(s: Spread, quantity: int, price: int -> real)
    ensures Worth([ToLeg(s.short, SELL, quantity), ToLeg(s.long, BUY, quantity)], price)
            == -(quantity as real * (price(s.short.token) - price(s.long.token)))
  {
    var legs := [ToLeg(s.short, SELL, quantity), ToLeg(s.long, BUY, quantity)];
    var one := legs[..1];
    assert one[..0] == [];
    assert Worth(one, price) == Times(-quantity, price(s.short.token));
    assert Worth(legs, price) == Worth(one, price) + Times(quantity, price(s.long.token));
    TimesNegated(quantity, price(s.short.token));
    TimesIsProduct(quantity, price(s.long.token));
    Difference(quantity as real, price(s.short.token), price(s.long.token));
  }

  lemma Difference(q: real, a: real, b: real)
    ensures q * (a - b) == q * a - q * b
  {
  }

  /** What a position holds is worth what closing it would cost. */
  lemma WorthIsDebit(pos: Position, m: Market)
    ensures Worth(Legs(pos.call, pos.put, pos.quantity), Quotes(m)) == -(pos.quantity as real * pos.Debit(m))
  {
    var q, debit := pos.quantity as real, pos.Debit(m);
    CondorWorth(pos.call, pos.put, pos.quantity, Quotes(m));
    assert q * -debit == -(q * debit);
  }

  /** The credit on the books is what the legs brought in at these prices. */
  ghost predicate Credited(pos: Position, m: Market) {
    Received(pos) == -Worth(Legs(pos.call, pos.put, pos.quantity), Quotes(m))
  }

  lemma DebitIsCredited(pos: Position, m: Market)
    requires pos.entryCredit == pos.Debit(m)
    ensures Credited(pos, m)
  {
    WorthIsDebit(pos, m);
  }

  lemma ExitsAreDue(p: Params, m: Market, pos: Position)
    requires pos.quantity >= 1
    ensures pos.MustExit(p, m) <==> ExitIsDue(p, m, pos)
    ensures Received(pos) > 0.0 <==> pos.entryCredit > 0.0
  {
    WorthIsDebit(pos, m);
    PerUnitStopOrTarget(pos.quantity, pos.entryCredit, pos.Debit(m), p.stopLossPct, p.profitTargetPct);
  }

  lemma ThreatIsDear(p: Params, m: Market, pos: Position, isCall: bool)
    requires pos.quantity >= 1 && pos.entryCredit > 0.0
    ensures pos.Threatened(p, m, isCall) <==> TooDear(p, m, pos, isCall)
  {
    var side := pos.SpreadOf(isCall);
    var cost := m.Ltp(side.short.token) - m.Ltp(side.long.token);
    SpreadWorth(side, pos.quantity, Quotes(m));
    Percent(cost, pos.entryCredit, p.adjustmentThresholdPct);
    ScaledUp(pos.quantity as real, cost * 100.0, p.adjustmentThresholdPct * pos.entryCredit);
    UnitsOf(pos.quantity as real, 0.0, cost, p.adjustmentThresholdPct);
    UnitsOf(pos.quantity as real, pos.entryCredit, cost, p.adjustmentThresholdPct);
  }

  lemma RollsAreDue(p: Params, m: Market, pos: Position, last: real)
    requires pos.quantity >= 1
    ensures forall isCall :: RollIsDue(p, m, pos, last, isCall) <==>
      pos.MayAdjust(p, m, last) && pos.SideToAdjust(p, m) == Some(isCall)
  {
    ExitsAreDue(p, m, pos);
    if pos.entryCredit > 0.0 {
      ThreatIsDear(p, m, pos, true);
      ThreatIsDear(p, m, pos, false);
    }
  }

  /** What has happened so far: the legs emitted and the entries since the last day reset. */
  datatype Log = Log(emitted: seq<Leg>, entries: nat)

  function Wing(p: Params): real { (p.wingWidthStrikes * StrikeInterval(p.underlying)) as real }

  /** The wings are so many strikes away: steps of 50 for NIFTY and FINNIFTY, and of 100 for any other index. */
  lemma WingInSteps(p: Params)
    ensures Wing(p) == (p.wingWidthStrikes * if p.underlying in {"NIFTY", "FINNIFTY"} then 50 else 100) as real
  {
  }

  function Target(p: Params, isCall: bool): real { if isCall then p.shortCallDelta else p.shortPutDelta }

  predicate FiltersAllow(p: Params, m: Market, expiry: Option<int>) {
    !VixBlocks(p.filters, m.vix) && !PcrBlocks(p.filters, m, expiry) && !MaxPainBlocks(p.filters, m, expiry)
  }

  /** One side was replaced by a freshly selected spread, the other left alone. */
  ghost predicate RolledSide(p: Params, m: Market, strikes: seq<Entry>, isCall: bool, before: Position, after: Position, legs: seq<Leg>) {
    && after.quantity == before.quantity && Credited(after, m)
    && after.SpreadOf(!isCall) == before.SpreadOf(!isCall)
    && legs == RollLegs(before.SpreadOf(isCall), after.SpreadOf(isCall), before.quantity)
    && Selected(strikes, isCall, if isCall then p.shortCallDelta else p.shortPutDelta, Wing(p), after.SpreadOf(isCall))
  }

  /** Nothing stands in the way of an entry and all four legs can be found. */
  ghost predicate EntryPossible(p: Params, m: Market, expiry: Option<int>) {
    && Unfiltered(p.filters, m, expiry)
    && CanSelect(m.Strikes(expiry), true, p.shortCallDelta, Wing(p))
    && CanSelect(m.Strikes(expiry), false, p.shortPutDelta, Wing(p))
    && !WingsShareAStrike(m.Strikes(expiry), p.shortCallDelta, p.shortPutDelta, Wing(p))
  }

  ghost predicate EnteredWith(p: Params, m: Market, expiry: Option<int>, position: Position, lotSize: int) {
    && Unfiltered(p.filters, m, expiry)
    && position.quantity == VixAdjustedLots(p.filters, p.lots, m.vix) * lotSize
    && Credited(position, m)
    && Selected(m.Strikes(expiry), true, p.shortCallDelta, Wing(p), position.call)
    && Selected(m.Strikes(expiry), false, p.shortPutDelta, Wing(p), position.put)
  }

  class IronCondorStrategy {
    const params: Params
    const lotSize: int
    ghost const contract: int -> Contract

    var entered: bool
    var stoppedForDay: bool
    var position: Position
    var expiry: Option<int>
    var lastAdjustment: real

    ghost var log: Log

    function Held(): seq<Leg>
      reads this
    {
      if entered then position.OpenLegs() else []
    }

    /** The ledger is exactly what is held, what is held is covered, and a day has at most one entry. */
    ghost predicate Valid()
      reads this
    {
      && params.lots >= 1 && lotSize >= 1
      && LedgerIs(log.emitted, Held())
      && (entered ==> position.CoveredBy(Wing(params), contract))
      && log.entries <= 1 && (entered ==> log.entries == 1)
      && (!entered && log.entries == 1 ==> stoppedForDay)
    }

    constructor (params: Params, ghost contract: int -> Contract)
      requires params.lots >= 1
      ensures Valid() && !entered && !stoppedForDay && log == Log([], 0) && this.params == params && this.contract == contract
      ensures lotSize == LotSize(params.underlying)
      ensures expiry == None
    {
      this.params := params;
      this.contract := contract;
      lotSize := LotSize(params.underlying);
      entered, stoppedForDay, expiry, lastAdjustment := false, false, None, 0.0;
      var blank := Spread(Tracked(0, "", 0.0), Tracked(0, "", 0.0));
      position := Position(blank, blank, params.lots * LotSize(params.underlying), 0.0);
      log := Log([], 0);
    }

    method OnStart(nextExpiry: int)
      requires Valid()
      modifies this`expiry
      ensures Valid() && expiry == Some(nextExpiry)
    {
      expiry := Some(nextExpiry);
    }

    /** At every settlement price the position built by everything emitted so far, never mind how many rolls,
        is worth at least minus one wing per unit (two if the short strikes have crossed), and nothing when out. */
    lemma NeverNaked(spot: real)
      requires Valid()
      ensures var worth := Worth(log.emitted, AtExpiry(contract, spot));
              && (entered && position.put.short.strike <= position.call.short.strike ==>
                    worth >= -(position.quantity as real * Wing(params)))
              && (entered ==> worth >= -(position.quantity as real * (2.0 * Wing(params))))
              && (!entered ==> worth == 0.0)
    {
      SameNetSameWorth(log.emitted, Held(), AtExpiry(contract, spot));
      if entered { CoveredLegsFloor(position.call, position.put, position.quantity, Wing(params), contract, spot); }
    }

    /** Whatever premiums the four legs of the position now held were dealt at, their payoff at every spot is at
        least the quantity times the net credit less one wing, or less two if the short strikes have crossed. */
    lemma PayoffFloor(sce: real, lce: real, spe: real, lpe: real, spot: real)
      requires Valid() && entered
      ensures var legs := Condor(position.call.short.strike, position.call.long.strike, position.put.short.strike,
                                 position.put.long.strike, position.quantity, sce, lce, spe, lpe);
              var credit := (sce + spe) - (lce + lpe);
              && (position.put.short.strike <= position.call.short.strike ==>
                    TotalPayoff(legs, spot) >= position.quantity as real * (credit - Wing(params)))
              && TotalPayoff(legs, spot) >= position.quantity as real * (credit - 2.0 * Wing(params))
    {
      CondorFloor(position.call.short.strike, position.call.long.strike, position.put.short.strike, position.put.long.strike,
                  Wing(params), position.quantity, sce, lce, spe, lpe, spot);
    }

    /** One tick. The signal is an exit exactly when the position must be closed; an adjustment exactly when one
        side is threatened and a covered replacement exists; an entry only when one is allowed, and whenever
        one is possible. Whatever was emitted, the ledger and the cover hold afterwards. */
    method OnTick(m: Market) returns (signal: Option<Signal>)
      requires Valid() && MarketOk(m, contract)
      modifies this
      ensures Valid() && log.emitted == old(log).emitted + LegsOf(signal)
      ensures expiry == if old(expiry).Some? && m.date > old(expiry).value then Some(m.nextExpiry) else old(expiry)
      ensures lastAdjustment == if signal.Some? && signal.value.kind == ADJUST then m.wall else old(lastAdjustment)
      ensures (signal.Some? && signal.value.kind == EXIT) <==> old(entered && ExitIsDue(params, m, position))
      ensures signal.Some? && signal.value.kind == EXIT ==>
        signal.value.legs == Closing(old(Held())) && !entered && stoppedForDay
      ensures signal.Some? && signal.value.kind == ENTRY ==>
        && !old(entered) && !old(stoppedForDay) && m.time >= params.entryTime
        && entered && signal.value.legs == position.OpenLegs() && EnteredWith(params, m, expiry, position, lotSize)
      ensures signal.Some? && signal.value.kind == ADJUST ==>
        && old(entered) && entered
        && exists isCall :: RollIsDue(params, m, old(position), old(lastAdjustment), isCall)
                            && RolledSide(params, m, m.Strikes(expiry), isCall, old(position), position, signal.value.legs)
      ensures signal.None? ==>
        && entered == old(entered) && stoppedForDay == old(stoppedForDay) && Held() == old(Held())
        && (!entered && !stoppedForDay && m.time >= params.entryTime ==> !EntryPossible(params, m, expiry))
        && forall isCall :: entered && RollIsDue(params, m, position, lastAdjustment, isCall) ==>
             !CanSelect(m.Strikes(expiry), isCall, if isCall then params.shortCallDelta else params.shortPutDelta, Wing(params))
    {
      if entered {
        ExitsAreDue(params, m, position);
        RollsAreDue(params, m, position, lastAdjustment);
      }
      expiry := Rolled(expiry, m);
      signal := None;
      if m.time >= params.exitTime && entered {
        signal := CreateExitSignal();
      } else if !entered && !stoppedForDay && m.time >= params.entryTime {
        signal := TryEntry(m);
      } else if entered {
        signal := CheckAdjustments(m);
      }
    }

    method TryEntry(m: Market) returns (signal: Option<Signal>)
      requires Valid() && MarketOk(m, contract) && !entered && !stoppedForDay
      modifies this`entered, this`position, this`log
      ensures Valid() && log.emitted == old(log).emitted + LegsOf(signal)
      ensures signal.None? ==> !entered && !EntryPossible(params, m, expiry)
      ensures signal.Some? ==>
        && signal.value.kind == ENTRY && entered && signal.value.legs == position.OpenLegs()
        && EnteredWith(params, m, expiry, position, lotSize)
    {
      if !FiltersAllow(params, m, expiry) {
        return None;
      }
      var strikes := m.Strikes(expiry);
      if strikes == [] {
        NothingToSelect(true, params.shortCallDelta, Wing(params));
        return None;
      }
      position := position.(quantity := VixAdjustedLots(params.filters, params.lots, m.vix) * lotSize);
      var call, put, found := FindCondor(strikes, params.shortCallDelta, params.shortPutDelta, Wing(params), position.call, position.put);
      position := position.(call := call, put := put);
      if !found {
        return None;
      }
      position := position.(entryCredit := position.Debit(m));
      DebitIsCredited(position, m);
      EntryIsCovered(params, m, expiry, position, lotSize, contract);
      LedgerOpens(log.emitted, position.OpenLegs());
      entered := true;
      signal := Some(Signal(ENTRY, position.OpenLegs()));
      log := Log(log.emitted + position.OpenLegs(), 1);
    }

    method CheckAdjustments(m: Market) returns (signal: Option<Signal>)
      requires Valid() && MarketOk(m, contract) && entered && m.time < params.exitTime
      modifies this`entered, this`stoppedForDay, this`position, this`lastAdjustment, this`log
      ensures lastAdjustment == if signal.Some? && signal.value.kind == ADJUST then m.wall else old(lastAdjustment)
      ensures Valid() && log.emitted == old(log).emitted + LegsOf(signal)
      ensures (signal.Some? && signal.value.kind == EXIT) <==> old(position).MustExit(params, m)
      ensures signal.Some? && signal.value.kind == EXIT ==>
        signal.value.legs == Closing(old(Held())) && !entered && stoppedForDay
      ensures signal.Some? && signal.value.kind != EXIT ==>
        && signal.value.kind == ADJUST && entered && old(position).MayAdjust(params, m, old(lastAdjustment))
        && old(position).SideToAdjust(params, m).Some?
        && RolledSide(params, m, m.Strikes(expiry), old(position).SideToAdjust(params, m).value, old(position), position, signal.value.legs)
      ensures signal.None? ==>
        && entered && stoppedForDay == old(stoppedForDay) && position == old(position)
        && (old(position).MayAdjust(params, m, old(lastAdjustment)) ==>
              var side := old(position).SideToAdjust(params, m);
              side.Some? ==> !CanSelect(m.Strikes(expiry), side.value, Target(params, side.value), Wing(params)))
    {
      if position.entryCredit <= 0.0 {
        return None;
      }
      if position.ProfitTargetHit(params, m) || position.StopLossHit(params, m) {
        signal := CreateExitSignal();
        return;
      }
      if m.wall - lastAdjustment < COOLDOWN || m.time >= LAST_ADJUSTMENT_TIME {
        return None;
      }
      if position.Threatened(params, m, true) {
        signal := AdjustThreatenedSide(m, true);
      } else if position.Threatened(params, m, false) {
        signal := AdjustThreatenedSide(m, false);
      } else {
        signal := None;
      }
    }

    /** Rolls one side, or does nothing at all when no covered replacement can be formed. */
    method AdjustThreatenedSide(m: Market, isCall: bool) returns (signal: Option<Signal>)
      requires Valid() && MarketOk(m, contract) && entered
      modifies this`position, this`lastAdjustment, this`log
      ensures lastAdjustment == if signal.Some? then m.wall else old(lastAdjustment)
      ensures Valid() && log.emitted == old(log).emitted + LegsOf(signal)
      ensures signal.None? ==>
        && position == old(position) && log == old(log)
        && !CanSelect(m.Strikes(expiry), isCall, Target(params, isCall), Wing(params))
      ensures signal.Some? ==>
        && signal.value.kind == ADJUST
        && RolledSide(params, m, m.Strikes(expiry), isCall, old(position), position, signal.value.legs)
    {
      var strikes := m.Strikes(expiry);
      var next := FindSpread(strikes, isCall, Target(params, isCall), Wing(params));
      if next.None? {
        return None;
      }
      var legs := RollLegs(position.SpreadOf(isCall), next.value, position.quantity);
      var rolled := if isCall then position.(call := next.value) else position.(put := next.value);
      rolled := rolled.(entryCredit := rolled.Debit(m));
      DebitIsCredited(rolled, m);
      StrikesAreConsistent(m, contract, expiry);
      SelectedIsCovered(strikes, isCall, Target(params, isCall), Wing(params), next.value, contract);
      RollKeepsLedger(log.emitted, position.call, position.put, rolled.call, rolled.put, isCall, position.quantity);
      position := rolled;
      lastAdjustment := m.wall;
      signal := Some(Signal(ADJUST, legs));
      log := log.(emitted := log.emitted + legs);
    }

    /** Closes all four legs and stays out for the rest of the day. */
    method CreateExitSignal() returns (signal: Option<Signal>)
      requires Valid() && entered
      modifies this`entered, this`stoppedForDay, this`log
      ensures Valid() && !entered && stoppedForDay
      ensures signal == Some(Signal(EXIT, Closing(old(Held())))) && log.emitted == old(log).emitted + LegsOf(signal)
    {
      var legs := [ToLeg(position.call.short, BUY, position.quantity), ToLeg(position.put.short, BUY, position.quantity),
                   ToLeg(position.call.long, SELL, position.quantity), ToLeg(position.put.long, SELL, position.quantity)];
      ClosingLegs(position.call, position.put, position.quantity);
      forall t { ClosingCancels(position.OpenLegs(), t); }
      LedgerCloses(log.emitted, position.OpenLegs(), legs);
      entered := false;
      stoppedForDay := true;
      signal := Some(Signal(EXIT, legs));
      log := log.(emitted := log.emitted + legs);
    }

    /** The start of a trading day. Resetting while a position is open forgets it: the legs stay in the
        ledger, and the state is consistent afterwards when the strategy was out, and not when it was in. */
    method ResetDayState()
      requires Valid()
      modifies this`entered, this`stoppedForDay, this`log
      ensures !entered && !stoppedForDay && log == Log(old(log).emitted, 0)
      ensures !old(entered) ==> Valid()
      ensures old(entered) && params.wingWidthStrikes > 0 ==> !Valid()
    {
      if entered && params.wingWidthStrikes > 0 {
        ForgottenLegsRemain(position.call, position.put, position.quantity, Wing(params), contract);
        ghost var t := position.call.short.token;
        assert Net(log.emitted, t) == Net(position.OpenLegs(), t);
        assert Net(log.emitted, t) != Net([], t);
      }
      entered := false;
      stoppedForDay := false;
      log := Log(log.emitted, 0);
    }
  }

  lemma NothingToSelect(isCall: bool, target: real, wing: real)
    ensures !CanSelect([], isCall, target, wing)
  {
  }

  lemma EntryIsCovered(p: Params, m: Market, expiry: Option<int>, position: Position, lotSize: int, contract: int -> Contract)
    requires p.lots >= 1 && lotSize >= 1 && MarketOk(m, contract)
    requires EnteredWith(p, m, expiry, position, lotSize)
    ensures position.CoveredBy(Wing(p), contract)
  {
    StrikesAreConsistent(m, contract, expiry);
    SelectedIsCovered(m.Strikes(expiry), true, p.shortCallDelta, Wing(p), position.call, contract);
    SelectedIsCovered(m.Strikes(expiry), false, p.shortPutDelta, Wing(p), position.put, contract);
    LotsStayPositive(p.filters, p.lots, m.vix, lotSize);
  }

  lemma LotsStayPositive(f: Filters, lots: int, vix: real, lotSize: int)
    requires lots >= 1 && lotSize >= 1
    ensures VixAdjustedLots(f, lots, vix) * lotSize >= 1
  {
    var n := VixAdjustedLots(f, lots, vix);
    assert n >= 1;
    assert n * lotSize >= 1 * lotSize;
  }

  lemma ClosingLegs(call: Spread, put: Spread, quantity: int)
    ensures Closing(Legs(call, put, quantity)) ==
            [ToLeg(call.short, BUY, quantity), ToLeg(put.short, BUY, quantity),
             ToLeg(call.long, SELL, quantity), ToLeg(put.long, SELL, quantity)]
  {
    var legs := Legs(call, put, quantity);
    var three, two, one := legs[..3], legs[..2], legs[..1];
    assert one[..0] == [] && two[..1] == one && three[..2] == two;
    assert Closing(one) == [ToLeg(call.short, BUY, quantity)];
    assert Closing(two) == Closing(one) + [ToLeg(put.short, BUY, quantity)];
    assert Closing(three) == Closing(two) + [ToLeg(call.long, SELL, quantity)];
  }

  lemma RollKeepsLedger(emitted: seq<Leg>, call: Spread, put: Spread, call': Spread, put': Spread, isCall: bool, quantity: int)
    requires LedgerIs(emitted, Legs(call, put, quantity))
    requires if isCall then put' == put else call' == call
    ensures LedgerIs(emitted + (if isCall then RollLegs(call, call', quantity) else RollLegs(put, put', quantity)),
                     Legs(call', put', quantity))
  {
    var legs := if isCall then RollLegs(call, call', quantity) else RollLegs(put, put', quantity);
    forall t ensures Net(Legs(call', put', quantity), t) == Net(Legs(call, put, quantity), t) + Net(legs, t) {
      LegsNet(call, put, quantity, t);
      LegsNet(call', put', quantity, t);
      if isCall { RollLegsNet(call, call', quantity, t); } else { RollLegsNet(put, put', quantity, t); }
    }
    LedgerRolls(emitted, Legs(call, put, quantity), legs, Legs(call', put', quantity));
  }

  lemma ForgottenLegsRemain(call: Spread, put: Spread, quantity: int, wing: real, contract: int -> Contract)
    requires wing > 0.0 && quantity >= 1
    requires Covered(call, true, wing, contract) && Covered(put, false, wing, contract)
    ensures Net(Legs(call, put, quantity), call.short.token) == -quantity
  {
    LegsNet(call, put, quantity, call.short.token);
  }

  /** The spread to roll into, looked up before anything is changed. */
  method FindSpread(strikes: seq<Entry>, isCall: bool, target: real, wing: real) returns (s: Option<Spread>)
    ensures s.Some? ==> Selected(strikes, isCall, target, wing, s.value)
    ensures s.None? ==> !CanSelect(strikes, isCall, target, wing)
  {
    var best := FindBest(strikes, isCall, target);
    if best.None? {
      return None;
    }
    var long := FindWing(strikes, isCall, WingStrike(strikes[best.value].strike, isCall, wing));
    if long.None? {
      NoWingNoSpread(strikes, isCall, target, wing, best.value);
      return None;
    }
    s := Some(Spread(TrackedAt(strikes, best.value, isCall), TrackedAt(strikes, long.value, isCall)));
    assert SelectedAt(strikes, isCall, target, wing, s.value, best.value, long.value);
  }

  lemma BestIsUnique(strikes: seq<Entry>, isCall: bool, target: real, i: nat, j: nat)
    requires BestAmong(strikes, |strikes|, isCall, target, i) && BestAmong(strikes, |strikes|, isCall, target, j)
    ensures i == j
  {
  }

  /** The four legs of an entry. When a wing is missing the strikes and short legs are already overwritten. */
  method FindCondor(strikes: seq<Entry>, callTarget: real, putTarget: real, wing: real, call0: Spread, put0: Spread)
    returns (call: Spread, put: Spread, found: bool)
    ensures found ==> Selected(strikes, true, callTarget, wing, call) && Selected(strikes, false, putTarget, wing, put)
    ensures !found && CanSelect(strikes, true, callTarget, wing) && CanSelect(strikes, false, putTarget, wing) ==>
      WingsShareAStrike(strikes, callTarget, putTarget, wing)
  {
    call, put, found := call0, put0, false;
    var bestCall, bestPut := FindBestPair(strikes, callTarget, putTarget);
    if bestCall.None? || bestPut.None? {
      assert bestCall.None? ==> !CanSelect(strikes, true, callTarget, wing);
      assert bestPut.None? ==> !CanSelect(strikes, false, putTarget, wing);
      return;
    }
    var ceStrike := strikes[bestCall.value].strike + wing;
    var peStrike := strikes[bestPut.value].strike - wing;
    call := Spread(TrackedAt(strikes, bestCall.value, true), call.long.(strike := ceStrike));
    put := Spread(TrackedAt(strikes, bestPut.value, false), put.long.(strike := peStrike));
    var ceWing, peWing := FindWings(strikes, ceStrike, peStrike);
    if ceWing.Some? { call := call.(long := TrackedAt(strikes, ceWing.value, true)); }
    if peWing.Some? { put := put.(long := TrackedAt(strikes, peWing.value, false)); }
    if ceWing.Some? && peWing.Some? {
      found := true;
      assert SelectedAt(strikes, true, callTarget, wing, call, bestCall.value, ceWing.value);
      assert SelectedAt(strikes, false, putTarget, wing, put, bestPut.value, peWing.value);
    } else if ceWing.None? {
      NoWingNoSpread(strikes, true, callTarget, wing, bestCall.value);
    } else if CanSelect(strikes, false, putTarget, wing) {
      var s :| Selected(strikes, false, putTarget, wing, s);
      var i: nat, w: nat :| SelectedAt(strikes, false, putTarget, wing, s, i, w);
      BestIsUnique(strikes, false, putTarget, i, bestPut.value);
      assert WingsMeetAt(strikes, callTarget, putTarget, wing, bestCall.value, bestPut.value);
    }
  }

  lemma NoWingNoSpread(strikes: seq<Entry>, isCall: bool, target: real, wing: real, best: nat)
    requires BestAmong(strikes, |strikes|, isCall, target, best)
    requires forall w :: !IsWing(strikes, w, isCall, WingStrike(strikes[best].strike, isCall, wing))
    ensures !CanSelect(strikes, isCall, target, wing)
  {
    forall x ensures !Selected(strikes, isCall, target, wing, x) {
      forall i: nat, w: nat ensures !SelectedAt(strikes, isCall, target, wing, x, i, w) {
        if SelectedAt(strikes, isCall, target, wing, x, i, w) {
          BestIsUnique(strikes, isCall, target, i, best);
        }
      }
    }
  }

  /** The call wing and the put wing would be the same strike. */
  ghost predicate WingsShareAStrike(strikes: seq<Entry>, callTarget: real, putTarget: real, wing: real) {
    exists i: nat, j: nat :: WingsMeetAt(strikes, callTarget, putTarget, wing, i, j)
  }

  ghost predicate WingsMeetAt(strikes: seq<Entry>, callTarget: real, putTarget: real, wing: real, i: nat, j: nat) {
    && BestAmong(strikes, |strikes|, true, callTarget, i) && BestAmong(strikes, |strikes|, false, putTarget, j)
    && strikes[i].strike + wing == strikes[j].strike - wing
  }

  /** The entry's combined wing search: one pass, the call wing taking precedence on a shared strike, stopping
      as soon as both are found. */
  method FindWings(strikes: seq<Entry>, ceStrike: real, peStrike: real) returns (ce: Option<nat>, pe: Option<nat>)
    ensures ce.Some? ==> IsWing(strikes, ce.value, true, ceStrike)
    ensures pe.Some? ==> IsWing(strikes, pe.value, false, peStrike)
    ensures ce.None? ==> forall i :: !IsWing(strikes, i, true, ceStrike)
    ensures pe.None? ==> forall i :: IsWing(strikes, i, false, peStrike) ==> IsWing(strikes, i, true, ceStrike)
  {
    ce, pe := None, None;
    var k := 0;
    while k < |strikes|
      invariant 0 <= k <= |strikes|
      invariant ce.Some? ==> IsWing(strikes, ce.value, true, ceStrike)
      invariant pe.Some? ==> IsWing(strikes, pe.value, false, peStrike)
      invariant ce.None? ==> forall i :: 0 <= i < k ==> !IsWing(strikes, i, true, ceStrike)
      invariant pe.None? ==> forall i :: 0 <= i < k && IsWing(strikes, i, false, peStrike) ==> IsWing(strikes, i, true, ceStrike)
    {
      if strikes[k].strike == ceStrike && strikes[k].ce.Some? {
        ce := Some(k);
      } else if strikes[k].strike == peStrike && strikes[k].pe.Some? {
        pe := Some(k);
      }
      if ce.Some? && pe.Some? {
        break;
      }
      k := k + 1;
    }
  }
}
