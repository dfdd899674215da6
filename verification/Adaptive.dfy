/** The adaptive strategy: enters a strangle or a condor as the market regime suggests, and leaves it when the
    regime turns. */
module Adaptive {
  import opened Collections
  import opened Ledger
  import opened MaxPain
  import opened OptionChain
  import opened Strategy
  import opened Valuation
  import SS = ShortStrangle
  import IC = IronCondor

  datatype Regime = UNKNOWN | LOW_VOL_RANGE | NORMAL_RANGE | HIGH_VOL_RANGE | TRENDING | EXTREME_VOL

  datatype Advice = SitOut | PreferCondor | PreferStrangle

  datatype Snapshot = Snapshot(regime: Regime, advice: Advice, lotsMultiplier: real)

  datatype Params = Params(underlying: string, lots: int, entryTime: int, exitTime: int,
                           reassessMinutes: int, maxSwitches: int,
                           strangleCallDelta: real, stranglePutDelta: real, strangleStopLossPct: real, strangleTrailStopPct: real,
                           icCallDelta: real, icPutDelta: real, icWingWidth: nat, icStopLossPct: real)

  datatype Kind = Nothing | Strangle | Condor

  datatype Position = Position(kind: Kind, call: IC.Spread, put: IC.Spread, quantity: int, entryPremium: real, peakPremium: real) {

    function OpenLegs(): seq<Leg> {
      if kind == Condor then IC.Legs(call, put, quantity) else SS.Legs(call.short, put.short, quantity)
    }

    function Cost(m: Market): real {
      var short := m.Ltp(call.short.token) + m.Ltp(put.short.token);
      if kind == Condor then short - (m.Ltp(call.long.token) + m.Ltp(put.long.token)) else short
    }

    predicate StopLossHit(p: Params, m: Market) {
      entryPremium > 0.0 &&
      (Cost(m) - entryPremium) / entryPremium * 100.0 > if kind == Condor then p.icStopLossPct else p.strangleStopLossPct
    }

    predicate TrailHit(p: Params, m: Market) {
      entryPremium > 0.0 && kind == Strangle && p.strangleTrailStopPct > 0.0 && Cost(m) > peakPremium &&
      (Cost(m) - peakPremium) / entryPremium * 100.0 > p.strangleTrailStopPct
    }
  }

  // ---- When to leave, in money ----

  ghost function Received(pos: Position): real { pos.quantity as real * pos.entryPremium }

  ghost function Lowest(pos: Position): real { pos.quantity as real * pos.peakPremium }

  /** What the legs held are worth now. */
  ghost function Holding(pos: Position, m: Market): real { Worth(pos.OpenLegs(), Quotes(m)) }

  /** Closing would cost more than the stop loss of its kind allows, or, for a strangle, has bounced off its lowest by
      more than the trail. */
  ghost predicate ExitIsDue(p: Params, m: Market, pos: Position) {
    var stop := if pos.kind == Condor then p.icStopLossPct else p.strangleStopLossPct;
    || StopOrTarget(Holding(pos, m), Received(pos), stop, 0.0)
    || (pos.kind == Strangle && Bounced(Holding(pos, m), Lowest(pos), Received(pos), p.strangleTrailStopPct))
  }

  lemma HoldingIsCost(pos: Position, m: Market)
    ensures Holding(pos, m) == -(pos.quantity as real * pos.Cost(m))
  {
    if pos.kind == Condor {
      var debit := IC.Position(pos.call, pos.put, pos.quantity, pos.entryPremium);
      IC.WorthIsDebit(debit, m);
      assert debit.Debit(m) == pos.Cost(m);
    } else {
      SS.LegsWorth(pos.call.short, pos.put.short, pos.quantity, Quotes(m));
    }
  }

  lemma ExitsAreDue(p: Params, m: Market, pos: Position)
    requires pos.quantity >= 1
    ensures pos.StopLossHit(p, m) || pos.TrailHit(p, m) <==> ExitIsDue(p, m, pos)
  {
    StopsAreDue(p, m, pos);
    TrailsAreDue(p, m, pos);
  }

  lemma StopsAreDue(p: Params, m: Market, pos: Position)
    requires pos.quantity >= 1
    ensures pos.StopLossHit(p, m) <==>
            StopOrTarget(Holding(pos, m), Received(pos), if pos.kind == Condor then p.icStopLossPct else p.strangleStopLossPct, 0.0)
  {
    HoldingIsCost(pos, m);
    PerUnitStopOrTarget(pos.quantity, pos.entryPremium, pos.Cost(m),
                        if pos.kind == Condor then p.icStopLossPct else p.strangleStopLossPct, 0.0);
  }

  lemma TrailsAreDue(p: Params, m: Market, pos: Position)
    requires pos.quantity >= 1
    ensures pos.TrailHit(p, m) <==>
            pos.kind == Strangle && Bounced(Holding(pos, m), Lowest(pos), Received(pos), p.strangleTrailStopPct)
  {
    HoldingIsCost(pos, m);
    PerUnitBounce(pos.quantity, pos.entryPremium, pos.peakPremium, pos.Cost(m), p.strangleTrailStopPct);
  }

  /** The premium on the books is what the legs bring in at these prices, and the lowest so far. */
  ghost predicate Credited(pos: Position, m: Market) {
    Received(pos) == -Holding(pos, m) && pos.peakPremium == pos.entryPremium
  }

  lemma CostIsCredited(pos: Position, m: Market)
    requires pos.peakPremium == pos.entryPremium == pos.Cost(m)
    ensures Credited(pos, m)
  {
    HoldingIsCost(pos, m);
  }

  function Truncate(x: real): int { if x >= 0.0 then x.Floor else -((-x).Floor) }

  function AdvisedLots(p: Params, s: Snapshot): int { Truncate(p.lots as real * s.lotsMultiplier) }

  /** At least one lot. */
  function SizeFor(p: Params, lotSize: int, s: Snapshot): int { Max(lotSize, AdvisedLots(p, s) * lotSize) }

  /** So many whole lots: as many as the snapshot's multiple of the usual ones has in full, but at least one. */
  lemma SizeIsAdvised(p: Params, lotSize: int, s: Snapshot) returns (n: int)
    requires lotSize >= 1
    ensures n >= 1 && SizeFor(p, lotSize, s) == n * lotSize
    ensures if p.lots as real * s.lotsMultiplier >= 1.0 then n as real <= p.lots as real * s.lotsMultiplier < (n + 1) as real
            else n == 1
  {
    n := Max(1, AdvisedLots(p, s));
    AtLeastOne(AdvisedLots(p, s), lotSize, SizeFor(p, lotSize, s), n);
    Truncated(p.lots as real * s.lotsMultiplier);
  }

  lemma AtLeastOne(advised: int, lotSize: int, size: int, n: int)
    requires lotSize >= 1 && size == Max(lotSize, advised * lotSize) && n == Max(1, advised)
    ensures size == n * lotSize
  {
    if advised > 1 { MulMonotone(1, advised, lotSize); } else { MulMonotone(advised, 1, lotSize); }
  }

  lemma Truncated(x: real)
    ensures if x >= 1.0 then Truncate(x) >= 1 && Truncate(x) as real <= x < (Truncate(x) + 1) as real else Truncate(x) <= 0
  {
  }

  predicate SignificantChange(from: Regime, to: Regime) {
    from in {LOW_VOL_RANGE, NORMAL_RANGE, HIGH_VOL_RANGE} && to in {TRENDING, EXTREME_VOL}
  }

  function Wing(p: Params): real { (p.icWingWidth * StrikeInterval(p.underlying)) as real }

  lemma WingInSteps(p: Params)
    ensures Wing(p) == (p.icWingWidth * if p.underlying in {"NIFTY", "FINNIFTY"} then 50 else 100) as real
  {
  }

  function WhenEntered(entered: bool, position: Position): seq<Leg> { if entered then position.OpenLegs() else [] }

  /** What an open position must look like for its exit to be complete and its risk to be bounded. */
  ghost predicate Sound(p: Params, position: Position, contract: int -> Contract) {
    && position.kind != Nothing && position.quantity >= 1
    && (position.kind == Condor ==>
          && position.call.long.token != 0
          && IC.Covered(position.call, true, Wing(p), contract) && IC.Covered(position.put, false, Wing(p), contract))
  }

  /** The last quoted entry at exactly that strike. */
  method FindLastWing(strikes: seq<Entry>, isCall: bool, strike: real) returns (wing: Option<nat>)
    ensures wing.Some? ==> IsWing(strikes, wing.value, isCall, strike)
    ensures wing.None? ==> forall i :: !IsWing(strikes, i, isCall, strike)
  {
    wing := None;
    var k := 0;
    while k < |strikes|
      invariant 0 <= k <= |strikes|
      invariant wing.Some? ==> IsWing(strikes, wing.value, isCall, strike)
      invariant wing.None? ==> forall i :: 0 <= i < k ==> !IsWing(strikes, i, isCall, strike)
    {
      if strikes[k].strike == strike && QuoteOf(strikes[k], isCall).Some? {
        wing := Some(k);
      }
      k := k + 1;
    }
  }

  /** All four legs of a condor, or nothing; no field is touched before all are found. */
  method FindCondor(strikes: seq<Entry>, callTarget: real, putTarget: real, wing: real)
    returns (found: Option<(IC.Spread, IC.Spread)>)
    ensures found.Some? ==>
      && IC.Selected(strikes, true, callTarget, wing, found.value.0)
      && IC.Selected(strikes, false, putTarget, wing, found.value.1)
    ensures found.None? ==> !IC.CanSelect(strikes, true, callTarget, wing) || !IC.CanSelect(strikes, false, putTarget, wing)
  {
    var bestCall, bestPut := FindBestPair(strikes, callTarget, putTarget);
    if bestCall.None? || bestPut.None? {
      assert bestCall.None? ==> !IC.CanSelect(strikes, true, callTarget, wing);
      assert bestPut.None? ==> !IC.CanSelect(strikes, false, putTarget, wing);
      return None;
    }
    var ce := FindLastWing(strikes, true, strikes[bestCall.value].strike + wing);
    var pe := FindLastWing(strikes, false, strikes[bestPut.value].strike - wing);
    if ce.None? {
      IC.NoWingNoSpread(strikes, true, callTarget, wing, bestCall.value);
      return None;
    }
    if pe.None? {
      IC.NoWingNoSpread(strikes, false, putTarget, wing, bestPut.value);
      return None;
    }
    var call := IC.Spread(TrackedAt(strikes, bestCall.value, true), TrackedAt(strikes, ce.value, true));
    var put := IC.Spread(TrackedAt(strikes, bestPut.value, false), TrackedAt(strikes, pe.value, false));
    assert IC.SelectedAt(strikes, true, callTarget, wing, call, bestCall.value, ce.value);
    assert IC.SelectedAt(strikes, false, putTarget, wing, put, bestPut.value, pe.value);
    found := Some((call, put));
  }

  lemma SelectedLongIsReal(strikes: seq<Entry>, isCall: bool, target: real, wing: real, s: IC.Spread, contract: int -> Contract)
    requires Consistent(strikes, contract) && IC.Selected(strikes, isCall, target, wing, s)
    ensures s.long.token != 0
  {
    var i: nat, w: nat :| IC.SelectedAt(strikes, isCall, target, wing, s, i, w);
    assert QuoteOk(strikes[w], isCall, contract);
  }

  /** A strangle whose lowest cost since entry is being followed. */
  predicate Trailing(p: Params, position: Position) {
    position.kind == Strangle && p.strangleTrailStopPct > 0.0 && position.entryPremium > 0.0
  }

  class AdaptiveStrategy {
    const params: Params
    const lotSize: int
    ghost const contract: int -> Contract

    var entered: bool
    var regime: Regime
    var position: Position
    var switches: int
    var lastAssessMinute: int
    var expiry: Option<int>

    ghost var emitted: seq<Leg>
    ghost var shiftExits: nat            // exits forced by a regime shift, over the strategy's whole life

    /** The ledger is what is held, whichever of the two kinds it is; a held condor is covered; regime shifts
        never exceed the allowance. */
    ghost predicate Valid()
      reads this
    {
      && LedgerIs(emitted, WhenEntered(entered, position))
      && (entered ==> Sound(params, position, contract))
      && shiftExits == switches <= Max(0, params.maxSwitches) && lotSize >= 1
    }

    constructor (params: Params, ghost contract: int -> Contract)
      ensures Valid() && !entered && emitted == [] && shiftExits == 0 && this.params == params && this.contract == contract
      ensures lotSize == LotSize(params.underlying)
      ensures expiry == None
    {
      this.params := params;
      this.contract := contract;
      lotSize := LotSize(params.underlying);
      entered, regime, switches, lastAssessMinute, expiry := false, UNKNOWN, 0, -1, None;
      var blank := IC.Spread(Tracked(0, "", 0.0), Tracked(0, "", 0.0));
      position := Position(Nothing, blank, blank, params.lots * LotSize(params.underlying), 0.0, 0.0);
      emitted, shiftExits := [], 0;
    }

    method OnStart(nextExpiry: int)
      requires Valid()
      modifies this`expiry
      ensures Valid() && expiry == Some(nextExpiry)
    {
      expiry := Some(nextExpiry);
    }

    /** Whatever regimes it went through, a condor it holds now is worth at least minus two wings per unit at
        every settlement price, one if the short strikes have not crossed; and out of the market it owes nothing. */
    lemma NeverNaked(spot: real)
      requires Valid()
      ensures var worth := Worth(emitted, AtExpiry(contract, spot));
              && (entered && position.kind == Condor && position.put.short.strike <= position.call.short.strike ==>
                    worth >= -(position.quantity as real * Wing(params)))
              && (entered && position.kind == Condor ==> worth >= -(position.quantity as real * (2.0 * Wing(params))))
              && (!entered ==> worth == 0.0)
    {
      SameNetSameWorth(emitted, WhenEntered(entered, position), AtExpiry(contract, spot));
      if entered && position.kind == Condor {
        IC.CoveredLegsFloor(position.call, position.put, position.quantity, Wing(params), contract, spot);
      }
    }

    ghost predicate AssessesAt(m: Market)
      reads this
    {
      !entered || m.time / 60 - lastAssessMinute >= params.reassessMinutes
    }

    /** The regime calls for leaving an open position. */
    ghost predicate RegimeExit(s: Snapshot)
      reads this
    {
      s.advice == SitOut ||
      (switches < params.maxSwitches && regime in {LOW_VOL_RANGE, NORMAL_RANGE, HIGH_VOL_RANGE} && s.regime in {TRENDING, EXTREME_VOL})
    }

    ghost predicate MustExit(m: Market, s: Snapshot)
      reads this
    {
      entered && (m.time >= params.exitTime ||
                  (m.time >= params.entryTime &&
                   if AssessesAt(m) then RegimeExit(s) else ExitIsDue(params, m, position)))
    }

    /** One tick; the regime snapshot is consulted only when an assessment is due. */
    method OnTick(m: Market, snapshot: Snapshot) returns (signal: Option<Signal>)
      requires Valid() && MarketOk(m, contract)
      modifies this
      ensures Valid() && emitted == old(emitted) + LegsOf(signal)
      ensures expiry == if old(expiry).Some? && m.date > old(expiry).value then Some(m.nextExpiry) else old(expiry)
      ensures lastAssessMinute ==
        if old(entered && m.time >= params.exitTime) || m.time < params.entryTime || !old(AssessesAt(m)) then old(lastAssessMinute)
        else m.time / 60
      ensures (signal.Some? && signal.value.kind == EXIT) <==> old(MustExit(m, snapshot))
      ensures signal.Some? && signal.value.kind == EXIT ==>
        !entered && forall t :: Net(signal.value.legs, t) == -Net(old(position).OpenLegs(), t)
      ensures signal.Some? && signal.value.kind != EXIT ==>
        && signal.value.kind == ENTRY && !old(entered) && entered && signal.value.legs == position.OpenLegs()
        && params.entryTime <= m.time && EnteredAs(m, snapshot)
      ensures signal.None? ==> entered == old(entered) && (entered ==> position.OpenLegs() == old(position).OpenLegs())
      ensures signal.None? && !entered && m.time >= params.entryTime ==> !EntryPossible(m, snapshot)
    {
      expiry := Rolled(expiry, m);
      if m.time >= params.exitTime && entered {
        signal := CreateExitSignal();
        return;
      }
      if m.time < params.entryTime {
        return None;
      }
      var minute := m.time / 60;
      if !entered || minute - lastAssessMinute >= params.reassessMinutes {
        lastAssessMinute := minute;
        signal := HandleRegime(m, snapshot);
      } else {
        signal := CheckPosition(m);
      }
    }

    /** The position is the one the snapshot advised, sized by it. */
    ghost predicate EnteredAs(m: Market, s: Snapshot)
      reads this
    {
      && position.quantity == SizeFor(params, lotSize, s) && regime == s.regime
      && Credited(position, m)
      && match s.advice
         case SitOut => false
         case PreferCondor =>
           position.kind == Condor
           && IC.Selected(m.Strikes(expiry), true, params.icCallDelta, Wing(params), position.call)
           && IC.Selected(m.Strikes(expiry), false, params.icPutDelta, Wing(params), position.put)
         case PreferStrangle =>
           position.kind == Strangle
           && SS.Selected(m.Strikes(expiry), true, params.strangleCallDelta, position.call.short)
           && SS.Selected(m.Strikes(expiry), false, params.stranglePutDelta, position.put.short)
    }

    ghost predicate EntryPossible(m: Market, s: Snapshot)
      reads this
    {
      var strikes := m.Strikes(expiry);
      match s.advice
      case SitOut => false
      case PreferCondor =>
        IC.CanSelect(strikes, true, params.icCallDelta, Wing(params)) && IC.CanSelect(strikes, false, params.icPutDelta, Wing(params))
      case PreferStrangle =>
        (exists i :: 0 <= i < |strikes| && Eligible(strikes[i], true)) && (exists i :: 0 <= i < |strikes| && Eligible(strikes[i], false))
    }

    method HandleRegime(m: Market, s: Snapshot) returns (signal: Option<Signal>)
      requires Valid() && MarketOk(m, contract)
      modifies this`entered, this`regime, this`position, this`switches, this`emitted, this`shiftExits
      ensures Valid() && emitted == old(emitted) + LegsOf(signal)
      ensures (signal.Some? && signal.value.kind == EXIT) <==> old(entered && RegimeExit(s))
      ensures switches == old(switches) + if signal.Some? && signal.value.kind == EXIT && s.advice != SitOut then 1 else 0
      ensures regime == if old(entered && (s.advice == SitOut || !RegimeExit(s))) then old(regime) else s.regime
      ensures signal.Some? && signal.value.kind == EXIT ==>
        !entered && forall t :: Net(signal.value.legs, t) == -Net(old(position).OpenLegs(), t)
      ensures signal.Some? && signal.value.kind != EXIT ==>
        signal.value.kind == ENTRY && !old(entered) && entered && signal.value.legs == position.OpenLegs() && EnteredAs(m, s)
      ensures signal.None? ==> entered == old(entered) && (entered ==> position == old(position))
      ensures signal.None? && !entered ==> !EntryPossible(m, s)
    {
      if s.advice == SitOut {
        if entered {
          signal := CreateExitSignal();
          return;
        }
        regime := s.regime;
        return None;
      }
      if !entered {
        regime := s.regime;
        position := position.(quantity := SizeFor(params, lotSize, s));
        if s.advice == PreferCondor {
          signal := EnterIronCondor(m);
        } else {
          signal := EnterStrangle(m);
        }
        return;
      }
      if s.regime != regime && switches < params.maxSwitches && SignificantChange(regime, s.regime) {
        switches := switches + 1;
        shiftExits := shiftExits + 1;
        regime := s.regime;
        signal := CreateExitSignal();
        return;
      }
      signal := None;
    }

    method EnterStrangle(m: Market) returns (signal: Option<Signal>)
      requires Valid() && position.quantity >= 1 && !entered
      modifies this`entered, this`position, this`emitted
      ensures Valid() && emitted == old(emitted) + LegsOf(signal)
      ensures position.quantity == old(position).quantity
      ensures signal.Some? ==>
        && Credited(position, m)
        && signal.value.kind == ENTRY && entered && signal.value.legs == position.OpenLegs() && position.kind == Strangle
        && SS.Selected(m.Strikes(expiry), true, params.strangleCallDelta, position.call.short)
        && SS.Selected(m.Strikes(expiry), false, params.stranglePutDelta, position.put.short)
      ensures signal.None? ==>
        var strikes := m.Strikes(expiry);
        && !entered
        && ((forall i :: 0 <= i < |strikes| ==> !Eligible(strikes[i], true))
            || (forall i :: 0 <= i < |strikes| ==> !Eligible(strikes[i], false)))
    {
      var strikes := m.Strikes(expiry);
      if strikes == [] {
        return None;
      }
      var found := SS.FindStrangle(strikes, params.strangleCallDelta, params.stranglePutDelta);
      if found.None? {
        return None;
      }
      var next := position.(kind := Strangle,
                            call := IC.Spread(found.value.0, position.call.long.(token := 0)),
                            put := IC.Spread(found.value.1, position.put.long.(token := 0)));
      next := next.(entryPremium := next.Cost(m), peakPremium := next.Cost(m));
      CostIsCredited(next, m);
      LedgerOpens(emitted, next.OpenLegs());
      position := next;
      entered := true;
      signal := Some(Signal(ENTRY, next.OpenLegs()));
      emitted := emitted + next.OpenLegs();
    }

    method EnterIronCondor(m: Market) returns (signal: Option<Signal>)
      requires Valid() && position.quantity >= 1 && !entered && MarketOk(m, contract)
      modifies this`entered, this`position, this`emitted
      ensures Valid() && emitted == old(emitted) + LegsOf(signal)
      ensures position.quantity == old(position).quantity
      ensures signal.Some? ==>
        && Credited(position, m)
        && signal.value.kind == ENTRY && entered && signal.value.legs == position.OpenLegs() && position.kind == Condor
        && IC.Selected(m.Strikes(expiry), true, params.icCallDelta, Wing(params), position.call)
        && IC.Selected(m.Strikes(expiry), false, params.icPutDelta, Wing(params), position.put)
      ensures signal.None? ==>
        && !entered
        && (!IC.CanSelect(m.Strikes(expiry), true, params.icCallDelta, Wing(params))
            || !IC.CanSelect(m.Strikes(expiry), false, params.icPutDelta, Wing(params)))
    {
      var strikes := m.Strikes(expiry);
      if strikes == [] {
        IC.NothingToSelect(true, params.icCallDelta, Wing(params));
        return None;
      }
      var found := FindCondor(strikes, params.icCallDelta, params.icPutDelta, Wing(params));
      if found.None? {
        return None;
      }
      var next := position.(kind := Condor, call := found.value.0, put := found.value.1);
      next := next.(entryPremium := next.Cost(m), peakPremium := next.Cost(m));
      CondorIsSound(params, strikes, next, contract, m, expiry);
      CostIsCredited(next, m);
      LedgerOpens(emitted, next.OpenLegs());
      position := next;
      entered := true;
      signal := Some(Signal(ENTRY, next.OpenLegs()));
      emitted := emitted + next.OpenLegs();
    }

    method CheckPosition(m: Market) returns (signal: Option<Signal>)
      requires Valid() && entered
      modifies this`entered, this`position, this`emitted
      ensures Valid() && emitted == old(emitted) + LegsOf(signal)
      ensures signal.Some? <==> ExitIsDue(params, m, old(position))
      ensures signal.Some? ==> signal.value.kind == EXIT && !entered
      ensures signal.Some? ==> forall t :: Net(signal.value.legs, t) == -Net(old(position).OpenLegs(), t)
      ensures signal.None? ==> entered && position == old(position).(peakPremium := position.peakPremium)
      ensures signal.None? ==>
        && (Trailing(params, position) ==> position.peakPremium == MinR(old(position).peakPremium, position.Cost(m)))
        && (!Trailing(params, position) ==> position.peakPremium == old(position).peakPremium)
    {
      ExitsAreDue(params, m, position);
      if position.entryPremium <= 0.0 {
        return None;
      }
      if position.StopLossHit(params, m) {
        signal := CreateExitSignal();
        return;
      }
      if position.TrailHit(params, m) {
        signal := CreateExitSignal();
        return;
      }
      if position.kind == Strangle && params.strangleTrailStopPct > 0.0 && position.Cost(m) < position.peakPremium {
        position := position.(peakPremium := MinR(position.peakPremium, position.Cost(m)));
      }
      signal := None;
    }

    /** Closes the short legs, and the wings when the position is a condor with wings. */
    method CreateExitSignal() returns (signal: Option<Signal>)
      requires Valid() && entered
      modifies this`entered, this`emitted
      ensures Valid() && !entered
      ensures signal.Some? && signal.value.kind == EXIT && emitted == old(emitted) + LegsOf(signal)
      ensures forall t :: Net(signal.value.legs, t) == -Net(position.OpenLegs(), t)
    {
      var legs := [ToLeg(position.call.short, BUY, position.quantity), ToLeg(position.put.short, BUY, position.quantity)];
      if position.kind == Condor && position.call.long.token != 0 {
        legs := legs + [ToLeg(position.call.long, SELL, position.quantity), ToLeg(position.put.long, SELL, position.quantity)];
        IC.ClosingLegs(position.call, position.put, position.quantity);
      } else {
        SS.ClosingLegs(position.call.short, position.put.short, position.quantity);
      }
      assert legs == Closing(position.OpenLegs());
      forall t { ClosingCancels(position.OpenLegs(), t); }
      LedgerCloses(emitted, position.OpenLegs(), legs);
      entered := false;
      signal := Some(Signal(EXIT, legs));
      emitted := emitted + legs;
    }

    /** The start of a trading day: only the entered flag is cleared. The allowance of regime switches is not
        restored, so it is one for the whole life of the strategy. */
    method ResetDayState()
      requires Valid()
      modifies this`entered
      ensures !entered && switches == old(switches)
      ensures !old(entered) ==> Valid()
      ensures old(entered) && (position.kind == Strangle || params.icWingWidth > 0) ==> !Valid()
    {
      if entered && (position.kind == Strangle || params.icWingWidth > 0) {
        ForgottenLegsRemain(params, position, contract);
        ghost var t := position.call.short.token;
        assert Net(emitted, t) == Net(position.OpenLegs(), t);
        assert Net(emitted, t) != Net([], t);
      }
      entered := false;
    }
  }

  /** An open position owes its short call, whatever its kind. */
  lemma ForgottenLegsRemain(p: Params, position: Position, contract: int -> Contract)
    requires Sound(p, position, contract) && (position.kind == Strangle || p.icWingWidth > 0)
    ensures Net(position.OpenLegs(), position.call.short.token) != 0
  {
    if position.kind == Condor {
      MulMonotone(1, p.icWingWidth, StrikeInterval(p.underlying));
      IC.ForgottenLegsRemain(position.call, position.put, position.quantity, Wing(p), contract);
    } else {
      SS.LegsNet(position.call.short, position.put.short, position.quantity, position.call.short.token);
    }
  }

  lemma CondorIsSound(p: Params, strikes: seq<Entry>, position: Position, contract: int -> Contract, m: Market, expiry: Option<int>)
    requires MarketOk(m, contract) && strikes == m.Strikes(expiry) && position.kind == Condor && position.quantity >= 1
    requires IC.Selected(strikes, true, p.icCallDelta, Wing(p), position.call)
    requires IC.Selected(strikes, false, p.icPutDelta, Wing(p), position.put)
    ensures Sound(p, position, contract)
  {
    StrikesAreConsistent(m, contract, expiry);
    IC.SelectedIsCovered(strikes, true, p.icCallDelta, Wing(p), position.call, contract);
    IC.SelectedIsCovered(strikes, false, p.icPutDelta, Wing(p), position.put, contract);
    SelectedLongIsReal(strikes, true, p.icCallDelta, Wing(p), position.call, contract);
  }
}
