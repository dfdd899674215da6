/** The short strangle strategy: one short call and one short put, rolled at most twice a day. */
module ShortStrangle {
  import opened Collections
  import opened Ledger
  import opened MaxPain
  import opened OptionChain
  import opened Strategy
  import opened Valuation

  datatype Params = Params(underlying: string, lots: int, entryTime: int, exitTime: int, filters: Filters,
                           callDelta: real, putDelta: real, adjustmentDeltaThreshold: real,
                           stopLossPct: real, trailStopPct: real, profitTargetPct: real)

  const MAX_ADJUSTMENTS_PER_DAY := 2
  const COOLDOWN := 30.0
  const TIGHTER_TRAIL_TIME := 50400  // 14:00

  function Legs(ce: Tracked, pe: Tracked, quantity: int): seq<Leg> { [ToLeg(ce, SELL, quantity), ToLeg(pe, SELL, quantity)] }

  function RollLegs(from: Tracked, to: Tracked, quantity: int): seq<Leg> { [ToLeg(from, BUY, quantity), ToLeg(to, SELL, quantity)] }

  function ShortNet(t: Tracked, quantity: int, token: int): int { if t.token == token then -quantity else 0 }

  lemma LegsNet(ce: Tracked, pe: Tracked, quantity: int, token: int)
    ensures Net(Legs(ce, pe, quantity), token) == ShortNet(ce, quantity, token) + ShortNet(pe, quantity, token)
  {
    NetOfTwo(ToLeg(ce, SELL, quantity), ToLeg(pe, SELL, quantity), token);
    NetOfOne(ToLeg(ce, SELL, quantity), token);
    NetOfOne(ToLeg(pe, SELL, quantity), token);
  }

  lemma RollLegsNet(from: Tracked, to: Tracked, quantity: int, token: int)
    ensures Net(RollLegs(from, to, quantity), token) == ShortNet(to, quantity, token) - ShortNet(from, quantity, token)
  {
    NetOfTwo(ToLeg(from, BUY, quantity), ToLeg(to, SELL, quantity), token);
    NetOfOne(ToLeg(from, BUY, quantity), token);
    NetOfOne(ToLeg(to, SELL, quantity), token);
  }

  lemma RollKeepsLedger(emitted: seq<Leg>, ce: Tracked, pe: Tracked, ce': Tracked, pe': Tracked, isCall: bool, legs: seq<Leg>, quantity: int)
    requires LedgerIs(emitted, Legs(ce, pe, quantity))
    requires if isCall then pe' == pe && legs == RollLegs(ce, ce', quantity) else ce' == ce && legs == RollLegs(pe, pe', quantity)
    ensures LedgerIs(emitted + legs, Legs(ce', pe', quantity))
  {
    forall t ensures Net(Legs(ce', pe', quantity), t) == Net(Legs(ce, pe, quantity), t) + Net(legs, t) {
      LegsNet(ce, pe, quantity, t);
      LegsNet(ce', pe', quantity, t);
      if isCall { RollLegsNet(ce, ce', quantity, t); } else { RollLegsNet(pe, pe', quantity, t); }
    }
    LedgerRolls(emitted, Legs(ce, pe, quantity), legs, Legs(ce', pe', quantity));
  }

  lemma ClosingLegs(ce: Tracked, pe: Tracked, quantity: int)
    ensures Closing(Legs(ce, pe, quantity)) == [ToLeg(ce, BUY, quantity), ToLeg(pe, BUY, quantity)]
  {
    var two, one := Legs(ce, pe, quantity), Legs(ce, pe, quantity)[..1];
    assert one[..0] == [] && two[..1] == one;
    assert Closing(one) == [ToLeg(ce, BUY, quantity)];
  }

  /** The leg at the delta nearest the target. */
  ghost predicate Selected(strikes: seq<Entry>, isCall: bool, target: real, t: Tracked) {
    exists i: nat :: SelectedAt(strikes, isCall, target, t, i)
  }

  ghost predicate SelectedAt(strikes: seq<Entry>, isCall: bool, target: real, t: Tracked, i: nat) {
    BestAmong(strikes, |strikes|, isCall, target, i) && t == TrackedAt(strikes, i, isCall)
  }

  /** The first quote of that instrument in the chain. */
  ghost function FirstQuote(strikes: seq<Entry>, isCall: bool, token: int): Option<OptionData> {
    if strikes == [] then None
    else
      var q := QuoteOf(strikes[0], isCall);
      if q.Some? && q.value.token == token then q else FirstQuote(strikes[1..], isCall, token)
  }

  method FindQuote(strikes: seq<Entry>, isCall: bool, token: int) returns (q: Option<OptionData>)
    ensures q == FirstQuote(strikes, isCall, token)
  {
    var k := 0;
    while k < |strikes|
      invariant 0 <= k <= |strikes| && FirstQuote(strikes, isCall, token) == FirstQuote(strikes[k..], isCall, token)
    {
      assert strikes[k..][1..] == strikes[k + 1..];
      if QuoteOf(strikes[k], isCall).Some? && QuoteOf(strikes[k], isCall).value.token == token {
        return QuoteOf(strikes[k], isCall);
      }
      k := k + 1;
    }
    q := None;
  }

  lemma SelectedAreEligible(strikes: seq<Entry>, callTarget: real, putTarget: real, ce: Tracked, pe: Tracked)
    requires Selected(strikes, true, callTarget, ce) && Selected(strikes, false, putTarget, pe)
    ensures exists i :: 0 <= i < |strikes| && Eligible(strikes[i], true)
    ensures exists i :: 0 <= i < |strikes| && Eligible(strikes[i], false)
  {
    var i: nat :| SelectedAt(strikes, true, callTarget, ce, i);
    var j: nat :| SelectedAt(strikes, false, putTarget, pe, j);
    assert Eligible(strikes[i], true) && Eligible(strikes[j], false);
  }

  /** The two legs of an entry. */
  method FindStrangle(strikes: seq<Entry>, callTarget: real, putTarget: real) returns (legs: Option<(Tracked, Tracked)>)
    ensures legs.Some? ==>
      Selected(strikes, true, callTarget, legs.value.0) && Selected(strikes, false, putTarget, legs.value.1)
    ensures legs.None? ==>
      (forall i :: 0 <= i < |strikes| ==> !Eligible(strikes[i], true)) || (forall i :: 0 <= i < |strikes| ==> !Eligible(strikes[i], false))
  {
    var bestCe, bestPe := FindBestPair(strikes, callTarget, putTarget);
    if bestCe.None? || bestPe.None? {
      return None;
    }
    var ce, pe := TrackedAt(strikes, bestCe.value, true), TrackedAt(strikes, bestPe.value, false);
    assert SelectedAt(strikes, true, callTarget, ce, bestCe.value);
    assert SelectedAt(strikes, false, putTarget, pe, bestPe.value);
    legs := Some((ce, pe));
  }

  /** Where a leg should be moved; nowhere when it already is at its target or nothing is eligible. */
  method FindRoll(strikes: seq<Entry>, isCall: bool, target: real, from: Tracked) returns (to: Option<Tracked>)
    ensures to.Some? ==> Selected(strikes, isCall, target, to.value) && to.value.token != from.token
    ensures to.None? ==> forall t :: Selected(strikes, isCall, target, t) ==> t.token == from.token
  {
    var best := FindBest(strikes, isCall, target);
    if best.None? {
      return None;
    }
    var t := TrackedAt(strikes, best.value, isCall);
    assert SelectedAt(strikes, isCall, target, t, best.value);
    to := if t.token == from.token then None else Some(t);
  }

  // ---- Counting rolls per date ----

  function RollsOn(rolls: map<int, nat>, date: int): nat { if date in rolls then rolls[date] else 0 }

  /** The counter is the number of rolls on the date it was last reset for, and no date has more than two. */
  ghost predicate RollsCounted(rolls: map<int, nat>, last: Option<int>, counter: int, today: int) {
    && 0 <= counter <= MAX_ADJUSTMENTS_PER_DAY
    && (last.Some? ==> last.value <= today && RollsOn(rolls, last.value) == counter)
    && (forall d :: d in rolls ==> last.Some? && d <= last.value && rolls[d] <= 2)
  }

  lemma NewDateStartsAtZero(rolls: map<int, nat>, last: Option<int>, counter: int, today: int)
    requires RollsCounted(rolls, last, counter, today) && last != Some(today)
    ensures RollsCounted(rolls, Some(today), 0, today)
  {
    assert today !in rolls;
  }

  lemma OneMoreRoll(rolls: map<int, nat>, counter: int, today: int)
    requires RollsCounted(rolls, Some(today), counter, today) && counter < MAX_ADJUSTMENTS_PER_DAY
    ensures RollsCounted(rolls[today := counter + 1], Some(today), counter + 1, today)
  {
  }

  /** The position being held, or last held. */
  datatype Position = Position(ce: Tracked, pe: Tracked, quantity: int, entryPremium: real, peakPremium: real) {

    function OpenLegs(): seq<Leg> { Legs(ce, pe, quantity) }

    function Premium(m: Market): real { m.Ltp(ce.token) + m.Ltp(pe.token) }

    predicate ProfitTargetHit(p: Params, m: Market) {
      entryPremium > 0.0 && p.profitTargetPct > 0.0 && (entryPremium - Premium(m)) / entryPremium * 100.0 >= p.profitTargetPct
    }

    predicate StopLossHit(p: Params, m: Market) {
      entryPremium > 0.0 && (Premium(m) - entryPremium) / entryPremium * 100.0 > p.stopLossPct
    }

    /** The premium has bounced off its lowest value since entry by more than the trail. */
    predicate TrailHit(p: Params, m: Market) {
      entryPremium > 0.0 && TrailPct(p, m) > 0.0 && Premium(m) > peakPremium &&
      (Premium(m) - peakPremium) / entryPremium * 100.0 > TrailPct(p, m)
    }

    predicate MustExit(p: Params, m: Market) {
      m.time >= p.exitTime || ProfitTargetHit(p, m) || StopLossHit(p, m) || TrailHit(p, m)
    }
  }

  // ---- When to leave, in money ----

  /** What the position brought in when it was opened, or last rolled. */
  ghost function Received(pos: Position): real { pos.quantity as real * pos.entryPremium }

  /** The least that buying the legs back would have cost since. */
  ghost function Lowest(pos: Position): real { pos.quantity as real * pos.peakPremium }

  /** What the two legs are worth: they are owed. */
  ghost function Owed(pos: Position, m: Market): real { Worth(Legs(pos.ce, pos.pe, pos.quantity), Quotes(m)) }

  /** It is time, or buying the legs back would cost more than the stop loss allows, less by at least the profit target,
      or has bounced off its lowest by more than the trail, which is tighter from two o'clock on. */
  ghost predicate ExitIsDue(p: Params, m: Market, pos: Position) {
    || m.time >= p.exitTime
    || StopOrTarget(Owed(pos, m), Received(pos), p.stopLossPct, p.profitTargetPct)
    || Bounced(Owed(pos, m), Lowest(pos), Received(pos),
               if m.time >= 14 * 3600 then p.trailStopPct * 0.6 else p.trailStopPct)
  }

  lemma LegsWorth(ce: Tracked, pe: Tracked, quantity: int, price: int -> real)
    ensures Worth(Legs(ce, pe, quantity), price) == -(quantity as real * (price(ce.token) + price(pe.token)))
  {
    var legs := Legs(ce, pe, quantity);
    var one := legs[..1];
    assert one[..0] == [];
    assert Worth(one, price) == Times(-quantity, price(ce.token));
    assert Worth(legs, price) == Worth(one, price) + Times(-quantity, price(pe.token));
    TimesNegated(quantity, price(ce.token));
    TimesNegated(quantity, price(pe.token));
    Sum(quantity as real, price(ce.token), price(pe.token));
  }

  lemma Sum(q: real, a: real, b: real)
    ensures q * (a + b) == q * a + q * b
  {
  }

  lemma ExitsAreDue(p: Params, m: Market, pos: Position)
    requires pos.quantity >= 1
    ensures pos.MustExit(p, m) <==> ExitIsDue(p, m, pos)
  {
    StopsAreDue(p, m, pos);
    TrailsAreDue(p, m, pos);
    assert TrailPct(p, m) > 0.0 ==> TrailPct(p, m) == if m.time >= 14 * 3600 then p.trailStopPct * 0.6 else p.trailStopPct;
  }

  lemma StopsAreDue(p: Params, m: Market, pos: Position)
    requires pos.quantity >= 1
    ensures pos.ProfitTargetHit(p, m) || pos.StopLossHit(p, m) <==>
            StopOrTarget(Owed(pos, m), Received(pos), p.stopLossPct, p.profitTargetPct)
  {
    LegsWorth(pos.ce, pos.pe, pos.quantity, Quotes(m));
    PerUnitStopOrTarget(pos.quantity, pos.entryPremium, pos.Premium(m), p.stopLossPct, p.profitTargetPct);
  }

  lemma TrailsAreDue(p: Params, m: Market, pos: Position)
    requires pos.quantity >= 1
    ensures pos.TrailHit(p, m) <==> Bounced(Owed(pos, m), Lowest(pos), Received(pos), TrailPct(p, m))
  {
    LegsWorth(pos.ce, pos.pe, pos.quantity, Quotes(m));
    PerUnitBounce(pos.quantity, pos.entryPremium, pos.peakPremium, pos.Premium(m), TrailPct(p, m));
  }

  /** The premium on the books is what the legs bring in at these prices, and the lowest so far. */
  ghost predicate Credited(pos: Position, m: Market) {
    Received(pos) == -Owed(pos, m) && pos.peakPremium == pos.entryPremium
  }

  lemma PremiumIsCredited(pos: Position, m: Market)
    requires pos.peakPremium == pos.entryPremium == pos.Premium(m)
    ensures Credited(pos, m)
  {
    LegsWorth(pos.ce, pos.pe, pos.quantity, Quotes(m));
  }

  /** The trail tightens by 40% in the afternoon. */
  function TrailPct(p: Params, m: Market): real {
    if p.trailStopPct > 0.0 && m.time >= TIGHTER_TRAIL_TIME then p.trailStopPct * 0.6 else p.trailStopPct
  }

  datatype Adjustments = Adjustments(count: int, date: Option<int>, time: real)

  /** What has happened so far: the legs emitted, the entries since the last day reset, the latest date seen
      and the rolls on each date. */
  datatype Log = Log(emitted: seq<Leg>, entries: nat, today: int, rolls: map<int, nat>)

  predicate FiltersAllow(p: Params, m: Market, expiry: Option<int>) {
    && !VixBlocks(p.filters, m.vix) && !m.trendBlocked
    && !PcrBlocks(p.filters, m, expiry) && !MaxPainBlocks(p.filters, m, expiry)
  }

  function Target(p: Params, isCall: bool): real { if isCall then p.callDelta else p.putDelta }

  /** One leg moved to its target delta at its close-and-reopen cost, the other left alone. */
  ghost predicate RolledLeg(p: Params, m: Market, strikes: seq<Entry>, isCall: bool, before: Position, after: Position, legs: seq<Leg>) {
    && after.quantity == before.quantity && Credited(after, m)
    && if isCall then after.pe == before.pe && after.ce.token != before.ce.token
                      && legs == RollLegs(before.ce, after.ce, before.quantity)
                      && Selected(strikes, true, p.callDelta, after.ce)
       else after.ce == before.ce && after.pe.token != before.pe.token
            && legs == RollLegs(before.pe, after.pe, before.quantity)
            && Selected(strikes, false, p.putDelta, after.pe)
  }

  /** The leg whose delta has run away, the call first. */
  ghost function Threatened(p: Params, strikes: seq<Entry>, position: Position): Option<bool> {
    if RunAway(p, FirstQuote(strikes, true, position.ce.token)) then Some(true)
    else if RunAway(p, FirstQuote(strikes, false, position.pe.token)) then Some(false)
    else None
  }

  predicate RunAway(p: Params, quote: Option<OptionData>) {
    quote.Some? && AbsR(quote.value.delta) > p.adjustmentDeltaThreshold
  }

  /** The leg is at its target already, or nothing is eligible. */
  ghost predicate NowhereToRoll(p: Params, strikes: seq<Entry>, isCall: bool, position: Position) {
    forall t :: Selected(strikes, isCall, Target(p, isCall), t) ==> t.token == (if isCall then position.ce else position.pe).token
  }

  ghost predicate MayRoll(adjustments: Adjustments, m: Market) {
    && (adjustments.date == Some(m.date) ==> adjustments.count < MAX_ADJUSTMENTS_PER_DAY)
    && m.wall - adjustments.time >= 30.0
  }

  /** With a trail in force the lowest premium since entry is kept up to date. */
  ghost predicate LowestKept(p: Params, m: Market, before: Position, after: Position) {
    after.peakPremium == if TrailPct(p, m) > 0.0 then MinR(before.peakPremium, before.Premium(m)) else before.peakPremium
  }

  /** The roll a tick makes: the threatened leg, if it may be rolled and can be. */
  ghost predicate RollIsDue(p: Params, m: Market, strikes: seq<Entry>, adjustments: Adjustments, position: Position) {
    && MayRoll(adjustments, m) && Threatened(p, strikes, position).Some?
    && !NowhereToRoll(p, strikes, Threatened(p, strikes, position).value, position)
  }

  ghost predicate EntryPossible(p: Params, m: Market, expiry: Option<int>) {
    && Unfiltered(p.filters, m, expiry) && !m.trendBlocked
    && (exists i :: 0 <= i < |m.Strikes(expiry)| && Eligible(m.Strikes(expiry)[i], true))
    && (exists i :: 0 <= i < |m.Strikes(expiry)| && Eligible(m.Strikes(expiry)[i], false))
  }

  /** The threatened leg was rolled. */
  ghost predicate RolledThreatened(p: Params, m: Market, strikes: seq<Entry>, before: Position, after: Position, legs: seq<Leg>) {
    var side := Threatened(p, strikes, before);
    side.Some? && RolledLeg(p, m, strikes, side.value, before, after, legs)
  }

  class ShortStrangleStrategy {
    const params: Params
    const lotSize: int

    var entered: bool
    var stoppedForDay: bool
    var position: Position
    var adjustments: Adjustments
    var expiry: Option<int>

    ghost var log: Log

    function Held(): seq<Leg>
      reads this
    {
      if entered then position.OpenLegs() else []
    }

    /** The ledger is what is held; at most one entry between day resets; at most two rolls on any date. */
    ghost predicate Valid()
      reads this
    {
      && LedgerIs(log.emitted, Held())
      && log.entries <= 1 && (entered ==> log.entries == 1)
      && (!entered && log.entries == 1 ==> stoppedForDay)
      && RollsCounted(log.rolls, adjustments.date, adjustments.count, log.today)
    }

    constructor (params: Params)
      ensures Valid() && !entered && !stoppedForDay && this.params == params && expiry == None
      ensures log.emitted == [] && log.entries == 0 && log.rolls == map[]
      ensures lotSize == LotSize(params.underlying)
    {
      this.params := params;
      lotSize := LotSize(params.underlying);
      entered, stoppedForDay, expiry := false, false, None;
      position := Position(Tracked(0, "", 0.0), Tracked(0, "", 0.0), params.lots * LotSize(params.underlying), 0.0, 0.0);
      adjustments := Adjustments(0, None, 0.0);
      log := Log([], 0, 0, map[]);
    }

    method OnStart(nextExpiry: int)
      requires Valid()
      modifies this`expiry
      ensures Valid() && expiry == Some(nextExpiry)
    {
      expiry := Some(nextExpiry);
    }

    /** One tick, on a clock whose date never goes back. The signal is an exit exactly when the position must
        be closed; an entry only when one is allowed; an adjustment is one leg moved to its target. */
    method OnTick(m: Market) returns (signal: Option<Signal>)
      requires Valid() && log.today <= m.date
      modifies this
      ensures Valid() && log.today == m.date && log.emitted == old(log).emitted + LegsOf(signal)
      ensures expiry == if old(expiry).Some? && m.date > old(expiry).value then Some(m.nextExpiry) else old(expiry)
      ensures adjustments.time == if signal.Some? && signal.value.kind == ADJUST then m.wall else old(adjustments).time
      ensures (signal.Some? && signal.value.kind == EXIT) <==> old(entered && position.MustExit(params, m))
      ensures old(position).quantity >= 1 ==>
        ((signal.Some? && signal.value.kind == EXIT) <==> old(entered && ExitIsDue(params, m, position)))
      ensures signal.Some? && signal.value.kind == EXIT ==>
        signal.value.legs == Closing(old(Held())) && !entered && stoppedForDay && log.rolls == old(log).rolls
      ensures signal.Some? && signal.value.kind == ENTRY ==>
        && !old(entered) && !old(stoppedForDay) && m.time >= params.entryTime
        && Unfiltered(params.filters, m, expiry) && !m.trendBlocked
        && entered && signal.value.legs == position.OpenLegs() && log.rolls == old(log).rolls
        && position.quantity == VixAdjustedLots(params.filters, params.lots, m.vix) * lotSize
        && Credited(position, m)
        && Selected(m.Strikes(expiry), true, params.callDelta, position.ce)
        && Selected(m.Strikes(expiry), false, params.putDelta, position.pe)
      ensures signal.Some? && signal.value.kind == ADJUST ==>
        && old(entered) && entered && MayRoll(old(adjustments), m)
        && log.rolls == old(log).rolls[m.date := RollsOn(old(log).rolls, m.date) + 1]
        && RolledThreatened(params, m, m.Strikes(expiry), old(position), position, signal.value.legs)
      ensures signal.None? ==>
        && entered == old(entered) && stoppedForDay == old(stoppedForDay) && Held() == old(Held()) && log.rolls == old(log).rolls
        && (!entered && !stoppedForDay && m.time >= params.entryTime ==> !EntryPossible(params, m, expiry))
        && (entered && position.entryPremium > 0.0 ==>
              !RollIsDue(params, m, m.Strikes(expiry), old(adjustments), position) && LowestKept(params, m, old(position), position))
    {
      if position.quantity >= 1 { ExitsAreDue(params, m, position); }
      expiry := Rolled(expiry, m);
      log := log.(today := m.date);
      signal := None;
      if m.time >= params.exitTime && entered {
        signal := CreateExitSignal();
      } else if !entered && !stoppedForDay && m.time >= params.entryTime {
        signal := TryEntry(m);
      } else if entered {
        signal := CheckAdjustments(m);
      }
    }

    method TryEntry(m: Market) returns (signal: Option<Signal>)
      requires Valid() && !entered && !stoppedForDay
      modifies this`entered, this`position, this`log
      ensures Valid() && log == old(log).(emitted := old(log).emitted + LegsOf(signal), entries := log.entries)
      ensures signal.None? ==> !entered && !EntryPossible(params, m, expiry)
      ensures signal.Some? ==>
        && signal.value.kind == ENTRY && entered && signal.value.legs == position.OpenLegs()
        && Unfiltered(params.filters, m, expiry) && !m.trendBlocked
        && position.quantity == VixAdjustedLots(params.filters, params.lots, m.vix) * lotSize
        && Credited(position, m)
        && Selected(m.Strikes(expiry), true, params.callDelta, position.ce)
        && Selected(m.Strikes(expiry), false, params.putDelta, position.pe)
    {
      if !FiltersAllow(params, m, expiry) {
        return None;
      }
      var strikes := m.Strikes(expiry);
      if strikes == [] {
        return None;
      }
      position := position.(quantity := VixAdjustedLots(params.filters, params.lots, m.vix) * lotSize);
      var found := FindStrangle(strikes, params.callDelta, params.putDelta);
      if found.None? {
        return None;
      }
      position := position.(ce := found.value.0, pe := found.value.1);
      position := position.(entryPremium := position.Premium(m), peakPremium := position.Premium(m));
      PremiumIsCredited(position, m);
      entered := true;
      signal := Some(Signal(ENTRY, position.OpenLegs()));
      LedgerOpens(log.emitted, position.OpenLegs());
      log := log.(emitted := log.emitted + position.OpenLegs(), entries := 1);
    }

    method CheckAdjustments(m: Market) returns (signal: Option<Signal>)
      requires Valid() && entered && m.time < params.exitTime && log.today == m.date
      modifies this`entered, this`stoppedForDay, this`position, this`adjustments, this`log
      ensures adjustments.time == if signal.Some? && signal.value.kind == ADJUST then m.wall else old(adjustments).time
      ensures Valid() && log.today == m.date && log.emitted == old(log).emitted + LegsOf(signal)
      ensures (signal.Some? && signal.value.kind == EXIT) <==> old(position).MustExit(params, m)
      ensures signal.Some? && signal.value.kind == EXIT ==>
        signal.value.legs == Closing(old(Held())) && !entered && stoppedForDay && log.rolls == old(log).rolls
      ensures signal.Some? && signal.value.kind != EXIT ==>
        && signal.value.kind == ADJUST && entered && MayRoll(old(adjustments), m)
        && log.rolls == old(log).rolls[m.date := RollsOn(old(log).rolls, m.date) + 1]
        && RolledThreatened(params, m, m.Strikes(expiry), old(position), position, signal.value.legs)
      ensures signal.None? ==>
        && entered && stoppedForDay == old(stoppedForDay) && Held() == old(Held()) && log.rolls == old(log).rolls
        && (position.entryPremium > 0.0 ==>
              !RollIsDue(params, m, m.Strikes(expiry), old(adjustments), position) && LowestKept(params, m, old(position), position))
    {
      if position.entryPremium <= 0.0 {
        return None;
      }
      if position.MustExit(params, m) {
        signal := CreateExitSignal();
        return;
      }
      if TrailPct(params, m) > 0.0 && position.Premium(m) < position.peakPremium {
        position := position.(peakPremium := MinR(position.peakPremium, position.Premium(m)));
      }
      signal := TryRoll(m);
    }

    /** Rolls the leg whose delta has run away, within the cap of the date and the cooldown. */
    method TryRoll(m: Market) returns (signal: Option<Signal>)
      requires Valid() && entered && log.today == m.date
      modifies this`position, this`adjustments, this`log
      ensures adjustments.time == if signal.Some? then m.wall else old(adjustments).time
      ensures Valid() && log.today == m.date && log.emitted == old(log).emitted + LegsOf(signal)
      ensures signal.Some? ==>
        && signal.value.kind == ADJUST && MayRoll(old(adjustments), m)
        && log.rolls == old(log).rolls[m.date := RollsOn(old(log).rolls, m.date) + 1]
        && RolledThreatened(params, m, m.Strikes(expiry), old(position), position, signal.value.legs)
      ensures signal.None? ==>
        position == old(position) && log == old(log) && !RollIsDue(params, m, m.Strikes(expiry), old(adjustments), position)
    {
      StartDate(m.date);
      if adjustments.count >= MAX_ADJUSTMENTS_PER_DAY || m.wall - adjustments.time < COOLDOWN {
        return None;
      }
      var strikes := m.Strikes(expiry);
      var quote := FindQuote(strikes, true, position.ce.token);
      if quote.Some? && AbsR(quote.value.delta) > params.adjustmentDeltaThreshold {
        signal := RollLeg(m, true);
        return;
      }
      quote := FindQuote(strikes, false, position.pe.token);
      if quote.Some? && AbsR(quote.value.delta) > params.adjustmentDeltaThreshold {
        signal := RollLeg(m, false);
      } else {
        signal := None;
      }
    }

    /** The first look at a new date starts its count of rolls. */
    method StartDate(date: int)
      requires Valid() && log.today == date
      modifies this`adjustments
      ensures Valid() && adjustments == old(adjustments).(date := Some(date), count := adjustments.count)
      ensures forall m: Market :: m.date == date ==>
        (MayRoll(old(adjustments), m) <==> adjustments.count < 2 && m.wall - adjustments.time >= 30.0)
    {
      if adjustments.date != Some(date) {
        NewDateStartsAtZero(log.rolls, adjustments.date, adjustments.count, date);
        adjustments := adjustments.(count := 0, date := Some(date));
      }
    }

    /** Moves one leg to its target delta, unless it is there already. */
    method RollLeg(m: Market, isCall: bool) returns (signal: Option<Signal>)
      requires Valid() && entered && log.today == m.date && adjustments.date == Some(m.date)
      requires adjustments.count < MAX_ADJUSTMENTS_PER_DAY
      modifies this`position, this`adjustments, this`log
      ensures adjustments.time == if signal.Some? then m.wall else old(adjustments).time
      ensures Valid() && log.today == m.date && log.emitted == old(log).emitted + LegsOf(signal)
      ensures signal.Some? ==>
        && signal.value.kind == ADJUST
        && RolledLeg(params, m, m.Strikes(expiry), isCall, old(position), position, signal.value.legs)
        && log.rolls == old(log).rolls[m.date := RollsOn(old(log).rolls, m.date) + 1]
      ensures signal.None? ==>
        position == old(position) && log == old(log) && NowhereToRoll(params, m.Strikes(expiry), isCall, position)
    {
      var from := if isCall then position.ce else position.pe;
      var found := FindRoll(m.Strikes(expiry), isCall, Target(params, isCall), from);
      if found.None? {
        return None;
      }
      var legs := RollLegs(from, found.value, position.quantity);
      var rolled := if isCall then position.(ce := found.value) else position.(pe := found.value);
      rolled := rolled.(entryPremium := rolled.Premium(m), peakPremium := rolled.Premium(m));
      PremiumIsCredited(rolled, m);
      RollKeepsLedger(log.emitted, position.ce, position.pe, rolled.ce, rolled.pe, isCall, legs, position.quantity);
      OneMoreRoll(log.rolls, adjustments.count, m.date);
      position := rolled;
      adjustments := adjustments.(count := adjustments.count + 1, time := m.wall);
      signal := Some(Signal(ADJUST, legs));
      log := log.(emitted := log.emitted + legs, rolls := log.rolls[m.date := RollsOn(log.rolls, m.date) + 1]);
    }

    /** Closes both legs and stays out for the rest of the day. */
    method CreateExitSignal() returns (signal: Option<Signal>)
      requires Valid() && entered
      modifies this`entered, this`stoppedForDay, this`log
      ensures Valid() && !entered && stoppedForDay
      ensures signal == Some(Signal(EXIT, Closing(old(Held()))))
      ensures log == old(log).(emitted := old(log).emitted + LegsOf(signal))
    {
      var legs := [ToLeg(position.ce, BUY, position.quantity), ToLeg(position.pe, BUY, position.quantity)];
      ClosingLegs(position.ce, position.pe, position.quantity);
      forall t { ClosingCancels(position.OpenLegs(), t); }
      LedgerCloses(log.emitted, position.OpenLegs(), legs);
      entered := false;
      stoppedForDay := true;
      signal := Some(Signal(EXIT, legs));
      log := log.(emitted := log.emitted + legs);
    }

    /** The start of a trading day. Resetting while a position is open forgets it: the state is consistent
        afterwards when the strategy was out, and not when it was in. */
    method ResetDayState()
      requires Valid()
      modifies this`entered, this`stoppedForDay, this`log
      ensures !entered && !stoppedForDay && log == old(log).(entries := 0)
      ensures !old(entered) ==> Valid()
      ensures old(entered) && position.quantity > 0 ==> !Valid()
    {
      if entered && position.quantity > 0 {
        LegsNet(position.ce, position.pe, position.quantity, position.ce.token);
        assert Net(log.emitted, position.ce.token) == Net(position.OpenLegs(), position.ce.token) < 0;
        assert Net([], position.ce.token) == 0;
      }
      entered := false;
      stoppedForDay := false;
      log := log.(entries := 0);
    }
  }
}
