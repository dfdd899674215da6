/** What all option strategies share: signals, the ledger of emitted legs, entry filters and strike selection. */
module Strategy {
  import opened Collections
  import opened Ledger
  import opened MaxPain
  import opened OptionChain
  import Validation

  datatype Leg = Leg(symbol: string, token: int, side: Side, quantity: int)

  datatype SignalKind = ENTRY | EXIT | ADJUST

  datatype Signal = Signal(kind: SignalKind, legs: seq<Leg>)

  function LegsOf(s: Option<Signal>): seq<Leg> { if s.Some? then s.value.legs else [] }

  function SignedQty(l: Leg): int { Signed(l.side, l.quantity) }

  /** The signed sum of the legs emitted for one instrument. */
  ghost function Net(legs: seq<Leg>, token: int): int {
    if legs == [] then 0
    else
      Net(legs[..|legs| - 1], token) +
      if legs[|legs| - 1].token == token then SignedQty(legs[|legs| - 1]) else 0
  }

  lemma {:induction false} NetConcat(a: seq<Leg>, b: seq<Leg>, token: int)
    ensures Net(a + b, token) == Net(a, token) + Net(b, token)
  {
    if b == [] {
      assert a + b == a;
    } else {
      assert (a + b)[..|a + b| - 1] == a + b[..|b| - 1];
      NetConcat(a, b[..|b| - 1], token);
    }
  }

  /** The legs that undo other legs. */
  function Closing(legs: seq<Leg>): seq<Leg> {
    if legs == [] then []
    else
      var l := legs[|legs| - 1];
      Closing(legs[..|legs| - 1]) + [l.(side := Opposite(l.side))]
  }

  lemma {:induction false} ClosingCancels(legs: seq<Leg>, token: int)
    ensures Net(Closing(legs), token) == -Net(legs, token)
  {
    if legs != [] {
      ClosingCancels(legs[..|legs| - 1], token);
      var c := Closing(legs);
      assert c[..|c| - 1] == Closing(legs[..|legs| - 1]);
    }
  }

  lemma NetOfOne(l: Leg, token: int)
    ensures Net([l], token) == if l.token == token then SignedQty(l) else 0
  {
    assert [l][..0] == [];
  }

  lemma NetOfTwo(a: Leg, b: Leg, token: int)
    ensures Net([a, b], token) == Net([a], token) + Net([b], token)
  {
    assert [a, b] == [a] + [b];
    NetConcat([a], [b], token);
  }

  lemma NetOfFour(a: Leg, b: Leg, c: Leg, d: Leg, token: int)
    ensures Net([a, b, c, d], token) == Net([a, b], token) + Net([c, d], token)
  {
    assert [a, b, c, d] == [a, b] + [c, d];
    NetConcat([a, b], [c, d], token);
  }

  /** Everything emitted so far nets to exactly the legs the strategy believes it holds. */
  ghost predicate LedgerIs(emitted: seq<Leg>, held: seq<Leg>) {
    forall t :: Net(emitted, t) == Net(held, t)
  }

  lemma LedgerOpens(emitted: seq<Leg>, legs: seq<Leg>)
    requires LedgerIs(emitted, [])
    ensures LedgerIs(emitted + legs, legs)
  {
    forall t ensures Net(emitted + legs, t) == Net(legs, t) { NetConcat(emitted, legs, t); }
  }

  lemma LedgerCloses(emitted: seq<Leg>, held: seq<Leg>, legs: seq<Leg>)
    requires LedgerIs(emitted, held)
    requires forall t :: Net(legs, t) == -Net(held, t)
    ensures LedgerIs(emitted + legs, [])
  {
    forall t ensures Net(emitted + legs, t) == Net([], t) { NetConcat(emitted, legs, t); }
  }

  lemma LedgerRolls(emitted: seq<Leg>, held: seq<Leg>, legs: seq<Leg>, held': seq<Leg>)
    requires LedgerIs(emitted, held)
    requires forall t :: Net(held', t) == Net(held, t) + Net(legs, t)
    ensures LedgerIs(emitted + legs, held')
  {
    forall t ensures Net(emitted + legs, t) == Net(held', t) { NetConcat(emitted, legs, t); }
  }

  /** An instrument a strategy tracks. */
  datatype Tracked = Tracked(token: int, symbol: string, strike: real)

  function ToLeg(t: Tracked, side: Side, quantity: int): Leg { Leg(t.symbol, t.token, side, quantity) }

  function TrackedAt(strikes: seq<Entry>, i: nat, isCall: bool): Tracked
    requires i < |strikes| && QuoteOf(strikes[i], isCall).Some?
  {
    var q := QuoteOf(strikes[i], isCall).value;
    Tracked(q.token, q.symbol, strikes[i].strike)
  }

  // ---- What a strategy can look at on a tick ----

  /** Dates are day numbers, times seconds into the day, `wall` the process clock; a missing price reads zero. */
  datatype Market = Market(date: int, time: int, wall: real, vix: real, nextExpiry: int,
                           chains: map<int, Chain>, ltps: map<int, real>, trendBlocked: bool)
  {
    function Ltp(token: int): real { if token in ltps then ltps[token] else 0.0 }

    function Strikes(expiry: Option<int>): seq<Entry> {
      if expiry.Some? && expiry.value in chains then chains[expiry.value].strikes else []
    }
  }

  /** Which strike and kind of option each instrument is. */
  datatype Contract = Contract(strike: real, isCall: bool)

  function QuoteOf(e: Entry, isCall: bool): Option<OptionData> { if isCall then e.ce else e.pe }

  /** Every quote stands under the strike and on the side of its own contract, with a real instrument token. */
  ghost predicate Consistent(strikes: seq<Entry>, contract: int -> Contract) {
    forall i :: 0 <= i < |strikes| ==> QuoteOk(strikes[i], true, contract) && QuoteOk(strikes[i], false, contract)
  }

  ghost predicate QuoteOk(e: Entry, isCall: bool, contract: int -> Contract) {
    var q := if isCall then e.ce else e.pe;
    q.Some? ==> q.value.token != 0 && contract(q.value.token) == Contract(e.strike, isCall)
  }

  ghost predicate MarketOk(m: Market, contract: int -> Contract) {
    forall x: int :: x in m.chains ==> Consistent(m.chains[x].strikes, contract)
  }

  lemma StrikesAreConsistent(m: Market, contract: int -> Contract, expiry: Option<int>)
    requires MarketOk(m, contract)
    ensures Consistent(m.Strikes(expiry), contract)
  {
    if expiry.Some? && expiry.value in m.chains {
      var x: int := expiry.value;
      assert Consistent(m.chains[x].strikes, contract);
    }
  }

  // ---- Filters and sizing ----

  datatype Filters = Filters(vixEntryMax: real, vixReduceAbove: real, pcrEnabled: bool, pcrMin: real, pcrMax: real,
                             maxPainEnabled: bool, maxPainProximityPct: real)

  predicate VixBlocks(f: Filters, vix: real) { vix > 0.0 && vix > f.vixEntryMax }

  predicate PcrBlocks(f: Filters, m: Market, expiry: Option<int>) {
    m.Strikes(expiry) != [] &&
    var pcr := m.chains[expiry.value].pcrOi;
    pcr > 0.0 && f.pcrEnabled && !(f.pcrMin <= pcr <= f.pcrMax)
  }

  predicate MaxPainBlocks(f: Filters, m: Market, expiry: Option<int>) {
    m.Strikes(expiry) != [] &&
    var chain := m.chains[expiry.value];
    chain.maxPain > 0.0 && chain.spot > 0.0 && f.maxPainEnabled &&
    AbsR(chain.spot - chain.maxPain) / chain.spot * 100.0 > f.maxPainProximityPct
  }

  /** None of the three filters objects. */
  ghost predicate Unfiltered(f: Filters, m: Market, expiry: Option<int>) {
    !VixBlocks(f, m.vix) && !PcrBlocks(f, m, expiry) && !MaxPainBlocks(f, m, expiry)
  }

  /** Half the lots, but at least one, when volatility is high. */
  function VixAdjustedLots(f: Filters, lots: int, vix: real): int {
    if vix > 0.0 && vix > f.vixReduceAbove then Max(1, lots / 2) else lots
  }

  /** The volatility filter blocks above its limit, and never while volatility is unknown. The ratio filter asks for puts
      to calls within its limits, and the max-pain filter for a spot within a percentage of itself of the max pain. */
  lemma WhatFiltersBlock(f: Filters, m: Market, expiry: Option<int>)
    requires m.Strikes(expiry) != []
    ensures VixBlocks(f, m.vix) <==> m.vix > MaxR(0.0, f.vixEntryMax)
    ensures m.chains[expiry.value].pcrOi <= 0.0 ==> !PcrBlocks(f, m, expiry)
    ensures m.chains[expiry.value].maxPain <= 0.0 || m.chains[expiry.value].spot <= 0.0 ==> !MaxPainBlocks(f, m, expiry)
    ensures var chain := m.chains[expiry.value];
            TotalsAreRight(chain) && chain.totalCeOi > 0 && chain.totalPeOi > 0 ==>
              (PcrBlocks(f, m, expiry) <==>
                 f.pcrEnabled && !(f.pcrMin * chain.totalCeOi as real <= chain.totalPeOi as real <= f.pcrMax * chain.totalCeOi as real))
    ensures var chain := m.chains[expiry.value];
            chain.maxPain > 0.0 && chain.spot > 0.0 ==>
              (MaxPainBlocks(f, m, expiry) <==>
                 f.maxPainEnabled && AbsR(chain.spot - chain.maxPain) * 100.0 > f.maxPainProximityPct * chain.spot)
  {
    var chain := m.chains[expiry.value];
    if TotalsAreRight(chain) && chain.totalCeOi > 0 && chain.totalPeOi > 0 {
      RatioWithin(chain.pcrOi, chain.totalCeOi as real, chain.totalPeOi as real, f.pcrMin, f.pcrMax);
    }
    if chain.spot > 0.0 { ShareExceeds(AbsR(chain.spot - chain.maxPain), chain.spot, f.maxPainProximityPct); }
  }

  lemma RatioWithin(ratio: real, calls: real, puts: real, least: real, most: real)
    requires calls > 0.0 && puts > 0.0 && ratio * calls == puts
    ensures ratio > 0.0
    ensures least <= ratio <==> least * calls <= puts
    ensures ratio <= most <==> puts <= most * calls
  {
    if ratio <= 0.0 { ProductMonotone(calls, ratio, 0.0); }
    if least <= ratio { ProductMonotone(calls, least, ratio); } else { ProductStrict(calls, ratio, least); }
    if ratio <= most { ProductMonotone(calls, ratio, most); } else { ProductStrict(calls, most, ratio); }
  }

  lemma ShareExceeds(part: real, whole: real, pct: real)
    requires whole > 0.0
    ensures part / whole * 100.0 > pct <==> part * 100.0 > pct * whole
  {
    var share := part / whole;
    assert share * whole == part;
    if share * 100.0 > pct { ProductStrict(whole, pct, share * 100.0); } else { ProductMonotone(whole, share * 100.0, pct); }
    assert whole * (share * 100.0) == part * 100.0;
  }

  /** In high volatility half the lots are dealt, rounded down but at least one, and otherwise all. */
  lemma HighVolatilityHalves(f: Filters, lots: int, vix: real)
    ensures var n := VixAdjustedLots(f, lots, vix);
            if vix > MaxR(0.0, f.vixReduceAbove) then n >= 1 && (n == 1 || 2 * n <= lots) && lots <= 2 * n + 1 else n == lots
  {
  }

  function Rolled(expiry: Option<int>, m: Market): Option<int> {
    if expiry.Some? && m.date > expiry.value then Some(m.nextExpiry) else expiry
  }

  function StrikeInterval(underlying: string): int { if underlying in {"NIFTY", "FINNIFTY"} then 50 else 100 }

  function LotSize(underlying: string): int {
    if underlying == "NIFTY" then 75 else if underlying == "BANKNIFTY" then 30 else if underlying == "FINNIFTY" then 40 else 75
  }

  /** Lots and strike steps of the three indexes. */
  lemma IndexContracts()
    ensures LotSize("NIFTY") == 75 && LotSize("BANKNIFTY") == 30 && LotSize("FINNIFTY") == 40
    ensures StrikeInterval("NIFTY") == 50 && StrikeInterval("BANKNIFTY") == 100 && StrikeInterval("FINNIFTY") == 50
  {
  }

  /** The lots the strategies reckon in are the lots the order checks ask for. */
  lemma LotsPassTheChecks(underlying: string, symbol: string)
    requires underlying in {"NIFTY", "BANKNIFTY", "FINNIFTY"} && underlying <= symbol
    ensures Validation.LotSizeOf(symbol) == LotSize(underlying)
  {
    assert symbol[0] == underlying[0];
  }

  // ---- Strike selection ----

  /** A call needs a positive delta to be eligible, a put a negative one. */
  predicate Eligible(e: Entry, isCall: bool) {
    var q := QuoteOf(e, isCall);
    q.Some? && if isCall then q.value.delta > 0.0 else q.value.delta < 0.0
  }

  function Distance(e: Entry, isCall: bool, target: real): real
    requires Eligible(e, isCall)
  {
    AbsR(QuoteOf(e, isCall).value.delta - target)
  }

  /** Index i is the first among the first n entries whose delta is nearest to the target. */
  ghost predicate BestAmong(strikes: seq<Entry>, n: nat, isCall: bool, target: real, i: nat)
    requires n <= |strikes|
  {
    && i < n && Eligible(strikes[i], isCall)
    && (forall j :: 0 <= j < n && Eligible(strikes[j], isCall) ==>
          Distance(strikes[i], isCall, target) <= Distance(strikes[j], isCall, target))
    && (forall j :: 0 <= j < i && Eligible(strikes[j], isCall) ==>
          Distance(strikes[i], isCall, target) < Distance(strikes[j], isCall, target))
  }

  /** In the quotes themselves: no positive call delta, or no negative put delta, is nearer to the target, and none that
      comes first is as near. */
  lemma BestIsNearest(strikes: seq<Entry>, isCall: bool, target: real, i: nat)
    requires i < |strikes|
    ensures BestAmong(strikes, |strikes|, true, target, i) <==>
      && strikes[i].ce.Some? && strikes[i].ce.value.delta > 0.0
      && forall j :: 0 <= j < |strikes| && strikes[j].ce.Some? && strikes[j].ce.value.delta > 0.0 ==>
           var here, there := AbsR(strikes[i].ce.value.delta - target), AbsR(strikes[j].ce.value.delta - target);
           here <= there && (j < i ==> here < there)
    ensures BestAmong(strikes, |strikes|, false, target, i) <==>
      && strikes[i].pe.Some? && strikes[i].pe.value.delta < 0.0
      && forall j :: 0 <= j < |strikes| && strikes[j].pe.Some? && strikes[j].pe.value.delta < 0.0 ==>
           var here, there := AbsR(strikes[i].pe.value.delta - target), AbsR(strikes[j].pe.value.delta - target);
           here <= there && (j < i ==> here < there)
  {
  }

  ghost predicate IsBest(strikes: seq<Entry>, n: nat, isCall: bool, target: real, best: Option<nat>)
    requires n <= |strikes|
  {
    if best.Some? then BestAmong(strikes, n, isCall, target, best.value)
    else forall j :: 0 <= j < n ==> !Eligible(strikes[j], isCall)
  }

  /** One step of the search for the nearest delta. */
  method Improve(strikes: seq<Entry>, k: nat, isCall: bool, target: real, best: Option<nat>) returns (next: Option<nat>)
    requires k < |strikes| && IsBest(strikes, k, isCall, target, best)
    ensures IsBest(strikes, k + 1, isCall, target, next)
  {
    next := best;
    if Eligible(strikes[k], isCall) {
      if best.None? || Distance(strikes[k], isCall, target) < Distance(strikes[best.value], isCall, target) {
        next := Some(k);
      }
    }
  }

  method FindBest(strikes: seq<Entry>, isCall: bool, target: real) returns (best: Option<nat>)
    ensures IsBest(strikes, |strikes|, isCall, target, best)
  {
    best := None;
    var k := 0;
    while k < |strikes|
      invariant 0 <= k <= |strikes| && IsBest(strikes, k, isCall, target, best)
    {
      best := Improve(strikes, k, isCall, target, best);
      k := k + 1;
    }
  }

  /** The combined search of an entry: the nearest call and the nearest put in one pass. */
  method FindBestPair(strikes: seq<Entry>, callTarget: real, putTarget: real)
    returns (call: Option<nat>, put: Option<nat>)
    ensures IsBest(strikes, |strikes|, true, callTarget, call)
    ensures IsBest(strikes, |strikes|, false, putTarget, put)
  {
    call, put := None, None;
    var k := 0;
    while k < |strikes|
      invariant 0 <= k <= |strikes|
      invariant IsBest(strikes, k, true, callTarget, call) && IsBest(strikes, k, false, putTarget, put)
    {
      call := Improve(strikes, k, true, callTarget, call);
      put := Improve(strikes, k, false, putTarget, put);
      k := k + 1;
    }
  }

  ghost predicate IsWing(strikes: seq<Entry>, i: nat, isCall: bool, strike: real) {
    i < |strikes| && strikes[i].strike == strike && QuoteOf(strikes[i], isCall).Some?
  }

  /** The first quoted entry at exactly that strike. */
  method FindWing(strikes: seq<Entry>, isCall: bool, strike: real) returns (wing: Option<nat>)
    ensures wing.Some? ==> IsWing(strikes, wing.value, isCall, strike)
    ensures wing.None? ==> forall i :: !IsWing(strikes, i, isCall, strike)
  {
    var k := 0;
    while k < |strikes|
      invariant 0 <= k <= |strikes|
      invariant forall i :: 0 <= i < k ==> !IsWing(strikes, i, isCall, strike)
    {
      if strikes[k].strike == strike && QuoteOf(strikes[k], isCall).Some? {
        return Some(k);
      }
      k := k + 1;
    }
    wing := None;
  }
}
