/** The live option chain: built tick by tick, its strikes kept sorted and its max pain up to date. */
module OptionChain {
  import opened Collections
  import opened MaxPain

  datatype Chain = Chain(spot: real, atm: real, strikes: seq<Entry>, maxPain: real, totalCeOi: int, totalPeOi: int,
                         pcrOi: real)

  datatype Listing = Listing(underlying: string, expiry: int, strike: real, isCall: bool)

  datatype Tick = Tick(token: int, symbol: string, ltp: real, volume: int, oi: int)

  type ChainKey = (string, int)

  // ---- Strikes ----

  ghost predicate Lists(strikes: seq<Entry>, strike: real) {
    exists i :: 0 <= i < |strikes| && strikes[i].strike == strike
  }

  /** The chain after and before agree except possibly at one strike. */
  ghost predicate SameElsewhere(before: seq<Entry>, after: seq<Entry>, strike: real) {
    && (forall i :: 0 <= i < |before| && before[i].strike != strike ==> before[i] in after)
    && (forall i :: 0 <= i < |after| && after[i].strike != strike ==> after[i] in before)
  }

  method FindEntry(strikes: seq<Entry>, strike: real) returns (at: Option<nat>)
    ensures at.None? <==> !Lists(strikes, strike)
    ensures at.Some? ==> at.value < |strikes| && strikes[at.value].strike == strike
  {
    var i := 0;
    while i < |strikes|
      invariant 0 <= i <= |strikes|
      invariant forall j :: 0 <= j < i ==> strikes[j].strike != strike
    {
      if strikes[i].strike == strike {
        return Some(i);
      }
      i := i + 1;
    }
    at := None;
  }

  /** Appending a strike and sorting: the new entry ends at its place among the sorted others. */
  method InsertEntry(strikes: seq<Entry>, strike: real) returns (after: seq<Entry>, at: nat)
    requires StrictlySorted(strikes) && !Lists(strikes, strike)
    ensures StrictlySorted(after) && SameElsewhere(strikes, after, strike)
    ensures at < |after| && after[at] == Entry(strike, None, None) && after[..at] + after[at + 1..] == strikes
  {
    at := |strikes|;
    while at > 0 && strikes[at - 1].strike > strike
      invariant 0 <= at <= |strikes|
      invariant forall i :: at <= i < |strikes| ==> strikes[i].strike > strike
    {
      at := at - 1;
    }
    InsertedEntry(strikes, at, strike);
    after := Inserted(strikes, at, Entry(strike, None, None));
  }

  /** Finds the entry of a strike, inserting an empty one at its sorted place when it is new. */
  method FindOrCreateEntry(strikes: seq<Entry>, strike: real) returns (after: seq<Entry>, at: nat)
    requires StrictlySorted(strikes)
    ensures StrictlySorted(after) && SameElsewhere(strikes, after, strike)
    ensures at < |after| && after[at].strike == strike
    ensures Lists(strikes, strike) ==> after == strikes
    ensures !Lists(strikes, strike) ==> after[at] == Entry(strike, None, None) && after[..at] + after[at + 1..] == strikes
  {
    var found := FindEntry(strikes, strike);
    if found.Some? {
      after, at := strikes, found.value;
    } else {
      after, at := InsertEntry(strikes, strike);
    }
  }

  function Inserted(strikes: seq<Entry>, at: nat, e: Entry): seq<Entry>
    requires at <= |strikes|
  {
    strikes[..at] + [e] + strikes[at..]
  }

  lemma InsertedSorted(strikes: seq<Entry>, at: nat, e: Entry)
    requires StrictlySorted(strikes) && at <= |strikes|
    requires forall i :: at <= i < |strikes| ==> strikes[i].strike > e.strike
    requires forall i :: 0 <= i < at ==> strikes[i].strike < e.strike
    ensures StrictlySorted(Inserted(strikes, at, e))
  {
    var after := Inserted(strikes, at, e);
    forall i, j | 0 <= i < j < |after| ensures after[i].strike < after[j].strike {
      assert after[i] == if i < at then strikes[i] else if i == at then e else strikes[i - 1];
      assert after[j] == if j < at then strikes[j] else if j == at then e else strikes[j - 1];
    }
  }

  lemma InsertedElsewhere(strikes: seq<Entry>, at: nat, e: Entry)
    requires at <= |strikes|
    ensures SameElsewhere(strikes, Inserted(strikes, at, e), e.strike)
    ensures Inserted(strikes, at, e)[at] == e
    ensures Inserted(strikes, at, e)[..at] + Inserted(strikes, at, e)[at + 1..] == strikes
  {
    var after := Inserted(strikes, at, e);
    forall i | 0 <= i < |strikes| ensures strikes[i] in after {
      assert after[if i < at then i else i + 1] == strikes[i];
    }
    forall i | 0 <= i < |after| && i != at ensures after[i] in strikes {
      assert after[i] == strikes[if i < at then i else i - 1];
    }
  }

  lemma InsertedEntry(strikes: seq<Entry>, at: nat, strike: real)
    requires StrictlySorted(strikes) && at <= |strikes|
    requires forall i :: 0 <= i < |strikes| ==> strikes[i].strike != strike
    requires forall i :: at <= i < |strikes| ==> strikes[i].strike > strike
    requires at > 0 ==> strikes[at - 1].strike <= strike
    ensures var after := Inserted(strikes, at, Entry(strike, None, None));
            && StrictlySorted(after) && SameElsewhere(strikes, after, strike)
            && after[at] == Entry(strike, None, None) && after[..at] + after[at + 1..] == strikes
  {
    forall i | 0 <= i < at ensures strikes[i].strike < strike {
      if i < at - 1 { assert strikes[i].strike < strikes[at - 1].strike; }
    }
    InsertedSorted(strikes, at, Entry(strike, None, None));
    InsertedElsewhere(strikes, at, Entry(strike, None, None));
  }

  /** The listed strike nearest to the spot; zero for an empty chain. */
  function FindAtmStrike(spot: real, strikes: seq<Entry>): real {
    if strikes == [] then 0.0 else Nearest(spot, strikes).strike
  }

  function Nearest(spot: real, strikes: seq<Entry>): Entry
    requires strikes != []
  {
    if |strikes| == 1 then strikes[0]
    else
      var best := Nearest(spot, strikes[..|strikes| - 1]);
      if AbsR(strikes[|strikes| - 1].strike - spot) < AbsR(best.strike - spot) then strikes[|strikes| - 1] else best
  }

  lemma {:induction false} AtmIsNearest(spot: real, strikes: seq<Entry>)
    requires strikes != []
    ensures Lists(strikes, FindAtmStrike(spot, strikes))
    ensures forall i :: 0 <= i < |strikes| ==>
      AbsR(FindAtmStrike(spot, strikes) - spot) <= AbsR(strikes[i].strike - spot)
    ensures exists i :: FirstNearest(spot, strikes, i) && strikes[i].strike == FindAtmStrike(spot, strikes)
  {
    var k := NearestIsFirst(spot, strikes);
    assert strikes[k].strike == FindAtmStrike(spot, strikes);
  }

  /** No entry is nearer to the spot, and every earlier one is farther away. */
  ghost predicate FirstNearest(spot: real, strikes: seq<Entry>, i: int) {
    && 0 <= i < |strikes|
    && (forall j :: 0 <= j < |strikes| ==> AbsR(strikes[i].strike - spot) <= AbsR(strikes[j].strike - spot))
    && (forall j :: 0 <= j < i ==> AbsR(strikes[i].strike - spot) < AbsR(strikes[j].strike - spot))
  }

  lemma {:induction false} NearestIsFirst(spot: real, strikes: seq<Entry>) returns (k: nat)
    requires strikes != []
    ensures FirstNearest(spot, strikes, k) && strikes[k] == Nearest(spot, strikes)
  {
    if |strikes| == 1 {
      k := 0;
    } else {
      var rest, n := strikes[..|strikes| - 1], |strikes| - 1;
      k := NearestIsFirst(spot, rest);
      assert forall j :: 0 <= j < n ==> strikes[j] == rest[j];
      if AbsR(strikes[n].strike - spot) < AbsR(rest[k].strike - spot) { k := n; }
    }
  }

  function CeOi(strikes: seq<Entry>): int {
    if strikes == [] then 0 else CeOi(strikes[..|strikes| - 1]) + CallOi(strikes[|strikes| - 1])
  }

  function PeOi(strikes: seq<Entry>): int {
    if strikes == [] then 0 else PeOi(strikes[..|strikes| - 1]) + PutOi(strikes[|strikes| - 1])
  }

  lemma {:induction false} TotalsAreOfSides(strikes: seq<Entry>)
    ensures CeOi(strikes) == SideOi(strikes, true) && PeOi(strikes) == SideOi(strikes, false)
  {
    if strikes != [] { TotalsAreOfSides(strikes[..|strikes| - 1]); }
  }

  function ComputePcrOi(strikes: seq<Entry>): real {
    if CeOi(strikes) == 0 then 0.0 else PeOi(strikes) as real / CeOi(strikes) as real
  }

  // ---- Chains ----

  /** The published max pain minimises what the writers pay over every settlement price, so that neither side's open
      interest outweighs the other's there, and no lower listed strike does as well. */
  ghost predicate MaxPainIsRight(chain: Chain) {
    chain.strikes != [] ==>
      && Lists(chain.strikes, chain.maxPain)
      && (forall x: real :: Payout(chain.strikes, chain.maxPain) <= Payout(chain.strikes, x))
      && Balanced(chain.strikes, chain.maxPain)
      && (forall i :: 0 <= i < |chain.strikes| && chain.strikes[i].strike < chain.maxPain ==>
            Payout(chain.strikes, chain.maxPain) < Payout(chain.strikes, chain.strikes[i].strike))
  }

  /** The published totals are those of the two sides, and the ratio is puts to calls. */
  ghost predicate TotalsAreRight(chain: Chain) {
    && chain.totalCeOi == SideOi(chain.strikes, true) && chain.totalPeOi == SideOi(chain.strikes, false)
    && (if chain.totalCeOi == 0 then chain.pcrOi == 0.0 else chain.pcrOi * chain.totalCeOi as real == chain.totalPeOi as real)
  }

  ghost predicate ChainOk(chain: Chain) {
    && StrictlySorted(chain.strikes) && NonNegativeInterest(chain.strikes)
    && MaxPainIsRight(chain) && TotalsAreRight(chain)
  }

  lemma MaxPainHolds(chain: Chain, best: nat)
    requires StrictlySorted(chain.strikes) && NonNegativeInterest(chain.strikes)
    requires FirstLeastPain(chain.strikes, best) && chain.maxPain == chain.strikes[best].strike
    ensures MaxPainIsRight(chain)
  {
    PainIsPayout(chain.strikes, chain.maxPain);
    forall x: real ensures TotalPain(chain.strikes, chain.maxPain) <= TotalPain(chain.strikes, x) == Payout(chain.strikes, x) {
      MaxPainIsGlobal(chain.strikes, best, x);
      PainIsPayout(chain.strikes, x);
    }
    OptimalIffBalanced(chain.strikes, best);
    forall i | 0 <= i < |chain.strikes| && chain.strikes[i].strike < chain.maxPain
      ensures Payout(chain.strikes, chain.maxPain) < Payout(chain.strikes, chain.strikes[i].strike)
    {
      PainIsPayout(chain.strikes, chain.strikes[i].strike);
      if TotalPain(chain.strikes, chain.strikes[i].strike) <= TotalPain(chain.strikes, chain.maxPain) {
        MaxPainIsLowest(chain.strikes, best, i);
      }
    }
  }

  /** The new contents of a strike after a tick of one of its two options. */
  function Quoted(e: Entry, isCall: bool, data: OptionData): Entry {
    if isCall then e.(ce := Some(data)) else e.(pe := Some(data))
  }

  function Respotted(chain: Chain, ltp: real): Chain {
    chain.(spot := ltp, atm := FindAtmStrike(ltp, chain.strikes))
  }

  lemma RespottedIsOk(chain: Chain, ltp: real)
    requires ChainOk(chain)
    ensures ChainOk(Respotted(chain, ltp))
  {
    var c := Respotted(chain, ltp);
    assert c.strikes == chain.strikes && c.maxPain == chain.maxPain;
  }

  /** The chain differs from before by one quote and the figures that depend on it. */
  ghost predicate Requoted(before: Chain, after: Chain, l: Listing, data: OptionData) {
    && after.spot == before.spot && after.atm == before.atm
    && SameElsewhere(before.strikes, after.strikes, l.strike)
    && Lists(after.strikes, l.strike)
    && EntryAt(after.strikes, l.strike) ==
       Quoted(if Lists(before.strikes, l.strike) then EntryAt(before.strikes, l.strike) else Entry(l.strike, None, None),
              l.isCall, data)
    && TotalsMoved(before, after, l, data)
  }

  /** The open interest of the quoted side moves by what its quote moves by, and that of the other side stays. */
  ghost predicate TotalsMoved(before: Chain, after: Chain, l: Listing, data: OptionData) {
    && SideOi(after.strikes, !l.isCall) == SideOi(before.strikes, !l.isCall)
    && SideOi(after.strikes, l.isCall) == SideOi(before.strikes, l.isCall) + data.oi
       - if Lists(before.strikes, l.strike) then OiIf(EntryAt(before.strikes, l.strike), l.isCall, true) else 0
  }

  /** One option tick applied to its chain. */
  method UpdateChain(chain: Chain, l: Listing, data: OptionData) returns (after: Chain)
    requires StrictlySorted(chain.strikes) && NonNegativeInterest(chain.strikes) && data.oi >= 0
    ensures ChainOk(after) && Requoted(chain, after, l, data)
  {
    var strikes, at := FindOrCreateEntry(chain.strikes, l.strike);
    ghost var found := strikes;
    strikes := strikes[at := Quoted(strikes[at], l.isCall, data)];
    QuotedEntry(chain.strikes, found, strikes, at, l.strike, l.isCall, data);
    QuotedTotals(chain.strikes, found, strikes, at, l.strike, l.isCall, data);
    var maxPain := ComputeMaxPain(strikes);
    after := chain.(strikes := strikes, pcrOi := ComputePcrOi(strikes), maxPain := maxPain,
                    totalCeOi := CeOi(strikes), totalPeOi := PeOi(strikes));
    PublishedIsOk(after);
  }

  /** A chain published with the figures of its strikes is in order. */
  lemma PublishedIsOk(chain: Chain)
    requires chain.strikes != [] && StrictlySorted(chain.strikes) && NonNegativeInterest(chain.strikes)
    requires exists i: nat :: FirstLeastPain(chain.strikes, i) && chain.maxPain == chain.strikes[i].strike
    requires chain.totalCeOi == CeOi(chain.strikes) && chain.totalPeOi == PeOi(chain.strikes)
    requires chain.pcrOi == ComputePcrOi(chain.strikes)
    ensures ChainOk(chain)
  {
    var best: nat :| FirstLeastPain(chain.strikes, best) && chain.maxPain == chain.strikes[best].strike;
    MaxPainHolds(chain, best);
    TotalsHold(chain);
  }

  lemma TotalsHold(chain: Chain)
    requires chain.totalCeOi == CeOi(chain.strikes) && chain.totalPeOi == PeOi(chain.strikes)
    requires chain.pcrOi == ComputePcrOi(chain.strikes)
    ensures TotalsAreRight(chain)
  {
    TotalsAreOfSides(chain.strikes);
    if chain.totalCeOi != 0 { Ratio(chain.totalPeOi as real, chain.totalCeOi as real); }
  }

  lemma Ratio(a: real, b: real)
    requires b != 0.0
    ensures a / b * b == a
  {
  }

  /** What one quote makes of the open interest of each side. */
  lemma QuotedTotals(before: seq<Entry>, found: seq<Entry>, after: seq<Entry>, at: nat, strike: real, isCall: bool, data: OptionData)
    requires StrictlySorted(found) && at < |found| && found[at].strike == strike
    requires Lists(before, strike) ==> found == before
    requires !Lists(before, strike) ==> found[at] == Entry(strike, None, None) && found[..at] + found[at + 1..] == before
    requires after == found[at := Quoted(found[at], isCall, data)]
    ensures SideOi(after, !isCall) == SideOi(before, !isCall)
    ensures SideOi(after, isCall) == SideOi(before, isCall) + data.oi
            - if Lists(before, strike) then OiIf(EntryAt(before, strike), isCall, true) else 0
  {
    var a, b := found[..at], found[at + 1..];
    assert found == a + [found[at]] + b && after == a + [after[at]] + b;
    OiWithEntry(a, found[at], b, isCall);
    OiWithEntry(a, after[at], b, isCall);
    OiWithEntry(a, found[at], b, !isCall);
    OiWithEntry(a, after[at], b, !isCall);
    if Lists(before, strike) {
      var k :| 0 <= k < |before| && before[k].strike == strike && before[k] == EntryAt(before, strike);
      assert k == at;
    }
  }

  ghost function EntryAt(strikes: seq<Entry>, strike: real): Entry
    requires Lists(strikes, strike)
  {
    var i :| 0 <= i < |strikes| && strikes[i].strike == strike;
    strikes[i]
  }

  lemma QuotedEntry(before: seq<Entry>, found: seq<Entry>, after: seq<Entry>, at: nat, strike: real, isCall: bool, data: OptionData)
    requires StrictlySorted(before) && NonNegativeInterest(before) && data.oi >= 0
    requires StrictlySorted(found) && SameElsewhere(before, found, strike)
    requires at < |found| && found[at].strike == strike
    requires Lists(before, strike) ==> found == before
    requires !Lists(before, strike) ==> found[at] == Entry(strike, None, None)
    requires after == found[at := Quoted(found[at], isCall, data)]
    ensures StrictlySorted(after) && NonNegativeInterest(after) && SameElsewhere(before, after, strike)
    ensures Lists(after, strike)
    ensures EntryAt(after, strike) ==
      Quoted(if Lists(before, strike) then EntryAt(before, strike) else Entry(strike, None, None), isCall, data)
  {
    assert after[at].strike == strike;
    forall i | 0 <= i < |found| && i != at ensures after[i] == found[i] && found[i].strike != strike && found[i] in before {
    }
    if Lists(before, strike) {
      var k :| 0 <= k < |before| && before[k].strike == strike && before[k] == EntryAt(before, strike);
      assert k == at;
    }
    forall i | 0 <= i < |before| && before[i].strike != strike ensures before[i] in after {
      var j :| 0 <= j < |found| && found[j] == before[i];
      assert after[j] == before[i];
    }
    forall i | 0 <= i < |after| ensures OpenInterestOk(after[i]) {
      if i != at {
        var j :| 0 <= j < |before| && before[j] == found[i];
        assert OpenInterestOk(before[j]);
      } else if Lists(before, strike) {
        assert OpenInterestOk(before[at]);
      }
    }
  }

  type Chains = map<ChainKey, Chain>

  ghost predicate AllOk(chains: Chains) {
    forall k :: k in chains ==> ChainOk(chains[k])
  }

  /** A new index price reached every chain on that underlying and no other. */
  ghost predicate SpotMoved(before: Chains, after: Chains, underlying: string, ltp: real) {
    && after.Keys == before.Keys
    && forall k :: k in after ==> after[k] == if k.0 == underlying then Respotted(before[k], ltp) else before[k]
  }

  /** A new quote reached its own chain, if there is one, and no other. */
  ghost predicate QuoteMoved(before: Chains, after: Chains, l: Listing, data: OptionData) {
    && after.Keys == before.Keys
    && (forall k :: k in after && k != (l.underlying, l.expiry) ==> after[k] == before[k])
    && ((l.underlying, l.expiry) in after ==>
          Requoted(before[(l.underlying, l.expiry)], after[(l.underlying, l.expiry)], l, data))
  }

  lemma SpotKeepsOk(before: Chains, after: Chains, underlying: string, ltp: real)
    requires AllOk(before) && SpotMoved(before, after, underlying, ltp)
    ensures AllOk(after)
  {
    forall k | k in after ensures ChainOk(after[k]) {
      assert ChainOk(before[k]);
      RespottedIsOk(before[k], ltp);
    }
  }

  /** The loop over the chains of one underlying, in no particular order. */
  method RespotAll(before: Chains, underlying: string, ltp: real) returns (chains: Chains)
    ensures SpotMoved(before, chains, underlying, ltp)
  {
    chains := before;
    var rest := set k | k in chains && k.0 == underlying;
    ghost var all := rest;
    while rest != {}
      invariant rest <= all && chains.Keys == before.Keys
      invariant forall k :: k in chains ==> chains[k] == if k in all && k !in rest then Respotted(before[k], ltp) else before[k]
      decreases rest
    {
      var k :| k in rest;
      chains := chains[k := Respotted(chains[k], ltp)];
      rest := rest - {k};
    }
  }

  class OptionChainBuilder {
    var chains: map<ChainKey, Chain>
    var listings: map<int, Listing>
    var spotPrices: map<string, real>
    var spotTokens: map<int, string>

    ghost predicate Valid()
      reads this
    {
      AllOk(chains)
    }

    constructor ()
      ensures Valid() && chains == map[] && listings == map[] && spotTokens == map[] && spotPrices == map[]
    {
      chains, listings, spotPrices, spotTokens := map[], map[], map[], map[];
    }

    method RegisterOption(token: int, listing: Listing)
      requires Valid()
      modifies this`chains, this`listings
      ensures Valid() && listings == old(listings)[token := listing]
      ensures var k := (listing.underlying, listing.expiry);
              chains == if k in old(chains) then old(chains)
                        else old(chains)[k := Chain(0.0, 0.0, [], 0.0, 0, 0, 0.0)]
    {
      listings := listings[token := listing];
      var k := (listing.underlying, listing.expiry);
      if k !in chains {
        chains := chains[k := Chain(0.0, 0.0, [], 0.0, 0, 0, 0.0)];
      }
    }

    method RegisterSpot(token: int, underlying: string)
      requires Valid()
      modifies this`spotTokens
      ensures Valid() && spotTokens == old(spotTokens)[token := underlying]
    {
      spotTokens := spotTokens[token := underlying];
    }

    /** A tick of an index moves the spot and the at-the-money strike of every chain on it, and nothing else. */
    method OnSpotTick(underlying: string, ltp: real)
      requires Valid()
      modifies this`chains, this`spotPrices
      ensures Valid() && chains.Keys == old(chains).Keys
      ensures spotPrices == old(spotPrices)[underlying := ltp]
      ensures SpotMoved(old(chains), chains, underlying, ltp)
    {
      spotPrices := spotPrices[underlying := ltp];
      ghost var before := chains;
      chains := RespotAll(chains, underlying, ltp);
      SpotKeepsOk(before, chains, underlying, ltp);
    }

    /** A tick of a registered option changes only its own side of its own strike of its own chain; any other
        tick that is not of an index changes nothing. */
    method OnTick(tick: Tick, delta: real)
      requires Valid() && tick.oi >= 0
      modifies this`chains, this`spotPrices
      ensures Valid() && chains.Keys == old(chains).Keys
      ensures tick.token in spotTokens ==>
        && spotPrices == old(spotPrices)[spotTokens[tick.token] := tick.ltp]
        && SpotMoved(old(chains), chains, spotTokens[tick.token], tick.ltp)
      ensures tick.token !in spotTokens ==> spotPrices == old(spotPrices)
      ensures tick.token !in spotTokens && tick.token !in listings ==> chains == old(chains)
      ensures tick.token !in spotTokens && tick.token in listings ==>
        QuoteMoved(old(chains), chains, listings[tick.token],
                   OptionData(tick.token, tick.symbol, tick.ltp, tick.volume, tick.oi, delta))
    {
      if tick.token in spotTokens {
        OnSpotTick(spotTokens[tick.token], tick.ltp);
      } else if tick.token in listings {
        OnOptionTick(listings[tick.token], OptionData(tick.token, tick.symbol, tick.ltp, tick.volume, tick.oi, delta));
      }
    }

    /** A quote whose chain was never registered is dropped. */
    method OnOptionTick(l: Listing, data: OptionData)
      requires Valid() && data.oi >= 0
      modifies this`chains
      ensures Valid() && QuoteMoved(old(chains), chains, l, data)
    {
      var k := (l.underlying, l.expiry);
      if k in chains {
        assert ChainOk(chains[k]);
        var after := UpdateChain(chains[k], l, data);
        chains := chains[k := after];
      }
    }
  }
}
