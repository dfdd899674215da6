/** Payoff at expiry of a set of option legs. */
module Payoff {
  import opened Collections
  import opened Ledger

  datatype PayoffLeg = PayoffLeg(strike: real, isCall: bool, side: Side, quantity: int, premium: real)

  function Intrinsic(strike: real, isCall: bool, spot: real): real {
    MaxR(if isCall then spot - strike else strike - spot, 0.0)
  }

  function LegPayoff(leg: PayoffLeg, spot: real): real {
    var multiplier := if leg.side == BUY then leg.quantity else -leg.quantity;
    var premiumFlow := if leg.side == BUY then -leg.premium else leg.premium;
    Intrinsic(leg.strike, leg.isCall, spot) * multiplier as real + premiumFlow * Abs(leg.quantity) as real
  }

  ghost function TotalPayoff(legs: seq<PayoffLeg>, spot: real): real {
    if legs == [] then 0.0 else TotalPayoff(legs[..|legs| - 1], spot) + LegPayoff(legs[|legs| - 1], spot)
  }

  /** The payoff curve over the given spots, added up leg by leg. */
  method ComputePayoff(legs: seq<PayoffLeg>, spots: seq<real>) returns (payoff: seq<real>)
    ensures legs == [] ==> payoff == []
    ensures legs != [] ==> |payoff| == |spots| && forall i :: 0 <= i < |spots| ==> payoff[i] == TotalPayoff(legs, spots[i])
  {
    if legs == [] {
      return [];
    }
    payoff := seq(|spots|, _ => 0.0);
    var n := 0;
    while n < |legs|
      invariant 0 <= n <= |legs| && |payoff| == |spots|
      invariant forall i :: 0 <= i < |spots| ==> payoff[i] == TotalPayoff(legs[..n], spots[i])
    {
      payoff := AddLeg(payoff, spots, legs, n);
      n := n + 1;
    }
    assert legs[..n] == legs;
  }

  method AddLeg(before: seq<real>, spots: seq<real>, legs: seq<PayoffLeg>, n: nat) returns (payoff: seq<real>)
    requires n < |legs| && |before| == |spots|
    requires forall i :: 0 <= i < |spots| ==> before[i] == TotalPayoff(legs[..n], spots[i])
    ensures |payoff| == |spots|
    ensures forall i :: 0 <= i < |spots| ==> payoff[i] == TotalPayoff(legs[..n + 1], spots[i])
  {
    payoff := seq(|spots|, i requires 0 <= i < |spots| && |before| == |spots| => before[i] + LegPayoff(legs[n], spots[i]));
    forall i | 0 <= i < |spots| ensures payoff[i] == TotalPayoff(legs[..n + 1], spots[i]) {
      TotalSnoc(legs, n, spots[i]);
    }
  }

  lemma TotalSnoc(legs: seq<PayoffLeg>, n: nat, spot: real)
    requires n < |legs|
    ensures TotalPayoff(legs[..n + 1], spot) == TotalPayoff(legs[..n], spot) + LegPayoff(legs[n], spot)
  {
    assert legs[..n + 1][..n] == legs[..n];
  }

  // ---- The iron condor ----

  function Condor(shortCe: real, longCe: real, shortPe: real, longPe: real, quantity: int,
                  sce: real, lce: real, spe: real, lpe: real): seq<PayoffLeg>
  {
    [PayoffLeg(shortCe, true, SELL, quantity, sce), PayoffLeg(shortPe, false, SELL, quantity, spe),
     PayoffLeg(longCe, true, BUY, quantity, lce), PayoffLeg(longPe, false, BUY, quantity, lpe)]
  }

  lemma SpreadFloor(short: real, long: real, isCall: bool, wing: real, spot: real)
    requires wing >= 0.0 && long == if isCall then short + wing else short - wing
    ensures -wing <= Intrinsic(long, isCall, spot) - Intrinsic(short, isCall, spot) <= 0.0
    ensures isCall && spot <= short ==> Intrinsic(long, isCall, spot) == Intrinsic(short, isCall, spot)
    ensures !isCall && spot >= short ==> Intrinsic(long, isCall, spot) == Intrinsic(short, isCall, spot)
  {
  }

  lemma FourLegs(legs: seq<PayoffLeg>, spot: real)
    requires |legs| == 4
    ensures TotalPayoff(legs, spot) ==
            LegPayoff(legs[0], spot) + LegPayoff(legs[1], spot) + LegPayoff(legs[2], spot) + LegPayoff(legs[3], spot)
  {
    var three, two, one := legs[..3], legs[..2], legs[..1];
    assert one[..0] == [] && two[..1] == one && three[..2] == two;
    assert TotalPayoff(one, spot) == LegPayoff(legs[0], spot);
    assert TotalPayoff(two, spot) == TotalPayoff(one, spot) + LegPayoff(legs[1], spot);
    assert TotalPayoff(three, spot) == TotalPayoff(two, spot) + LegPayoff(legs[2], spot);
  }

  /** A condor is worth its credit less at most one wing at every spot, and less two wings if the short
      strikes cross. */
  lemma CondorFloor(shortCe: real, longCe: real, shortPe: real, longPe: real, wing: real, quantity: int,
                    sce: real, lce: real, spe: real, lpe: real, spot: real)
    requires wing >= 0.0 && quantity >= 0 && longCe == shortCe + wing && longPe == shortPe - wing
    ensures var legs := Condor(shortCe, longCe, shortPe, longPe, quantity, sce, lce, spe, lpe);
            var credit := (sce + spe) - (lce + lpe);
            && (shortPe <= shortCe ==> TotalPayoff(legs, spot) >= quantity as real * (credit - wing))
            && TotalPayoff(legs, spot) >= quantity as real * (credit - 2.0 * wing)
            && TotalPayoff(legs, spot) <= quantity as real * credit
  {
    SpreadFloor(shortCe, longCe, true, wing, spot);
    SpreadFloor(shortPe, longPe, false, wing, spot);
    var credit := (sce + spe) - (lce + lpe);
    var net := SpreadValue(shortCe, longCe, true, spot) + SpreadValue(shortPe, longPe, false, spot);
    CondorValue(shortCe, longCe, shortPe, longPe, quantity, sce, lce, spe, lpe, spot, net + credit);
    FloorOfNet(TotalPayoff(Condor(shortCe, longCe, shortPe, longPe, quantity, sce, lce, spe, lpe), spot),
               quantity as real, net, credit, net + credit, wing, shortPe <= shortCe);
  }

  lemma FloorOfNet(total: real, q: real, net: real, credit: real, value: real, wing: real, apart: bool)
    requires total == q * value && value == net + credit
    requires q >= 0.0 && -2.0 * wing <= net <= 0.0 && (apart ==> -wing <= net)
    ensures apart ==> total >= q * (credit - wing)
    ensures total >= q * (credit - 2.0 * wing)
    ensures total <= q * credit
  {
    if apart { ProductMonotone(q, credit - wing, value); }
    ProductMonotone(q, credit - 2.0 * wing, value);
    ProductMonotone(q, value, credit);
  }

  /** One long unit and one short unit of a spread at expiry. */
  function SpreadValue(short: real, long: real, isCall: bool, spot: real): real {
    Intrinsic(long, isCall, spot) - Intrinsic(short, isCall, spot)
  }

  lemma CondorValue(shortCe: real, longCe: real, shortPe: real, longPe: real, quantity: int,
                    sce: real, lce: real, spe: real, lpe: real, spot: real, value: real)
    requires quantity >= 0
    requires value == SpreadValue(shortCe, longCe, true, spot) + SpreadValue(shortPe, longPe, false, spot) + ((sce + spe) - (lce + lpe))
    ensures TotalPayoff(Condor(shortCe, longCe, shortPe, longPe, quantity, sce, lce, spe, lpe), spot) == quantity as real * value
  {
    var legs := Condor(shortCe, longCe, shortPe, longPe, quantity, sce, lce, spe, lpe);
    FourLegs(legs, spot);
    UnitPayoff(legs[0], spot);
    UnitPayoff(legs[1], spot);
    UnitPayoff(legs[2], spot);
    UnitPayoff(legs[3], spot);
    Gather(quantity as real, PerUnit(legs[0], spot), PerUnit(legs[1], spot), PerUnit(legs[2], spot), PerUnit(legs[3], spot), value);
  }

  lemma Gather(q: real, a: real, b: real, c: real, d: real, sum: real)
    requires sum == a + b + c + d
    ensures q * a + q * b + q * c + q * d == q * sum
  {
    assert q * sum == q * (a + b + c + d);
  }

  function PerUnit(leg: PayoffLeg, spot: real): real {
    if leg.side == BUY then Intrinsic(leg.strike, leg.isCall, spot) - leg.premium
    else leg.premium - Intrinsic(leg.strike, leg.isCall, spot)
  }

  lemma UnitPayoff(leg: PayoffLeg, spot: real)
    requires leg.quantity >= 0
    ensures LegPayoff(leg, spot) == leg.quantity as real * PerUnit(leg, spot)
  {
    assert (-leg.quantity) as real == -(leg.quantity as real);
    Unit(Intrinsic(leg.strike, leg.isCall, spot), leg.premium, leg.quantity as real);
  }

  lemma Unit(intrinsic: real, premium: real, q: real)
    ensures intrinsic * q + -premium * q == q * (intrinsic - premium)
    ensures intrinsic * -q + premium * q == q * (premium - intrinsic)
  {
  }
}
