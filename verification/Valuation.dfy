/** What a set of legs is worth, at any price per instrument, depends only on its net quantities. */
module Valuation {
  import opened Collections
  import opened Ledger
  import opened Strategy
  import opened Payoff

  /** The legs valued at a price per instrument. */
  ghost function Worth(legs: seq<Leg>, price: int -> real): real {
    if legs == [] then 0.0
    else var l := legs[|legs| - 1]; Worth(legs[..|legs| - 1], price) + Times(SignedQty(l), price(l.token))
  }

  /** What each contract pays when the underlying settles at spot. */
  function AtExpiry(contract: int -> Contract, spot: real): int -> real {
    (token: int) => Intrinsic(contract(token).strike, contract(token).isCall, spot)
  }

  ghost function WithoutToken(legs: seq<Leg>, token: int): seq<Leg> {
    if legs == [] then []
    else
      var rest := WithoutToken(legs[..|legs| - 1], token);
      if legs[|legs| - 1].token == token then rest else rest + [legs[|legs| - 1]]
  }

  lemma {:induction false} NetWithoutToken(legs: seq<Leg>, token: int)
    ensures |WithoutToken(legs, token)| <= |legs|
    ensures legs != [] && legs[|legs| - 1].token == token ==> |WithoutToken(legs, token)| < |legs|
    ensures forall t :: Net(WithoutToken(legs, token), t) == if t == token then 0 else Net(legs, t)
  {
    if legs != [] {
      var past, l := legs[..|legs| - 1], legs[|legs| - 1];
      NetWithoutToken(past, token);
      var rest := WithoutToken(past, token);
      if l.token != token {
        assert (rest + [l])[..|rest|] == rest;
      }
    }
  }

  lemma {:induction false} WorthWithoutToken(legs: seq<Leg>, token: int, price: int -> real)
    ensures Worth(legs, price) == Worth(WithoutToken(legs, token), price) + Times(Net(legs, token), price(token))
  {
    if legs != [] {
      var past, l := legs[..|legs| - 1], legs[|legs| - 1];
      WorthWithoutToken(past, token, price);
      var rest := WithoutToken(past, token);
      if l.token == token {
        TimesAdds(Net(past, token), SignedQty(l), price(token));
      } else {
        assert (rest + [l])[..|rest|] == rest;
      }
    }
  }

  lemma {:induction false} NothingHeldIsWorthNothing(legs: seq<Leg>, price: int -> real)
    requires LedgerIs(legs, [])
    ensures Worth(legs, price) == 0.0
    decreases |legs|
  {
    if legs != [] {
      var token := legs[|legs| - 1].token;
      NetWithoutToken(legs, token);
      WorthWithoutToken(legs, token, price);
      var rest := WithoutToken(legs, token);
      assert Net(legs, token) == Net([], token) == 0;
      forall t ensures Net(rest, t) == Net([], t) { assert Net(legs, t) == Net([], t); }
      NothingHeldIsWorthNothing(rest, price);
    }
  }

  lemma {:induction false} WorthConcat(a: seq<Leg>, b: seq<Leg>, price: int -> real)
    ensures Worth(a + b, price) == Worth(a, price) + Worth(b, price)
  {
    if b == [] {
      assert a + b == a;
    } else {
      assert (a + b)[..|a + b| - 1] == a + b[..|b| - 1];
      WorthConcat(a, b[..|b| - 1], price);
    }
  }

  lemma {:induction false} ClosingOwes(legs: seq<Leg>, price: int -> real)
    ensures Worth(Closing(legs), price) == -Worth(legs, price)
  {
    if legs != [] {
      ClosingOwes(legs[..|legs| - 1], price);
      var c := Closing(legs);
      assert c[..|c| - 1] == Closing(legs[..|legs| - 1]);
      var l := legs[|legs| - 1];
      TimesAdds(SignedQty(l), -SignedQty(l), price(l.token));
    }
  }

  /** Two ledgers with the same nets are worth the same whatever the prices. */
  lemma SameNetSameWorth(emitted: seq<Leg>, held: seq<Leg>, price: int -> real)
    requires LedgerIs(emitted, held)
    ensures Worth(emitted, price) == Worth(held, price)
  {
    var all := emitted + Closing(held);
    forall t ensures Net(all, t) == Net([], t) {
      NetConcat(emitted, Closing(held), t);
      ClosingCancels(held, t);
    }
    NothingHeldIsWorthNothing(all, price);
    WorthConcat(emitted, Closing(held), price);
    ClosingOwes(held, price);
  }

  // ---- Gains and losses ----

  /** What each instrument last traded at. */
  ghost function Quotes(m: Market): int -> real { (token: int) => if token in m.ltps then m.ltps[token] else 0.0 }

  /** Legs that brought in so much lose, at their present worth, more than a percentage of that. */
  ghost predicate LossExceeds(worth: real, received: real, pct: real) { (-worth - received) * 100.0 > pct * received }

  /** They have earned at least a percentage of it. */
  ghost predicate GainReaches(worth: real, received: real, pct: real) { (received + worth) * 100.0 >= pct * received }

  /** The same per unit, as the strategies reckon it. */
  lemma PerUnitLoss(q: int, credit: real, debit: real, pct: real)
    requires q >= 1 && credit > 0.0
    ensures (debit - credit) / credit * 100.0 > pct <==> LossExceeds(-(q as real * debit), q as real * credit, pct)
    ensures (credit - debit) / credit * 100.0 >= pct <==> GainReaches(-(q as real * debit), q as real * credit, pct)
    ensures q as real * credit > 0.0
  {
    var n := q as real;
    Percent(debit - credit, credit, pct);
    Percent(credit - debit, credit, pct);
    ScaledUp(n, (debit - credit) * 100.0, pct * credit);
    ScaledUp(n, (credit - debit) * 100.0, pct * credit);
    ScaledUp(n, 0.0, credit);
    UnitsOf(n, credit, debit, pct);
  }

  /** Legs that brought something in have lost more than the stop, or earned the target if there is one. */
  ghost predicate StopOrTarget(worth: real, received: real, stop: real, target: real) {
    received > 0.0 && (LossExceeds(worth, received, stop) || (target > 0.0 && GainReaches(worth, received, target)))
  }

  lemma PerUnitStopOrTarget(q: int, credit: real, debit: real, stop: real, target: real)
    requires q >= 1
    ensures StopOrTarget(-(q as real * debit), q as real * credit, stop, target) <==>
            credit > 0.0 && ((debit - credit) / credit * 100.0 > stop
                             || (target > 0.0 && (credit - debit) / credit * 100.0 >= target))
    ensures q as real * credit > 0.0 <==> credit > 0.0
  {
    ScaledUp(q as real, credit, 0.0);
    if credit > 0.0 {
      PerUnitLoss(q, credit, debit, stop);
      PerUnitLoss(q, credit, debit, target);
    }
  }

  /** What closing the legs costs now is above the lowest it has been, by more than a percentage of what they brought in. */
  ghost predicate Bounced(worth: real, lowest: real, received: real, pct: real) {
    received > 0.0 && pct > 0.0 && -worth > lowest && (-worth - lowest) * 100.0 > pct * received
  }

  lemma PerUnitBounce(q: int, credit: real, lowest: real, debit: real, pct: real)
    requires q >= 1
    ensures Bounced(-(q as real * debit), q as real * lowest, q as real * credit, pct) <==>
            credit > 0.0 && pct > 0.0 && debit > lowest && (debit - lowest) / credit * 100.0 > pct
  {
    var n := q as real;
    ScaledUp(n, credit, 0.0);
    ScaledUp(n, debit, lowest);
    if credit > 0.0 {
      Percent(debit - lowest, credit, pct);
      ScaledUp(n, (debit - lowest) * 100.0, pct * credit);
      UnitsOf(n, lowest, debit, pct);
      UnitsOf(n, credit, debit, pct);
    }
  }

  lemma Percent(gain: real, credit: real, pct: real)
    requires credit > 0.0
    ensures gain / credit * 100.0 > pct <==> gain * 100.0 > pct * credit
    ensures gain / credit * 100.0 >= pct <==> gain * 100.0 >= pct * credit
  {
    var share := gain / credit;
    assert share * credit == gain;
    ScaledUp(credit, share * 100.0, pct);
    assert credit * (share * 100.0) == gain * 100.0;
  }

  lemma ScaledUp(w: real, a: real, b: real)
    requires w > 0.0
    ensures a > b <==> w * a > w * b
    ensures a < b <==> w * a < w * b
  {
  }

  lemma UnitsOf(n: real, credit: real, debit: real, pct: real)
    ensures n * ((debit - credit) * 100.0) == (n * debit - n * credit) * 100.0
    ensures n * ((credit - debit) * 100.0) == (n * credit - n * debit) * 100.0
    ensures n * (pct * credit) == pct * (n * credit)
  {
  }
}
