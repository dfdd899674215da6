/** The bookkeeping law that both position ledgers of the system obey, and what it implies over
    whole sequences of fills. Nothing here is taken from the way either ledger computes its numbers:
    a fill is described by what it must conserve. */
module Ledger {
  import opened Collections

  datatype Side = BUY | SELL

  function Opposite(side: Side): Side { if side == SELL then BUY else SELL }

  function Signed(side: Side, qty: int): int { if side == BUY then qty else -qty }

  /** What a ledger records about one instrument. */
  datatype Holding = Holding(quantity: int, average: real, pnl: real)

  const FLAT := Holding(0, 0.0, 0.0)

  /** A fill as a ledger sees it: a signed quantity at a price. */
  datatype Lot = Lot(signed: int, price: real)

  /** The cash a holding says has gone in and out of the account so far. */
  ghost function Book(h: Holding): real { h.pnl - h.quantity as real * h.average }

  ghost predicate Adds(quantity: int, signed: int) {
    quantity == 0 || (quantity > 0 && signed > 0) || (quantity < 0 && signed < 0)
  }

  /** The law of one fill. The quantity moves by the fill, the cash book by minus its value; profit is
      realised only by reducing; reducing leaves the cost of what is left alone; a reversal
      starts the other side at the fill price, and a flat holding carries no cost. */
  ghost predicate Settles(h: Holding, f: Lot, h': Holding) {
    && h'.quantity == h.quantity + f.signed
    && Book(h') == Book(h) - f.signed as real * f.price
    && (Adds(h.quantity, f.signed) ==> h'.pnl == h.pnl)
    && (!Adds(h.quantity, f.signed) && h'.quantity == 0 ==> h'.average == 0.0)
    && (!Adds(h.quantity, f.signed) && h'.quantity != 0 && Abs(f.signed) < Abs(h.quantity) ==> h'.average == h.average)
    && (!Adds(h.quantity, f.signed) && Abs(f.signed) > Abs(h.quantity) ==> h'.average == f.price)
  }

  lemma CancelFactor(q: real, a: real, b: real, value: real)
    requires q != 0.0 && q * a == value && q * b == value
    ensures a == b
  {
  }

  /** The law leaves no freedom: two ledgers that obey it agree. */
  lemma SettlesIsDeterministic(h: Holding, f: Lot, h1: Holding, h2: Holding)
    requires f.signed != 0
    requires Settles(h, f, h1) && Settles(h, f, h2)
    ensures h1 == h2
  {
    if Adds(h.quantity, f.signed) {
      CancelFactor(h1.quantity as real, h1.average, h2.average, h1.quantity as real * h1.average);
    }
  }

  /** The law can always be obeyed. */
  lemma SettlingExists(h: Holding, f: Lot) returns (h': Holding)
    requires f.signed != 0
    ensures Settles(h, f, h')
  {
    var q := h.quantity + f.signed;
    if Adds(h.quantity, f.signed) {
      h' := Holding(q, (h.quantity as real * h.average + f.signed as real * f.price) / q as real, h.pnl);
    } else {
      var average := if q == 0 then 0.0 else if Abs(f.signed) > Abs(h.quantity) then f.price else h.average;
      h' := Holding(q, average, Book(h) - f.signed as real * f.price + q as real * average);
    }
  }

  /** The holding that obeys the law of one fill; an empty fill changes nothing. */
  ghost function Settle(h: Holding, f: Lot): (h': Holding)
    ensures f.signed != 0 ==> Settles(h, f, h')
  {
    if f.signed == 0 then h
    else
      assert exists h' :: Settles(h, f, h') by { var h' := SettlingExists(h, f); }
      var h' :| Settles(h, f, h');
      h'
  }

  lemma SettledHolding(h: Holding, f: Lot, h': Holding)
    requires f.signed != 0 && Settles(h, f, h')
    ensures h' == Settle(h, f)
  {
    SettlesIsDeterministic(h, f, h', Settle(h, f));
  }

  lemma SettleBooks(h: Holding, f: Lot)
    ensures Settle(h, f).quantity == h.quantity + f.signed
    ensures Book(Settle(h, f)) == Book(h) - f.signed as real * f.price
  {
    if f.signed == 0 { assert 0.0 * f.price == 0.0; }
  }

  ghost predicate Tradable(fills: seq<Lot>) {
    forall i :: 0 <= i < |fills| ==> fills[i].signed != 0
  }

  ghost function Replay(fills: seq<Lot>): Holding {
    if fills == [] then FLAT else Settle(Replay(fills[..|fills| - 1]), fills[|fills| - 1])
  }

  /** Cash received (positive) or paid (negative) for a sequence of fills. */
  ghost function CashFlow(fills: seq<Lot>): real {
    if fills == [] then 0.0
    else CashFlow(fills[..|fills| - 1]) - fills[|fills| - 1].signed as real * fills[|fills| - 1].price
  }

  ghost function NetQuantity(fills: seq<Lot>): int {
    if fills == [] then 0 else NetQuantity(fills[..|fills| - 1]) + fills[|fills| - 1].signed
  }

  /** Cash conservation over any sequence of opening, adding, reducing and reversing fills. */
  lemma {:induction false} CashIsConserved(fills: seq<Lot>)
    ensures Replay(fills).quantity == NetQuantity(fills)
    ensures Book(Replay(fills)) == CashFlow(fills)
  {
    if fills != [] {
      var past, last := fills[..|fills| - 1], fills[|fills| - 1];
      CashIsConserved(past);
      SettleBooks(Replay(past), last);
    }
  }

  /** Prices of the fills that built the side now held: everything since the last flat point or reversal
      that added to the position. */
  ghost function Built(fills: seq<Lot>): seq<real> {
    if fills == [] then [] else
      var past, last := fills[..|fills| - 1], fills[|fills| - 1];
      var held := Replay(past).quantity;
      if held == 0 then [last.price]
      else if Adds(held, last.signed) then Built(past) + [last.price]
      else if held + last.signed == 0 then []
      else if Abs(last.signed) > Abs(held) then [last.price]
      else Built(past)
  }

  ghost predicate Within(prices: seq<real>, lo: real, hi: real) {
    forall i :: 0 <= i < |prices| ==> lo <= prices[i] <= hi
  }

  lemma ScaleBounds(n: real, lo: real, a: real, hi: real)
    requires n >= 0.0 && lo <= a <= hi
    ensures n * lo <= n * a <= n * hi
  {
  }

  lemma DivideBounds(t: real, lo: real, a: real, hi: real, value: real)
    requires t > 0.0 && t * a == value && t * lo <= value <= t * hi
    ensures lo <= a <= hi
  {
  }

  lemma WeightedMeanWithin(n: real, a: real, m: real, b: real, lo: real, hi: real, mean: real)
    requires n >= 0.0 && m > 0.0 && lo <= b <= hi && (n > 0.0 ==> lo <= a <= hi)
    requires (n + m) * mean == n * a + m * b
    ensures lo <= mean <= hi
  {
    var t, na, mb, nlo, mlo, nhi, mhi := n + m, n * a, m * b, n * lo, m * lo, n * hi, m * hi;
    assert nlo <= na <= nhi by {
      if n > 0.0 { ScaleBounds(n, lo, a, hi); } else { assert na == 0.0 * a && nlo == 0.0 * lo && nhi == 0.0 * hi; }
    }
    assert mlo <= mb <= mhi by { ScaleBounds(m, lo, b, hi); }
    assert t * lo == nlo + mlo;
    assert t * hi == nhi + mhi;
    DivideBounds(t, lo, mean, hi, na + mb);
  }

  lemma AddingKeepsAverageWithin(h: Holding, f: Lot, h': Holding, lo: real, hi: real)
    requires f.signed != 0 && Adds(h.quantity, f.signed) && Settles(h, f, h')
    requires lo <= f.price <= hi && (h.quantity != 0 ==> lo <= h.average <= hi)
    ensures lo <= h'.average <= hi
  {
    var q, s := h.quantity as real, f.signed as real;
    assert (q + s) * h'.average == q * h.average + s * f.price;
    if f.signed > 0 {
      WeightedMeanWithin(q, h.average, s, f.price, lo, hi, h'.average);
    } else {
      assert (-q + -s) * h'.average == -((q + s) * h'.average);
      assert -q * h.average + -s * f.price == -(q * h.average + s * f.price);
      WeightedMeanWithin(-q, h.average, -s, f.price, lo, hi, h'.average);
    }
  }

  /** The average price of an open holding lies between the cheapest and the dearest fill of its side. */
  lemma {:induction false} AverageWithinBuiltPrices(fills: seq<Lot>, lo: real, hi: real)
    requires Tradable(fills)
    requires Within(Built(fills), lo, hi)
    ensures Replay(fills).quantity != 0 ==> Built(fills) != [] && lo <= Replay(fills).average <= hi
  {
    if fills != [] {
      var past, last := fills[..|fills| - 1], fills[|fills| - 1];
      var h, h' := Replay(past), Replay(fills);
      if Adds(h.quantity, last.signed) {
        assert Built(fills)[|Built(fills)| - 1] == last.price;
        if h.quantity != 0 {
          assert forall i :: 0 <= i < |Built(past)| ==> Built(past)[i] == Built(fills)[i];
          AverageWithinBuiltPrices(past, lo, hi);
        }
        AddingKeepsAverageWithin(h, last, h', lo, hi);
      } else if h'.quantity != 0 {
        if Abs(last.signed) > Abs(h.quantity) {
          assert Built(fills)[0] == last.price;
        } else {
          AverageWithinBuiltPrices(past, lo, hi);
        }
      }
    }
  }

  /** Positive prices make a positive cost. */
  lemma {:induction false} BuiltFromFills(fills: seq<Lot>)
    requires Tradable(fills)
    requires forall i :: 0 <= i < |fills| ==> fills[i].price > 0.0
    ensures forall i :: 0 <= i < |Built(fills)| ==> Built(fills)[i] > 0.0
  {
    if fills != [] { BuiltFromFills(fills[..|fills| - 1]); }
  }

  lemma {:induction false} LowestPrice(prices: seq<real>) returns (lo: real, hi: real)
    requires forall i :: 0 <= i < |prices| ==> prices[i] > 0.0
    ensures lo > 0.0 && Within(prices, lo, hi)
  {
    if prices == [] {
      lo, hi := 1.0, 1.0;
    } else {
      var last := prices[|prices| - 1];
      lo, hi := LowestPrice(prices[..|prices| - 1]);
      lo, hi := MinR(lo, last), MaxR(hi, last);
    }
  }

  lemma AveragePositive(fills: seq<Lot>)
    requires Tradable(fills)
    requires forall i :: 0 <= i < |fills| ==> fills[i].price > 0.0
    ensures Replay(fills).quantity != 0 ==> Replay(fills).average > 0.0
  {
    BuiltFromFills(fills);
    var lo, hi := LowestPrice(Built(fills));
    AverageWithinBuiltPrices(fills, lo, hi);
  }

  /** Two partial fills at one price settle like the single fill, by the law alone. */
  lemma SplitSettles(h: Holding, a: int, b: int, price: real, mid: Holding, two: Holding)
    requires (a > 0 && b > 0) || (a < 0 && b < 0)
    requires Settles(h, Lot(a, price), mid) && Settles(mid, Lot(b, price), two)
    ensures Settles(h, Lot(a + b, price), two)
  {
    SplitBooks(h, a, b, price, mid, two);
    if !Adds(h.quantity, a) && Adds(mid.quantity, b) { SplitReversal(h, a, b, price, mid, two); }
  }

  lemma SplitBooks(h: Holding, a: int, b: int, price: real, mid: Holding, two: Holding)
    requires Book(mid) == Book(h) - a as real * price && Book(two) == Book(mid) - b as real * price
    ensures Book(two) == Book(h) - (a + b) as real * price
  {
    ProductSplits((a + b) as real, a as real, b as real, price);
  }

  /** The first part leaves the position flat or reversed, and the second builds on that at the same price. */
  lemma SplitReversal(h: Holding, a: int, b: int, price: real, mid: Holding, two: Holding)
    requires (a > 0 && b > 0) || (a < 0 && b < 0)
    requires Settles(h, Lot(a, price), mid) && Settles(mid, Lot(b, price), two)
    requires !Adds(h.quantity, a) && Adds(mid.quantity, b)
    ensures two.average == price
  {
    var m, n, q := mid.quantity as real, b as real, two.quantity as real;
    ProductSplits(q, m, n, price);
    assert m * mid.average == m * price by { if mid.quantity == 0 { assert m == 0.0; } }
    assert q * two.average == m * mid.average + n * price;
    CancelFactor(q, two.average, price, q * price);
  }

  /** Reporting one execution as two partial fills at the same price changes nothing, also when the
      split falls on a flat point or in the middle of a reversal. */
  lemma SplitFillsAgree(h: Holding, a: int, b: int, price: real)
    requires (a > 0 && b > 0) || (a < 0 && b < 0)
    ensures Settle(Settle(h, Lot(a, price)), Lot(b, price)) == Settle(h, Lot(a + b, price))
  {
    var mid := Settle(h, Lot(a, price));
    var two := Settle(mid, Lot(b, price));
    SplitSettles(h, a, b, price, mid, two);
    SettlesIsDeterministic(h, Lot(a + b, price), two, Settle(h, Lot(a + b, price)));
  }

  /** What an open holding is worth on top of its realised profit at the last traded price. */
  function Unrealised(quantity: int, average: real, ltp: real): real {
    if quantity != 0 && ltp > 0.0 && average > 0.0 then
      if quantity > 0 then quantity as real * (ltp - average)
      else (-quantity) as real * (average - ltp)
    else 0.0
  }

  lemma UnrealisedClosesTheBook(h: Holding, ltp: real)
    requires h.quantity != 0 ==> ltp > 0.0 && h.average > 0.0
    ensures h.pnl + Unrealised(h.quantity, h.average, ltp) == Book(h) + h.quantity as real * ltp
  {
    var q := h.quantity as real;
    assert q * (ltp - h.average) == q * ltp - q * h.average;
    assert (-h.quantity) as real == -q;
    assert -q * (h.average - ltp) == q * ltp - q * h.average;
  }

  /** Realised plus unrealised profit is cash flow plus market value. */
  lemma MarkToMarket(fills: seq<Lot>, ltp: real)
    requires Tradable(fills) && forall i :: 0 <= i < |fills| ==> fills[i].price > 0.0
    requires ltp > 0.0
    ensures var h := Replay(fills);
            h.pnl + Unrealised(h.quantity, h.average, ltp) == CashFlow(fills) + NetQuantity(fills) as real * ltp
  {
    CashIsConserved(fills);
    AveragePositive(fills);
    UnrealisedClosesTheBook(Replay(fills), ltp);
  }
}
