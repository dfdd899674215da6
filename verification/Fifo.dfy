/** First-in first-out matching of sells against earlier buys, as the backtest metrics do it. */
module Fifo {
  import opened Collections

  /** A trade; any side other than "BUY" is treated as a sale. */
  datatype Trade = Trade(symbol: string, side: string, price: real, qty: nat)

  datatype OpenLot = OpenLot(qty: nat, price: real, buy: bool)

  predicate IsBuy(t: Trade) { t.side == "BUY" }

  ghost function Sum(xs: seq<real>): real {
    if xs == [] then 0.0 else Sum(xs[..|xs| - 1]) + xs[|xs| - 1]
  }

  lemma {:induction false} SumConcat(xs: seq<real>, ys: seq<real>)
    ensures Sum(xs + ys) == Sum(xs) + Sum(ys)
  {
    if ys == [] {
      assert xs + ys == xs;
    } else {
      assert (xs + ys)[..|xs + ys| - 1] == xs + ys[..|ys| - 1];
      SumConcat(xs, ys[..|ys| - 1]);
    }
  }

  lemma AppendOne(xs: seq<real>, x: real)
    ensures Sum(xs + [x]) == Sum(xs) + x
  {
    assert (xs + [x])[..|xs|] == xs;
  }

  function LotUnits(l: OpenLot): int { if l.buy then l.qty else 0 - l.qty }

  ghost function LotValue(l: OpenLot): real { if l.buy then Times(l.qty, l.price) else -Times(l.qty, l.price) }

  /** Money still tied up in the first n lots: the cost of open buys less the value of open sales. */
  ghost function Tied(lots: seq<OpenLot>, n: nat): real
    requires n <= |lots|
  {
    if n == 0 then 0.0 else Tied(lots, n - 1) + LotValue(lots[n - 1])
  }

  /** Units held by the first n lots: open buys less open sales. */
  ghost function Units(lots: seq<OpenLot>, n: nat): int
    requires n <= |lots|
  {
    if n == 0 then 0 else Units(lots, n - 1) + LotUnits(lots[n - 1])
  }

  lemma {:induction false} SamePrefix(lots: seq<OpenLot>, more: seq<OpenLot>, n: nat)
    requires n <= |lots| && n <= |more| && forall i :: 0 <= i < n ==> lots[i] == more[i]
    ensures Tied(lots, n) == Tied(more, n) && Units(lots, n) == Units(more, n)
  {
    if n > 0 { SamePrefix(lots, more, n - 1); }
  }

  lemma AddLot(lots: seq<OpenLot>, l: OpenLot)
    ensures Tied(lots + [l], |lots| + 1) == Tied(lots, |lots|) + LotValue(l)
    ensures Units(lots + [l], |lots| + 1) == Units(lots, |lots|) + LotUnits(l)
  {
    SamePrefix(lots, lots + [l], |lots|);
  }

  /** Used-up buys come before every buy that still has units. */
  ghost predicate ExhaustedFirst(lots: seq<OpenLot>) {
    forall i, j :: 0 <= i < j < |lots| && lots[i].buy && lots[j].buy && lots[j].qty == 0 ==> lots[i].qty == 0
  }

  /** What selling may do to the lots: sales are left alone, buys only shrink, and a buy shrinks only when
      every earlier buy is used up. */
  ghost predicate ConsumedInOrder(before: seq<OpenLot>, after: seq<OpenLot>) {
    && |after| == |before|
    && (forall i :: 0 <= i < |before| ==>
          after[i].price == before[i].price && after[i].buy == before[i].buy && after[i].qty <= before[i].qty)
    && (forall i :: 0 <= i < |before| && !before[i].buy ==> after[i] == before[i])
    && (forall i, j :: 0 <= i < j < |before| && before[i].buy && after[j].qty < before[j].qty ==> after[i].qty == 0)
  }

  /** None of the first n lots is a buy with units left. */
  ghost predicate NoOpenBuys(lots: seq<OpenLot>, n: nat)
    requires n <= |lots|
  {
    forall i :: 0 <= i < n && lots[i].buy ==> lots[i].qty == 0
  }

  /** Units taken from the first n lots. */
  ghost function Taken(before: seq<OpenLot>, after: seq<OpenLot>, n: nat): int
    requires n <= |before| == |after|
  {
    if n == 0 then 0 else Taken(before, after, n - 1) + before[n - 1].qty - after[n - 1].qty
  }

  /** Profit on the units taken from the first n lots when they are sold at `price`. */
  ghost function Gain(before: seq<OpenLot>, after: seq<OpenLot>, price: real, n: nat): real
    requires n <= |before| == |after|
  {
    if n == 0 then 0.0
    else Gain(before, after, price, n - 1) + GainAt(before[n - 1].qty - after[n - 1].qty, price, before[n - 1].price)
  }

  /** What units sold at a price fetch, less what they cost. */
  ghost function GainAt(taken: int, price: real, cost: real): real { Times(taken, price) - Times(taken, cost) }

  method Profit(taken: int, price: real, cost: real) returns (pnl: real)
    ensures pnl == GainAt(taken, price, cost)
  {
    TimesIsProduct(taken, price);
    TimesIsProduct(taken, cost);
    Spread(taken as real, price, cost);
    pnl := taken as real * (price - cost);
  }

  lemma Spread(k: real, price: real, cost: real)
    ensures k * (price - cost) == k * price - k * cost
  {
  }

  lemma {:induction false} PrefixOnly(before: seq<OpenLot>, after: seq<OpenLot>, i: nat, l: OpenLot, price: real, n: nat)
    requires n <= i < |before| == |after|
    ensures Taken(before, after[i := l], n) == Taken(before, after, n)
    ensures Gain(before, after[i := l], price, n) == Gain(before, after, price, n)
  {
    if n > 0 { PrefixOnly(before, after, i, l, price, n - 1); }
  }

  lemma {:induction false} UntouchedTail(before: seq<OpenLot>, after: seq<OpenLot>, price: real, i: nat, n: nat)
    requires i <= n <= |before| == |after|
    requires forall k :: i <= k < n ==> after[k] == before[k]
    ensures Taken(before, after, n) == Taken(before, after, i)
    ensures Gain(before, after, price, n) == Gain(before, after, price, i)
  {
    if n > i {
      UntouchedTail(before, after, price, i, n - 1);
      assert GainAt(0, price, before[n - 1].price) == 0.0;
    }
  }

  ghost predicate SameLots(before: seq<OpenLot>, after: seq<OpenLot>) {
    && |after| == |before|
    && forall i :: 0 <= i < |before| ==> SameLot(before[i], after[i])
  }

  ghost predicate SameLot(b: OpenLot, a: OpenLot) {
    a.price == b.price && a.buy == b.buy && (!b.buy ==> a == b)
  }

  /** Taking units from buys moves money and units as the sale says. */
  lemma {:induction false} SaleIsAccounted(before: seq<OpenLot>, after: seq<OpenLot>, price: real, n: nat)
    requires SameLots(before, after) && n <= |before|
    ensures Units(after, n) == Units(before, n) - Taken(before, after, n)
    ensures Gain(before, after, price, n) == Times(Taken(before, after, n), price) - (Tied(before, n) - Tied(after, n))
  {
    if n > 0 {
      SaleIsAccounted(before, after, price, n - 1);
      assert SameLot(before[n - 1], after[n - 1]);
      OneSale(before[n - 1], after[n - 1], price, Taken(before, after, n - 1));
    }
  }

  lemma OneSale(b: OpenLot, a: OpenLot, price: real, soldBefore: int)
    requires SameLot(b, a)
    ensures LotUnits(a) == LotUnits(b) - (b.qty - a.qty)
    ensures GainAt(b.qty - a.qty, price, b.price) + Times(soldBefore, price)
            == Times(soldBefore + (b.qty - a.qty), price) - (LotValue(b) - LotValue(a))
  {
    var k: int := b.qty - a.qty;
    TimesAdds(soldBefore, k, price);
    TimesAdds(a.qty, k, b.price);
  }

  /** The state of the matching loop before lot i: buys before i are used up, lots from i on are untouched. */
  ghost predicate MatchedUpTo(before: seq<OpenLot>, after: seq<OpenLot>, i: nat) {
    && ConsumedInOrder(before, after) && i <= |before|
    && (forall k :: i <= k < |before| ==> after[k] == before[k])
    && NoOpenBuys(after, i)
  }

  lemma TakeStep(before: seq<OpenLot>, after: seq<OpenLot>, i: nat, take: nat, price: real)
    requires MatchedUpTo(before, after, i) && i < |before| && before[i].buy && take <= before[i].qty
    ensures var next := after[i := before[i].(qty := before[i].qty - take)];
            && ConsumedInOrder(before, next)
            && Taken(before, next, i + 1) == Taken(before, after, i) + take
            && Gain(before, next, price, i + 1) == Gain(before, after, price, i) + GainAt(take, price, before[i].price)
            && Taken(before, next, |before|) == Taken(before, next, i + 1)
            && Gain(before, next, price, |before|) == Gain(before, next, price, i + 1)
            && (take == before[i].qty ==> MatchedUpTo(before, next, i + 1))
  {
    var next := after[i := before[i].(qty := before[i].qty - take)];
    PrefixOnly(before, after, i, next[i], price, i);
    UntouchedTail(before, next, price, i + 1, |before|);
  }

  lemma SkipStep(before: seq<OpenLot>, after: seq<OpenLot>, i: nat, price: real)
    requires MatchedUpTo(before, after, i) && i < |before| && !(before[i].buy && before[i].qty > 0)
    ensures MatchedUpTo(before, after, i + 1)
    ensures Taken(before, after, i + 1) == Taken(before, after, i)
    ensures Gain(before, after, price, i + 1) == Gain(before, after, price, i)
  {
    UntouchedTail(before, after, price, i, i + 1);
  }

  /** The matching loop before lot i: what was taken and earned so far is what the lots lost. */
  ghost predicate Matching(lots: seq<OpenLot>, after: seq<OpenLot>, pnls: seq<real>, price: real, qty: nat, remaining: nat, i: nat) {
    && MatchedUpTo(lots, after, i)
    && Matched(lots, after, pnls, price, qty, remaining, i)
    && (pnls == [] <==> NoOpenBuys(lots, i))
  }

  ghost predicate Matched(lots: seq<OpenLot>, after: seq<OpenLot>, pnls: seq<real>, price: real, qty: nat, remaining: nat, n: nat)
    requires n <= |lots| == |after|
  {
    Taken(lots, after, n) == qty - remaining && Sum(pnls) == Gain(lots, after, price, n)
  }

  lemma MatchOne(lots: seq<OpenLot>, after: seq<OpenLot>, pnls: seq<real>, price: real, qty: nat, remaining: nat, i: nat,
                 take: nat, pnl: real)
    requires Matching(lots, after, pnls, price, qty, remaining, i) && i < |lots| && lots[i].buy && lots[i].qty > 0
    requires take == Min(remaining, lots[i].qty) && pnl == GainAt(take, price, lots[i].price)
    ensures var next := after[i := lots[i].(qty := lots[i].qty - take)];
            && ConsumedInOrder(lots, next)
            && Matched(lots, next, pnls + [pnl], price, qty, remaining - take, |lots|)
            && (take < remaining ==> Matching(lots, next, pnls + [pnl], price, qty, remaining - take, i + 1))
            && !NoOpenBuys(lots, |lots|)
  {
    AppendOne(pnls, pnl);
    TakeStep(lots, after, i, take, price);
  }

  /** One sale against the open lots of its symbol. */
  method MatchSale(lots: seq<OpenLot>, price: real, qty: nat) returns (after: seq<OpenLot>, pnls: seq<real>, remaining: nat)
    ensures ConsumedInOrder(lots, after)
    ensures Taken(lots, after, |lots|) == qty - remaining
    ensures Sum(pnls) == Gain(lots, after, price, |lots|)
    ensures remaining > 0 ==> NoOpenBuys(after, |after|)
    ensures pnls == [] <==> NoOpenBuys(lots, |lots|)
  {
    after, pnls, remaining := lots, [], qty;
    var i := 0;
    while i < |lots|
      invariant Matching(lots, after, pnls, price, qty, remaining, i)
      invariant pnls != [] ==> remaining > 0
    {
      var pos := lots[i];
      if pos.buy && pos.qty > 0 {
        var closeQty := Min(remaining, pos.qty);
        var pnl := Profit(closeQty, price, pos.price);
        MatchOne(lots, after, pnls, price, qty, remaining, i, closeQty, pnl);
        pnls := pnls + [pnl];
        after := after[i := pos.(qty := pos.qty - closeQty)];
        remaining := remaining - closeQty;
        if remaining == 0 {
          return;
        }
      } else {
        SkipStep(lots, after, i, price);
      }
      i := i + 1;
    }
  }

  type Book = OrderedDict<string, seq<OpenLot>>

  /** Money tied up in the lots of the first n symbols. */
  ghost function TiedTotal(book: Book, n: nat): real
    requires book.Valid() && n <= |book.order|
  {
    if n == 0 then 0.0
    else var lots := book.entries[book.order[n - 1]]; TiedTotal(book, n - 1) + Tied(lots, |lots|)
  }

  ghost function TiedIn(book: Book, symbol: string): real {
    if symbol in book.entries then Tied(book.entries[symbol], |book.entries[symbol]|) else 0.0
  }

  ghost function Holds(book: Book, symbol: string): int {
    if symbol in book.entries then Units(book.entries[symbol], |book.entries[symbol]|) else 0
  }

  lemma {:induction false} ReplaceLots(book: Book, book': Book, symbol: string, lots: seq<OpenLot>, n: nat)
    requires book.Valid() && symbol in book.entries
    requires book'.Valid() && book' == book.Put(symbol, lots)
    requires n <= |book.order|
    ensures TiedTotal(book', n) == TiedTotal(book, n)
            + if symbol in book.order[..n] then Tied(lots, |lots|) - TiedIn(book, symbol) else 0.0
  {
    if n > 0 {
      ReplaceLots(book, book', symbol, lots, n - 1);
      assert book.order[..n] == book.order[..n - 1] + [book.order[n - 1]];
    }
  }

  lemma {:induction false} FirstSymbols(book: Book, book': Book, n: nat)
    requires book.Valid() && book'.Valid() && n <= |book.order| && n <= |book'.order|
    requires forall i :: 0 <= i < n ==>
      book'.order[i] == book.order[i] && book'.entries[book'.order[i]] == book.entries[book.order[i]]
    ensures TiedTotal(book', n) == TiedTotal(book, n)
  {
    if n > 0 { FirstSymbols(book, book', n - 1); }
  }

  /** Giving a symbol new lots changes the money tied up by what that symbol changed. */
  lemma PutLots(book: Book, symbol: string, lots: seq<OpenLot>)
    requires book.Valid()
    ensures book.Put(symbol, lots).Valid()
    ensures TiedTotal(book.Put(symbol, lots), |book.Put(symbol, lots).order|)
            == TiedTotal(book, |book.order|) + Tied(lots, |lots|) - TiedIn(book, symbol)
  {
    book.PutKeepsOrder(symbol, lots);
    var book' := book.Put(symbol, lots);
    if symbol in book.entries {
      ReplaceLots(book, book', symbol, lots, |book.order|);
      assert book.order[..|book.order|] == book.order;
    } else {
      FirstSymbols(book, book', |book.order|);
    }
  }

  /** Cash taken in by sales less cash paid for buys over the first n trades. */
  ghost function NetCash(trades: seq<Trade>, n: nat): real
    requires n <= |trades|
  {
    if n == 0 then 0.0 else NetCash(trades, n - 1) + TradeCash(trades[n - 1])
  }

  ghost function TradeCash(t: Trade): real { if t.side == "BUY" then -Times(t.qty, t.price) else Times(t.qty, t.price) }

  function TradeUnits(t: Trade): int { if t.side == "BUY" then t.qty else 0 - t.qty }

  ghost function NetBought(trades: seq<Trade>, n: nat, symbol: string): int
    requires n <= |trades|
  {
    if n == 0 then 0
    else NetBought(trades, n - 1, symbol) + if trades[n - 1].symbol == symbol then TradeUnits(trades[n - 1]) else 0
  }

  /** No sale of a symbol comes after a buy of it. */
  ghost predicate SalesFirst(trades: seq<Trade>) {
    forall i, j :: 0 <= i < j < |trades| && IsBuy(trades[i]) && !IsBuy(trades[j]) ==> trades[i].symbol != trades[j].symbol
  }

  ghost predicate PositiveTrades(trades: seq<Trade>) {
    forall i :: 0 <= i < |trades| ==> trades[i].qty > 0
  }

  lemma ConsumingKeepsOrder(before: seq<OpenLot>, after: seq<OpenLot>)
    requires ConsumedInOrder(before, after) && ExhaustedFirst(before)
    ensures ExhaustedFirst(after)
  {
    forall i, j | 0 <= i < j < |after| && after[i].buy && after[j].buy && after[j].qty == 0 ensures after[i].qty == 0 {
      if before[j].qty == 0 { assert before[i].qty == 0; }
    }
  }

  ghost predicate OnlySales(lots: seq<OpenLot>) {
    forall i :: 0 <= i < |lots| ==> !lots[i].buy
  }

  ghost predicate OnlyBuys(lots: seq<OpenLot>) {
    forall i :: 0 <= i < |lots| ==> lots[i].buy
  }

  ghost predicate HasOpenBuy(lots: seq<OpenLot>) { !NoOpenBuys(lots, |lots|) }

  /** Bought lots that add up to nothing are all used up, and no money is tied up in them. */
  lemma {:induction false} UsedUpBuys(lots: seq<OpenLot>, n: nat)
    requires n <= |lots| && OnlyBuys(lots)
    ensures Units(lots, n) >= 0 && (NoOpenBuys(lots, n) ==> Units(lots, n) == 0)
    ensures Units(lots, n) == 0 ==> Tied(lots, n) == 0.0
  {
    if n > 0 { UsedUpBuys(lots, n - 1); }
  }

  /** The cash and the units of a trade are all found in its profits and the open lots. */
  ghost predicate Accounted(lots: seq<OpenLot>, t: Trade, after: seq<OpenLot>, pnls: seq<real>) {
    && Sum(pnls) - Tied(after, |after|) + Tied(lots, |lots|) == TradeCash(t)
    && Units(after, |after|) == Units(lots, |lots|) + TradeUnits(t)
  }

  /** What one more trade may do to the open lots of its symbol. */
  ghost predicate Entered(lots: seq<OpenLot>, t: Trade, after: seq<OpenLot>, pnls: seq<real>) {
    && Accounted(lots, t, after, pnls)
    && (t.qty > 0 && ExhaustedFirst(lots) ==> ExhaustedFirst(after))
    && (pnls == [] <==> IsBuy(t) || NoOpenBuys(lots, |lots|))
    && (!IsBuy(t) && OnlySales(lots) ==> OnlySales(after))
    && (IsBuy(t) && t.qty > 0 ==> HasOpenBuy(after))
    && (OnlyBuys(lots) && Units(after, |after|) >= 0 ==> OnlyBuys(after))
  }

  /** Filing the unmatched rest of a sale as an open sale balances the sale. */
  lemma RestBalances(mid: seq<OpenLot>, t: Trade, remaining: nat, after: seq<OpenLot>, gain: real, tied: real, units: int)
    requires !IsBuy(t)
    requires gain == Times(t.qty - remaining, t.price) - (tied - Tied(mid, |mid|))
    requires Units(mid, |mid|) == units - (t.qty - remaining)
    requires after == if remaining > 0 then mid + [OpenLot(remaining, t.price, false)] else mid
    ensures gain - Tied(after, |after|) + tied == TradeCash(t)
    ensures Units(after, |after|) == units + TradeUnits(t)
  {
    SaleCash(t, remaining);
    if remaining > 0 {
      AddLot(mid, OpenLot(remaining, t.price, false));
    }
  }

  /** The cash of a sale is that of the part matched plus that of the part left over. */
  lemma SaleCash(t: Trade, remaining: nat)
    requires !IsBuy(t)
    ensures Times(t.qty - remaining, t.price) + Times(remaining, t.price) == TradeCash(t)
    ensures LotValue(OpenLot(remaining, t.price, false)) == -Times(remaining, t.price)
  {
    TimesAdds(t.qty - remaining, remaining, t.price);
  }

  lemma BuyEnters(lots: seq<OpenLot>, t: Trade)
    requires IsBuy(t)
    ensures Entered(lots, t, lots + [OpenLot(t.qty, t.price, true)], [])
  {
    AddLot(lots, OpenLot(t.qty, t.price, true));
    var after := lots + [OpenLot(t.qty, t.price, true)];
    assert after[|lots|].buy && after[|lots|].qty == t.qty;
  }

  lemma OrderAfterSale(lots: seq<OpenLot>, mid: seq<OpenLot>, rest: seq<OpenLot>)
    requires ConsumedInOrder(lots, mid) && OnlySales(rest)
    ensures ExhaustedFirst(lots) ==> ExhaustedFirst(mid + rest)
    ensures OnlySales(lots) ==> OnlySales(mid + rest)
  {
    if ExhaustedFirst(lots) { ConsumingKeepsOrder(lots, mid); }
  }

  lemma SaleIsBalanced(lots: seq<OpenLot>, mid: seq<OpenLot>, t: Trade, remaining: nat, pnls: seq<real>, rest: seq<OpenLot>)
    requires !IsBuy(t) && ConsumedInOrder(lots, mid)
    requires Taken(lots, mid, |lots|) == t.qty - remaining
    requires Sum(pnls) == Gain(lots, mid, t.price, |lots|)
    requires rest == if remaining > 0 then [OpenLot(remaining, t.price, false)] else []
    ensures Accounted(lots, t, mid + rest, pnls)
  {
    SaleIsAccounted(lots, mid, t.price, |lots|);
    assert remaining == 0 ==> mid + rest == mid;
    RestBalances(mid, t, remaining, mid + rest, Sum(pnls), Tied(lots, |lots|), Units(lots, |lots|));
  }

  lemma SaleEnters(lots: seq<OpenLot>, mid: seq<OpenLot>, t: Trade, remaining: nat, pnls: seq<real>, rest: seq<OpenLot>)
    requires !IsBuy(t) && ConsumedInOrder(lots, mid)
    requires Accounted(lots, t, mid + rest, pnls)
    requires pnls == [] <==> NoOpenBuys(lots, |lots|)
    requires remaining > 0 ==> NoOpenBuys(mid, |mid|)
    requires rest == if remaining > 0 then [OpenLot(remaining, t.price, false)] else []
    ensures Entered(lots, t, mid + rest, pnls)
  {
    OrderAfterSale(lots, mid, rest);
    if OnlyBuys(lots) { CoveredSale(mid, remaining, t.price, rest); }
  }

  /** A sale of no more than is held leaves nothing over. */
  lemma CoveredSale(mid: seq<OpenLot>, remaining: nat, price: real, rest: seq<OpenLot>)
    requires OnlyBuys(mid) && (remaining > 0 ==> NoOpenBuys(mid, |mid|))
    requires rest == if remaining > 0 then [OpenLot(remaining, price, false)] else []
    ensures Units(mid + rest, |mid + rest|) >= 0 ==> OnlyBuys(mid + rest)
  {
    UsedUpBuys(mid, |mid|);
    if remaining > 0 {
      AddLot(mid, OpenLot(remaining, price, false));
    } else {
      assert mid + rest == mid;
    }
  }

  method Enter(lots: seq<OpenLot>, t: Trade) returns (after: seq<OpenLot>, pnls: seq<real>)
    ensures Entered(lots, t, after, pnls)
  {
    if IsBuy(t) {
      after, pnls := lots + [OpenLot(t.qty, t.price, true)], [];
      BuyEnters(lots, t);
    } else {
      var mid, remaining;
      mid, pnls, remaining := MatchSale(lots, t.price, t.qty);
      ghost var rest := if remaining > 0 then [OpenLot(remaining, t.price, false)] else [];
      SaleIsBalanced(lots, mid, t, remaining, pnls, rest);
      SaleEnters(lots, mid, t, remaining, pnls, rest);
      after := if remaining > 0 then mid + [OpenLot(remaining, t.price, false)] else mid;
      assert after == mid + rest;
    }
  }

  function LotsOf(book: Book, symbol: string): seq<OpenLot> {
    if symbol in book.entries then book.entries[symbol] else []
  }

  ghost predicate Bought(trades: seq<Trade>, n: nat, symbol: string)
    requires n <= |trades|
  {
    exists j :: 0 <= j < n && IsBuy(trades[j]) && trades[j].symbol == symbol
  }

  /** The book after the first n trades: money and units add up, used-up buys come first, and a symbol
      nobody bought has only open sales. */
  ghost predicate Balanced(trades: seq<Trade>, n: nat, pnls: seq<real>, book: Book)
    requires n <= |trades|
  {
    && book.Valid()
    && NetCash(trades, n) == Sum(pnls) - TiedTotal(book, |book.order|)
    && (forall s :: NetBought(trades, n, s) == Holds(book, s))
    && Ordered(trades, n, book)
    && (SalesFirst(trades) ==> pnls == [])
  }

  ghost predicate Ordered(trades: seq<Trade>, n: nat, book: Book)
    requires n <= |trades|
  {
    && (PositiveTrades(trades) ==> forall s :: ExhaustedFirst(LotsOf(book, s)))
    && (forall s :: Bought(trades, n, s) || OnlySales(LotsOf(book, s)))
  }

  lemma EnterKeepsOrdered(trades: seq<Trade>, n: nat, book: Book, after: seq<OpenLot>)
    requires n < |trades| && Ordered(trades, n, book)
    requires var t, lots := trades[n], LotsOf(book, trades[n].symbol);
             && (t.qty > 0 && ExhaustedFirst(lots) ==> ExhaustedFirst(after))
             && (!IsBuy(t) && OnlySales(lots) ==> OnlySales(after))
    ensures Ordered(trades, n + 1, book.Put(trades[n].symbol, after))
  {
    var t := trades[n];
    var book' := book.Put(t.symbol, after);
    forall s ensures PositiveTrades(trades) ==> ExhaustedFirst(LotsOf(book', s)) {
      assert PositiveTrades(trades) ==> ExhaustedFirst(LotsOf(book, s));
    }
    forall s ensures Bought(trades, n + 1, s) || OnlySales(LotsOf(book', s)) {
      assert Bought(trades, n, s) || OnlySales(LotsOf(book, s));
      if Bought(trades, n, s) {
        var j :| 0 <= j < n && IsBuy(trades[j]) && trades[j].symbol == s;
        assert Bought(trades, n + 1, s);
      }
    }
  }

  lemma EnterKeepsBalance(trades: seq<Trade>, n: nat, pnls: seq<real>, book: Book, after: seq<OpenLot>, more: seq<real>)
    requires n < |trades| && Balanced(trades, n, pnls, book)
    requires Entered(LotsOf(book, trades[n].symbol), trades[n], after, more)
    ensures Balanced(trades, n + 1, pnls + more, book.Put(trades[n].symbol, after))
  {
    var t := trades[n];
    SumConcat(pnls, more);
    PutLots(book, t.symbol, after);
    EnterKeepsOrdered(trades, n, book, after);
    if SalesFirst(trades) {
      if !IsBuy(t) {
        assert !Bought(trades, n, t.symbol);
        assert OnlySales(LotsOf(book, t.symbol));
      }
      assert pnls + more == [];
    }
    var book' := book.Put(t.symbol, after);
    forall s ensures NetBought(trades, n + 1, s) == Holds(book', s) {
      assert NetBought(trades, n, s) == Holds(book, s);
    }
  }

  /** While nothing has been reported, every symbol bought still has an open buy, and no sale came after one. */
  ghost predicate Unreported(trades: seq<Trade>, n: nat, pnls: seq<real>, book: Book)
    requires n <= |trades|
  {
    PositiveTrades(trades) && pnls == [] ==>
      SalesFirst(trades[..n]) && forall s :: Bought(trades, n, s) ==> HasOpenBuy(LotsOf(book, s))
  }

  lemma EnterUnreported(trades: seq<Trade>, n: nat, pnls: seq<real>, book: Book, after: seq<OpenLot>, more: seq<real>)
    requires n < |trades| && Unreported(trades, n, pnls, book)
    requires Entered(LotsOf(book, trades[n].symbol), trades[n], after, more)
    ensures Unreported(trades, n + 1, pnls + more, book.Put(trades[n].symbol, after))
  {
    var t := trades[n];
    var book' := book.Put(t.symbol, after);
    assert trades[..n + 1] == trades[..n] + [t];
    if PositiveTrades(trades) && pnls + more == [] {
      assert pnls == [] && more == [];
      if !IsBuy(t) { assert !Bought(trades, n, t.symbol); }
      forall i, j | 0 <= i < j < n + 1 && IsBuy(trades[i]) && !IsBuy(trades[j]) ensures trades[i].symbol != trades[j].symbol {
        if j == n {
          assert !(IsBuy(trades[i]) && trades[i].symbol == t.symbol);
        } else {
          assert trades[..n][i] == trades[i] && trades[..n][j] == trades[j];
        }
      }
      forall s | Bought(trades, n + 1, s) ensures HasOpenBuy(LotsOf(book', s)) {
        var j :| 0 <= j < n + 1 && IsBuy(trades[j]) && trades[j].symbol == s;
        if j < n { assert Bought(trades, n, s); }
      }
    }
  }

  /** No symbol is ever sold beyond what was bought before. */
  ghost predicate NeverShort(trades: seq<Trade>) {
    forall n, s :: 0 <= n <= |trades| ==> NetBought(trades, n, s) >= 0
  }

  ghost predicate EndsFlat(trades: seq<Trade>) { forall s :: NetBought(trades, |trades|, s) == 0 }

  ghost predicate LongOnly(trades: seq<Trade>, book: Book) {
    NeverShort(trades) ==> forall s :: OnlyBuys(LotsOf(book, s))
  }

  lemma EnterLongOnly(trades: seq<Trade>, n: nat, pnls: seq<real>, book: Book, after: seq<OpenLot>, more: seq<real>)
    requires n < |trades| && Balanced(trades, n, pnls, book) && LongOnly(trades, book)
    requires Entered(LotsOf(book, trades[n].symbol), trades[n], after, more)
    ensures LongOnly(trades, book.Put(trades[n].symbol, after))
  {
    var t := trades[n];
    var lots := LotsOf(book, t.symbol);
    if NeverShort(trades) {
      var m := n + 1;
      assert NetBought(trades, n, t.symbol) == Holds(book, t.symbol) == Units(lots, |lots|);
      assert NetBought(trades, m, t.symbol) >= 0;
      assert NetBought(trades, m, t.symbol) == Units(after, |after|);
      forall s ensures OnlyBuys(LotsOf(book.Put(t.symbol, after), s)) {
        assert OnlyBuys(LotsOf(book, s));
      }
    }
  }

  lemma {:induction false} NothingTied(book: Book, n: nat)
    requires book.Valid() && n <= |book.order|
    requires forall s :: OnlyBuys(LotsOf(book, s)) && Holds(book, s) == 0
    ensures TiedTotal(book, n) == 0.0
  {
    if n > 0 {
      NothingTied(book, n - 1);
      var s := book.order[n - 1];
      assert OnlyBuys(LotsOf(book, s)) && Holds(book, s) == 0;
      UsedUpBuys(book.entries[s], |book.entries[s]|);
    }
  }

  lemma FlatMeansReported(trades: seq<Trade>, pnls: seq<real>, book: Book)
    requires Balanced(trades, |trades|, pnls, book) && LongOnly(trades, book) && NeverShort(trades) && EndsFlat(trades)
    ensures Sum(pnls) == NetCash(trades, |trades|)
  {
    forall s ensures OnlyBuys(LotsOf(book, s)) && Holds(book, s) == 0 {
      assert NetBought(trades, |trades|, s) == Holds(book, s);
    }
    NothingTied(book, |book.order|);
  }

  /** Matches all trades. Nothing is lost: the cash of all trades is the profit reported plus what is still
      tied up in open lots, and the units bought are the units still held, symbol by symbol. Nothing at all is
      reported exactly when no sale of a symbol follows a buy of it; and trades that never sell what was not bought and
      end with everything sold are reported in full. */
  method ComputeTradePnls(trades: seq<Trade>) returns (pnls: seq<real>, ghost book: Book)
    ensures book.Valid()
    ensures NetCash(trades, |trades|) == Sum(pnls) - TiedTotal(book, |book.order|)
    ensures forall s :: NetBought(trades, |trades|, s) == Holds(book, s)
    ensures PositiveTrades(trades) ==> forall s :: ExhaustedFirst(LotsOf(book, s))
    ensures SalesFirst(trades) ==> pnls == []
    ensures PositiveTrades(trades) ==> (pnls == [] <==> SalesFirst(trades))
    ensures NeverShort(trades) && EndsFlat(trades) ==> Sum(pnls) == NetCash(trades, |trades|)
  {
    pnls := [];
    var positions: Book := OrderedDict([], map[]);
    var i := 0;
    while i < |trades|
      invariant i <= |trades|
      invariant Balanced(trades, i, pnls, positions) && Unreported(trades, i, pnls, positions) && LongOnly(trades, positions)
    {
      var t := trades[i];
      var after, more := Enter(LotsOf(positions, t.symbol), t);
      EnterKeepsBalance(trades, i, pnls, positions, after, more);
      EnterUnreported(trades, i, pnls, positions, after, more);
      EnterLongOnly(trades, i, pnls, positions, after, more);
      pnls := pnls + more;
      positions := positions.Put(t.symbol, after);
      i := i + 1;
    }
    book := positions;
    assert trades[..i] == trades;
    if NeverShort(trades) && EndsFlat(trades) { FlatMeansReported(trades, pnls, book); }
  }
}
