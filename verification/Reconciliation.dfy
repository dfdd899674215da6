/** End-of-day reconciliation of the internal book with the broker, and sums over the keys of the book. */
module Reconciliation {
  import opened Collections
  import opened Ledger
  import opened Positions

  datatype NetEntry = NetEntry(symbol: string, quantity: int)

  datatype Discrepancy = Discrepancy(symbol: string, brokerQty: int, internalQty: int, difference: int)

  datatype Verdict = Agreed | Mismatch(discrepancies: seq<Discrepancy>)

  /** The broker's quantity of a symbol: its last entry that is not flat. */
  ghost function BrokerQty(net: seq<NetEntry>, symbol: string): int {
    if net == [] then 0
    else
      var last := net[|net| - 1];
      if last.symbol == symbol && last.quantity != 0 then last.quantity else BrokerQty(net[..|net| - 1], symbol)
  }

  /** The internal quantity of a symbol, summed over strategies. */
  ghost function InternalQty(list: seq<Position>, symbol: string): int {
    if list == [] then 0
    else
      var last := list[|list| - 1];
      InternalQty(list[..|list| - 1], symbol) + if last.symbol == symbol then last.quantity else 0
  }

  ghost predicate BooksAgree(net: seq<NetEntry>, open: seq<Position>) {
    forall s :: BrokerQty(net, s) == InternalQty(open, s)
  }

  function Lookup(m: map<string, int>, s: string): int { if s in m then m[s] else 0 }

  /** A book as a function from symbols to quantities. */
  ghost function MapBook(m: map<string, int>): string -> int { s => Lookup(m, s) }

  ghost function BrokerBook(net: seq<NetEntry>): string -> int { s => BrokerQty(net, s) }

  ghost function InternalBook(open: seq<Position>): string -> int { s => InternalQty(open, s) }

  method BrokerMap(net: seq<NetEntry>) returns (m: map<string, int>)
    ensures forall s :: Lookup(m, s) == BrokerQty(net, s)
  {
    m := map[];
    var i := 0;
    while i < |net|
      invariant 0 <= i <= |net|
      invariant forall s :: Lookup(m, s) == BrokerQty(net[..i], s)
    {
      assert net[..i + 1][..i] == net[..i];
      if net[i].quantity != 0 {
        m := m[net[i].symbol := net[i].quantity];
      }
      i := i + 1;
    }
    assert net[..i] == net;
  }

  method InternalMap(list: seq<Position>) returns (m: map<string, int>)
    ensures forall s :: Lookup(m, s) == InternalQty(list, s)
  {
    m := map[];
    var i := 0;
    while i < |list|
      invariant 0 <= i <= |list|
      invariant forall s :: Lookup(m, s) == InternalQty(list[..i], s)
    {
      assert list[..i + 1][..i] == list[..i];
      if list[i].quantity != 0 {
        m := m[list[i].symbol := Lookup(m, list[i].symbol) + list[i].quantity];
      }
      i := i + 1;
    }
    assert list[..i] == list;
  }

  /** The list reports every symbol on which two books differ, once and with the right figures, and nothing else. */
  ghost predicate ReportsExactly(ds: seq<Discrepancy>, broker: string -> int, internal: string -> int) {
    && (forall i :: 0 <= i < |ds| ==> Correct(ds[i], broker, internal))
    && (forall s :: broker(s) != internal(s) ==> Mentions(ds, s))
    && (forall i, j :: 0 <= i < j < |ds| ==> ds[i].symbol != ds[j].symbol)
  }

  ghost predicate Correct(d: Discrepancy, broker: string -> int, internal: string -> int) {
    var b, q := broker(d.symbol), internal(d.symbol);
    b != q && d == Discrepancy(d.symbol, b, q, b - q)
  }

  ghost predicate Mentions(ds: seq<Discrepancy>, s: string) {
    exists i :: 0 <= i < |ds| && ds[i].symbol == s
  }

  lemma MentionsGrow(ds: seq<Discrepancy>, d: Discrepancy, s: string)
    ensures Mentions(ds + [d], s) <==> Mentions(ds, s) || d.symbol == s
  {
    var more := ds + [d];
    if Mentions(ds, s) {
      var i :| 0 <= i < |ds| && ds[i].symbol == s;
      assert more[i].symbol == s;
    }
    if d.symbol == s { assert more[|ds|].symbol == s; }
  }

  /** Every disagreement outside `rest` is reported exactly once, and none inside it yet. */
  ghost predicate ReportedBut(ds: seq<Discrepancy>, b: string -> int, q: string -> int, rest: set<string>) {
    && (forall i :: 0 <= i < |ds| ==> Correct(ds[i], b, q))
    && (forall s :: s in rest ==> !Mentions(ds, s))
    && (forall s :: s !in rest && b(s) != q(s) ==> Mentions(ds, s))
    && (forall i, j :: 0 <= i < j < |ds| ==> ds[i].symbol != ds[j].symbol)
  }

  lemma ReportOne(ds: seq<Discrepancy>, d: Discrepancy, b: string -> int, q: string -> int, rest: set<string>)
    requires ReportedBut(ds, b, q, rest) && d.symbol in rest
    requires d == Discrepancy(d.symbol, b(d.symbol), q(d.symbol), b(d.symbol) - q(d.symbol))
    ensures ReportedBut(if b(d.symbol) != q(d.symbol) then ds + [d] else ds, b, q, rest - {d.symbol})
  {
    if b(d.symbol) != q(d.symbol) {
      forall s ensures Mentions(ds + [d], s) <==> Mentions(ds, s) || d.symbol == s { MentionsGrow(ds, d, s); }
      assert !Mentions(ds, d.symbol);
      forall i, j | 0 <= i < j < |ds + [d]| ensures (ds + [d])[i].symbol != (ds + [d])[j].symbol {
        if j == |ds| { assert ds[i].symbol != d.symbol; }
      }
    }
  }

  method Compare(brokerMap: map<string, int>, internalMap: map<string, int>) returns (ds: seq<Discrepancy>)
    ensures ReportsExactly(ds, MapBook(brokerMap), MapBook(internalMap))
  {
    ds := [];
    var rest := brokerMap.Keys + internalMap.Keys;
    while rest != {}
      invariant rest <= brokerMap.Keys + internalMap.Keys
      invariant ReportedBut(ds, MapBook(brokerMap), MapBook(internalMap), rest)
      decreases rest
    {
      var symbol :| symbol in rest;
      var brokerQty := Lookup(brokerMap, symbol);
      var internalQty := Lookup(internalMap, symbol);
      var d := Discrepancy(symbol, brokerQty, internalQty, brokerQty - internalQty);
      ReportOne(ds, d, MapBook(brokerMap), MapBook(internalMap), rest);
      if brokerQty != internalQty {
        ds := ds + [d];
      }
      rest := rest - {symbol};
    }

  }

  /** Reports the differing symbols exactly; an unusable broker answer is an error, not an agreement. */
  method Reconcile(net: Option<seq<NetEntry>>, open: seq<Position>) returns (r: Result<Verdict, string>)
    ensures r.Err? <==> net.None?
    ensures net.Some? ==> (r.value.Agreed? <==> BooksAgree(net.value, open))
    ensures net.Some? && r.value.Mismatch? ==>
              ReportsExactly(r.value.discrepancies, BrokerBook(net.value), InternalBook(open))
  {
    if net.None? {
      return Err("Broker returned invalid position data");
    }
    var brokerMap := BrokerMap(net.value);
    var internalMap := InternalMap(open);
    var discrepancies := Compare(brokerMap, internalMap);
    ghost var b, q := BrokerBook(net.value), InternalBook(open);
    ghost var lb, lq := MapBook(brokerMap), MapBook(internalMap);
    forall s ensures lb(s) == b(s) && lq(s) == q(s) {
    }
    forall i | 0 <= i < |discrepancies| ensures Correct(discrepancies[i], b, q) {
      assert Correct(discrepancies[i], lb, lq);
    }
    if |discrepancies| > 0 {
      assert Correct(discrepancies[0], b, q);
      assert BrokerQty(net.value, discrepancies[0].symbol) != InternalQty(open, discrepancies[0].symbol);
      r := Ok(Mismatch(discrepancies));
    } else {
      forall s ensures BrokerQty(net.value, s) == InternalQty(open, s) {
        assert !Mentions(discrepancies, s);
        assert lb(s) == lq(s);
      }
      r := Ok(Agreed);
    }
  }

  // ---- Sums over the keys of the internal book ----

  ghost function KeySum(keys: seq<Key>, g: Key -> real): real {
    if keys == [] then 0.0 else KeySum(keys[..|keys| - 1], g) + g(keys[|keys| - 1])
  }

  lemma {:induction false} KeySumSame(keys: seq<Key>, g: Key -> real, h: Key -> real)
    requires forall k :: k in keys ==> g(k) == h(k)
    ensures KeySum(keys, g) == KeySum(keys, h)
  {
    if keys != [] { KeySumSame(keys[..|keys| - 1], g, h); }
  }

  lemma {:induction false} KeySumBump(keys: seq<Key>, g: Key -> real, h: Key -> real, key: Key, d: real)
    requires Distinct(keys) && key in keys
    requires forall k :: k in keys ==> h(k) == if k == key then g(k) + d else g(k)
    ensures KeySum(keys, h) == KeySum(keys, g) + d
  {
    var last, rest := keys[|keys| - 1], keys[..|keys| - 1];
    if last == key {
      assert key !in rest;
      KeySumSame(rest, g, h);
    } else {
      KeySumBump(rest, g, h, key, d);
    }
  }

  lemma {:induction false} KeySumAdds(keys: seq<Key>, f: Key -> real, g: Key -> real, h: Key -> real)
    requires forall k :: k in keys ==> f(k) == g(k) + h(k)
    ensures KeySum(keys, f) == KeySum(keys, g) + KeySum(keys, h)
  {
    if keys != [] { KeySumAdds(keys[..|keys| - 1], f, g, h); }
  }

  lemma {:induction false} KeySumZeroTail(keys: seq<Key>, more: seq<Key>, g: Key -> real)
    requires forall k :: k in more ==> g(k) == 0.0
    ensures KeySum(keys + more, g) == KeySum(keys, g)
  {
    if more == [] {
      assert keys + more == keys;
    } else {
      var rest := more[..|more| - 1];
      assert (keys + more)[..|keys + more| - 1] == keys + rest;
      KeySumZeroTail(keys, rest, g);
    }
  }

  /** The total of some measure of a fill (its quantity, its cash) over a sequence of fills. */
  ghost function LotTotal(lots: seq<Lot>, w: Lot -> real): real {
    if lots == [] then 0.0 else LotTotal(lots[..|lots| - 1], w) + w(lots[|lots| - 1])
  }

  /** The total over the fills of certain keys. */
  ghost function FillTotal(history: seq<Fill>, on: Key -> bool, w: Lot -> real): real {
    if history == [] then 0.0
    else
      var last := history[|history| - 1];
      FillTotal(history[..|history| - 1], on, w) + if on((last.strategy, last.token)) then w(ToLot(last)) else 0.0
  }

  ghost function SymbolTotal(history: seq<Fill>, symbol: string, w: Lot -> real): real {
    if history == [] then 0.0
    else
      var last := history[|history| - 1];
      SymbolTotal(history[..|history| - 1], symbol, w) + if last.symbol == symbol then w(ToLot(last)) else 0.0
  }

  /** What each of these keys contributes to a total. */
  ghost function ShareOf(history: seq<Fill>, on: Key -> bool, w: Lot -> real): Key -> real {
    (k: Key) => if on(k) then LotTotal(KeyLots(history, k), w) else 0.0
  }

  ghost function KeyShare(history: seq<Fill>, symbolOf: int -> string, symbol: string, w: Lot -> real): Key -> real {
    ShareOf(history, OnSymbol(symbolOf, symbol), w)
  }

  ghost function OnSymbol(symbolOf: int -> string, symbol: string): Key -> bool { (k: Key) => symbolOf(k.1) == symbol }

  ghost predicate Covers(keys: seq<Key>, history: seq<Fill>) {
    forall i :: 0 <= i < |history| ==> (history[i].strategy, history[i].token) in keys
  }

  /** Summing a measure key by key, or fill by fill, gives the same total. */
  lemma {:induction false} ByKeyIsByFill(keys: seq<Key>, history: seq<Fill>, on: Key -> bool, w: Lot -> real)
    requires Distinct(keys) && Covers(keys, history)
    ensures KeySum(keys, ShareOf(history, on, w)) == FillTotal(history, on, w)
  {
    if history == [] {
      KeySumZeroTail([], keys, ShareOf(history, on, w));
      assert [] + keys == keys;
    } else {
      var past, last := history[..|history| - 1], history[|history| - 1];
      var key := (last.strategy, last.token);
      ByKeyIsByFill(keys, past, on, w);
      var g, h := ShareOf(past, on, w), ShareOf(history, on, w);
      var lots := KeyLots(past, key) + [ToLot(last)];
      assert lots[..|lots| - 1] == KeyLots(past, key);
      KeySumBump(keys, g, h, key, if on(key) then w(ToLot(last)) else 0.0);
    }
  }

  lemma {:induction false} FillsOfSymbol(history: seq<Fill>, symbolOf: int -> string, symbol: string, w: Lot -> real)
    requires NamedFills(history, symbolOf)
    ensures FillTotal(history, OnSymbol(symbolOf, symbol), w) == SymbolTotal(history, symbol, w)
  {
    if history != [] { FillsOfSymbol(history[..|history| - 1], symbolOf, symbol, w); }
  }

  /** Summing a measure key by key, or fill by fill, gives the same total for every symbol. */
  lemma ByKeyIsBySymbol(keys: seq<Key>, history: seq<Fill>, symbolOf: int -> string, symbol: string, w: Lot -> real)
    requires Distinct(keys) && Covers(keys, history) && NamedFills(history, symbolOf)
    ensures KeySum(keys, KeyShare(history, symbolOf, symbol, w)) == SymbolTotal(history, symbol, w)
  {
    ByKeyIsByFill(keys, history, OnSymbol(symbolOf, symbol), w);
    FillsOfSymbol(history, symbolOf, symbol, w);
  }

  /** A sum needs only the keys that contribute. */
  lemma {:induction false} KeySumSupport(keys: seq<Key>, some: seq<Key>, g: Key -> real)
    requires Distinct(keys) && Distinct(some) && forall k :: k in some ==> k in keys
    requires forall k :: k in keys && k !in some ==> g(k) == 0.0
    ensures KeySum(keys, g) == KeySum(some, g)
  {
    if some == [] {
      KeySumZeroTail([], keys, g);
      assert [] + keys == keys;
    } else {
      var rest, last := some[..|some| - 1], some[|some| - 1];
      var h := (k: Key) => if k == last then 0.0 else g(k);
      assert last !in rest && some == rest + [last];
      KeySumBump(keys, h, g, last, g(last));
      KeySumSupport(keys, rest, h);
      KeySumSame(rest, g, h);
    }
  }

  lemma {:induction false} Covering(keys: seq<Key>, history: seq<Fill>) returns (more: seq<Key>)
    requires Distinct(keys)
    ensures Distinct(keys + more) && Covers(keys + more, history)
    ensures forall k :: k in more ==> k !in keys
  {
    if history == [] {
      more := [];
      assert keys + more == keys;
    } else {
      var last := history[|history| - 1];
      var key := (last.strategy, last.token);
      more := Covering(keys, history[..|history| - 1]);
      if key !in keys + more {
        assert keys + (more + [key]) == (keys + more) + [key];
        DistinctConcat(keys + more, [key]);
        more := more + [key];
      }
    }
  }
}
