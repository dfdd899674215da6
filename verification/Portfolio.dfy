/** From fill events to positions and charges: what the order manager publishes, the books take in. */
module Portfolio {
  import opened Collections
  import opened Ledger
  import opened Positions
  import opened Pnl
  import opened Charges
  import opened Oms
  import BookAgreement
  import DayBook

  /** The fill an event tells of. */
  function FillOf(e: Event): Fill
    requires e.FilledEvent?
  {
    Fill(e.request.strategy, e.request.token, e.request.symbol, e.request.side, e.quantity, e.price)
  }

  function FillsOf(events: seq<Event>): seq<Fill> {
    if events == [] then []
    else FillsOf(events[..|events| - 1]) + var e := events[|events| - 1]; if e.FilledEvent? then [FillOf(e)] else []
  }

  predicate Contains(s: string, part: string) { exists i :: 0 <= i <= |s| && part <= s[i..] }

  /** The kind of instrument as read off the symbol: "CE" anywhere in it makes it a call. */
  function InstrumentOf(symbol: string): Instrument {
    if Contains(symbol, "CE") then CE else if Contains(symbol, "PE") then PE else FUT
  }

  /** The signed sum of the fill events of one strategy in one instrument. */
  ghost function FilledQuantity(events: seq<Event>, key: Key): int {
    if events == [] then 0
    else
      var e := events[|events| - 1];
      FilledQuantity(events[..|events| - 1], key)
      + if e.FilledEvent? && (e.request.strategy, e.request.token) == key then Signed(e.request.side, e.quantity) else 0
  }

  lemma {:induction false} FilledQuantityIsTraded(events: seq<Event>, key: Key)
    ensures NetQuantity(KeyLots(FillsOf(events), key)) == FilledQuantity(events, key)
  {
    if events != [] {
      var past, e := events[..|events| - 1], events[|events| - 1];
      FilledQuantityIsTraded(past, key);
      if e.FilledEvent? {
        KeyLotsGrow(FillsOf(past), FillOf(e), key);
        LastLot(KeyLots(FillsOf(past), key), ToLot(FillOf(e)));
      } else {
        assert FillsOf(events) == FillsOf(past) + [];
        assert FillsOf(past) + [] == FillsOf(past);
      }
    }
  }

  /** What the fill events of one strategy in one instrument took in and paid out, each at the price it was filled at. */
  ghost function FilledCash(events: seq<Event>, key: Key): real {
    if events == [] then 0.0
    else
      var e := events[|events| - 1];
      FilledCash(events[..|events| - 1], key)
      + if e.FilledEvent? && (e.request.strategy, e.request.token) == key
        then (if e.request.side == BUY then -e.quantity else e.quantity) as real * e.price else 0.0
  }

  lemma {:induction false} FilledCashIsMoved(events: seq<Event>, key: Key)
    ensures CashFlow(KeyLots(FillsOf(events), key)) == FilledCash(events, key)
  {
    if events != [] {
      var past, e := events[..|events| - 1], events[|events| - 1];
      FilledCashIsMoved(past, key);
      if e.FilledEvent? {
        KeyLotsGrow(FillsOf(past), FillOf(e), key);
        CashFlowGrows(KeyLots(FillsOf(past), key), ToLot(FillOf(e)));
        SoldIsReceived(e);
      } else {
        assert FillsOf(events) == FillsOf(past) + [];
        assert FillsOf(past) + [] == FillsOf(past);
      }
    }
  }

  lemma SoldIsReceived(e: Event)
    requires e.FilledEvent?
    ensures -(ToLot(FillOf(e)).signed as real * ToLot(FillOf(e)).price)
            == (if e.request.side == BUY then -e.quantity else e.quantity) as real * e.price
  {
    var q, p := e.quantity as real, e.price;
    assert (-e.quantity) as real == -q;
    assert -(-q * p) == q * p && -(q * p) == -q * p;
  }

  /** Fill events as the order manager publishes them, each under the one symbol of its instrument. */
  ghost predicate Deliverable(events: seq<Event>, symbolOf: int -> string) {
    forall i :: 0 <= i < |events| && events[i].FilledEvent? ==>
      events[i].price > 0.0 && events[i].quantity > 0 && events[i].request.symbol == symbolOf(events[i].request.token)
  }

  class PortfolioManager {
    const tracker: PositionTracker
    const pnl: PnLCalculator

    ghost predicate Valid()
      reads this, tracker, pnl, pnl.tracker
    {
      tracker == pnl.tracker && pnl.Valid()
    }

    constructor (tracker: PositionTracker, pnl: PnLCalculator)
      requires tracker == pnl.tracker && pnl.Valid()
      ensures Valid() && this.tracker == tracker && this.pnl == pnl
    {
      this.tracker := tracker;
      this.pnl := pnl;
    }

    /** One fill event: the position moves by that fill, and the strategy is charged for it. */
    method OnOrderFilled(e: Event) returns (position: Position)
      requires Valid() && e.FilledEvent? && e.price > 0.0 && e.quantity > 0
      requires e.request.symbol == tracker.symbolOf(e.request.token)
      modifies tracker, pnl`charges
      ensures Valid() && tracker.history == old(tracker.history) + [FillOf(e)]
      ensures FillOf(e) == Fill(e.request.strategy, e.request.token, e.request.symbol, e.request.side, e.quantity, e.price)
      ensures var key := (e.request.strategy, e.request.token);
              && Settles(old(Held(tracker.positions, key)), Lot(Signed(e.request.side, e.quantity), e.price), position.Holding())
              && tracker.positions == Placed(old(tracker.positions), key, position)
      ensures pnl.ChargesOf(e.request.strategy) == old(pnl.ChargesOf(e.request.strategy))
              + CalculateCharges(e.price, e.quantity, e.request.side, InstrumentOf(e.request.symbol)).total
      ensures forall s :: s != e.request.strategy ==> pnl.ChargesOf(s) == old(pnl.ChargesOf(s))
    {
      position := tracker.UpdateFromFill(FillOf(e));
      var charges := CalculateCharges(e.price, e.quantity, e.request.side, InstrumentOf(e.request.symbol));
      pnl.AddCharges(e.request.strategy, charges.total);
    }

    /** The event loop: events are taken in the order in which they were published, and only fills concern the book. */
    method Dispatch(events: seq<Event>)
      requires Valid() && Deliverable(events, tracker.symbolOf)
      modifies tracker, pnl`charges
      ensures Valid() && tracker.history == old(tracker.history) + FillsOf(events)
      ensures forall key: Key :: TakenIn(old(tracker.history), tracker.history, events, key)
    {
      var i := 0;
      while i < |events|
        invariant 0 <= i <= |events| && Valid() && tracker.history == old(tracker.history) + FillsOf(events[..i])
      {
        assert events[..i + 1][..i] == events[..i];
        ghost var before := tracker.history;
        if events[i].FilledEvent? {
          var _ := OnOrderFilled(events[i]);
          assert tracker.history == old(tracker.history) + (FillsOf(events[..i]) + [FillOf(events[i])]);
        } else {
          assert FillsOf(events[..i + 1]) == FillsOf(events[..i]) + [];
        }
        i := i + 1;
      }
      assert events[..i] == events;
      forall key: Key ensures TakenIn(old(tracker.history), tracker.history, events, key) {
        EventsAreTakenIn(old(tracker.history), events, key);
      }
    }
  }

  /** Quantity and cash of the key moved by what the events tell of. */
  ghost predicate TakenIn(before: seq<Fill>, after: seq<Fill>, events: seq<Event>, key: Key) {
    && NetQuantity(KeyLots(after, key)) == NetQuantity(KeyLots(before, key)) + FilledQuantity(events, key)
    && CashFlow(KeyLots(after, key)) == CashFlow(KeyLots(before, key)) + FilledCash(events, key)
  }

  lemma EventsAreTakenIn(before: seq<Fill>, events: seq<Event>, key: Key)
    ensures TakenIn(before, before + FillsOf(events), events, key)
  {
    KeyLotsConcat(before, FillsOf(events), key);
    FilledQuantityIsTraded(events, key);
    FilledCashIsMoved(events, key);
  }

  lemma KeyLotsConcat(a: seq<Fill>, b: seq<Fill>, key: Key)
    ensures NetQuantity(KeyLots(a + b, key)) == NetQuantity(KeyLots(a, key)) + NetQuantity(KeyLots(b, key))
    ensures CashFlow(KeyLots(a + b, key)) == CashFlow(KeyLots(a, key)) + CashFlow(KeyLots(b, key))
  {
    assert (a + b)[..|a|] == a && (a + b)[|a|..] == b;
    DayBook.LotsSince(a + b, |a|, key);
    DayBook.CashFlowConcat(KeyLots(a, key), KeyLots(b, key));
    NetConcat(KeyLots(a, key), KeyLots(b, key));
  }

  lemma {:induction false} NetConcat(a: seq<Lot>, b: seq<Lot>)
    ensures NetQuantity(a + b) == NetQuantity(a) + NetQuantity(b)
  {
    if b == [] {
      assert a + b == a;
    } else {
      var rest, last := b[..|b| - 1], b[|b| - 1];
      NetConcat(a, rest);
      LastLot(rest, last);
      LastLot(a + rest, last);
      assert rest + [last] == b && a + rest + [last] == a + b;
    }
  }

  /** From orders to positions: once everything published has been dispatched to fresh books, each position's net
      quantity is the signed sum of the fill events of its key, all its cash is theirs, each at the price of its fill, and
      no broker id contributed twice. While the key was never flat in between, the position itself says so. */
  lemma PositionsAreFills(s: Store, tracker: PositionTracker, strategy: string, token: int)
    requires StoreOk(s) && tracker.Valid() && tracker.history == FillsOf(s.events)
    ensures tracker.GetNetQuantity(strategy, token) == FilledQuantity(s.events, (strategy, token))
    ensures CashFlow(KeyLots(tracker.history, (strategy, token))) == FilledCash(s.events, (strategy, token))
    ensures LastRoundTrip(KeyLots(tracker.history, (strategy, token))) == [] ==>
      Book(Held(tracker.positions, (strategy, token))) == FilledCash(s.events, (strategy, token))
    ensures forall i, j :: 0 <= i < j < |s.events| && s.events[i].FilledEvent? && s.events[j].FilledEvent? ==>
      s.events[i].broker != s.events[j].broker
  {
    var key := (strategy, token);
    FilledQuantityIsTraded(s.events, key);
    FilledCashIsMoved(s.events, key);
    var lots := KeyLots(tracker.history, key);
    assert ConsistentAt(tracker.positions, tracker.closed, tracker.history, key);
    if LastRoundTrip(lots) == [] {
      BookAgreement.OneEpisode(lots);
      CashIsConserved(lots);
    }
  }

  /** What the order manager publishes can be dispatched when every instrument goes by one symbol. */
  lemma PublishedIsDeliverable(s: Store, symbolOf: int -> string)
    requires StoreOk(s)
    requires forall id :: id in s.orders ==> s.orders[id].request.symbol == symbolOf(s.orders[id].request.token)
    ensures Deliverable(s.events, symbolOf)
  {
    forall i | 0 <= i < |s.events| && s.events[i].FilledEvent?
      ensures s.events[i].price > 0.0 && s.events[i].quantity > 0
      ensures s.events[i].request.symbol == symbolOf(s.events[i].request.token)
    {
      assert FillOk(s, s.events[i]);
    }
  }

  // ---- Which futures are charged as options ----

  const MONTHS := ["JAN", "FEB", "MAR", "APR", "MAY", "JUN", "JUL", "AUG", "SEP", "OCT", "NOV", "DEC"]

  predicate Digit(c: char) { '0' <= c <= '9' }

  /** What follows the name of the underlying in the symbol of a future: two digits of the year, the month, and FUT. */
  function FutureTail(tens: char, ones: char, month: nat): string
    requires month < 12
  {
    [tens, ones] + MONTHS[month] + "FUT"
  }

  ghost predicate Pair(s: string, i: int, a: char, b: char) { 0 <= i < |s| - 1 && s[i] == a && s[i + 1] == b }

  lemma ContainsPair(s: string, a: char, b: char)
    ensures Contains(s, [a, b]) <==> exists i :: Pair(s, i, a, b)
  {
    if Contains(s, [a, b]) {
      var i :| 0 <= i <= |s| && [a, b] <= s[i..];
      assert s[i] == s[i..][0] == [a, b][0] && s[i + 1] == s[i..][1] == [a, b][1];
      assert Pair(s, i, a, b);
    }
    if i :| Pair(s, i, a, b) {
      assert s[i..] == [a, b] + s[i + 2..];
    }
  }

  /** No month brings in the letters of a call or a put. */
  lemma TailHasNoPair(tens: char, ones: char, month: nat, a: char, i: int)
    requires month < 12 && Digit(tens) && Digit(ones) && (a == 'C' || a == 'P')
    ensures !Pair(FutureTail(tens, ones, month), i, a, 'E')
    ensures |FutureTail(tens, ones, month)| == 8 && FutureTail(tens, ones, month)[0] == tens
  {
  }

  lemma PairIsInName(u: string, tens: char, ones: char, month: nat, a: char)
    requires month < 12 && Digit(tens) && Digit(ones) && (a == 'C' || a == 'P')
    ensures Contains(u + FutureTail(tens, ones, month), [a, 'E']) <==> Contains(u, [a, 'E'])
  {
    var tail := FutureTail(tens, ones, month);
    var s := u + tail;
    forall i ensures Pair(s, i, a, 'E') <==> Pair(u, i, a, 'E') {
      TailHasNoPair(tens, ones, month, a, i - |u|);
    }
    ContainsPair(u, a, 'E');
    ContainsPair(s, a, 'E');
  }

  /** A future is taken for one exactly when the name of its underlying holds neither CE nor PE. */
  lemma FutureTakenForOption(u: string, tens: char, ones: char, month: nat)
    requires month < 12 && Digit(tens) && Digit(ones)
    ensures var symbol := u + FutureTail(tens, ones, month);
            && (InstrumentOf(symbol) == FUT <==> !Contains(u, "CE") && !Contains(u, "PE"))
            && (InstrumentOf(symbol) == CE <==> Contains(u, "CE"))
  {
    PairIsInName(u, tens, ones, month, 'C');
    PairIsInName(u, tens, ones, month, 'P');
  }

  /** And then it pays for it: any trade of a turnover of twenty or more is charged too much, and no other trade is. */
  lemma FutureOvercharged(u: string, tens: char, ones: char, month: nat, price: real, quantity: int, side: Side)
    requires month < 12 && Digit(tens) && Digit(ones) && price * quantity as real >= 20.0
    ensures var taken := InstrumentOf(u + FutureTail(tens, ones, month));
            var charged, due := CalculateCharges(price, quantity, side, taken).total, CalculateCharges(price, quantity, side, FUT).total;
            && charged >= due
            && (charged != due <==> Contains(u, "CE") || Contains(u, "PE"))
  {
    FutureTakenForOption(u, tens, ones, month);
    var taken := InstrumentOf(u + FutureTail(tens, ones, month));
    if taken != FUT { OptionsCostMore(price, quantity, side, taken); }
  }

  /** One lot of 250 bought at 1200: 209.95 are charged instead of the 37.03 that a future owes. */
  lemma RelianceIsOvercharged()
    ensures InstrumentOf("RELIANCE" + FutureTail('2', '5', 0)) == CE
    ensures CalculateCharges(1200.0, 250, BUY, CE).total == 209.95 && CalculateCharges(1200.0, 250, BUY, FUT).total == 37.03
  {
    FutureTakenForOption("RELIANCE", '2', '5', 0);
    ContainsPair("RELIANCE", 'C', 'E');
    assert Pair("RELIANCE", 6, 'C', 'E');
    var turnover := 1200.0 * 250 as real;
    assert turnover == 300000.0;
    assert Exact(turnover, BUY, CE).total == 209.954 && Exact(turnover, BUY, FUT).total == 37.034;
  }
}
