/** What the day's report accounts for: the cash of every fill, less what the archive hides and what it has forgotten. */
module DayBook {
  import opened Collections
  import opened Ledger
  import opened Positions
  import opened Pnl
  import opened Reconciliation
  import opened BookAgreement

  /** What the position is worth: the cash it has moved and a value put on what it holds. */
  ghost function Worth(p: Position, value: Position -> real): real { Book(p.Holding()) + value(p) }

  /** A way of valuing positions by which flat ones are worth nothing. */
  ghost predicate Values(value: Position -> real) { forall p: Position :: p.quantity == 0 ==> value(p) == 0.0 }

  ghost function Nothing(): Position -> real { (p: Position) => 0.0 }

  ghost function Market(): Position -> real { (p: Position) => p.quantity as real * p.ltp }

  ghost function OfStrategy(strategy: string): Key -> bool { (k: Key) => strategy == "" || k.0 == strategy }

  // ---- What each key contributes ----

  ghost function WorthAt(entries: map<Key, Position>, on: Key -> bool, value: Position -> real, k: Key): real {
    if on(k) && k in entries then Worth(entries[k], value) else 0.0
  }

  ghost function WorthShare(entries: map<Key, Position>, on: Key -> bool, value: Position -> real): Key -> real {
    k => WorthAt(entries, on, value, k)
  }

  /** The worth of open positions that no reader sees. */
  ghost function HiddenWorth(positions: Register, closed: Register, on: Key -> bool, value: Position -> real): Key -> real {
    k => if k in closed.entries then WorthAt(positions.entries, on, value, k) else 0.0
  }

  /** The cash of round trips of the day that no entry stands for any more. */
  ghost function ForgottenShare(closed: Register, history: seq<Fill>, day: nat, on: Key -> bool): Key -> real
    requires SinceReset(closed, history, day)
  {
    k => if on(k) then CashOfTrips(Forgotten(closed, history, day, k)) else 0.0
  }

  /** The cash of everything a key was traded, but for what it had closed before the day began. */
  ghost function DayCash(history: seq<Fill>, day: nat, k: Key): real
    requires day <= |history|
  {
    CashFlow(KeyLots(history, k)) - CashOfTrips(TripsOf(history[..day], k))
  }

  /** What the day owes for a key: that cash and the value of what is held. */
  ghost function DueAt(positions: Register, history: seq<Fill>, day: nat, value: Position -> real, k: Key): real
    requires day <= |history|
  {
    DayCash(history, day, k) + if k in positions.entries then value(positions.entries[k]) else 0.0
  }

  ghost function DueShare(positions: Register, history: seq<Fill>, day: nat, on: Key -> bool, value: Position -> real): Key -> real
    requires day <= |history|
  {
    k => if on(k) then DueAt(positions, history, day, value, k) else 0.0
  }

  lemma {:induction false} LotsSince(history: seq<Fill>, day: nat, k: Key)
    requires day <= |history|
    ensures KeyLots(history, k) == KeyLots(history[..day], k) + KeyLots(history[day..], k)
  {
    if day == |history| {
      assert history[..day] == history;
    } else {
      var past, last := history[..|history| - 1], history[|history| - 1];
      LotsSince(past, day, k);
      OneMoreSince(past, day, last, k);
      assert history == past + [last];
    }
  }

  lemma OneMoreSince(history: seq<Fill>, day: nat, last: Fill, k: Key)
    requires day <= |history|
    requires KeyLots(history, k) == KeyLots(history[..day], k) + KeyLots(history[day..], k)
    ensures var more := history + [last]; KeyLots(more, k) == KeyLots(more[..day], k) + KeyLots(more[day..], k)
  {
    var more := history + [last];
    assert more[..day] == history[..day] && more[day..] == history[day..] + [last];
    KeyLotsGrow(history, last, k);
    KeyLotsGrow(history[day..], last, k);
  }

  lemma {:induction false} CashFlowConcat(a: seq<Lot>, b: seq<Lot>)
    ensures CashFlow(a + b) == CashFlow(a) + CashFlow(b)
  {
    if b == [] {
      assert a + b == a;
    } else {
      var rest, last := b[..|b| - 1], b[|b| - 1];
      CashFlowConcat(a, rest);
      CashFlowGrows(rest, last);
      CashFlowGrows(a + rest, last);
      assert rest + [last] == b && a + rest + [last] == a + b;
    }
  }

  /** The cash of a key's day is that of the fills since it began and of the position it began with. */
  lemma DayCashIsOfTheDay(history: seq<Fill>, day: nat, k: Key)
    requires day <= |history|
    ensures DayCash(history, day, k) == CashFlow(Episode(KeyLots(history[..day], k))) + CashFlow(KeyLots(history[day..], k))
  {
    LotsSince(history, day, k);
    CashFlowConcat(KeyLots(history[..day], k), KeyLots(history[day..], k));
    TripsAndEpisode(KeyLots(history[..day], k));
  }

  /** Key by key, what the day owes is what readers see, what is hidden from them and what is forgotten. */
  lemma KeyOfTheDay(positions: Register, closed: Register, history: seq<Fill>, day: nat, value: Position -> real, k: Key)
    requires Consistent(positions, closed, history) && SinceReset(closed, history, day) && Values(value)
    ensures var all := Visible(positions, closed).entries;
            DueAt(positions, history, day, value, k)
            == (if k in all then Worth(all[k], value) else 0.0)
               + (if k in closed.entries && k in positions.entries then Worth(positions.entries[k], value) else 0.0)
               + CashOfTrips(Forgotten(closed, history, day, k))
  {
    var lots := KeyLots(history, k);
    var today := DayTrips(history, day, k);
    assert ConsistentAt(positions, closed, history, k) && TripKept(closed, history, day, k);
    NetQuantityOfKey(positions, closed, history, k);
    TripsAndEpisode(lots);
    TripsPrefix(history, day, k);
    CashOfTripsConcat(TripsOf(history[..day], k), today);
    assert TripsOf(history, k) == TripsOf(history[..day], k) + today;
    CashIsConserved(Episode(lots));
    CashIsConserved(LastRoundTrip(lots));
    if k in closed.entries {
      assert Worth(closed.entries[k], value) == CashFlow(today[|today| - 1]);
    }
  }

  lemma {:induction false} TradedKey(history: seq<Fill>, keys: seq<Key>, k: Key)
    requires Covers(keys, history) && KeyLots(history, k) != []
    ensures k in keys
  {
    var past, last := history[..|history| - 1], history[|history| - 1];
    if (last.strategy, last.token) != k { TradedKey(past, keys, k); }
  }

  lemma VisibleAreTraded(positions: Register, closed: Register, history: seq<Fill>, keys: seq<Key>)
    requires Consistent(positions, closed, history) && Covers(keys, history)
    ensures forall k :: k in positions.entries || k in closed.entries ==> k in keys
  {
    forall k | k in positions.entries || k in closed.entries ensures k in keys {
      assert ConsistentAt(positions, closed, history, k);
      TradedKey(history, keys, k);
    }
  }

  // ---- The whole day ----

  ghost function Seen(tracker: PositionTracker, on: Key -> bool, value: Position -> real): real
    requires tracker.Valid()
    reads tracker
  {
    var all := Visible(tracker.positions, tracker.closed);
    KeySum(all.order, WorthShare(all.entries, on, value))
  }

  ghost function Unseen(tracker: PositionTracker, on: Key -> bool, value: Position -> real): real
    requires tracker.Valid()
    reads tracker
  {
    KeySum(tracker.positions.order, HiddenWorth(tracker.positions, tracker.closed, on, value))
  }

  ghost function Lost(tracker: PositionTracker, keys: seq<Key>, on: Key -> bool): real
    requires tracker.Valid()
    reads tracker
  {
    KeySum(keys, ForgottenShare(tracker.closed, tracker.history, tracker.day, on))
  }

  ghost function Due(tracker: PositionTracker, keys: seq<Key>, on: Key -> bool, value: Position -> real): real
    requires tracker.Valid()
    reads tracker
  {
    KeySum(keys, DueShare(tracker.positions, tracker.history, tracker.day, on, value))
  }

  /** For any choice of keys and any valuation: what is listed, what is hidden and the cash of the forgotten round trips
      make up what the day owes. */
  lemma DaySplits(tracker: PositionTracker, keys: seq<Key>, on: Key -> bool, value: Position -> real)
    requires tracker.Valid() && Distinct(keys) && Covers(keys, tracker.history) && Values(value)
    ensures Seen(tracker, on, value) + Unseen(tracker, on, value) + Lost(tracker, keys, on) == Due(tracker, keys, on, value)
  {
    var positions, closed, history, day := tracker.positions, tracker.closed, tracker.history, tracker.day;
    var all := Visible(positions, closed);
    VisibleIsValid(positions, closed);
    VisibleAreTraded(positions, closed, history, keys);
    var seen, hidden := WorthShare(all.entries, on, value), HiddenWorth(positions, closed, on, value);
    var lost, due := ForgottenShare(closed, history, day, on), DueShare(positions, history, day, on, value);
    var listed := (k: Key) => seen(k) + hidden(k);
    forall k ensures due(k) == listed(k) + lost(k) { KeyOfTheDay(positions, closed, history, day, value, k); }
    KeySumAdds(keys, due, listed, lost);
    KeySumAdds(keys, listed, seen, hidden);
    KeySumSupport(keys, all.order, seen);
    KeySumSupport(keys, positions.order, hidden);
  }

  lemma NothingUnseen(tracker: PositionTracker, on: Key -> bool, value: Position -> real)
    requires tracker.Valid() && tracker.Disjoint()
    ensures Unseen(tracker, on, value) == 0.0
  {
    KeySumZeroTail([], tracker.positions.order, HiddenWorth(tracker.positions, tracker.closed, on, value));
    assert [] + tracker.positions.order == tracker.positions.order;
  }

  lemma NothingLost(tracker: PositionTracker, keys: seq<Key>, on: Key -> bool)
    requires tracker.Valid() && tracker.NothingForgotten()
    ensures Lost(tracker, keys, on) == 0.0
  {
    var lost := ForgottenShare(tracker.closed, tracker.history, tracker.day, on);
    forall k: Key ensures lost(k) == 0.0 {
      assert Forgotten(tracker.closed, tracker.history, tracker.day, k) == [];
      assert lost(k) == if on(k) then CashOfTrips(Forgotten(tracker.closed, tracker.history, tracker.day, k)) else 0.0;
    }
    KeySumZeroTail([], keys, lost);
    assert [] + keys == keys;
  }

  // ---- Symbol by symbol ----

  /** The cash of round trips closed on earlier days. */
  ghost function EarlierShare(history: seq<Fill>, day: nat, on: Key -> bool): Key -> real
    requires day <= |history|
  {
    k => if on(k) then CashOfTrips(TripsOf(history[..day], k)) else 0.0
  }

  lemma NothingEarlier(history: seq<Fill>, keys: seq<Key>, on: Key -> bool)
    ensures KeySum(keys, EarlierShare(history, 0, on)) == 0.0
  {
    var earlier := EarlierShare(history, 0, on);
    forall k: Key ensures earlier(k) == 0.0 {
      assert history[..0] == [] && TripsOf([], k) == [];
      assert earlier(k) == if on(k) then CashOfTrips(TripsOf([], k)) else 0.0;
    }
    KeySumZeroTail([], keys, earlier);
    assert [] + keys == keys;
  }

  /** Symbol by symbol: the books listed and the books hidden are the cash of all fills ever, less that of round trips
      closed on earlier days and of those forgotten today. */
  lemma SymbolOfTheDay(tracker: PositionTracker, keys: seq<Key>, symbol: string)
    requires tracker.Valid() && Distinct(keys) && Covers(keys, tracker.history)
    ensures var on := OnSymbol(tracker.symbolOf, symbol);
            && Seen(tracker, on, Nothing()) + Unseen(tracker, on, Nothing())
               == SymbolTotal(tracker.history, symbol, CashOf)
                  - KeySum(keys, EarlierShare(tracker.history, tracker.day, on)) - Lost(tracker, keys, on)
            && (tracker.day == 0 && tracker.Disjoint() && tracker.NothingForgotten() ==>
                  Seen(tracker, on, Nothing()) == SymbolTotal(tracker.history, symbol, CashOf))
  {
    var history, day, on := tracker.history, tracker.day, OnSymbol(tracker.symbolOf, symbol);
    DaySplits(tracker, keys, on, Nothing());
    var due, earlier := DueShare(tracker.positions, history, day, on, Nothing()), EarlierShare(history, day, on);
    var total := KeyShare(history, tracker.symbolOf, symbol, CashOf);
    forall k: Key ensures total(k) == due(k) + earlier(k) {
      TotalsOfLots(KeyLots(history, k));
      assert due(k) == if on(k) then DueAt(tracker.positions, history, day, Nothing(), k) else 0.0;
      assert total(k) == if on(k) then LotTotal(KeyLots(history, k), CashOf) else 0.0;
      assert earlier(k) == if on(k) then CashOfTrips(TripsOf(history[..day], k)) else 0.0;
    }
    KeySumAdds(keys, total, due, earlier);
    ByKeyIsBySymbol(keys, history, tracker.symbolOf, symbol, CashOf);
    if tracker.day == 0 { NothingEarlier(history, keys, on); }
    if tracker.Disjoint() { NothingUnseen(tracker, on, Nothing()); }
    if tracker.NothingForgotten() { NothingLost(tracker, keys, on); }
  }

  // ---- The report ----

  lemma MarkedTotalSnoc(list: seq<Position>, p: Position)
    ensures MarkedTotal(list + [p]) == MarkedTotal(list) + Worth(p, Market())
  {
    assert (list + [p])[..|list|] == list;
  }

  lemma {:induction false} MarkedListing(keys: seq<Key>, entries: map<Key, Position>, strategy: string)
    requires forall k :: k in keys ==> k in entries
    ensures MarkedTotal(Listing(keys, entries, strategy)) == KeySum(keys, WorthShare(entries, OfStrategy(strategy), Market()))
  {
    if keys != [] {
      var rest, last := keys[..|keys| - 1], keys[|keys| - 1];
      MarkedListing(rest, entries, strategy);
      MarkedListingSnoc(rest, last, entries, strategy);
      assert keys == rest + [last];
    }
  }

  lemma MarkedListingSnoc(keys: seq<Key>, last: Key, entries: map<Key, Position>, strategy: string)
    requires (forall k :: k in keys ==> k in entries) && last in entries
    requires MarkedTotal(Listing(keys, entries, strategy)) == KeySum(keys, WorthShare(entries, OfStrategy(strategy), Market()))
    ensures MarkedTotal(Listing(keys + [last], entries, strategy))
            == KeySum(keys + [last], WorthShare(entries, OfStrategy(strategy), Market()))
  {
    var share := WorthShare(entries, OfStrategy(strategy), Market());
    ListingSnoc(keys, last, entries, strategy);
    KeySumSnoc(keys, last, share);
    if strategy == "" || last.0 == strategy {
      assert share(last) == Worth(entries[last], Market());
      MarkedTotalSnoc(Listing(keys, entries, strategy), entries[last]);
    } else {
      assert share(last) == 0.0;
      assert Listing(keys, entries, strategy) + [] == Listing(keys, entries, strategy);
    }
  }

  /** What the report should say before charges: the cash of the day's fills and of what the day began with, plus the
      market value of everything open, readers see it or not. */
  ghost function TrueProfit(tracker: PositionTracker, keys: seq<Key>, strategy: string): real
    requires tracker.Valid()
    reads tracker
  {
    Due(tracker, keys, OfStrategy(strategy), Market())
  }

  /** The report accounts for every fill exactly when what is hidden and what is forgotten net to zero. */
  lemma ReportOfTheDay(tracker: PositionTracker, keys: seq<Key>, strategy: string)
    requires tracker.Valid() && Distinct(keys) && Covers(keys, tracker.history)
    ensures var on := OfStrategy(strategy);
            var reported := MarkedTotal(tracker.GetPositions(strategy));
            && reported == TrueProfit(tracker, keys, strategy) - Unseen(tracker, on, Market()) - Lost(tracker, keys, on)
            && (reported == TrueProfit(tracker, keys, strategy) <==> Unseen(tracker, on, Market()) + Lost(tracker, keys, on) == 0.0)
            && (tracker.Disjoint() ==> (reported == TrueProfit(tracker, keys, strategy) <==> Lost(tracker, keys, on) == 0.0))
            && (tracker.Disjoint() && tracker.NothingForgotten() ==> reported == TrueProfit(tracker, keys, strategy))
  {
    var on := OfStrategy(strategy);
    assert Values(Market()) by {
      forall p: Position | p.quantity == 0 ensures Market()(p) == 0.0 { assert 0.0 * p.ltp == 0.0; }
    }
    DaySplits(tracker, keys, on, Market());
    VisibleIsValid(tracker.positions, tracker.closed);
    var all := Visible(tracker.positions, tracker.closed);
    MarkedListing(all.order, all.entries, strategy);
    if tracker.Disjoint() { NothingUnseen(tracker, on, Market()); }
    if tracker.NothingForgotten() { NothingLost(tracker, keys, on); }
  }

  /** The figure the calculator reports is off by what is hidden and forgotten, and by no more than half a paisa besides. */
  lemma ReportedNet(tracker: PositionTracker, keys: seq<Key>, strategy: string, report: Report, fees: real)
    requires tracker.Valid() && Distinct(keys) && Covers(keys, tracker.history)
    requires Accurate(report, tracker.GetPositions(strategy), fees) && Priced(tracker.GetPositions(strategy))
    ensures var on := OfStrategy(strategy);
            ToThePaisa(report.net, TrueProfit(tracker, keys, strategy) - fees - Unseen(tracker, on, Market()) - Lost(tracker, keys, on))
  {
    ReportOfTheDay(tracker, keys, strategy);
  }

  // ---- A day on which it goes wrong ----

  const WINNER := [Lot(1, 100.0), Lot(-1, 110.0)]
  const LOSER := [Lot(1, 100.0), Lot(-1, 90.0)]

  lemma RoundTripOfTwo(lots: seq<Lot>, entry: Lot, exit: Lot)
    requires Episode(lots) == [] && entry.signed == 1 && exit.signed == -1
    ensures var more := lots + [entry] + [exit];
            && Episode(more) == [] && RoundTrips(more) == RoundTrips(lots) + [[entry, exit]] && LastRoundTrip(more) == [entry, exit]
            && CashFlow(more) == CashFlow(lots) - entry.price + exit.price
            && CashFlow([entry, exit]) == exit.price - entry.price
  {
    EpisodeGrows(lots, entry);
    assert [] + [entry] == [entry] && [entry] + [exit] == [entry, exit];
    LastLot([], entry);
    LastLot([entry], exit);
    EpisodeGrows(lots + [entry], exit);
    CashFlowGrows(lots, entry);
    CashFlowGrows(lots + [entry], exit);
    CashFlowGrows([], entry);
    CashFlowGrows([entry], exit);
  }

  /** Two round trips of one key in a day, a winning and a losing one: no cash was made, but the archive keeps a loss. */
  lemma EarlierProfitIsForgotten()
    ensures CashFlow(WINNER + LOSER) == 0.0 && RoundTrips(WINNER + LOSER) == [WINNER, LOSER]
    ensures CashFlow(LastRoundTrip(WINNER + LOSER)) == -10.0 && CashOfTrips(RoundTrips(WINNER + LOSER)[..1]) == 10.0
  {
    RoundTripOfTwo([], WINNER[0], WINNER[1]);
    assert [] + [WINNER[0]] + [WINNER[1]] == WINNER;
    RoundTripOfTwo(WINNER, LOSER[0], LOSER[1]);
    assert WINNER + [LOSER[0]] + [LOSER[1]] == WINNER + LOSER;
    assert [WINNER] + [LOSER] == [WINNER, LOSER] && [] + [WINNER] == [WINNER];
    assert RoundTrips(WINNER + LOSER)[..1] == [WINNER];
    assert CashOfTrips([WINNER]) == CashFlow(WINNER) by { assert [WINNER][..0] == []; }
  }

  lemma TripsOfThatDay(history: seq<Fill>, k: Key)
    requires KeyLots(history, k) == WINNER + LOSER
    ensures DayTrips(history, 0, k) == [WINNER, LOSER]
  {
    EarlierProfitIsForgotten();
    assert history[..0] == [] && TripsOf([], k) == [];
  }

  /** The archived entry is that of the losing round trip. */
  lemma ArchivedIsLoser(tracker: PositionTracker, k: Key)
    requires tracker.Valid() && KeyLots(tracker.history, k) == WINNER + LOSER && k in tracker.closed.entries
    ensures tracker.closed.entries[k].pnl == -10.0
  {
    EarlierProfitIsForgotten();
    assert ConsistentAt(tracker.positions, tracker.closed, tracker.history, k);
    NetQuantityOfKey(tracker.positions, tracker.closed, tracker.history, k);
    FlatProfitIsCash(tracker.closed.entries[k].Holding(), LastRoundTrip(WINNER + LOSER));
  }

  lemma FlatProfitIsCash(h: Holding, lots: seq<Lot>)
    requires h == Replay(lots) && h.quantity == 0
    ensures h.pnl == CashFlow(lots)
  {
    CashIsConserved(lots);
  }

  /** Whatever else is traded that day, the archived entry of such a key says a loss of ten and the ten won are forgotten. */
  lemma ArchiveKeepsTheLoss(tracker: PositionTracker, k: Key)
    requires tracker.Valid() && tracker.day == 0 && KeyLots(tracker.history, k) == WINNER + LOSER && k in tracker.closed.entries
    ensures tracker.closed.entries[k].pnl == -10.0 && DayCash(tracker.history, 0, k) == 0.0
    ensures Forgotten(tracker.closed, tracker.history, 0, k) == [WINNER]
  {
    ArchivedIsLoser(tracker, k);
    CashOfThatDay(tracker.history, k);
    TripsOfThatDay(tracker.history, k);
  }

  lemma CashOfThatDay(history: seq<Fill>, k: Key)
    requires KeyLots(history, k) == WINNER + LOSER
    ensures DayCash(history, 0, k) == 0.0
  {
    EarlierProfitIsForgotten();
    assert history[..0] == [] && TripsOf([], k) == [];
  }
}
