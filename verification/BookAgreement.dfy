/** The paper broker and the internal book, fed with the same fills. */
module BookAgreement {
  import opened Collections
  import opened Ledger
  import opened Positions
  import opened Reconciliation
  import PB = PaperBroker
  import KS = KillSwitching

  /** The fills as the broker sees them: per symbol, whatever the strategy. */
  ghost function Mirror(history: seq<Fill>): seq<PB.BrokerFill> {
    if history == [] then []
    else
      var last := history[|history| - 1];
      Mirror(history[..|history| - 1]) + [PB.BrokerFill(last.symbol, ToLot(last))]
  }

  ghost function QtyOf(l: Lot): real { l.signed as real }

  ghost function CashOf(l: Lot): real { -(l.signed as real * l.price) }

  lemma {:induction false} TotalsOfLots(lots: seq<Lot>)
    ensures LotTotal(lots, QtyOf) == NetQuantity(lots) as real
    ensures LotTotal(lots, CashOf) == CashFlow(lots)
  {
    if lots != [] { TotalsOfLots(lots[..|lots| - 1]); }
  }

  lemma {:induction false} BrokerSeesSymbolTotals(history: seq<Fill>, symbol: string, w: Lot -> real)
    ensures LotTotal(PB.SymbolLots(Mirror(history), symbol), w) == SymbolTotal(history, symbol, w)
  {
    if history != [] {
      var past, last := history[..|history| - 1], history[|history| - 1];
      BrokerSeesSymbolTotals(past, symbol, w);
      PB.SymbolLotsGrow(Mirror(past), PB.BrokerFill(last.symbol, ToLot(last)), symbol);
      var lots := PB.SymbolLots(Mirror(past), symbol) + [ToLot(last)];
      assert lots[..|lots| - 1] == PB.SymbolLots(Mirror(past), symbol);
    }
  }

  function NetEntries(list: seq<PB.PaperPosition>): seq<NetEntry> {
    seq(|list|, i requires 0 <= i < |list| => NetEntry(list[i].symbol, list[i].quantity))
  }

  lemma {:induction false} LastEntryWins(net: seq<NetEntry>, symbol: string)
    requires forall i, j :: 0 <= i < j < |net| ==> net[i].symbol != net[j].symbol
    ensures (forall i :: 0 <= i < |net| ==> net[i].symbol != symbol) ==> BrokerQty(net, symbol) == 0
    ensures forall i :: 0 <= i < |net| && net[i].symbol == symbol ==> BrokerQty(net, symbol) == net[i].quantity
  {
    if net != [] { LastEntryWins(net[..|net| - 1], symbol); }
  }

  lemma BrokerQtyIsHeld(broker: PB.PaperBrokerClient, symbol: string)
    requires broker.Valid()
    ensures BrokerQty(NetEntries(broker.GetPositions()), symbol) == PB.Held(broker.positions, symbol).quantity
  {
    var net := NetEntries(broker.GetPositions());
    forall i | 0 <= i < |net| ensures net[i].symbol == broker.positions.order[i] {
      assert PB.ConsistentAt(broker.positions, broker.history, broker.positions.order[i]);
    }
    LastEntryWins(net, symbol);
    if symbol in broker.positions.entries {
      var i :| 0 <= i < |broker.positions.order| && broker.positions.order[i] == symbol;
      assert net[i].symbol == symbol;
    }
  }

  lemma BrokerQtyIsNet(broker: PB.PaperBrokerClient, symbol: string)
    requires broker.Valid()
    ensures BrokerQty(NetEntries(broker.GetPositions()), symbol) == NetQuantity(PB.SymbolLots(broker.history, symbol))
  {
    BrokerQtyIsHeld(broker, symbol);
    assert PB.ConsistentAt(broker.positions, broker.history, symbol);
    CashIsConserved(PB.SymbolLots(broker.history, symbol));
  }

  // ---- The internal side ----

  lemma {:induction false} InternalQtyConcat(a: seq<Position>, b: seq<Position>, symbol: string)
    ensures InternalQty(a + b, symbol) == InternalQty(a, symbol) + InternalQty(b, symbol)
  {
    if b == [] {
      assert a + b == a;
    } else {
      assert (a + b)[..|a + b| - 1] == a + b[..|b| - 1];
      InternalQtyConcat(a, b[..|b| - 1], symbol);
    }
  }

  lemma {:induction false} FlatOnesDoNotCount(list: seq<Position>, symbol: string)
    ensures InternalQty(OpenOnes(list), symbol) == InternalQty(list, symbol)
  {
    if list != [] {
      FlatOnesDoNotCount(list[1..], symbol);
      assert list == [list[0]] + list[1..];
      InternalQtyConcat([list[0]], list[1..], symbol);
      InternalQtyConcat(if list[0].quantity != 0 then [list[0]] else [], OpenOnes(list[1..]), symbol);
      assert InternalQty([list[0]], symbol) == if list[0].symbol == symbol then list[0].quantity else 0 by {
        assert [list[0]][..0] == [];
      }
    }
  }

  /** The quantity a key contributes to a symbol, read from a register. */
  ghost function QtyAt(entries: map<Key, Position>, symbol: string, k: Key): real {
    if k in entries && entries[k].symbol == symbol then entries[k].quantity as real else 0.0
  }

  ghost function EntryShare(entries: map<Key, Position>, symbol: string): Key -> real {
    k => QtyAt(entries, symbol, k)
  }

  lemma {:induction false} ListingQty(keys: seq<Key>, entries: map<Key, Position>, symbol: string)
    requires forall k :: k in keys ==> k in entries
    ensures InternalQty(Listing(keys, entries, ""), symbol) as real == KeySum(keys, EntryShare(entries, symbol))
  {
    if keys != [] {
      var rest, last := keys[..|keys| - 1], keys[|keys| - 1];
      ListingQty(rest, entries, symbol);
      ListingSnoc(rest, last, entries, "");
      assert keys == rest + [last];
      var list := Listing(keys, entries, "");
      assert list[..|list| - 1] == Listing(rest, entries, "");
    }
  }

  lemma {:induction false} ListingSnoc(keys: seq<Key>, last: Key, entries: map<Key, Position>, strategy: string)
    requires (forall k :: k in keys ==> k in entries) && last in entries
    ensures Listing(keys + [last], entries, strategy)
            == Listing(keys, entries, strategy) + if strategy == "" || last.0 == strategy then [entries[last]] else []
  {
    var tail := if strategy == "" || last.0 == strategy then [entries[last]] else [];
    if keys == [] {
      assert keys + [last] == [last] && [last][1..] == [];
    } else {
      assert (keys + [last])[1..] == keys[1..] + [last];
      ListingSnoc(keys[1..], last, entries, strategy);
      var head := if strategy == "" || keys[0].0 == strategy then [entries[keys[0]]] else [];
      assert head + (Listing(keys[1..], entries, strategy) + tail) == (head + Listing(keys[1..], entries, strategy)) + tail;
    }
  }

  /** The open positions a reader never sees, because an archived entry stands under the same key. */
  function Hidden(positions: Register, closed: Register): seq<Position>
    requires positions.Valid()
  {
    Listing(Listed(positions.order, closed.entries), positions.entries, "")
  }

  function Listed(keys: seq<Key>, entries: map<Key, Position>): (r: seq<Key>)
    ensures forall k :: k in r ==> k in keys && k in entries
  {
    if keys == [] then []
    else (if keys[0] in entries then [keys[0]] else []) + Listed(keys[1..], entries)
  }

  ghost function HiddenShare(positions: Register, closed: Register, symbol: string): Key -> real {
    k => if k in closed.entries then QtyAt(positions.entries, symbol, k) else 0.0
  }

  /** Adding up a share over the listed keys is adding it up over all keys with the others counted zero. */
  lemma {:induction false} ListedSum(keys: seq<Key>, entries: map<Key, Position>, share: Key -> real, listedShare: Key -> real)
    requires forall k :: listedShare(k) == if k in entries then share(k) else 0.0
    ensures KeySum(Listed(keys, entries), share) == KeySum(keys, listedShare)
  {
    if keys != [] {
      var rest, last := keys[..|keys| - 1], keys[|keys| - 1];
      assert keys == rest + [last];
      ListedSum(rest, entries, share, listedShare);
      ListedSumStep(rest, last, entries, share, listedShare);
    }
  }

  lemma ListedSumStep(keys: seq<Key>, last: Key, entries: map<Key, Position>, share: Key -> real, listedShare: Key -> real)
    requires listedShare(last) == if last in entries then share(last) else 0.0
    requires KeySum(Listed(keys, entries), share) == KeySum(keys, listedShare)
    ensures KeySum(Listed(keys + [last], entries), share) == KeySum(keys + [last], listedShare)
  {
    ListedSnoc(keys, last, entries);
    KeySumSnoc(keys, last, listedShare);
    if last in entries {
      KeySumSnoc(Listed(keys, entries), last, share);
    } else {
      assert Listed(keys, entries) + [] == Listed(keys, entries);
    }
  }

  lemma KeySumSnoc(keys: seq<Key>, last: Key, share: Key -> real)
    ensures KeySum(keys + [last], share) == KeySum(keys, share) + share(last)
  {
    assert (keys + [last])[..|keys|] == keys;
  }

  lemma HiddenQty(keys: seq<Key>, positions: Register, closed: Register, symbol: string)
    requires forall k :: k in keys ==> k in positions.entries
    ensures KeySum(Listed(keys, closed.entries), EntryShare(positions.entries, symbol))
            == KeySum(keys, HiddenShare(positions, closed, symbol))
  {
    var share, hidden := EntryShare(positions.entries, symbol), HiddenShare(positions, closed, symbol);
    assert forall k :: hidden(k) == if k in closed.entries then share(k) else 0.0;
    ListedSum(keys, closed.entries, share, hidden);
  }

  lemma {:induction false} ListedSnoc(keys: seq<Key>, last: Key, entries: map<Key, Position>)
    ensures Listed(keys + [last], entries) == Listed(keys, entries) + if last in entries then [last] else []
  {
    var tail := if last in entries then [last] else [];
    if keys == [] {
      assert keys + [last] == [last] && [last][1..] == [];
    } else {
      assert (keys + [last])[1..] == keys[1..] + [last];
      ListedSnoc(keys[1..], last, entries);
      var head := if keys[0] in entries then [keys[0]] else [];
      assert head + (Listed(keys[1..], entries) + tail) == (head + Listed(keys[1..], entries)) + tail;
    }
  }

  /** What a key was traded is what readers see of it plus what the archive hides of it. */
  lemma KeySplits(positions: Register, closed: Register, history: seq<Fill>, symbolOf: int -> string, symbol: string, k: Key)
    requires Consistent(positions, closed, history)
    requires Named(positions, symbolOf) && Named(closed, symbolOf)
    ensures KeyShare(history, symbolOf, symbol, QtyOf)(k)
            == EntryShare(Visible(positions, closed).entries, symbol)(k) + HiddenShare(positions, closed, symbol)(k)
  {
    NetQuantityOfKey(positions, closed, history, k);
    TotalsOfLots(KeyLots(history, k));
    var traded := NetQuantity(KeyLots(history, k)) as real;
    assert KeyShare(history, symbolOf, symbol, QtyOf)(k) == if symbolOf(k.1) == symbol then traded else 0.0;
    var all := Visible(positions, closed).entries;
    assert k in all <==> k in positions.entries || k in closed.entries;
    if k in closed.entries {
      assert all[k] == closed.entries[k];
      assert QtyAt(all, symbol, k) == 0.0;
    } else if k in positions.entries {
      assert all[k] == positions.entries[k];
    }
  }

  lemma RegistersSplit(positions: Register, closed: Register, history: seq<Fill>, symbolOf: int -> string, symbol: string)
    requires positions.Valid() && closed.Valid() && Consistent(positions, closed, history)
    requires Named(positions, symbolOf) && Named(closed, symbolOf) && NamedFills(history, symbolOf)
    ensures KeySum(Visible(positions, closed).order, EntryShare(Visible(positions, closed).entries, symbol))
            + KeySum(positions.order, HiddenShare(positions, closed, symbol))
            == SymbolTotal(history, symbol, QtyOf)
  {
    VisibleIsValid(positions, closed);
    var all := Visible(positions, closed);
    var more := Covering(all.order, history);
    var keys := all.order + more;
    var seen, hidden := EntryShare(all.entries, symbol), HiddenShare(positions, closed, symbol);
    var traded := KeyShare(history, symbolOf, symbol, QtyOf);
    forall k ensures traded(k) == seen(k) + hidden(k) {
      KeySplits(positions, closed, history, symbolOf, symbol, k);
    }
    ByKeyIsBySymbol(keys, history, symbolOf, symbol, QtyOf);
    KeySumAdds(keys, traded, seen, hidden);
    KeySumZeroTail(all.order, more, seen);
    HiddenEndsWithPositions(positions, closed, more, symbol);
  }

  lemma HiddenEndsWithPositions(positions: Register, closed: Register, more: seq<Key>, symbol: string)
    requires positions.Valid() && closed.Valid()
    requires forall k :: k in more ==> k !in Visible(positions, closed).order
    ensures KeySum(Visible(positions, closed).order + more, HiddenShare(positions, closed, symbol))
            == KeySum(positions.order, HiddenShare(positions, closed, symbol))
  {
    var tail := Unlisted(closed.order, positions.entries) + more;
    UnlistedLaws(closed.order, positions.entries);
    assert Visible(positions, closed).order + more == positions.order + tail;
    assert forall k :: k in positions.order ==> k in Visible(positions, closed).order;
    assert forall k :: k in tail ==> QtyAt(positions.entries, symbol, k) == 0.0;
    KeySumZeroTail(positions.order, tail, HiddenShare(positions, closed, symbol));
  }

  /** What a reader sees plus what the archive hides is what was traded. */
  lemma SeenPlusHiddenIsTraded(tracker: PositionTracker, symbol: string)
    requires tracker.Valid()
    ensures InternalQty(tracker.GetOpenPositions(""), symbol) as real
            + InternalQty(Hidden(tracker.positions, tracker.closed), symbol) as real
            == SymbolTotal(tracker.history, symbol, QtyOf)
  {
    var positions, closed := tracker.positions, tracker.closed;
    VisibleIsValid(positions, closed);
    var all := Visible(positions, closed);
    FlatOnesDoNotCount(tracker.GetPositions(""), symbol);
    ListingQty(all.order, all.entries, symbol);
    ListingQty(Listed(positions.order, closed.entries), positions.entries, symbol);
    HiddenQty(positions.order, positions, closed, symbol);
    RegistersSplit(positions, closed, tracker.history, tracker.symbolOf, symbol);
  }

  /** Symbol by symbol, the broker holds what the reader sees plus what is hidden. */
  lemma BrokerHoldsSeenPlusHidden(tracker: PositionTracker, broker: PB.PaperBrokerClient, symbol: string)
    requires tracker.Valid() && broker.Valid() && broker.history == Mirror(tracker.history)
    ensures BrokerQty(NetEntries(broker.GetPositions()), symbol)
            == InternalQty(tracker.GetOpenPositions(""), symbol) + InternalQty(Hidden(tracker.positions, tracker.closed), symbol)
  {
    BrokerQtyIsNet(broker, symbol);
    BrokerSeesSymbolTotals(tracker.history, symbol, QtyOf);
    TotalsOfLots(PB.SymbolLots(broker.history, symbol));
    SeenPlusHiddenIsTraded(tracker, symbol);
  }

  lemma {:induction false} NothingListed(keys: seq<Key>, entries: map<Key, Position>)
    requires forall k :: k in keys ==> k !in entries
    ensures Listed(keys, entries) == []
  {
    if keys != [] { NothingListed(keys[1..], entries); }
  }

  lemma AgreementMeansNothingHidden(tracker: PositionTracker, broker: PB.PaperBrokerClient)
    requires tracker.Valid() && broker.Valid() && broker.history == Mirror(tracker.history)
    ensures BooksAgree(NetEntries(broker.GetPositions()), tracker.GetOpenPositions(""))
            <==> NothingHidden(Hidden(tracker.positions, tracker.closed))
    ensures tracker.Disjoint() ==> NothingHidden(Hidden(tracker.positions, tracker.closed))
  {
    var net, open, hidden := NetEntries(broker.GetPositions()), tracker.GetOpenPositions(""),
                             Hidden(tracker.positions, tracker.closed);
    forall s ensures BrokerQty(net, s) == InternalQty(open, s) + InternalQty(hidden, s) {
      BrokerHoldsSeenPlusHidden(tracker, broker, s);
    }
    if tracker.Disjoint() {
      NothingListed(tracker.positions.order, tracker.closed.entries);
    }
  }

  ghost predicate NothingHidden(hidden: seq<Position>) {
    forall s :: InternalQty(hidden, s) == 0
  }

  /** With the same fills in both books, the books agree exactly when what the archive hides nets to nothing. */
  method ReconcileBooks(tracker: PositionTracker, broker: PB.PaperBrokerClient) returns (verdict: Verdict)
    requires tracker.Valid() && broker.Valid() && broker.history == Mirror(tracker.history)
    ensures verdict.Agreed? <==> NothingHidden(Hidden(tracker.positions, tracker.closed))
    ensures tracker.Disjoint() ==> verdict.Agreed?
  {
    AgreementMeansNothingHidden(tracker, broker);
    var net, open := NetEntries(broker.GetPositions()), tracker.GetOpenPositions("");
    var r := Reconcile(Some(net), open);
    verdict := r.value;
  }

  // ---- After the kill switch ----

  /** The two books differ on a symbol after the kill switch: it was closed at the broker while readers of the internal
      book still see it, or it was left alone and part of it is hidden. */
  ghost predicate Differs(fills: seq<PB.BrokerFill>, open: seq<Position>, hidden: seq<Position>, symbol: string) {
    if KS.ClosedIn(fills, symbol) then InternalQty(open, symbol) != 0 else InternalQty(hidden, symbol) != 0
  }

  ghost predicate BooksDiffer(fills: seq<PB.BrokerFill>, open: seq<Position>, hidden: seq<Position>) {
    exists s :: Differs(fills, open, hidden, s)
  }

  /** The verdict names exactly the symbols on which the books differ, each once. */
  ghost predicate Reports(verdict: Verdict, fills: seq<PB.BrokerFill>, open: seq<Position>, hidden: seq<Position>) {
    && (verdict.Agreed? <==> !BooksDiffer(fills, open, hidden))
    && (verdict.Mismatch? ==>
          forall s :: Mentions(verdict.discrepancies, s) <==> Differs(fills, open, hidden, s))
    && (verdict.Mismatch? ==>
          forall i, j :: 0 <= i < j < |verdict.discrepancies| ==> verdict.discrepancies[i].symbol != verdict.discrepancies[j].symbol)
  }

  lemma BrokerAfterClosing(before: PB.Register, broker: PB.PaperBrokerClient, fills: seq<PB.BrokerFill>,
                           open: seq<Position>, hidden: seq<Position>, symbol: string)
    requires broker.Valid() && KS.Flattened(before, broker.positions, fills)
    requires PB.Held(before, symbol).quantity == InternalQty(open, symbol) + InternalQty(hidden, symbol)
    ensures BrokerQty(NetEntries(broker.GetPositions()), symbol) != InternalQty(open, symbol)
            <==> Differs(fills, open, hidden, symbol)
  {
    BrokerQtyIsHeld(broker, symbol);
    assert KS.FlatOrSame(before, broker.positions, fills, symbol);
  }

  /** What the kill switch closes was open at the broker. */
  lemma ClosedWasHeld(before: PB.Register, after: PB.Register, fills: seq<PB.BrokerFill>, symbol: string)
    requires KS.Flattened(before, after, fills) && KS.ClosedIn(fills, symbol)
    ensures PB.Held(before, symbol).quantity != 0
  {
    var i :| 0 <= i < |fills| && fills[i].symbol == symbol;
    assert KS.Undoes(fills[i], before);
  }

  /** With nothing hidden before, what differs is what was closed. */
  lemma ClosedOnesDiffer(before: PB.Register, after: PB.Register, fills: seq<PB.BrokerFill>,
                         open: seq<Position>, hidden: seq<Position>)
    requires KS.Flattened(before, after, fills) && NothingHidden(hidden)
    requires forall s :: PB.Held(before, s).quantity == InternalQty(open, s) + InternalQty(hidden, s)
    ensures forall s :: Differs(fills, open, hidden, s) <==> KS.ClosedIn(fills, s)
    ensures BooksDiffer(fills, open, hidden) <==> fills != []
  {
    forall s ensures Differs(fills, open, hidden, s) <==> KS.ClosedIn(fills, s) {
      assert InternalQty(hidden, s) == 0;
      if KS.ClosedIn(fills, s) { ClosedWasHeld(before, after, fills, s); }
    }
    if fills != [] {
      assert KS.ClosedIn(fills, fills[0].symbol);
      assert Differs(fills, open, hidden, fills[0].symbol);
    }
  }

  /** The orders of the kill switch go to the broker alone, so the internal book keeps every position they closed. If the
      books agreed, reconciliation reports a mismatch exactly when something was closed, and names exactly the symbols
      closed; whatever was hidden before, it names exactly the symbols on which the books then differ. */
  method ReconcileAfterKilling(tracker: PositionTracker, broker: PB.PaperBrokerClient, killSwitch: KS.KillSwitch,
                               ordersFail: bool, cancelRefuses: string -> bool, fetchFails: int -> bool,
                               refuses: (int, string) -> bool)
      returns (verdict: Verdict, ghost fills: seq<PB.BrokerFill>)
    requires tracker.Valid() && broker.Valid() && broker.history == Mirror(tracker.history)
    modifies killSwitch, broker`orders, broker`positions, broker`history
    ensures broker.Valid() && broker.history == old(broker.history) + fills
    ensures KS.Flattened(old(broker.positions), broker.positions, fills)
    ensures KS.ClosedAsTaken(old(broker.positions), broker.ltpCache, fetchFails, refuses, fills, KS.MAX_ATTEMPTS)
    ensures Reports(verdict, fills, tracker.GetOpenPositions(""), Hidden(tracker.positions, tracker.closed))
    ensures NothingHidden(Hidden(tracker.positions, tracker.closed)) ==>
      && (verdict.Mismatch? <==> fills != [])
      && (verdict.Mismatch? ==> forall s :: Mentions(verdict.discrepancies, s) <==> KS.ClosedIn(fills, s))
  {
    ghost var before, open, hidden := broker.positions, tracker.GetOpenPositions(""), Hidden(tracker.positions, tracker.closed);
    forall s ensures PB.Held(before, s).quantity == InternalQty(open, s) + InternalQty(hidden, s) {
      BrokerQtyIsHeld(broker, s);
      BrokerHoldsSeenPlusHidden(tracker, broker, s);
    }
    var summary;
    summary, fills := killSwitch.Activate(broker, ordersFail, cancelRefuses, fetchFails, refuses);
    var net := NetEntries(broker.GetPositions());
    var r := Reconcile(Some(net), tracker.GetOpenPositions(""));
    verdict := r.value;
    forall s ensures BrokerQty(net, s) != InternalQty(open, s) <==> Differs(fills, open, hidden, s) {
      BrokerAfterClosing(before, broker, fills, open, hidden, s);
    }
    VerdictReports(verdict, net, fills, open, hidden);
    if NothingHidden(hidden) { ClosedOnesDiffer(before, broker.positions, fills, open, hidden); }
  }

  lemma VerdictReports(verdict: Verdict, net: seq<NetEntry>, fills: seq<PB.BrokerFill>, open: seq<Position>, hidden: seq<Position>)
    requires verdict.Agreed? <==> BooksAgree(net, open)
    requires verdict.Mismatch? ==> ReportsExactly(verdict.discrepancies, BrokerBook(net), InternalBook(open))
    requires forall s :: BrokerQty(net, s) != InternalQty(open, s) <==> Differs(fills, open, hidden, s)
    ensures Reports(verdict, fills, open, hidden)
  {
    if verdict.Mismatch? {
      var ds := verdict.discrepancies;
      forall s ensures Mentions(ds, s) <==> Differs(fills, open, hidden, s) {
        if Mentions(ds, s) {
          var i :| 0 <= i < |ds| && ds[i].symbol == s;
          assert Correct(ds[i], BrokerBook(net), InternalBook(open));
        }
        assert BrokerBook(net)(s) == BrokerQty(net, s) && InternalBook(open)(s) == InternalQty(open, s);
      }
    }
  }

  /** A fill that re-opens an archived key hides the new position, and only that one, so from then on the
      two books are reported as different although both had every fill. */
  lemma ReopenedPositionIsHidden(positions: Register, closed: Register, key: Key, pos: Position)
    requires positions.Valid() && Separate(positions, closed)
    requires key in closed.entries && pos.quantity != 0
    ensures Hidden(OrderedDict(positions.order + [key], positions.entries[key := pos]), closed) == [pos]
    ensures Placed(positions, key, pos) == OrderedDict(positions.order + [key], positions.entries[key := pos])
    ensures InternalQty([pos], pos.symbol) != 0
  {
    NothingListed(positions.order, closed.entries);
    ListedSnoc(positions.order, key, closed.entries);
    OneListed(key, positions.entries[key := pos]);
    assert Listed(positions.order + [key], closed.entries) == [key];
    assert [pos][..0] == [];
  }

  lemma OneListed(key: Key, entries: map<Key, Position>)
    requires key in entries
    ensures Listing([key], entries, "") == [entries[key]]
  {
    assert [key][1..] == [];
  }

  // ---- The money side ----

  ghost function BookAt(entries: map<Key, Position>, symbol: string, k: Key): real {
    if k in entries && entries[k].symbol == symbol then Book(entries[k].Holding()) else 0.0
  }

  ghost function BookShare(entries: map<Key, Position>, symbol: string): Key -> real {
    k => BookAt(entries, symbol, k)
  }

  ghost predicate NeverArchived(history: seq<Fill>) {
    forall k :: LastRoundTrip(KeyLots(history, k)) == []
  }

  lemma {:induction false} OneEpisode(lots: seq<Lot>)
    requires LastRoundTrip(lots) == []
    ensures Episode(lots) == lots
  {
    if lots != [] {
      OneEpisode(lots[..|lots| - 1]);
    }
  }

  lemma KeyBooks(positions: Register, closed: Register, history: seq<Fill>, symbolOf: int -> string, symbol: string, k: Key)
    requires Consistent(positions, closed, history) && Named(positions, symbolOf)
    requires LastRoundTrip(KeyLots(history, k)) == []
    ensures KeyShare(history, symbolOf, symbol, CashOf)(k) == BookAt(positions.entries, symbol, k)
  {
    var lots := KeyLots(history, k);
    assert ConsistentAt(positions, closed, history, k);
    OneEpisode(lots);
    TotalsOfLots(lots);
    CashIsConserved(lots);
  }

  /** As long as nothing was ever closed, the two ledgers also agree on money: the broker's realised profit
      less the cost of what it holds is, symbol by symbol, the sum of the same figure over the strategies. */
  lemma MoneyAgrees(positions: Register, closed: Register, history: seq<Fill>, symbolOf: int -> string,
                    broker: PB.Register, symbol: string)
    requires positions.Valid() && Consistent(positions, closed, history)
    requires Named(positions, symbolOf) && NamedFills(history, symbolOf) && NeverArchived(history)
    requires PB.Consistent(broker, Mirror(history))
    ensures Book(PB.Held(broker, symbol)) == KeySum(positions.order, BookShare(positions.entries, symbol))
  {
    assert PB.ConsistentAt(broker, Mirror(history), symbol);
    var lots := PB.SymbolLots(Mirror(history), symbol);
    CashIsConserved(lots);
    TotalsOfLots(lots);
    BrokerSeesSymbolTotals(history, symbol, CashOf);

    var more := Covering(positions.order, history);
    var keys := positions.order + more;
    var cash, book := KeyShare(history, symbolOf, symbol, CashOf), BookShare(positions.entries, symbol);
    forall k ensures cash(k) == book(k) { KeyBooks(positions, closed, history, symbolOf, symbol, k); }
    ByKeyIsBySymbol(keys, history, symbolOf, symbol, CashOf);
    KeySumSame(keys, cash, book);
    KeySumZeroTail(positions.order, more, book);
  }
}
