/** Duplicate-order prevention: a sliding window over recently accepted orders. */
module Dedup {
  import opened Collections
  import opened Ledger

  /** What makes two orders the same: the six fields that go into the key, the price as it is written out. */
  datatype Identity = Identity(strategy: string, token: int, side: Side, quantity: int, orderType: string, price: string)

  datatype Accepted = Accepted(id: Identity, at: real)

  type Window = OrderedDict<Identity, real>

  /** The reference: look through everything accepted so far for the same order within the window. */
  ghost predicate Seen(accepted: seq<Accepted>, id: Identity, cutoff: real) {
    exists i :: 0 <= i < |accepted| && accepted[i].id == id && accepted[i].at >= cutoff
  }

  /** Two accepted orders of one identity are more than a window apart. */
  ghost predicate Apart(accepted: seq<Accepted>, window: real) {
    forall i, j :: 0 <= i < j < |accepted| && accepted[i].id == accepted[j].id ==> accepted[j].at - accepted[i].at > window
  }

  ghost predicate OldestFirst(recent: Window)
    requires recent.Valid()
  {
    forall i, j :: 0 <= i < j < |recent.order| ==> recent.entries[recent.order[i]] <= recent.entries[recent.order[j]]
  }

  /** Whether an accepted order is still remembered, or is older than the horizon. */
  ghost predicate Remembered(recent: Window, a: Accepted, horizon: real) {
    a.at < horizon || (a.id in recent.entries && recent.entries[a.id] == a.at)
  }

  /** The window holds exactly what was accepted since the horizon, oldest first. */
  ghost predicate Covers(recent: Window, accepted: seq<Accepted>, horizon: real, now: real) {
    && recent.Valid() && OldestFirst(recent)
    && (forall i :: 0 <= i < |accepted| ==> Remembered(recent, accepted[i], horizon))
    && (forall k :: WasAccepted(recent, accepted, now, k))
  }

  ghost predicate WasAccepted(recent: Window, accepted: seq<Accepted>, now: real, k: Identity) {
    k in recent.entries ==> Accepted(k, recent.entries[k]) in accepted && recent.entries[k] <= now
  }

  /** Drops from the front until the oldest entry is inside the window: exactly the expired entries go. */
  method Cleanup(recent: Window, cutoff: real) returns (kept: Window)
    requires recent.Valid() && OldestFirst(recent)
    ensures kept.Valid() && OldestFirst(kept)
    ensures forall k :: k in kept.entries <==> k in recent.entries && recent.entries[k] >= cutoff
    ensures forall k :: k in kept.entries ==> kept.entries[k] == recent.entries[k]
    ensures exists n :: 0 <= n <= |recent.order| && kept.order == recent.order[n..]
  {
    kept := recent;
    ghost var n := 0;
    while kept.order != []
      invariant Trimmed(recent, kept, cutoff, n)
      decreases |kept.order|
    {
      var oldest := kept.order[0];
      if kept.entries[oldest] < cutoff {
        TrimOne(recent, kept, cutoff, n);
        kept := kept.Remove(oldest);
        n := n + 1;
      } else {
        break;
      }
    }
    TrimIsDone(recent, kept, cutoff, n);
  }

  /** The first n entries are gone, all of them expired. */
  ghost predicate Trimmed(recent: Window, kept: Window, cutoff: real, n: nat) {
    && n <= |recent.order| && kept.order == recent.order[n..] && kept.Valid()
    && forall k :: KeptOrExpired(recent, kept, cutoff, k)
  }

  ghost predicate KeptOrExpired(recent: Window, kept: Window, cutoff: real, k: Identity) {
    && (k in kept.entries ==> k in recent.entries && kept.entries[k] == recent.entries[k])
    && (k in recent.entries && k !in kept.entries ==> recent.entries[k] < cutoff)
  }

  lemma TrimOne(recent: Window, kept: Window, cutoff: real, n: nat)
    requires Trimmed(recent, kept, cutoff, n) && kept.order != [] && kept.entries[kept.order[0]] < cutoff
    ensures Trimmed(recent, kept.Remove(kept.order[0]), cutoff, n + 1)
    ensures |kept.Remove(kept.order[0]).order| < |kept.order|
  {
    var oldest := kept.order[0];
    kept.RemoveKeepsOrder(oldest);
    assert recent.order[n..][1..] == recent.order[n + 1..];
    forall k ensures KeptOrExpired(recent, kept.Remove(oldest), cutoff, k) {
      assert KeptOrExpired(recent, kept, cutoff, k);
    }
  }

  lemma TrimIsDone(recent: Window, kept: Window, cutoff: real, n: nat)
    requires recent.Valid() && OldestFirst(recent) && Trimmed(recent, kept, cutoff, n)
    requires kept.order != [] ==> kept.entries[kept.order[0]] >= cutoff
    ensures OldestFirst(kept)
    ensures forall k :: k in kept.entries <==> k in recent.entries && recent.entries[k] >= cutoff
    ensures forall k :: k in kept.entries ==> kept.entries[k] == recent.entries[k]
  {
    forall i, j | 0 <= i < j < |kept.order| ensures kept.entries[kept.order[i]] <= kept.entries[kept.order[j]] {
      assert kept.order[i] == recent.order[n + i] && kept.order[j] == recent.order[n + j];
      assert KeptOrExpired(recent, kept, cutoff, kept.order[i]) && KeptOrExpired(recent, kept, cutoff, kept.order[j]);
    }
    forall k ensures k in kept.entries <==> k in recent.entries && recent.entries[k] >= cutoff {
      assert KeptOrExpired(recent, kept, cutoff, k);
      if k in kept.entries { OldestIsLeast(kept); }
    }
    forall k | k in kept.entries ensures kept.entries[k] == recent.entries[k] { assert KeptOrExpired(recent, kept, cutoff, k); }
  }

  lemma OldestIsLeast(recent: Window)
    requires recent.Valid() && OldestFirst(recent) && recent.order != []
    ensures forall k :: k in recent.entries ==> recent.entries[recent.order[0]] <= recent.entries[k]
  {
    forall k | k in recent.entries ensures recent.entries[recent.order[0]] <= recent.entries[k] {
      assert k in recent.order;
      var i :| 0 <= i < |recent.order| && recent.order[i] == k;
    }
  }

  /** After the cleanup, being in the window is having been accepted inside it. */
  lemma CleanupCovers(recent: Window, kept: Window, accepted: seq<Accepted>, horizon: real, cutoff: real, now: real)
    requires Covers(recent, accepted, horizon, now) && horizon <= cutoff
    requires kept.Valid() && OldestFirst(kept)
    requires forall k :: k in kept.entries <==> k in recent.entries && recent.entries[k] >= cutoff
    requires forall k :: k in kept.entries ==> kept.entries[k] == recent.entries[k]
    ensures Covers(kept, accepted, cutoff, now)
    ensures forall id :: id in kept.entries <==> Seen(accepted, id, cutoff)
  {
    forall i | 0 <= i < |accepted| ensures Remembered(kept, accepted[i], cutoff) {
      assert Remembered(recent, accepted[i], horizon);
    }
    forall k ensures WasAccepted(kept, accepted, now, k) { assert WasAccepted(recent, accepted, now, k); }
    forall id ensures id in kept.entries <==> Seen(accepted, id, cutoff) {
      assert WasAccepted(recent, accepted, now, id);
      if id in kept.entries {
        var a := Accepted(id, recent.entries[id]);
        assert a in accepted;
      }
      if Seen(accepted, id, cutoff) {
        var i :| 0 <= i < |accepted| && accepted[i].id == id && accepted[i].at >= cutoff;
        assert Remembered(kept, accepted[i], cutoff);
      }
    }
  }

  /** Accepting an order not in the window keeps the window faithful and equal orders apart. */
  lemma AcceptCovers(recent: Window, accepted: seq<Accepted>, cutoff: real, id: Identity, now: real, at: real, window: real)
    requires Covers(recent, accepted, cutoff, now) && now <= at && cutoff <= at - window
    requires id !in recent.entries && Apart(accepted, window)
    ensures Covers(recent.Put(id, at), accepted + [Accepted(id, at)], cutoff, at)
    ensures Apart(accepted + [Accepted(id, at)], window)
  {
    var more, after := accepted + [Accepted(id, at)], recent.Put(id, at);
    recent.PutKeepsOrder(id, at);
    forall i | 0 <= i < |more| ensures Remembered(after, more[i], cutoff) {
      if i < |accepted| { assert Remembered(recent, accepted[i], cutoff); }
    }
    forall k ensures WasAccepted(after, more, at, k) {
      assert WasAccepted(recent, accepted, now, k);
      if k == id { assert more[|accepted|] == Accepted(id, at); }
    }
    forall i, j | 0 <= i < j < |after.order| ensures after.entries[after.order[i]] <= after.entries[after.order[j]] {
      assert WasAccepted(recent, accepted, now, after.order[i]);
    }
    forall i, j | 0 <= i < j < |more| && more[i].id == more[j].id ensures more[j].at - more[i].at > window {
      if j == |accepted| { assert Remembered(recent, accepted[i], cutoff); }
    }
  }

  lemma StillCovers(recent: Window, accepted: seq<Accepted>, horizon: real, now: real, later: real)
    requires Covers(recent, accepted, horizon, now) && now <= later
    ensures Covers(recent, accepted, horizon, later)
  {
    forall k ensures WasAccepted(recent, accepted, later, k) { assert WasAccepted(recent, accepted, now, k); }
  }

  /** One check on the window as a value: what is remembered afterwards, and whether the order goes through. */
  method Sweep(recent: Window, id: Identity, now: real, later: real, window: real,
               ghost accepted: seq<Accepted>, ghost horizon: real, ghost clock: real)
    returns (ok: bool, after: Window, ghost nowAccepted: seq<Accepted>)
    requires Covers(recent, accepted, horizon, clock) && Apart(accepted, window)
    requires clock <= now <= later && horizon <= clock - window
    ensures ok <==> !Seen(accepted, id, now - window)
    ensures nowAccepted == if ok then accepted + [Accepted(id, later)] else accepted
    ensures Covers(after, nowAccepted, now - window, later) && Apart(nowAccepted, window)
  {
    after := Cleanup(recent, now - window);
    CleanupCovers(recent, after, accepted, horizon, now - window, clock);
    ok := id !in after.entries;
    nowAccepted := accepted;
    if ok {
      AcceptCovers(after, accepted, now - window, id, clock, later, window);
      after := after.Put(id, later);
      nowAccepted := accepted + [Accepted(id, later)];
    } else {
      StillCovers(after, accepted, now - window, clock, later);
    }
  }

  class OrderDeduplicator {
    const window: real
    var recent: Window
    ghost var accepted: seq<Accepted>
    ghost var horizon: real
    ghost var clock: real

    ghost predicate Valid()
      reads this
    {
      Covers(recent, accepted, horizon, clock) && Apart(accepted, window) && horizon <= clock - window
    }

    constructor (window: real, ghost now: real)
      ensures Valid() && accepted == [] && this.window == window && clock == now
    {
      this.window := window;
      recent := OrderedDict([], map[]);
      accepted, horizon, clock := [], now - window, now;
    }

    /** The clock is read twice: `now` when expired entries are dropped, `later` when the order is recorded.
        The order goes through exactly when no equal order was accepted in the window that ends now. */
    method Check(id: Identity, now: real, later: real) returns (ok: bool)
      requires Valid() && clock <= now <= later
      modifies this
      ensures Valid() && clock == later
      ensures ok <==> !Seen(old(accepted), id, now - window)
      ensures accepted == if ok then old(accepted) + [Accepted(id, later)] else old(accepted)
    {
      var after;
      ghost var nowAccepted;
      ok, after, nowAccepted := Sweep(recent, id, now, later, window, accepted, horizon, clock);
      recent, accepted, horizon, clock := after, nowAccepted, now - window, later;
    }
  }
}
