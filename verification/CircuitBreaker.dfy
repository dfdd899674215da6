/** The circuit breaker: halts trading on a day loss, a rapid loss or a long disconnection. */
module CircuitBreaking {
  import opened Collections

  datatype State = CLOSED | OPEN | HALF_OPEN

  datatype Snapshot = Snapshot(time: real, pnl: real)

  datatype Limits = Limits(maxDayLoss: real, rapidLoss: real, window: real, disconnectThreshold: real, autoResetMinutes: int)

  const MAX_SNAPSHOTS := 100

  // ---- The rapid-loss rule ----

  function Recent(snaps: seq<Snapshot>, cutoff: real): (r: seq<Snapshot>) {
    if snaps == [] then []
    else
      var last := snaps[|snaps| - 1];
      Recent(snaps[..|snaps| - 1], cutoff) + if last.time >= cutoff then [last] else []
  }

  function Peak(snaps: seq<Snapshot>): real
    requires snaps != []
  {
    if |snaps| == 1 then snaps[0].pnl else MaxR(Peak(snaps[..|snaps| - 1]), snaps[|snaps| - 1].pnl)
  }

  /** The breaker's own test on the snapshots it still holds. */
  predicate RapidLoss(snaps: seq<Snapshot>, cutoff: real, amount: real) {
    var recent := Recent(snaps, cutoff);
    |recent| >= 2 && recent[|recent| - 1].pnl - Peak(recent) < -amount
  }

  ghost predicate Ordered(snaps: seq<Snapshot>) {
    forall i, j :: 0 <= i < j < |snaps| ==> snaps[i].time <= snaps[j].time
  }

  /** Some snapshot inside the window is more than `amount` above pnl. */
  ghost predicate FellFrom(snaps: seq<Snapshot>, cutoff: real, pnl: real, amount: real) {
    exists i :: 0 <= i < |snaps| && snaps[i].time >= cutoff && pnl < snaps[i].pnl - amount
  }

  lemma {:induction false} RecentLaws(snaps: seq<Snapshot>, cutoff: real)
    ensures forall s :: s in Recent(snaps, cutoff) <==> s in snaps && s.time >= cutoff
    ensures |Recent(snaps, cutoff)| <= |snaps|
  {
    if snaps != [] {
      var rest, last := snaps[..|snaps| - 1], snaps[|snaps| - 1];
      RecentLaws(rest, cutoff);
      assert snaps == rest + [last];
    }
  }

  lemma {:induction false} PeakLaws(snaps: seq<Snapshot>)
    requires snaps != []
    ensures forall s :: s in snaps ==> s.pnl <= Peak(snaps)
    ensures exists i :: 0 <= i < |snaps| && snaps[i].pnl == Peak(snaps)
  {
    if |snaps| == 1 {
      assert snaps[0].pnl == Peak(snaps);
    } else {
      var rest, last := snaps[..|snaps| - 1], snaps[|snaps| - 1];
      PeakLaws(rest);
      assert snaps == rest + [last];
      var i :| 0 <= i < |rest| && rest[i].pnl == Peak(rest);
      assert snaps[i].pnl == Peak(rest) && snaps[|snaps| - 1] == last;
    }
  }

  /** The test says what it should: the latest profit has fallen by more than the amount from one in the window. */
  lemma RapidLossIsFall(snaps: seq<Snapshot>, cutoff: real, amount: real)
    requires snaps != [] && snaps[|snaps| - 1].time >= cutoff && amount >= 0.0
    ensures RapidLoss(snaps, cutoff, amount) <==> FellFrom(snaps, cutoff, snaps[|snaps| - 1].pnl, amount)
  {
    var recent, last := Recent(snaps, cutoff), snaps[|snaps| - 1];
    RecentLaws(snaps, cutoff);
    assert recent[|recent| - 1] == last;
    PeakLaws(recent);
    var i :| 0 <= i < |recent| && recent[i].pnl == Peak(recent);
    if RapidLoss(snaps, cutoff, amount) {
      assert recent[i] in snaps;
      var j :| 0 <= j < |snaps| && snaps[j] == recent[i];
      assert FellFrom(snaps, cutoff, last.pnl, amount);
    }
    if FellFrom(snaps, cutoff, last.pnl, amount) {
      var j :| 0 <= j < |snaps| && snaps[j].time >= cutoff && last.pnl < snaps[j].pnl - amount;
      assert snaps[j] in recent;
      var k :| 0 <= k < |recent| && recent[k] == snaps[j];
      assert k != |recent| - 1;
    }
  }

  // ---- The bounded buffer against the full history ----

  /** Some snapshot that no longer fits in the buffer, yet is inside the window, is more than `amount` above pnl. */
  ghost predicate ForgottenFall(history: seq<Snapshot>, cutoff: real, pnl: real, amount: real) {
    |history| > MAX_SNAPSHOTS && FellFrom(history[..|history| - MAX_SNAPSHOTS], cutoff, pnl, amount)
  }

  /** What the buffer misses is exactly the falls from forgotten snapshots. */
  lemma BufferMissesOnlyForgotten(history: seq<Snapshot>, cutoff: real, pnl: real, amount: real)
    ensures FellFrom(history, cutoff, pnl, amount)
            <==> FellFrom(Newest(history, MAX_SNAPSHOTS), cutoff, pnl, amount) || ForgottenFall(history, cutoff, pnl, amount)
  {
    var kept := Newest(history, MAX_SNAPSHOTS);
    var d := |history| - |kept|;
    assert forall i :: 0 <= i < |kept| ==> kept[i] == history[d + i];
    if FellFrom(history, cutoff, pnl, amount) {
      var i :| 0 <= i < |history| && history[i].time >= cutoff && pnl < history[i].pnl - amount;
      if i >= d {
        assert kept[i - d] == history[i];
      } else {
        assert history[..d][i] == history[i];
      }
    }
    if ForgottenFall(history, cutoff, pnl, amount) {
      var i :| 0 <= i < d && history[..d][i].time >= cutoff && pnl < history[..d][i].pnl - amount;
      assert history[i] == history[..d][i];
    }
  }

  /** Nothing is forgotten while at most a hundred snapshots fall into the window. */
  lemma {:induction false} SmallWindowForgetsNothing(history: seq<Snapshot>, cutoff: real, pnl: real, amount: real)
    requires Ordered(history) && |Recent(history, cutoff)| <= MAX_SNAPSHOTS
    ensures !ForgottenFall(history, cutoff, pnl, amount)
  {
    if ForgottenFall(history, cutoff, pnl, amount) {
      var d := |history| - MAX_SNAPSHOTS;
      var i :| 0 <= i < d && history[..d][i].time >= cutoff;
      assert history[i].time >= cutoff;
      assert history[..|history|] == history;
      SuffixIsRecent(history, cutoff, i, |history|);
    }
  }

  lemma {:induction false} SuffixIsRecent(history: seq<Snapshot>, cutoff: real, i: nat, n: nat)
    requires Ordered(history) && i < n <= |history| && history[i].time >= cutoff
    ensures |Recent(history[..n], cutoff)| >= n - i
  {
    assert history[..n][..n - 1] == history[..n - 1];
    assert history[i].time <= history[n - 1].time || n - 1 == i;
    if n - 1 > i { SuffixIsRecent(history, cutoff, i, n - 1); }
  }

  /** 101 snapshots in one window: the first, higher by 6000, is forgotten when the last comes in. */
  ghost function CrowdedWindow(): seq<Snapshot> {
    seq(101, i => Snapshot(i as real, if i == 0 then 6000.0 else 0.0))
  }

  lemma CrowdedWindowHidesThePeak()
    ensures Ordered(CrowdedWindow()) && |CrowdedWindow()| == MAX_SNAPSHOTS + 1
    ensures FellFrom(CrowdedWindow(), -200.0, 0.0, 5000.0)
    ensures !RapidLoss(Newest(CrowdedWindow(), MAX_SNAPSHOTS), -200.0, 5000.0)
  {
    var h := CrowdedWindow();
    var kept := Newest(h, MAX_SNAPSHOTS);
    assert h[0] == Snapshot(0.0, 6000.0);
    assert forall i :: 0 <= i < |kept| ==> kept[i] == h[i + 1] && kept[i].pnl == 0.0;
    RapidLossIsFall(kept, -200.0, 5000.0);
  }

  // ---- The breaker ----

  /** A loss beyond the day's limit, or a fall of more than the amount from a profit in the window. */
  ghost predicate CallsForHalt(limits: Limits, snaps: seq<Snapshot>, pnl: real, now: real) {
    pnl < -limits.maxDayLoss || FellFrom(snaps, now - limits.window, pnl, limits.rapidLoss)
  }

  /** The two tests on the latest of the snapshots, the day's loss first. */
  method Alarming(limits: Limits, snaps: seq<Snapshot>, now: real) returns (alarming: bool)
    requires limits.window >= 0.0 && limits.rapidLoss >= 0.0 && snaps != [] && snaps[|snaps| - 1].time == now
    ensures alarming <==> CallsForHalt(limits, snaps, snaps[|snaps| - 1].pnl, now)
  {
    if snaps[|snaps| - 1].pnl < -limits.maxDayLoss {
      return true;
    }
    alarming := RapidLoss(snaps, now - limits.window, limits.rapidLoss);
    SecondTest(limits, snaps, now, alarming);
  }

  lemma SecondTest(limits: Limits, snaps: seq<Snapshot>, now: real, rapid: bool)
    requires limits.window >= 0.0 && limits.rapidLoss >= 0.0 && snaps != [] && snaps[|snaps| - 1].time == now
    requires rapid == RapidLoss(snaps, now - limits.window, limits.rapidLoss)
    requires snaps[|snaps| - 1].pnl >= -limits.maxDayLoss
    ensures rapid <==> CallsForHalt(limits, snaps, snaps[|snaps| - 1].pnl, now)
  {
    RapidLossIsFall(snaps, now - limits.window, limits.rapidLoss);
  }

  class CircuitBreaker {
    const limits: Limits
    var state: State
    var triggeredAt: Option<real>
    var snapshots: seq<Snapshot>
    var disconnectSince: Option<real>
    ghost var history: seq<Snapshot>   // every profit seen since the last effective reset
    ghost var clock: real

    ghost predicate Valid()
      reads this
    {
      && limits.window >= 0.0 && limits.rapidLoss >= 0.0
      && snapshots == Newest(history, MAX_SNAPSHOTS)
      && Ordered(history) && (forall i :: 0 <= i < |history| ==> history[i].time <= clock)
      && (state == OPEN ==> triggeredAt.Some?)
    }

    predicate IsActive()
      reads this
    {
      state != CLOSED
    }

    constructor (limits: Limits, ghost now: real)
      requires limits.window >= 0.0 && limits.rapidLoss >= 0.0
      ensures Valid() && state == CLOSED && history == [] && this.limits == limits && clock == now
      ensures triggeredAt == None && disconnectSince == None
    {
      this.limits := limits;
      state, triggeredAt, snapshots, disconnectSince := CLOSED, None, [], None;
      history, clock := [], now;
    }

    predicate AutoResets(now: real)
      reads this
    {
      state == OPEN && limits.autoResetMinutes > 0 && triggeredAt.Some?
      && (now - triggeredAt.value) / 60.0 >= limits.autoResetMinutes as real
    }

    /** The timer lifts a halt from so many minutes after the trip on, and never when it is set to none. */
    lemma TimerLiftsAfter(now: real)
      requires Valid()
      ensures AutoResets(now) <==>
        state == OPEN && limits.autoResetMinutes > 0 && now >= triggeredAt.value + 60.0 * limits.autoResetMinutes as real
    {
      if state == OPEN { Minutes(now - triggeredAt.value, limits.autoResetMinutes as real); }
    }

    /** Whether the profits seen so far, ending in this one, call for a halt. */
    ghost predicate Alarm(profits: seq<Snapshot>, pnl: real, now: real)
      reads this
    {
      CallsForHalt(limits, Newest(profits, MAX_SNAPSHOTS), pnl, now)
    }

    /** The buffer drops its oldest snapshot when it is full. */
    method Record(snap: Snapshot, ghost later: real)
      requires Valid() && clock <= snap.time <= later
      modifies this`snapshots, this`history, this`clock
      ensures Valid() && history == old(history) + [snap] && clock == later
      ensures snapshots != [] && snapshots[|snapshots| - 1] == snap
    {
      NewestGrows(history, snap, MAX_SNAPSHOTS);
      snapshots := Newest(snapshots + [snap], MAX_SNAPSHOTS);
      history, clock := history + [snap], later;
    }

    /** One reading of the day's profit at `now`; a trip is stamped by a second look at the clock. A halt is lifted
        here only by the timer, and apart from that the breaker ends open exactly when it was open or the reading
        is alarming. */
    method CheckPnl(pnl: real, now: real, later: real)
      requires Valid() && clock <= now <= later
      modifies this`state, this`triggeredAt, this`snapshots, this`history, this`clock
      ensures Valid() && clock == later
      ensures old(AutoResets(now)) ==> state == CLOSED && history == [] && triggeredAt == None
      ensures !old(AutoResets(now)) ==>
        && history == old(history) + [Snapshot(now, pnl)]
        && (state == OPEN <==> old(state) == OPEN || Alarm(history, pnl, now))
        && (state != OPEN ==> state == old(state))
        && triggeredAt == if old(state) != OPEN && state == OPEN then Some(later) else old(triggeredAt)
    {
      Record(Snapshot(now, pnl), later);
      if AutoResets(now) {
        Reset();
        return;
      }
      var alarming := Alarming(limits, snapshots, now);
      if alarming {
        Trip(later);
      }
    }

    /** After a reading that leaves trading running and the timer did not lift a halt, the profit is within the
        day limit and within the rapid-loss amount of every profit in the window, provided the window is not
        overcrowded. */
    lemma RunningMeansWithinLimits(pnl: real, now: real)
      requires Valid() && history != [] && history[|history| - 1] == Snapshot(now, pnl)
      requires !Alarm(history, pnl, now)
      requires |Recent(history, now - limits.window)| <= MAX_SNAPSHOTS
      ensures pnl >= -limits.maxDayLoss
      ensures forall i :: 0 <= i < |history| && history[i].time >= now - limits.window ==>
        pnl >= history[i].pnl - limits.rapidLoss
    {
      BufferMissesOnlyForgotten(history, now - limits.window, pnl, limits.rapidLoss);
      SmallWindowForgetsNothing(history, now - limits.window, pnl, limits.rapidLoss);
    }

    /** An alarm, crowded window or not, means a loss beyond the day limit or a fall by more than the amount from some
        profit in the window. */
    lemma AlarmMeansBeyondLimits(pnl: real, now: real)
      requires Valid() && history != [] && history[|history| - 1] == Snapshot(now, pnl) && Alarm(history, pnl, now)
      ensures pnl < -limits.maxDayLoss
              || exists i :: 0 <= i < |history| && history[i].time >= now - limits.window && pnl < history[i].pnl - limits.rapidLoss
    {
      if pnl >= -limits.maxDayLoss {
        BufferMissesOnlyForgotten(history, now - limits.window, pnl, limits.rapidLoss);
      }
    }

    method Trip(now: real)
      requires Valid()
      modifies this`state, this`triggeredAt
      ensures Valid() && state == OPEN
      ensures triggeredAt == if old(state) == OPEN then old(triggeredAt) else Some(now)
    {
      if state == OPEN {
        return;
      }
      state := OPEN;
      triggeredAt := Some(now);
    }

    /** Effective only when not closed; then the profits seen so far are forgotten as well. */
    method Reset()
      requires Valid()
      modifies this`state, this`triggeredAt, this`snapshots, this`history
      ensures Valid() && state == CLOSED
      ensures old(state) == CLOSED ==> history == old(history) && triggeredAt == old(triggeredAt)
      ensures old(state) != CLOSED ==> history == [] && triggeredAt == None
    {
      if state == CLOSED {
        return;
      }
      state := CLOSED;
      triggeredAt := None;
      snapshots := [];
      history := [];
    }

    method HalfOpen()
      requires Valid()
      modifies this`state
      ensures Valid() && state == HALF_OPEN
    {
      state := HALF_OPEN;
    }

    method OnDisconnect(now: real)
      requires Valid()
      modifies this`disconnectSince
      ensures Valid() && disconnectSince == Some(now)
    {
      disconnectSince := Some(now);
    }

    method OnReconnect(now: real, later: real)
      requires Valid()
      modifies this`disconnectSince, this`state, this`triggeredAt
      ensures Valid() && disconnectSince == None
      ensures state == if old(disconnectSince).Some? && now - old(disconnectSince).value > limits.disconnectThreshold
                       then OPEN else old(state)
      ensures triggeredAt == if old(state) != OPEN && state == OPEN then Some(later) else old(triggeredAt)
    {
      if disconnectSince.Some? {
        if now - disconnectSince.value > limits.disconnectThreshold {
          Trip(later);
        }
        disconnectSince := None;
      }
    }
  }

  lemma Minutes(seconds: real, minutes: real)
    ensures seconds / 60.0 >= minutes <==> seconds >= 60.0 * minutes
  {
  }
}
