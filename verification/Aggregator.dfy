/** Candles: ticks grouped into aligned time buckets, at several timeframes at once. */
module Aggregator {
  import opened Collections

  datatype Timeframe = M1 | M3 | M5 | M15 | M30 | H1 | D1

  function Seconds(tf: Timeframe): (s: int)
    ensures s > 0
  {
    match tf
    case M1 => 60 case M3 => 180 case M5 => 300 case M15 => 900 case M30 => 1800 case H1 => 3600 case D1 => 86400
  }

  /** A tick; its time in whole seconds, its volume the exchange's running total for the day. */
  datatype Tick = Tick(token: int, symbol: string, ltp: real, volume: int, oi: int, time: int)

  datatype Candle = Candle(token: int, symbol: string, start: int, timeframe: Timeframe,
                           open: real, high: real, low: real, close: real, volume: int, oi: int)

  /** The candle boundary at or before a time. */
  function Align(time: int, tf: Timeframe): int { time - time % Seconds(tf) }

  // ---- One candle ----

  datatype Builder = Builder(token: int, symbol: string, timeframe: Timeframe, open: Option<real>, high: real, low: real,
                             close: real, volume: int, oi: int, start: int, firstVolume: int) {

    /** The high and low of an empty builder are minus and plus infinity: the first tick sets both. */
    function Update(t: Tick): Builder {
      var b := if open.None? then this.(open := Some(t.ltp), high := t.ltp, low := t.ltp, start := Align(t.time, timeframe),
                                        firstVolume := t.volume)
               else this;
      b.(high := MaxR(b.high, t.ltp), low := MinR(b.low, t.ltp), close := t.ltp,
         volume := Max(0, t.volume - b.firstVolume), oi := t.oi)
    }

    function ToOhlc(): Option<Candle> {
      if open.None? then None else Some(Candle(token, symbol, start, timeframe, open.value, high, low, close, volume, oi))
    }

    function Reset(): Builder { Fresh(token, symbol, timeframe) }
  }

  function Fresh(token: int, symbol: string, tf: Timeframe): Builder {
    Builder(token, symbol, tf, None, 0.0, 0.0, 0.0, 0, 0, 0, 0)
  }

  function Highest(ticks: seq<Tick>): real
    requires ticks != []
  {
    if |ticks| == 1 then ticks[0].ltp else MaxR(Highest(ticks[..|ticks| - 1]), ticks[|ticks| - 1].ltp)
  }

  function Lowest(ticks: seq<Tick>): real
    requires ticks != []
  {
    if |ticks| == 1 then ticks[0].ltp else MinR(Lowest(ticks[..|ticks| - 1]), ticks[|ticks| - 1].ltp)
  }

  /** The candle of a group of ticks. */
  function CandleOf(ticks: seq<Tick>, symbol: string, tf: Timeframe): Candle
    requires ticks != []
  {
    var first, last := ticks[0], ticks[|ticks| - 1];
    Candle(first.token, symbol, Align(first.time, tf), tf, first.ltp, Highest(ticks), Lowest(ticks), last.ltp,
           Max(0, last.volume - first.volume), last.oi)
  }

  ghost predicate Holds(b: Builder, ticks: seq<Tick>, token: int, symbol: string, tf: Timeframe) {
    if ticks == [] then b == Fresh(token, symbol, tf)
    else b.ToOhlc() == Some(CandleOf(ticks, symbol, tf)) && b.token == token && b.firstVolume == ticks[0].volume
  }

  lemma UpdateHolds(b: Builder, ticks: seq<Tick>, t: Tick, symbol: string, tf: Timeframe)
    requires Holds(b, ticks, t.token, symbol, tf)
    ensures Holds(b.Update(t), ticks + [t], t.token, symbol, tf)
  {
    assert (ticks + [t])[..|ticks|] == ticks;
  }

  // ---- Grouping ----

  /** The ticks of one instrument. */
  ghost function Of(history: seq<Tick>, token: int): seq<Tick> {
    if history == [] then []
    else
      var rest, last := Of(history[..|history| - 1], token), history[|history| - 1];
      if last.token == token then rest + [last] else rest
  }

  /** The tick is past the end of the candle these ticks began. */
  predicate Rolls(group: seq<Tick>, t: Tick, tf: Timeframe) {
    group != [] && t.time >= Align(group[0].time, tf) + Seconds(tf)
  }

  /** The ticks of the candle being built. */
  ghost function Building(ticks: seq<Tick>, tf: Timeframe): (g: seq<Tick>)
    ensures ticks == [] <==> g == []
  {
    if ticks == [] then []
    else
      var before, t := Building(ticks[..|ticks| - 1], tf), ticks[|ticks| - 1];
      if Rolls(before, t, tf) then [t] else before + [t]
  }

  /** The groups of ticks of the candles already closed, oldest first. */
  ghost function Closed(ticks: seq<Tick>, tf: Timeframe): seq<seq<Tick>> {
    if ticks == [] then []
    else
      var past, t := ticks[..|ticks| - 1], ticks[|ticks| - 1];
      if Rolls(Building(past, tf), t, tf) then Closed(past, tf) + [Building(past, tf)] else Closed(past, tf)
  }

  ghost function Flatten(groups: seq<seq<Tick>>): seq<Tick> {
    if groups == [] then [] else Flatten(groups[..|groups| - 1]) + groups[|groups| - 1]
  }

  ghost predicate TimeOrdered(ticks: seq<Tick>) {
    forall i, j :: 0 <= i < j < |ticks| ==> ticks[i].time <= ticks[j].time
  }

  /** The ticks of one bucket, wherever they stand. */
  ghost function Bucket(ticks: seq<Tick>, start: int, tf: Timeframe): seq<Tick> {
    if ticks == [] then []
    else
      var t := ticks[|ticks| - 1];
      Bucket(ticks[..|ticks| - 1], start, tf) + if Align(t.time, tf) == start then [t] else []
  }

  ghost predicate AllIn(group: seq<Tick>, start: int, tf: Timeframe) {
    group != [] && forall i :: 0 <= i < |group| ==> Align(group[i].time, tf) == start
  }

  ghost predicate InOneBucket(group: seq<Tick>, tf: Timeframe) {
    group != [] && AllIn(group, Align(group[0].time, tf), tf)
  }

  lemma AlignLaws(t: int, u: int, tf: Timeframe)
    ensures Align(t, tf) <= t < Align(t, tf) + Seconds(tf)
    ensures t <= u ==> (u >= Align(t, tf) + Seconds(tf) <==> Align(u, tf) > Align(t, tf))
    ensures t <= u ==> Align(t, tf) <= Align(u, tf)
  {
    var s := Seconds(tf);
    var p := Multiple(t, s);
    var q := Multiple(u, s);
    if p < q { MulMonotone(p + 1, q, s); } else if q < p { MulMonotone(q + 1, p, s); }
  }

  lemma FlattenSnoc(groups: seq<seq<Tick>>, g: seq<Tick>)
    ensures Flatten(groups + [g]) == Flatten(groups) + g
  {
    assert (groups + [g])[..|groups|] == groups;
  }

  /** What one more tick does to the groups. */
  lemma GroupingSnoc(past: seq<Tick>, t: Tick, tf: Timeframe)
    ensures var before := Building(past, tf);
            if Rolls(before, t, tf)
            then Building(past + [t], tf) == [t] && Closed(past + [t], tf) == Closed(past, tf) + [before]
            else Building(past + [t], tf) == before + [t] && Closed(past + [t], tf) == Closed(past, tf)
  {
    assert (past + [t])[..|past|] == past;
  }

  /** The closed groups and the one being built are the ticks themselves, cut up. */
  lemma {:induction false} GroupsPartition(ticks: seq<Tick>, tf: Timeframe)
    ensures Flatten(Closed(ticks, tf)) + Building(ticks, tf) == ticks
  {
    if ticks != [] {
      var past, t := ticks[..|ticks| - 1], ticks[|ticks| - 1];
      GroupsPartition(past, tf);
      assert ticks == past + [t];
      GroupingSnoc(past, t, tf);
      PartitionStep(Closed(past, tf), Building(past, tf), t);
    }
  }

  lemma PartitionStep(closed: seq<seq<Tick>>, before: seq<Tick>, t: Tick)
    ensures Flatten(closed) + (before + [t]) == (Flatten(closed) + before) + [t]
    ensures Flatten(closed + [before]) + [t] == (Flatten(closed) + before) + [t]
  {
    FlattenSnoc(closed, before);
  }

  /** With ticks in time order every group lies in one bucket, and the buckets increase from group to group. */
  ghost predicate Stepwise(groups: seq<seq<Tick>>, tf: Timeframe) {
    && (forall i :: 0 <= i < |groups| ==> InOneBucket(groups[i], tf))
    && (forall i, j :: 0 <= i < j < |groups| ==> Align(groups[i][0].time, tf) < Align(groups[j][0].time, tf))
  }

  ghost function Groups(ticks: seq<Tick>, tf: Timeframe): seq<seq<Tick>> {
    if ticks == [] then [] else Closed(ticks, tf) + [Building(ticks, tf)]
  }

  lemma {:induction false} GroupsAreBuckets(ticks: seq<Tick>, tf: Timeframe)
    requires TimeOrdered(ticks)
    ensures Stepwise(Groups(ticks, tf), tf)
    ensures ticks != [] ==> AllIn(Building(ticks, tf), Align(ticks[|ticks| - 1].time, tf), tf)
  {
    if ticks != [] {
      var past, t := ticks[..|ticks| - 1], ticks[|ticks| - 1];
      GroupsAreBuckets(past, tf);
      NextGroup(past, t, tf);
    }
  }

  lemma GroupsSnoc(past: seq<Tick>, t: Tick, tf: Timeframe)
    ensures var before := Building(past, tf);
            Groups(past + [t], tf) ==
              if past == [] then [[t]] else if Rolls(before, t, tf) then Groups(past, tf) + [[t]]
              else Closed(past, tf) + [before + [t]]
  {
    GroupingSnoc(past, t, tf);
    GroupsOfSome(past + [t], tf);
    if past == [] {
      FirstGroup(t, tf);
    } else {
      GroupsOfSome(past, tf);
    }
  }

  lemma GroupsOfSome(ticks: seq<Tick>, tf: Timeframe)
    requires ticks != []
    ensures Groups(ticks, tf) == Closed(ticks, tf) + [Building(ticks, tf)]
  {
  }

  lemma FirstGroup(t: Tick, tf: Timeframe)
    ensures Groups([] + [t], tf) == [[t]]
  {
    GroupingSnoc([], t, tf);
    GroupsOfSome([] + [t], tf);
    assert [] + [t] == [t];
  }

  lemma NextGroup(past: seq<Tick>, t: Tick, tf: Timeframe)
    requires Stepwise(Groups(past, tf), tf)
    requires past != [] ==> AllIn(Building(past, tf), Align(past[|past| - 1].time, tf), tf) && past[|past| - 1].time <= t.time
    ensures Stepwise(Groups(past + [t], tf), tf)
    ensures AllIn(Building(past + [t], tf), Align(t.time, tf), tf)
  {
    var before := Building(past, tf);
    GroupingSnoc(past, t, tf);
    GroupsSnoc(past, t, tf);
    if past != [] {
      var at := Align(past[|past| - 1].time, tf);
      AlignLaws(past[|past| - 1].time, t.time, tf);
      assert Align(before[0].time, tf) == at;
      assert Groups(past, tf)[|Closed(past, tf)|] == before;
      if Rolls(before, t, tf) {
        LastStepIsLargest(Groups(past, tf), [t], tf);
      } else {
        LastStepGrows(Closed(past, tf), before, t, tf);
      }
    }
  }

  lemma LastStepIsLargest(groups: seq<seq<Tick>>, g: seq<Tick>, tf: Timeframe)
    requires Stepwise(groups, tf) && groups != [] && InOneBucket(g, tf)
    requires Align(groups[|groups| - 1][0].time, tf) < Align(g[0].time, tf)
    ensures Stepwise(groups + [g], tf)
  {
    var more: seq<seq<Tick>> := groups + [g];
    forall i, j | 0 <= i < j < |more| ensures Align(more[i][0].time, tf) < Align(more[j][0].time, tf) {
      if j == |groups| && i < |groups| - 1 {
        assert Align(groups[i][0].time, tf) < Align(groups[|groups| - 1][0].time, tf);
      }
    }
  }

  lemma LastStepGrows(groups: seq<seq<Tick>>, g: seq<Tick>, t: Tick, tf: Timeframe)
    requires Stepwise(groups + [g], tf) && g != [] && Align(t.time, tf) == Align(g[0].time, tf)
    ensures Stepwise(groups + [g + [t]], tf) && AllIn(g + [t], Align(t.time, tf), tf)
  {
    var before: seq<seq<Tick>> := groups + [g];
    var after: seq<seq<Tick>> := groups + [g + [t]];
    assert before[|groups|] == g && InOneBucket(g, tf);
    forall i | 0 <= i < |after| ensures InOneBucket(after[i], tf) {
      if i < |groups| { assert after[i] == before[i]; }
    }
    forall i, j | 0 <= i < j < |after| ensures Align(after[i][0].time, tf) < Align(after[j][0].time, tf) {
      assert after[i] == before[i] && after[j][0] == before[j][0];
    }
  }

  lemma {:induction false} BuildingIsOfTicks(ticks: seq<Tick>, tf: Timeframe)
    ensures forall t :: t in Building(ticks, tf) ==> t in ticks
  {
    if ticks != [] { BuildingIsOfTicks(ticks[..|ticks| - 1], tf); }
  }

  // ---- Groups against buckets ----

  lemma {:induction false} BucketConcat(a: seq<Tick>, b: seq<Tick>, start: int, tf: Timeframe)
    ensures Bucket(a + b, start, tf) == Bucket(a, start, tf) + Bucket(b, start, tf)
  {
    if b == [] {
      assert a + b == a;
    } else {
      assert (a + b)[..|a + b| - 1] == a + b[..|b| - 1];
      BucketConcat(a, b[..|b| - 1], start, tf);
    }
  }

  lemma {:induction false} BucketOfOne(group: seq<Tick>, at: int, start: int, tf: Timeframe)
    requires forall i :: 0 <= i < |group| ==> Align(group[i].time, tf) == at
    ensures Bucket(group, start, tf) == if at == start then group else []
  {
    if group != [] {
      BucketOfOne(group[..|group| - 1], at, start, tf);
      assert group == group[..|group| - 1] + [group[|group| - 1]];
    }
  }

  /** Those groups that lie in a bucket of a coarser timeframe. */
  ghost function Within(groups: seq<seq<Tick>>, start: int, tf: Timeframe): seq<seq<Tick>> {
    if groups == [] then []
    else
      var g := groups[|groups| - 1];
      Within(groups[..|groups| - 1], start, tf) + if g != [] && Align(g[0].time, tf) == start then [g] else []
  }

  /** Ticks in one bucket of the finer timeframe are in one bucket of the coarser. */
  ghost predicate Nests(fine: Timeframe, coarse: Timeframe) {
    forall t: int, u: int :: Align(t, fine) == Align(u, fine) ==> Align(t, coarse) == Align(u, coarse)
  }

  lemma MultiplesNest(t: int, s: int, m: int)
    requires s > 0 && m > 0 && m * s > 0
    ensures var a := t - t % s; a - a % (m * s) == t - t % (m * s)
  {
    var a := t - t % s;
    var p := Multiple(t, s);
    var q := Multiple(t, m * s);
    var r := Multiple(a, m * s);
    assert q * (m * s) == (q * m) * s;
    if q * m > p { MulMonotone(p + 1, q * m, s); }
    MulMonotone(q * m, p, s);
    OneMultiple(m * s, q, r, a);
  }

  lemma Divides(fine: Timeframe, coarse: Timeframe, m: int)
    requires m > 0 && Seconds(coarse) == m * Seconds(fine)
    ensures Nests(fine, coarse)
  {
    forall t: int, u: int | Align(t, fine) == Align(u, fine) ensures Align(t, coarse) == Align(u, coarse) {
      MultiplesNest(t, Seconds(fine), m);
      MultiplesNest(u, Seconds(fine), m);
    }
  }

  /** A minute has sixty seconds and a day is a day, and every timeframe's buckets are made up of whole minutes and make up
      whole days. */
  lemma TimeframesMakeUpDays(tf: Timeframe, time: int)
    ensures Nests(M1, tf) && Nests(tf, D1)
    ensures Align(time, M1) == time - time % 60 && Align(time, D1) == time - time % 86400
  {
    Divides(M1, tf, Seconds(tf) / 60);
    Divides(tf, D1, 86400 / Seconds(tf));
  }

  lemma StandardTimeframesNest()
    ensures Nests(M1, M5) && Nests(M1, M15) && Nests(M5, M15)
    ensures Nests(M3, M15) && Nests(M15, M30) && Nests(M30, H1)
  {
    Divides(M3, M15, 5);
    Divides(M15, M30, 2);
    Divides(M30, H1, 2);
    Divides(M1, M5, 5);
    Divides(M1, M15, 15);
    Divides(M5, M15, 3);
  }

  /** Cutting the finer groups by coarse bucket gives the coarse bucket of all their ticks. */
  lemma {:induction false} BucketIsOfGroups(groups: seq<seq<Tick>>, fine: Timeframe, start: int, coarse: Timeframe)
    requires Nests(fine, coarse) && forall i :: 0 <= i < |groups| ==> InOneBucket(groups[i], fine)
    ensures Bucket(Flatten(groups), start, coarse) == Flatten(Within(groups, start, coarse))
  {
    if groups != [] {
      var rest, g := groups[..|groups| - 1], groups[|groups| - 1];
      BucketIsOfGroups(rest, fine, start, coarse);
      BucketConcat(Flatten(rest), g, start, coarse);
      forall i | 0 <= i < |g| ensures Align(g[i].time, coarse) == Align(g[0].time, coarse) {
        assert Align(g[i].time, fine) == Align(g[0].time, fine);
      }
      BucketOfOne(g, Align(g[0].time, coarse), start, coarse);
      if Align(g[0].time, coarse) == start {
        FlattenSnoc(Within(rest, start, coarse), g);
      } else {
        assert Within(groups, start, coarse) == Within(rest, start, coarse) + [];
        assert Within(rest, start, coarse) + [] == Within(rest, start, coarse);
      }
    }
  }

  lemma {:induction false} OnlyOneWithin(groups: seq<seq<Tick>>, k: nat, tf: Timeframe)
    requires Stepwise(groups, tf) && k < |groups|
    ensures Within(groups, Align(groups[k][0].time, tf), tf) == [groups[k]]
  {
    var start := Align(groups[k][0].time, tf);
    var rest, g := groups[..|groups| - 1], groups[|groups| - 1];
    assert Stepwise(rest, tf);
    if k == |groups| - 1 {
      NoneWithin(rest, start, tf);
    } else {
      OnlyOneWithin(rest, k, tf);
    }
  }

  lemma {:induction false} NoneWithin(groups: seq<seq<Tick>>, start: int, tf: Timeframe)
    requires forall i :: 0 <= i < |groups| ==> groups[i] != [] && Align(groups[i][0].time, tf) != start
    ensures Within(groups, start, tf) == []
  {
    if groups != [] { NoneWithin(groups[..|groups| - 1], start, tf); }
  }

  /** The grouping refines a plain group-by: each group is all the ticks of its bucket. */
  lemma GroupIsItsBucket(ticks: seq<Tick>, tf: Timeframe, k: nat)
    requires TimeOrdered(ticks) && k < |Groups(ticks, tf)|
    ensures Groups(ticks, tf)[k] != []
    ensures Groups(ticks, tf)[k] == Bucket(ticks, Align(Groups(ticks, tf)[k][0].time, tf), tf)
  {
    var groups: seq<seq<Tick>> := Groups(ticks, tf);
    GroupsAreBuckets(ticks, tf);
    GroupsPartition(ticks, tf);
    FlattenSnoc(Closed(ticks, tf), Building(ticks, tf));
    var start := Align(groups[k][0].time, tf);
    BucketIsOfGroups(groups, tf, start, tf);
    OnlyOneWithin(groups, k, tf);
    FlattenSnoc([], groups[k]);
    assert [] + [groups[k]] == [groups[k]];
    assert [] + groups[k] == groups[k];
  }

  // ---- Roll-up ----

  lemma {:induction false} HighestConcat(a: seq<Tick>, b: seq<Tick>)
    requires a != [] && b != []
    ensures Highest(a + b) == MaxR(Highest(a), Highest(b)) && Lowest(a + b) == MinR(Lowest(a), Lowest(b))
  {
    var ab, rest, last := a + b, b[..|b| - 1], b[|b| - 1];
    assert ab[..|ab| - 1] == a + rest && ab[|ab| - 1] == last;
    if rest == [] {
      assert a + rest == a;
    } else {
      HighestConcat(a, rest);
    }
  }

  ghost function MaxHigh(cs: seq<Candle>): real
    requires cs != []
  {
    if |cs| == 1 then cs[0].high else MaxR(MaxHigh(cs[..|cs| - 1]), cs[|cs| - 1].high)
  }

  ghost function MinLow(cs: seq<Candle>): real
    requires cs != []
  {
    if |cs| == 1 then cs[0].low else MinR(MinLow(cs[..|cs| - 1]), cs[|cs| - 1].low)
  }

  ghost function Candles(groups: seq<seq<Tick>>, symbol: string, tf: Timeframe): (cs: seq<Candle>)
    requires forall i :: 0 <= i < |groups| ==> groups[i] != []
    ensures |cs| == |groups| && forall i :: 0 <= i < |cs| ==> cs[i] == CandleOf(groups[i], symbol, tf)
  {
    seq(|groups|, i requires 0 <= i < |groups| => CandleOf(groups[i], symbol, tf))
  }

  /** A candle tells the first and last price of its ticks, the highest and the lowest, the open interest of the last, and
      what was traded from the first to the last, if the exchange's total did not fall. */
  ghost predicate Tells(c: Candle, ticks: seq<Tick>)
    requires ticks != []
  {
    && c.open == ticks[0].ltp && c.close == ticks[|ticks| - 1].ltp && c.oi == ticks[|ticks| - 1].oi
    && (forall i :: 0 <= i < |ticks| ==> c.low <= ticks[i].ltp <= c.high)
    && (exists i :: 0 <= i < |ticks| && ticks[i].ltp == c.high) && (exists i :: 0 <= i < |ticks| && ticks[i].ltp == c.low)
    && c.volume >= 0 && (ticks[|ticks| - 1].volume >= ticks[0].volume ==> c.volume == ticks[|ticks| - 1].volume - ticks[0].volume)
  }

  lemma CandleTells(ticks: seq<Tick>, symbol: string, tf: Timeframe)
    requires ticks != []
    ensures Tells(CandleOf(ticks, symbol, tf), ticks)
  {
    HighestIsReached(ticks);
  }

  lemma {:induction false} HighestIsReached(ticks: seq<Tick>)
    requires ticks != []
    ensures forall i :: 0 <= i < |ticks| ==> Lowest(ticks) <= ticks[i].ltp <= Highest(ticks)
    ensures exists i :: 0 <= i < |ticks| && ticks[i].ltp == Highest(ticks)
    ensures exists i :: 0 <= i < |ticks| && ticks[i].ltp == Lowest(ticks)
  {
    if |ticks| > 1 {
      var rest, n := ticks[..|ticks| - 1], |ticks| - 1;
      HighestIsReached(rest);
      var h :| 0 <= h < |rest| && rest[h].ltp == Highest(rest);
      var l :| 0 <= l < |rest| && rest[l].ltp == Lowest(rest);
      assert ticks[if rest[h].ltp >= ticks[n].ltp then h else n].ltp == Highest(ticks);
      assert ticks[if rest[l].ltp <= ticks[n].ltp then l else n].ltp == Lowest(ticks);
    } else {
      assert ticks[0].ltp == Highest(ticks) == Lowest(ticks);
    }
  }

  /** A candle summarises finer ones: first open, last close, highest high, lowest low, last open interest. */
  ghost predicate Summarises(c: Candle, parts: seq<Candle>) {
    && parts != []
    && c.open == parts[0].open && c.close == parts[|parts| - 1].close
    && c.high == MaxHigh(parts) && c.low == MinLow(parts) && c.oi == parts[|parts| - 1].oi
  }

  lemma {:induction false} FlattenedCandle(groups: seq<seq<Tick>>, symbol: string, fine: Timeframe, coarse: Timeframe)
    requires groups != [] && forall i :: 0 <= i < |groups| ==> groups[i] != []
    ensures Flatten(groups) != []
    ensures Summarises(CandleOf(Flatten(groups), symbol, coarse), Candles(groups, symbol, fine))
  {
    var rest, g := groups[..|groups| - 1], groups[|groups| - 1];
    var cs := Candles(groups, symbol, fine);
    assert cs[..|cs| - 1] == Candles(rest, symbol, fine);
    if rest == [] {
      assert Flatten(groups) == [] + g;
      assert [] + g == g;
    } else {
      FlattenedCandle(rest, symbol, fine, coarse);
      HighestConcat(Flatten(rest), g);
    }
  }

  // ---- Volume ----

  /** The running totals of the exchange never fall. */
  ghost predicate NeverFalls(ticks: seq<Tick>) {
    forall i, j :: 0 <= i < j < |ticks| ==> ticks[i].volume <= ticks[j].volume
  }

  ghost function VolumeOf(cs: seq<Candle>): int {
    if cs == [] then 0 else VolumeOf(cs[..|cs| - 1]) + cs[|cs| - 1].volume
  }

  /** What was traded between the last tick of each group and the first of the next. */
  ghost function Gaps(groups: seq<seq<Tick>>): int
    requires forall i :: 0 <= i < |groups| ==> groups[i] != []
  {
    if |groups| <= 1 then 0
    else
      var last, g := groups[|groups| - 2], groups[|groups| - 1];
      Gaps(groups[..|groups| - 1]) + g[0].volume - last[|last| - 1].volume
  }

  /** What was traded from the first to the last tick of a group. */
  ghost function Traded(group: seq<Tick>): int
    requires group != []
  {
    Max(0, group[|group| - 1].volume - group[0].volume)
  }

  ghost function TradedIn(groups: seq<seq<Tick>>): int
    requires forall i :: 0 <= i < |groups| ==> groups[i] != []
  {
    if groups == [] then 0 else TradedIn(groups[..|groups| - 1]) + Traded(groups[|groups| - 1])
  }

  lemma {:induction false} TradesAddUp(groups: seq<seq<Tick>>, all: seq<Tick>)
    requires groups != [] && forall i :: 0 <= i < |groups| ==> groups[i] != []
    requires all == Flatten(groups) && all != [] && NeverFalls(all)
    ensures Traded(all) == TradedIn(groups) + Gaps(groups)
  {
    var rest, g := groups[..|groups| - 1], groups[|groups| - 1];
    if rest == [] {
      assert all == [] + g;
      assert [] + g == g;
    } else {
      FlattenEnds(rest);
      TradedInTwo(Flatten(rest), g, all);
      TradesAddUp(rest, Flatten(rest));
    }
  }

  lemma TradedInTwo(a: seq<Tick>, b: seq<Tick>, all: seq<Tick>)
    requires a != [] && b != [] && all == a + b && NeverFalls(all)
    ensures NeverFalls(a) && Traded(all) == Traded(a) + Traded(b) + b[0].volume - a[|a| - 1].volume
  {
    var n := |a|;
    forall i, j | 0 <= i < j < n ensures a[i].volume <= a[j].volume { assert all[i] == a[i] && all[j] == a[j]; }
    assert all[0] == a[0] && all[n - 1] == a[n - 1] && all[n] == b[0] && all[|all| - 1] == b[|b| - 1];
  }

  lemma {:induction false} VolumeOfCandles(groups: seq<seq<Tick>>, symbol: string, tf: Timeframe)
    requires forall i :: 0 <= i < |groups| ==> groups[i] != []
    ensures VolumeOf(Candles(groups, symbol, tf)) == TradedIn(groups)
  {
    if groups != [] {
      var rest := groups[..|groups| - 1];
      VolumeOfCandles(rest, symbol, tf);
      assert Candles(groups, symbol, tf)[..|rest|] == Candles(rest, symbol, tf);
    }
  }

  /** The volume of a candle is that of its parts and of what was traded in between. */
  lemma VolumeAddsUp(groups: seq<seq<Tick>>, symbol: string, fine: Timeframe, coarse: Timeframe)
    requires groups != [] && forall i :: 0 <= i < |groups| ==> groups[i] != []
    requires Flatten(groups) != [] && NeverFalls(Flatten(groups))
    ensures CandleOf(Flatten(groups), symbol, coarse).volume == VolumeOf(Candles(groups, symbol, fine)) + Gaps(groups)
  {
    TradesAddUp(groups, Flatten(groups));
    VolumeOfCandles(groups, symbol, fine);
  }

  lemma FlattenEnds(groups: seq<seq<Tick>>)
    requires groups != [] && groups[|groups| - 1] != []
    ensures Flatten(groups) != [] && Flatten(groups)[|Flatten(groups)| - 1] == groups[|groups| - 1][|groups[|groups| - 1]| - 1]
  {
  }

  /** The same ticks with the running total counted from elsewhere. */
  ghost function Recounted(ticks: seq<Tick>, more: int): (r: seq<Tick>)
    ensures |r| == |ticks| && forall i :: 0 <= i < |r| ==> r[i] == ticks[i].(volume := ticks[i].volume + more)
  {
    seq(|ticks|, i requires 0 <= i < |ticks| => ticks[i].(volume := ticks[i].volume + more))
  }

  lemma {:induction false} RecountedExtremes(ticks: seq<Tick>, more: int)
    requires ticks != []
    ensures Highest(Recounted(ticks, more)) == Highest(ticks) && Lowest(Recounted(ticks, more)) == Lowest(ticks)
  {
    if |ticks| > 1 {
      var rest := ticks[..|ticks| - 1];
      RecountedExtremes(rest, more);
      assert Recounted(ticks, more)[..|ticks| - 1] == Recounted(rest, more);
    }
  }

  lemma {:induction false} RecountedBuilding(ticks: seq<Tick>, more: int, tf: Timeframe)
    ensures Building(Recounted(ticks, more), tf) == Recounted(Building(ticks, tf), more)
  {
    if ticks != [] {
      var past, t := ticks[..|ticks| - 1], ticks[|ticks| - 1];
      RecountedBuilding(past, more, tf);
      RecountedRolls(Building(past, tf), t, more, tf);
      OneMoreRecounted(past, t, ticks, more);
    }
  }

  lemma OneMoreRecounted(past: seq<Tick>, t: Tick, ticks: seq<Tick>, more: int)
    requires ticks == past + [t]
    ensures var r := Recounted(ticks, more);
            r[..|past|] == Recounted(past, more) && r[|past|] == t.(volume := t.volume + more) && |r| == |past| + 1
  {
  }

  lemma RecountedRolls(group: seq<Tick>, t: Tick, more: int, tf: Timeframe)
    ensures Rolls(Recounted(group, more), t.(volume := t.volume + more), tf) == Rolls(group, t, tf)
    ensures Recounted(group + [t], more) == Recounted(group, more) + [t.(volume := t.volume + more)]
    ensures Recounted([t], more) == [t.(volume := t.volume + more)]
  {
  }

  lemma RecountedCandle(group: seq<Tick>, more: int, symbol: string, tf: Timeframe)
    requires group != []
    ensures CandleOf(Recounted(group, more), symbol, tf) == CandleOf(group, symbol, tf)
  {
    RecountedExtremes(group, more);
  }

  /** Where the exchange starts counting makes no difference to any candle. */
  lemma {:induction false} CandlesCountFromAnywhere(ticks: seq<Tick>, more: int, symbol: string, tf: Timeframe)
    ensures ClosedCandles(Recounted(ticks, more), symbol, tf) == ClosedCandles(ticks, symbol, tf)
    ensures ticks != [] ==>
              CandleOf(Building(Recounted(ticks, more), tf), symbol, tf) == CandleOf(Building(ticks, tf), symbol, tf)
  {
    if ticks != [] {
      var past, t := ticks[..|ticks| - 1], ticks[|ticks| - 1];
      CandlesCountFromAnywhere(past, more, symbol, tf);
      OneMoreRecounted(past, t, ticks, more);
      RecountedBuilding(past, more, tf);
      OneMoreClosed(past, t, ticks, more, symbol, tf);
      RecountedBuilding(ticks, more, tf);
      RecountedCandle(Building(ticks, tf), more, symbol, tf);
    }
  }

  lemma OneMoreClosed(past: seq<Tick>, t: Tick, ticks: seq<Tick>, more: int, symbol: string, tf: Timeframe)
    requires ticks == past + [t] && Building(Recounted(past, more), tf) == Recounted(Building(past, tf), more)
    requires ClosedCandles(Recounted(past, more), symbol, tf) == ClosedCandles(past, symbol, tf)
    ensures ClosedCandles(Recounted(ticks, more), symbol, tf) == ClosedCandles(ticks, symbol, tf)
  {
    OneMoreRecounted(past, t, ticks, more);
    RecountedRolls(Building(past, tf), t, more, tf);
    if past != [] { RecountedCandle(Building(past, tf), more, symbol, tf); }
    assert ticks[..|past|] == past;
  }

  /** A bucket of the coarser timeframe is made up of whole groups of the finer. */
  lemma BucketIsMadeUp(ticks: seq<Tick>, fine: Timeframe, start: int, coarse: Timeframe)
    requires TimeOrdered(ticks) && Nests(fine, coarse) && ticks != []
    ensures Bucket(ticks, start, coarse) == Flatten(Within(Groups(ticks, fine), start, coarse))
  {
    GroupsAreBuckets(ticks, fine);
    GroupsPartition(ticks, fine);
    FlattenSnoc(Closed(ticks, fine), Building(ticks, fine));
    BucketIsOfGroups(Groups(ticks, fine), fine, start, coarse);
  }

  /** The fine groups in the span of a closed coarse one are all closed, and make it up. */
  lemma ClosedGroupIsMadeUp(ticks: seq<Tick>, fine: Timeframe, coarse: Timeframe, k: nat)
    requires TimeOrdered(ticks) && Nests(fine, coarse) && k < |Closed(ticks, coarse)|
    ensures var g := Closed(ticks, coarse)[k];
            g != [] && g == Flatten(Within(Closed(ticks, fine), Align(g[0].time, coarse), coarse))
  {
    var g := Groups(ticks, coarse)[k];
    GroupIsItsBucket(ticks, coarse, k);
    BucketIsMadeUp(ticks, fine, Align(g[0].time, coarse), coarse);
    BuildingIsLater(ticks, fine, coarse, k);
    OnlyClosedWithin(Closed(ticks, fine), Building(ticks, fine), Align(g[0].time, coarse), coarse);
  }

  lemma OnlyClosedWithin(groups: seq<seq<Tick>>, last: seq<Tick>, start: int, tf: Timeframe)
    requires last != [] && Align(last[0].time, tf) != start
    ensures Within(groups + [last], start, tf) == Within(groups, start, tf)
  {
    assert (groups + [last])[..|groups|] == groups;
  }

  /** The candle of a group summarises the candles of its parts. */
  ghost predicate RollsUp(g: seq<Tick>, parts: seq<seq<Tick>>, symbol: string, fine: Timeframe, coarse: Timeframe) {
    && g != [] && (forall i :: 0 <= i < |parts| ==> parts[i] != [])
    && Summarises(CandleOf(g, symbol, coarse), Candles(parts, symbol, fine))
    && (NeverFalls(g) ==> CandleOf(g, symbol, coarse).volume == VolumeOf(Candles(parts, symbol, fine)) + Gaps(parts))
  }

  lemma MadeUpRollsUp(g: seq<Tick>, parts: seq<seq<Tick>>, symbol: string, fine: Timeframe, coarse: Timeframe)
    requires g != [] && g == Flatten(parts) && forall p :: p in parts ==> p != []
    ensures RollsUp(g, parts, symbol, fine, coarse)
  {
    assert forall i :: 0 <= i < |parts| ==> parts[i] in parts;
    FlattenedCandle(parts, symbol, fine, coarse);
    if NeverFalls(g) { VolumeAddsUp(parts, symbol, fine, coarse); }
  }

  /** The closed fine groups in the span of a group. */
  ghost function Parts(ticks: seq<Tick>, fine: Timeframe, g: seq<Tick>, coarse: Timeframe): seq<seq<Tick>>
    requires g != []
  {
    Within(Closed(ticks, fine), Align(g[0].time, coarse), coarse)
  }

  /** Roll-up: for ticks in time order, each closed coarse candle summarises the closed fine candles of its span. */
  lemma ClosedCandleRollsUp(ticks: seq<Tick>, fine: Timeframe, coarse: Timeframe, k: nat, symbol: string)
    requires TimeOrdered(ticks) && Nests(fine, coarse) && k < |Closed(ticks, coarse)|
    ensures var g := Closed(ticks, coarse)[k]; g != [] && RollsUp(g, Parts(ticks, fine, g, coarse), symbol, fine, coarse)
  {
    ClosedGroupIsMadeUp(ticks, fine, coarse, k);
    var g: seq<Tick> := Closed(ticks, coarse)[k];
    var parts := Parts(ticks, fine, g, coarse);
    WithinIsOfGroups(Closed(ticks, fine), Align(g[0].time, coarse), coarse);
    assert forall p :: p in parts ==> p != [];
    MadeUpRollsUp(g, parts, symbol, fine, coarse);
  }

  /** The candle being built belongs to a later coarse bucket than any closed coarse candle. */
  lemma BuildingIsLater(ticks: seq<Tick>, fine: Timeframe, coarse: Timeframe, k: nat)
    requires TimeOrdered(ticks) && Nests(fine, coarse) && k < |Closed(ticks, coarse)|
    ensures Groups(ticks, coarse)[k] != [] && Building(ticks, fine) != []
    ensures Align(Building(ticks, fine)[0].time, coarse) > Align(Groups(ticks, coarse)[k][0].time, coarse)
  {
    var last := ticks[|ticks| - 1];
    GroupsAreBuckets(ticks, coarse);
    GroupsAreBuckets(ticks, fine);
    var b := Building(ticks, fine);
    assert Align(b[0].time, fine) == Align(last.time, fine);
    assert Groups(ticks, coarse)[|Closed(ticks, coarse)|] == Building(ticks, coarse);
  }

  lemma {:induction false} WithinIsOfGroups(groups: seq<seq<Tick>>, start: int, tf: Timeframe)
    ensures forall g :: g in Within(groups, start, tf) ==> g != [] && g in groups
  {
    if groups != [] { WithinIsOfGroups(groups[..|groups| - 1], start, tf); }
  }

  // ---- The aggregator ----

  const MAX_COMPLETED_CANDLES := 10000

  type Key = (int, Timeframe)

  /** Candles of one instrument and timeframe; None asks for all. */
  function Select(candles: seq<Candle>, token: Option<int>, tf: Option<Timeframe>): seq<Candle> {
    if candles == [] then []
    else
      var c := candles[|candles| - 1];
      var rest := Select(candles[..|candles| - 1], token, tf);
      if (token.Some? ==> c.token == token.value) && (tf.Some? ==> c.timeframe == tf.value) then rest + [c] else rest
  }

  lemma SelectSnoc(candles: seq<Candle>, c: Candle, token: int, tf: Timeframe)
    ensures Select(candles + [c], Some(token), Some(tf)) ==
            Select(candles, Some(token), Some(tf)) + if c.token == token && c.timeframe == tf then [c] else []
  {
    assert (candles + [c])[..|candles|] == candles;
  }

  predicate Matches(c: Candle, token: Option<int>, tf: Option<Timeframe>) {
    (token.Some? ==> c.token == token.value) && (tf.Some? ==> c.timeframe == tf.value)
  }

  lemma {:induction false} SelectIff(candles: seq<Candle>, token: Option<int>, tf: Option<Timeframe>)
    ensures forall c :: c in Select(candles, token, tf) <==> c in candles && Matches(c, token, tf)
    ensures |Select(candles, token, tf)| <= |candles|
  {
    if candles != [] {
      var rest, last := candles[..|candles| - 1], candles[|candles| - 1];
      SelectIff(rest, token, tf);
      assert candles == rest + [last];
    }
  }

  lemma {:induction false} SelectConcat(a: seq<Candle>, b: seq<Candle>, token: Option<int>, tf: Option<Timeframe>)
    ensures Select(a + b, token, tf) == Select(a, token, tf) + Select(b, token, tf)
  {
    if b == [] {
      assert a + b == a;
    } else {
      assert (a + b)[..|a + b| - 1] == a + b[..|b| - 1];
      SelectConcat(a, b[..|b| - 1], token, tf);
    }
  }

  /** The newest of all, up to a limit; when there are fewer than that, what is missing is what was dropped. */
  ghost predicate NewestOf(cs: seq<Candle>, all: seq<Candle>, limit: int, dropped: nat) {
    && |cs| <= limit && |cs| <= |all| && cs == all[|all| - |cs|..]
    && (|cs| < limit ==> |all| == |cs| + dropped)
  }

  lemma TailIsNewest(dropped: seq<Candle>, kept: seq<Candle>, limit: int)
    requires limit > 0
    ensures NewestOf(Tail(kept, limit), dropped + kept, limit, |dropped|)
  {
  }

  lemma TailIsAmong(candles: seq<Candle>, limit: int)
    ensures forall c :: c in Tail(candles, limit) ==> c in candles
    ensures limit == 0 || limit >= |candles| ==> Tail(candles, limit) == candles
  {
  }

  /** The name under which an instrument's candles are kept: the one on its first tick. */
  ghost function SymbolOf(ticks: seq<Tick>): string { if ticks == [] then "" else ticks[0].symbol }

  /** The candles these ticks of one instrument have closed. */
  ghost function ClosedCandles(ticks: seq<Tick>, symbol: string, tf: Timeframe): seq<Candle> {
    if ticks == [] then []
    else
      var past, t := ticks[..|ticks| - 1], ticks[|ticks| - 1];
      ClosedCandles(past, symbol, tf)
      + if Rolls(Building(past, tf), t, tf) then [CandleOf(Building(past, tf), symbol, tf)] else []
  }

  lemma {:induction false} ClosedCandlesAreOfGroups(ticks: seq<Tick>, symbol: string, tf: Timeframe)
    ensures forall i :: 0 <= i < |Closed(ticks, tf)| ==> Closed(ticks, tf)[i] != []
    ensures ClosedCandles(ticks, symbol, tf) == Candles(Closed(ticks, tf), symbol, tf)
  {
    if ticks != [] { ClosedCandlesAreOfGroups(ticks[..|ticks| - 1], symbol, tf); }
  }

  /** One key of the aggregator after the given ticks of its instrument. */
  ghost predicate KeyOk(builders: map<Key, Builder>, published: seq<Candle>, ticks: seq<Tick>, token: int, tf: Timeframe) {
    && Select(published, Some(token), Some(tf)) == ClosedCandles(ticks, SymbolOf(ticks), tf)
    && ((token, tf) in builders <==> ticks != [])
    && (ticks != [] ==> Holds(builders[(token, tf)], Building(ticks, tf), token, SymbolOf(ticks), tf))
  }

  /** The ticks a key has been fed so far. */
  ghost function Fed(history: seq<Tick>, timeframes: seq<Timeframe>, token: int, tf: Timeframe): seq<Tick> {
    if tf in timeframes then Of(history, token) else []
  }

  ghost predicate AllOk(builders: map<Key, Builder>, published: seq<Candle>, history: seq<Tick>, timeframes: seq<Timeframe>) {
    forall token: int, tf: Timeframe :: KeyOk(builders, published, Fed(history, timeframes, token, tf), token, tf)
  }

  /** What one tick makes of a builder that stood for the past ticks: the next builder, and the candle it closed. */
  ghost predicate FedRight(past: seq<Tick>, t: Tick, tf: Timeframe, after: Builder, closed: Option<Candle>) {
    && Holds(after, Building(past + [t], tf), t.token, SymbolOf(past + [t]), tf)
    && (closed.Some? <==> Rolls(Building(past, tf), t, tf))
    && (closed.Some? ==> closed.value == CandleOf(Building(past, tf), SymbolOf(past), tf)
                         && closed.value.token == t.token && closed.value.timeframe == tf)
  }

  /** One tick through one builder, closing its candle first when the tick is past its end. */
  method Feed(b: Option<Builder>, t: Tick, tf: Timeframe, ghost past: seq<Tick>) returns (after: Builder, closed: Option<Candle>)
    requires b.None? <==> past == []
    requires past != [] ==> Holds(b.value, Building(past, tf), t.token, SymbolOf(past), tf)
    ensures FedRight(past, t, tf, after, closed)
  {
    after := if b.Some? then b.value else Fresh(t.token, t.symbol, tf);
    closed := None;
    ghost var group := Building(past, tf);
    ghost var symbol := SymbolOf(past + [t]);
    GroupingSnoc(past, t, tf);
    assert past != [] ==> symbol == SymbolOf(past);
    if after.open.Some? && t.time >= after.start + Seconds(tf) {
      closed := after.ToOhlc();
      after := after.Reset();
      assert [] + [t] == [t];
      UpdateHolds(after, [], t, symbol, tf);
    } else {
      UpdateHolds(after, group, t, symbol, tf);
    }
    after := after.Update(t);
  }

  function Appended(published: seq<Candle>, closed: Option<Candle>): seq<Candle> {
    if closed.Some? then published + [closed.value] else published
  }

  lemma ThisKey(builders: map<Key, Builder>, published: seq<Candle>, past: seq<Tick>, t: Tick, tf: Timeframe,
                after: Builder, closed: Option<Candle>)
    requires KeyOk(builders, published, past, t.token, tf) && FedRight(past, t, tf, after, closed)
    ensures KeyOk(builders[(t.token, tf) := after], Appended(published, closed), past + [t], t.token, tf)
  {
    if closed.Some? { SelectSnoc(published, closed.value, t.token, tf); }
    OneMoreCandle(past, t, SymbolOf(past + [t]), tf);
    assert past != [] ==> SymbolOf(past + [t]) == SymbolOf(past);
  }

  lemma OneMoreCandle(past: seq<Tick>, t: Tick, symbol: string, tf: Timeframe)
    ensures ClosedCandles(past + [t], symbol, tf) ==
            ClosedCandles(past, symbol, tf) + if Rolls(Building(past, tf), t, tf) then [CandleOf(Building(past, tf), symbol, tf)] else []
  {
    assert (past + [t])[..|past|] == past;
  }

  lemma OtherKey(builders: map<Key, Builder>, published: seq<Candle>, ticks: seq<Tick>, token: int, tf: Timeframe,
                 key: Key, after: Builder, closed: Option<Candle>)
    requires KeyOk(builders, published, ticks, token, tf) && key != (token, tf)
    requires closed.Some? ==> (closed.value.token, closed.value.timeframe) == key
    ensures KeyOk(builders[key := after], Appended(published, closed), ticks, token, tf)
  {
    if closed.Some? { SelectSnoc(published, closed.value, token, tf); }
  }

  /** Which ticks a key has seen when a tick has been through the first n timeframes. */
  ghost function FedSoFar(history: seq<Tick>, t: Tick, timeframes: seq<Timeframe>, n: nat, token: int, tf: Timeframe): seq<Tick>
    requires n <= |timeframes|
  {
    if token == t.token && tf in timeframes[..n] then Of(history, token) + [t] else Fed(history, timeframes, token, tf)
  }

  ghost predicate PartlyOk(builders: map<Key, Builder>, published: seq<Candle>, history: seq<Tick>, t: Tick,
                           timeframes: seq<Timeframe>, n: nat)
    requires n <= |timeframes|
  {
    forall token: int, tf: Timeframe ::
      KeyOk(builders, published, FedSoFar(history, t, timeframes, n, token, tf), token, tf)
  }

  lemma OneTimeframe(builders: map<Key, Builder>, published: seq<Candle>, history: seq<Tick>, t: Tick,
                     timeframes: seq<Timeframe>, n: nat, after: Builder, closed: Option<Candle>)
    requires Distinct(timeframes) && n < |timeframes| && PartlyOk(builders, published, history, t, timeframes, n)
    requires FedRight(Of(history, t.token), t, timeframes[n], after, closed)
    ensures PartlyOk(builders[(t.token, timeframes[n]) := after], Appended(published, closed), history, t, timeframes, n + 1)
  {
    var builders', published' := builders[(t.token, timeframes[n]) := after], Appended(published, closed);
    var m := n + 1;
    forall token: int, tf: Timeframe
      ensures KeyOk(builders', published', FedSoFar(history, t, timeframes, m, token, tf), token, tf)
    {
      OneKey(builders, published, history, t, timeframes, n, after, closed, token, tf);
    }
  }

  lemma OneKey(builders: map<Key, Builder>, published: seq<Candle>, history: seq<Tick>, t: Tick, timeframes: seq<Timeframe>,
               n: nat, after: Builder, closed: Option<Candle>, token: int, tf: Timeframe)
    requires Distinct(timeframes) && n < |timeframes| && PartlyOk(builders, published, history, t, timeframes, n)
    requires FedRight(Of(history, t.token), t, timeframes[n], after, closed)
    ensures KeyOk(builders[(t.token, timeframes[n]) := after], Appended(published, closed),
                  FedSoFar(history, t, timeframes, n + 1, token, tf), token, tf)
  {
    var key := (t.token, timeframes[n]);
    FedNext(history, t, timeframes, n, token, tf);
    if (token, tf) == key {
      NotYetFed(builders, published, history, t, timeframes, n);
      ThisKey(builders, published, Of(history, token), t, tf, after, closed);
    } else {
      assert KeyOk(builders, published, FedSoFar(history, t, timeframes, n, token, tf), token, tf);
      OtherKey(builders, published, FedSoFar(history, t, timeframes, n, token, tf), token, tf, key, after, closed);
    }
  }

  lemma FedNext(history: seq<Tick>, t: Tick, timeframes: seq<Timeframe>, n: nat, token: int, tf: Timeframe)
    requires n < |timeframes|
    ensures FedSoFar(history, t, timeframes, n + 1, token, tf) ==
            if (token, tf) == (t.token, timeframes[n]) then Of(history, token) + [t]
            else FedSoFar(history, t, timeframes, n, token, tf)
  {
    assert timeframes[..n + 1] == timeframes[..n] + [timeframes[n]];
  }

  lemma OfSnoc(history: seq<Tick>, t: Tick, token: int)
    ensures Of(history + [t], token) == if t.token == token then Of(history, token) + [t] else Of(history, token)
  {
    assert (history + [t])[..|history|] == history;
  }

  lemma AllTimeframes(builders: map<Key, Builder>, published: seq<Candle>, history: seq<Tick>, t: Tick, timeframes: seq<Timeframe>)
    requires PartlyOk(builders, published, history, t, timeframes, |timeframes|)
    ensures AllOk(builders, published, history + [t], timeframes)
  {
    forall token: int, tf: Timeframe
      ensures KeyOk(builders, published, Fed(history + [t], timeframes, token, tf), token, tf)
    {
      assert KeyOk(builders, published, FedSoFar(history, t, timeframes, |timeframes|, token, tf), token, tf);
      assert timeframes[..|timeframes|] == timeframes;
      OfSnoc(history, t, token);
    }
  }

  /** Those candles that start within a span of a coarser timeframe. */
  ghost function InSpan(candles: seq<Candle>, start: int, tf: Timeframe): seq<Candle> {
    if candles == [] then []
    else
      var c := candles[|candles| - 1];
      InSpan(candles[..|candles| - 1], start, tf) + if Align(c.start, tf) == start then [c] else []
  }

  lemma AlignedStart(t: int, fine: Timeframe, coarse: Timeframe)
    requires Nests(fine, coarse)
    ensures Align(Align(t, fine), coarse) == Align(t, coarse)
  {
    var s := Seconds(fine);
    var p := Multiple(t, s);
    var q := Multiple(Align(t, fine), s);
    OneMultiple(s, p, q, Align(t, fine));
  }

  lemma {:induction false} SpanIsOfGroups(groups: seq<seq<Tick>>, symbol: string, fine: Timeframe, start: int, coarse: Timeframe)
    requires Nests(fine, coarse) && forall i :: 0 <= i < |groups| ==> groups[i] != []
    ensures forall i :: 0 <= i < |Within(groups, start, coarse)| ==> Within(groups, start, coarse)[i] != []
    ensures InSpan(Candles(groups, symbol, fine), start, coarse) == Candles(Within(groups, start, coarse), symbol, fine)
  {
    if groups != [] {
      var rest, g := groups[..|groups| - 1], groups[|groups| - 1];
      SpanIsOfGroups(rest, symbol, fine, start, coarse);
      AlignedStart(g[0].time, fine, coarse);
      var cs := Candles(groups, symbol, fine);
      assert cs[..|cs| - 1] == Candles(rest, symbol, fine);
    }
  }

  /** Roll-up of candles: a closed coarse candle summarises the closed fine candles that start in its span. */
  lemma CandlesRollUp(ticks: seq<Tick>, fine: Timeframe, coarse: Timeframe, symbol: string, k: nat)
    requires TimeOrdered(ticks) && Nests(fine, coarse) && k < |ClosedCandles(ticks, symbol, coarse)|
    ensures var c := ClosedCandles(ticks, symbol, coarse)[k];
            var parts := InSpan(ClosedCandles(ticks, symbol, fine), c.start, coarse);
            && Summarises(c, parts)
            && (NeverFalls(ticks) ==> c.volume == VolumeOf(parts) + Between(ticks, fine, c.start, coarse))
  {
    ClosedCandlesAreOfGroups(ticks, symbol, coarse);
    ClosedCandlesAreOfGroups(ticks, symbol, fine);
    ClosedCandleRollsUp(ticks, fine, coarse, k, symbol);
    var g := Closed(ticks, coarse)[k];
    SpanIsOfGroups(Closed(ticks, fine), symbol, fine, Align(g[0].time, coarse), coarse);
    if NeverFalls(ticks) { ClosedGroupNeverFalls(ticks, coarse, k); }
  }

  /** What was traded between the closed fine candles of a span. */
  ghost function Between(ticks: seq<Tick>, fine: Timeframe, start: int, coarse: Timeframe): int {
    WithinIsOfGroups(Closed(ticks, fine), start, coarse);
    var parts := Within(Closed(ticks, fine), start, coarse);
    assert forall i :: 0 <= i < |parts| ==> parts[i] in parts;
    Gaps(parts)
  }

  lemma {:induction false} ClosedGroupNeverFalls(ticks: seq<Tick>, tf: Timeframe, k: nat)
    requires NeverFalls(ticks) && k < |Closed(ticks, tf)|
    ensures NeverFalls(Closed(ticks, tf)[k])
  {
    var past := ticks[..|ticks| - 1];
    if k < |Closed(past, tf)| { ClosedGroupNeverFalls(past, tf, k); } else { BuildingNeverFalls(past, tf); }
  }

  lemma {:induction false} BuildingNeverFalls(ticks: seq<Tick>, tf: Timeframe)
    requires NeverFalls(ticks)
    ensures |Building(ticks, tf)| <= |ticks| && Building(ticks, tf) == ticks[|ticks| - |Building(ticks, tf)|..]
    ensures NeverFalls(Building(ticks, tf))
  {
    if ticks != [] {
      var past, t := ticks[..|ticks| - 1], ticks[|ticks| - 1];
      BuildingNeverFalls(past, tf);
      assert ticks == past + [t];
    }
  }

  /** The newest candles, as Python's negative slice counts them: zero asks for all, a negative number skips. */
  function Tail(candles: seq<Candle>, limit: int): seq<Candle> {
    if limit > 0 then Newest(candles, limit) else if -limit <= |candles| then candles[-limit..] else []
  }

  class OHLCAggregator {
    const timeframes: seq<Timeframe>
    var builders: map<Key, Builder>
    var completed: seq<Candle>
    var published: seq<Candle>        // every candle-closed event sent
    ghost var history: seq<Tick>

    /** The kept candles are the newest of all those closed, and per instrument and timeframe those are exactly
        the candles of its closed groups. */
    ghost predicate Valid()
      reads this
    {
      && Distinct(timeframes)
      && completed == Newest(published, 10000)
      && AllOk(builders, published, history, timeframes)
    }

    constructor (timeframes: seq<Timeframe>)
      requires Distinct(timeframes)
      ensures Valid() && history == [] && published == [] && completed == []
      ensures this.timeframes == if timeframes == [] then [M1, M5, M15] else timeframes
    {
      this.timeframes := if timeframes == [] then [M1, M5, M15] else timeframes;
      builders, completed, published, history := map[], [], [], [];
    }

    /** An event without a tick is ignored. */
    method OnTick(tick: Option<Tick>)
      requires Valid()
      modifies this
      ensures Valid() && history == old(history) + if tick.Some? then [tick.value] else []
      ensures old(published) <= published
    {
      if tick.None? {
        assert history + [] == history;
        return;
      }
      var t := tick.value;
      var i := 0;
      assert PartlyOk(builders, published, history, t, timeframes, 0) by {
        Unfed(builders, published, history, t, timeframes);
      }
      while i < |timeframes|
        invariant 0 <= i <= |timeframes| && history == old(history) && old(published) <= published
        invariant completed == Newest(published, MAX_COMPLETED_CANDLES)
        invariant PartlyOk(builders, published, history, t, timeframes, i)
      {
        AddTick(t, i);
        i := i + 1;
      }
      AllTimeframes(builders, published, history, t, timeframes);
      history := history + [t];
    }

    method AddTick(t: Tick, i: nat)
      requires i < |timeframes| && Distinct(timeframes)
      requires completed == Newest(published, MAX_COMPLETED_CANDLES)
      requires PartlyOk(builders, published, history, t, timeframes, i)
      modifies this`builders, this`completed, this`published
      ensures completed == Newest(published, MAX_COMPLETED_CANDLES)
      ensures PartlyOk(builders, published, history, t, timeframes, i + 1)
      ensures old(published) <= published
    {
      var key := (t.token, timeframes[i]);
      NotYetFed(builders, published, history, t, timeframes, i);
      var after, closed := Feed(if key in builders then Some(builders[key]) else None, t, timeframes[i], Of(history, t.token));
      OneTimeframe(builders, published, history, t, timeframes, i, after, closed);
      if closed.Some? {
        NewestGrows(published, closed.value, MAX_COMPLETED_CANDLES);
        completed := Newest(completed + [closed.value], MAX_COMPLETED_CANDLES);
        published := published + [closed.value];
      }
      builders := builders[key := after];
    }

    /** While the cap is not reached, for ticks of an instrument in time order, every completed candle of the coarser
        timeframe summarises the completed candles of the finer one in its span. */
    lemma CompletedCandlesRollUp(token: int, fine: Timeframe, coarse: Timeframe, k: nat)
      requires Valid() && fine in timeframes && coarse in timeframes && Nests(fine, coarse)
      requires |published| <= MAX_COMPLETED_CANDLES && TimeOrdered(Of(history, token))
      requires k < |Select(completed, Some(token), Some(coarse))|
      ensures var c := Select(completed, Some(token), Some(coarse))[k];
              var parts := InSpan(Select(completed, Some(token), Some(fine)), c.start, coarse);
              && Summarises(c, parts)
              && (NeverFalls(Of(history, token)) ==>
                    c.volume == VolumeOf(parts) + Between(Of(history, token), fine, c.start, coarse))
    {
      var ticks := Of(history, token);
      assert KeyOk(builders, published, Fed(history, timeframes, token, coarse), token, coarse);
      assert KeyOk(builders, published, Fed(history, timeframes, token, fine), token, fine);
      CandlesRollUp(ticks, fine, coarse, SymbolOf(ticks), k);
    }

    /** The candle being built is the candle of the ticks since the last one closed. */
    function GetLatestCandle(token: int, tf: Timeframe): (c: Option<Candle>)
      requires Valid()
      reads this
      ensures var ticks := Fed(history, timeframes, token, tf);
              c == if ticks == [] then None else Some(CandleOf(Building(ticks, tf), SymbolOf(ticks), tf))
    {
      assert KeyOk(builders, published, Fed(history, timeframes, token, tf), token, tf);
      if (token, tf) in builders then builders[(token, tf)].ToOhlc() else None
    }

    /** Until the cap is reached, what is kept for a key is every candle its ticks have closed. */
    function GetCompletedCandles(token: Option<int>, tf: Option<Timeframe>, limit: int): (cs: seq<Candle>)
      requires Valid()
      reads this
      ensures |published| <= MAX_COMPLETED_CANDLES && token.Some? && tf.Some? ==>
                var ticks := Fed(history, timeframes, token.value, tf.value);
                cs == Tail(ClosedCandles(ticks, SymbolOf(ticks), tf.value), limit)
    {
      assert token.Some? && tf.Some? ==>
          KeyOk(builders, published, Fed(history, timeframes, token.value, tf.value), token.value, tf.value);
      Tail(Select(completed, token, tf), limit)
    }

    /** Past the cap too, what is kept for a key are the newest of the candles its ticks have closed, and what is missing
        is what the cap has dropped. */
    lemma NewestAreKept(token: int, tf: Timeframe, limit: int)
      requires Valid() && limit > 0
      ensures var ticks := Fed(history, timeframes, token, tf);
              var dropped := published[..|published| - |completed|];
              NewestOf(GetCompletedCandles(Some(token), Some(tf), limit), ClosedCandles(ticks, SymbolOf(ticks), tf),
                       limit, |Select(dropped, Some(token), Some(tf))|)
    {
      var dropped := published[..|published| - |completed|];
      assert published == dropped + completed;
      assert KeyOk(builders, published, Fed(history, timeframes, token, tf), token, tf);
      SelectConcat(dropped, completed, Some(token), Some(tf));
      TailIsNewest(Select(dropped, Some(token), Some(tf)), Select(completed, Some(token), Some(tf)), limit);
    }

    /** A filter that is left out lets every candle pass; a limit of zero, or one that is large enough, lets all. */
    lemma KeptAreFiltered(token: Option<int>, tf: Option<Timeframe>, limit: int)
      requires Valid()
      ensures forall c :: c in GetCompletedCandles(token, tf, limit) ==> c in completed && Matches(c, token, tf)
      ensures limit == 0 || limit >= |completed| ==>
        forall c :: c in completed && Matches(c, token, tf) ==> c in GetCompletedCandles(token, tf, limit)
    {
      SelectIff(completed, token, tf);
      TailIsAmong(Select(completed, token, tf), limit);
    }
  }

  lemma Unfed(builders: map<Key, Builder>, published: seq<Candle>, history: seq<Tick>, t: Tick, timeframes: seq<Timeframe>)
    requires AllOk(builders, published, history, timeframes)
    ensures PartlyOk(builders, published, history, t, timeframes, 0)
  {
    forall token: int, tf: Timeframe
      ensures KeyOk(builders, published, FedSoFar(history, t, timeframes, 0, token, tf), token, tf)
    {
      assert KeyOk(builders, published, Fed(history, timeframes, token, tf), token, tf);
    }
  }

  lemma NotYetFed(builders: map<Key, Builder>, published: seq<Candle>, history: seq<Tick>, t: Tick,
                  timeframes: seq<Timeframe>, n: nat)
    requires Distinct(timeframes) && n < |timeframes| && PartlyOk(builders, published, history, t, timeframes, n)
    ensures KeyOk(builders, published, Of(history, t.token), t.token, timeframes[n])
  {
    assert timeframes[n] !in timeframes[..n];
    assert KeyOk(builders, published, FedSoFar(history, t, timeframes, n, t.token, timeframes[n]), t.token, timeframes[n]);
  }
}
