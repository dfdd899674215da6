/** Option chains and the max-pain strike: the listed strike at which option writers lose the least. */
module MaxPain {
  import opened Collections
  import Payoff

  datatype OptionData = OptionData(token: int, symbol: string, ltp: real, volume: int, oi: int, delta: real)

  datatype Entry = Entry(strike: real, ce: Option<OptionData>, pe: Option<OptionData>)

  function CallOi(e: Entry): int { if e.ce.Some? then e.ce.value.oi else 0 }

  function PutOi(e: Entry): int { if e.pe.Some? then e.pe.value.oi else 0 }

  /** What writers pay on one strike when the underlying settles at x: the intrinsic value of every open contract. */
  ghost function EntryPain(e: Entry, x: real): real { CallPain(e, x) + PutPain(e, x) }

  ghost function CallPain(e: Entry, x: real): real { Payoff.Intrinsic(e.strike, true, x) * CallOi(e) as real }

  ghost function PutPain(e: Entry, x: real): real { Payoff.Intrinsic(e.strike, false, x) * PutOi(e) as real }

  ghost function Pain(strikes: seq<Entry>, x: real, n: nat): real
    requires n <= |strikes|
  {
    if n == 0 then 0.0 else Pain(strikes, x, n - 1) + EntryPain(strikes[n - 1], x)
  }

  ghost function TotalPain(strikes: seq<Entry>, x: real): real { Pain(strikes, x, |strikes|) }

  ghost predicate StrictlySorted(strikes: seq<Entry>) {
    forall i, j :: 0 <= i < j < |strikes| ==> strikes[i].strike < strikes[j].strike
  }

  ghost predicate OpenInterestOk(e: Entry) {
    (e.ce.Some? ==> e.ce.value.oi >= 0) && (e.pe.Some? ==> e.pe.value.oi >= 0)
  }

  ghost predicate NonNegativeInterest(strikes: seq<Entry>) {
    forall i :: 0 <= i < |strikes| ==> OpenInterestOk(strikes[i])
  }

  /** Index i is the first at which the total pain over the listed strikes is least. */
  ghost predicate FirstLeastPain(strikes: seq<Entry>, i: nat) {
    && i < |strikes|
    && (forall j :: 0 <= j < |strikes| ==>
          TotalPain(strikes, strikes[i].strike) <= TotalPain(strikes, strikes[j].strike))
    && (forall j :: 0 <= j < i ==> TotalPain(strikes, strikes[i].strike) < TotalPain(strikes, strikes[j].strike))
  }

  method AddPain(before: real, entry: Entry, target: real) returns (total: real)
    ensures total == before + EntryPain(entry, target)
  {
    total := before;
    if entry.ce.Some? && target > entry.strike {
      total := total + (target - entry.strike) * entry.ce.value.oi as real;
    }
    if entry.pe.Some? && target < entry.strike {
      total := total + (entry.strike - target) * entry.pe.value.oi as real;
    }
  }

  method PainAt(strikes: seq<Entry>, target: real) returns (total: real)
    ensures total == TotalPain(strikes, target)
  {
    total := 0.0;
    var k := 0;
    while k < |strikes|
      invariant 0 <= k <= |strikes| && total == Pain(strikes, target, k)
    {
      total := AddPain(total, strikes[k], target);
      k := k + 1;
    }
  }

  method ComputeMaxPain(strikes: seq<Entry>) returns (maxPain: real)
    ensures strikes == [] ==> maxPain == 0.0
    ensures strikes != [] ==> exists i: nat :: FirstLeastPain(strikes, i) && maxPain == strikes[i].strike
  {
    if strikes == [] {
      return 0.0;
    }
    var minPain: Option<real> := None;
    maxPain := strikes[0].strike;
    var i, best := 0, 0;
    while i < |strikes|
      invariant 0 <= i <= |strikes| && 0 <= best < |strikes|
      invariant maxPain == strikes[best].strike
      invariant i == 0 <==> minPain.None?
      invariant i > 0 ==> best < i && minPain.value == TotalPain(strikes, strikes[best].strike)
      invariant forall j :: 0 <= j < i ==> minPain.value <= TotalPain(strikes, strikes[j].strike)
      invariant i > 0 ==> forall j :: 0 <= j < best ==> minPain.value < TotalPain(strikes, strikes[j].strike)
    {
      var total := PainAt(strikes, strikes[i].strike);
      if minPain.None? || total < minPain.value {
        minPain := Some(total);
        maxPain := strikes[i].strike;
        best := i;
      }
      i := i + 1;
    }
    assert FirstLeastPain(strikes, best);
  }

  // ---- The listed optimum is global ----

  /** Between two prices with the strike outside, the pain of one strike is linear. */
  lemma EntryPainIsLinear(e: Entry, a: real, x: real, b: real)
    requires a <= x <= b && (e.strike <= a || b <= e.strike)
    ensures Linear(b - a, EntryPain(e, x), b - x, EntryPain(e, a), x - a, EntryPain(e, b))
  {
    var k := e.strike;
    if k <= a {
      Interpolate(a - k, x - k, b - k, CallOi(e) as real);
    } else {
      Interpolate(k - a, k - x, k - b, PutOi(e) as real);
    }
  }

  lemma Interpolate(a: real, x: real, b: real, w: real)
    ensures (b - a) * (x * w) == (b - x) * (a * w) + (x - a) * (b * w)
    ensures (a - b) * (x * w) == (x - b) * (a * w) + (a - x) * (b * w)
  {
  }

  ghost function Sum(xs: seq<real>, n: nat): real
    requires n <= |xs|
  {
    if n == 0 then 0.0 else Sum(xs, n - 1) + xs[n - 1]
  }

  ghost predicate Linear(w: real, x: real, u: real, y: real, v: real, z: real) { w * x == u * y + v * z }

  ghost predicate Mixed(w: real, xs: seq<real>, u: real, ys: seq<real>, v: real, zs: seq<real>) {
    |xs| == |ys| == |zs| && forall i :: 0 <= i < |xs| ==> Linear(w, xs[i], u, ys[i], v, zs[i])
  }

  lemma {:induction false} SumIsLinear(w: real, xs: seq<real>, u: real, ys: seq<real>, v: real, zs: seq<real>, n: nat)
    requires n <= |xs| && Mixed(w, xs, u, ys, v, zs)
    ensures Linear(w, Sum(xs, n), u, Sum(ys, n), v, Sum(zs, n))
  {
    if n > 0 {
      SumIsLinear(w, xs, u, ys, v, zs, n - 1);
      AddLinear(w, u, v, Sum(xs, n - 1), Sum(ys, n - 1), Sum(zs, n - 1), xs[n - 1], ys[n - 1], zs[n - 1]);
    }
  }

  lemma AddLinear(w: real, u: real, v: real, p: real, q: real, r: real, p': real, q': real, r': real)
    requires Linear(w, p, u, q, v, r) && Linear(w, p', u, q', v, r')
    ensures Linear(w, p + p', u, q + q', v, r + r')
  {
  }

  ghost function Pains(strikes: seq<Entry>, x: real): (ps: seq<real>)
    ensures |ps| == |strikes| && forall i :: 0 <= i < |strikes| ==> ps[i] == EntryPain(strikes[i], x)
  {
    seq(|strikes|, i requires 0 <= i < |strikes| => EntryPain(strikes[i], x))
  }

  lemma {:induction false} PainIsSum(strikes: seq<Entry>, x: real, n: nat)
    requires n <= |strikes|
    ensures Pain(strikes, x, n) == Sum(Pains(strikes, x), n)
  {
    if n > 0 { PainIsSum(strikes, x, n - 1); }
  }

  lemma PainsAreMixed(strikes: seq<Entry>, a: real, x: real, b: real)
    requires a <= x <= b
    requires forall i :: 0 <= i < |strikes| ==> strikes[i].strike <= a || b <= strikes[i].strike
    ensures Mixed(b - a, Pains(strikes, x), b - x, Pains(strikes, a), x - a, Pains(strikes, b))
  {
    var xs, ys, zs := Pains(strikes, x), Pains(strikes, a), Pains(strikes, b);
    forall i | 0 <= i < |strikes| ensures Linear(b - a, xs[i], b - x, ys[i], x - a, zs[i]) {
      EntryPainIsLinear(strikes[i], a, x, b);
    }
  }

  /** With no strike strictly between a and b the total pain is linear there. */
  lemma PainIsLinear(strikes: seq<Entry>, a: real, x: real, b: real)
    requires a <= x <= b
    requires forall i :: 0 <= i < |strikes| ==> strikes[i].strike <= a || b <= strikes[i].strike
    ensures Linear(b - a, TotalPain(strikes, x), b - x, TotalPain(strikes, a), x - a, TotalPain(strikes, b))
  {
    PainsAreMixed(strikes, a, x, b);
    SumIsLinear(b - a, Pains(strikes, x), b - x, Pains(strikes, a), x - a, Pains(strikes, b), |strikes|);
    PainIsSum(strikes, x, |strikes|);
    PainIsSum(strikes, a, |strikes|);
    PainIsSum(strikes, b, |strikes|);
  }

  /** Outside the listed range the pain only grows. */
  lemma {:induction false} PainOutside(strikes: seq<Entry>, edge: real, x: real, n: nat)
    requires n <= |strikes| && NonNegativeInterest(strikes)
    requires (x <= edge && forall i :: 0 <= i < n ==> edge <= strikes[i].strike)
          || (edge <= x && forall i :: 0 <= i < n ==> strikes[i].strike <= edge)
    ensures Pain(strikes, edge, n) <= Pain(strikes, x, n)
  {
    if n > 0 {
      PainOutside(strikes, edge, x, n - 1);
      assert OpenInterestOk(strikes[n - 1]);
      EntryPainOutside(strikes[n - 1], edge, x);
    }
  }

  lemma EntryPainOutside(e: Entry, edge: real, x: real)
    requires OpenInterestOk(e)
    requires (x <= edge <= e.strike) || (e.strike <= edge <= x)
    ensures EntryPain(e, edge) <= EntryPain(e, x)
  {
    if x < edge {
      PutPainOutside(e, edge, x);
    } else if edge < x {
      CallPainOutside(e, edge, x);
    }
  }

  lemma CallPainOutside(e: Entry, edge: real, x: real)
    requires OpenInterestOk(e) && e.strike <= edge <= x
    ensures CallPain(e, edge) <= CallPain(e, x)
  {
    Scale(edge - e.strike, x - e.strike, CallOi(e) as real);
  }

  lemma PutPainOutside(e: Entry, edge: real, x: real)
    requires OpenInterestOk(e) && x <= edge <= e.strike
    ensures PutPain(e, edge) <= PutPain(e, x)
  {
    Scale(e.strike - edge, e.strike - x, PutOi(e) as real);
  }

  lemma Scale(p: real, q: real, w: real)
    requires p <= q && w >= 0.0
    ensures p * w <= q * w
  {
  }

  lemma ConvexFloor(a: real, x: real, b: real, pa: real, px: real, pb: real, m: real)
    requires a <= x <= b && a < b && m <= pa && m <= pb
    requires Linear(b - a, px, b - x, pa, x - a, pb)
    ensures m <= px
  {
    ProductMonotone(b - x, m, pa);
    ProductMonotone(x - a, m, pb);
    ProductSplits(b - a, b - x, x - a, m);
    AboveTheFloor(b - a, m, px, (b - x) * m, (x - a) * m, (b - x) * pa, (x - a) * pb);
  }

  lemma AboveTheFloor(w: real, m: real, px: real, um: real, vm: real, upa: real, vpb: real)
    requires w > 0.0 && w * m == um + vm && um <= upa && vm <= vpb && w * px == upa + vpb
    ensures m <= px
  {
    ProductCancels(w, m, px);
  }

  lemma {:induction false} Neighbours(strikes: seq<Entry>, x: real, n: nat) returns (k: nat)
    requires StrictlySorted(strikes) && 0 < n <= |strikes|
    requires strikes[0].strike <= x < strikes[n - 1].strike
    ensures k + 1 < n && strikes[k].strike <= x < strikes[k + 1].strike
  {
    if strikes[n - 2].strike <= x { k := n - 2; } else { k := Neighbours(strikes, x, n - 1); }
  }

  /** Max pain is optimal over every settlement price, listed or not. */
  lemma MaxPainIsGlobal(strikes: seq<Entry>, i: nat, x: real)
    requires StrictlySorted(strikes) && NonNegativeInterest(strikes) && FirstLeastPain(strikes, i)
    ensures TotalPain(strikes, strikes[i].strike) <= TotalPain(strikes, x)
  {
    var n := |strikes|;
    if x <= strikes[0].strike {
      PainOutside(strikes, strikes[0].strike, x, n);
    } else if strikes[n - 1].strike <= x {
      PainOutside(strikes, strikes[n - 1].strike, x, n);
    } else {
      var k := Neighbours(strikes, x, n);
      var a, b := strikes[k].strike, strikes[k + 1].strike;
      PainIsLinear(strikes, a, x, b);
      ConvexFloor(a, x, b, TotalPain(strikes, a), TotalPain(strikes, x), TotalPain(strikes, b),
                  TotalPain(strikes, strikes[i].strike));
    }
  }

  /** Among listed strikes with that least pain it is the lowest. */
  lemma MaxPainIsLowest(strikes: seq<Entry>, i: nat, j: nat)
    requires StrictlySorted(strikes) && FirstLeastPain(strikes, i) && j < |strikes|
    requires TotalPain(strikes, strikes[j].strike) <= TotalPain(strikes, strikes[i].strike)
    ensures strikes[i].strike <= strikes[j].strike
  {
    if j < i { assert false; }
  }

  // ---- The optimum in open interest alone ----

  /** The open interest of one side over those strikes that qualify. */
  ghost function OiWhere(strikes: seq<Entry>, isCall: bool, where: real -> bool): int {
    if strikes == [] then 0
    else
      var e := strikes[|strikes| - 1];
      OiWhere(strikes[..|strikes| - 1], isCall, where)
      + OiIf(e, isCall, where(e.strike))
  }

  ghost function OiIf(e: Entry, isCall: bool, counts: bool): int {
    if !counts then 0 else if isCall then (if e.ce.Some? then e.ce.value.oi else 0)
    else if e.pe.Some? then e.pe.value.oi else 0
  }

  lemma {:induction false} OiConcat(a: seq<Entry>, b: seq<Entry>, isCall: bool)
    ensures SideOi(a + b, isCall) == SideOi(a, isCall) + SideOi(b, isCall)
  {
    if b == [] {
      assert a + b == a;
    } else {
      assert (a + b)[..|a + b| - 1] == a + b[..|b| - 1];
      OiConcat(a, b[..|b| - 1], isCall);
    }
  }

  /** One entry more, or one replaced. */
  lemma OiWithEntry(a: seq<Entry>, e: Entry, b: seq<Entry>, isCall: bool)
    ensures SideOi(a + [e] + b, isCall) == SideOi(a + b, isCall) + OiIf(e, isCall, true)
  {
    OiConcat(a + [e], b, isCall);
    OiConcat(a, [e], isCall);
    OiConcat(a, b, isCall);
    assert [e][..0] == [];
  }

  /** All the open interest of one side. */
  ghost function SideOi(strikes: seq<Entry>, isCall: bool): int { OiWhere(strikes, isCall, k => true) }

  /** What the writers of all open contracts pay at expiry, contract by contract. */
  ghost function Payout(strikes: seq<Entry>, x: real): real {
    if strikes == [] then 0.0
    else
      var e := strikes[|strikes| - 1];
      Payout(strikes[..|strikes| - 1], x)
      + (if e.ce.Some? then e.ce.value.oi as real * Payoff.Intrinsic(e.strike, true, x) else 0.0)
      + (if e.pe.Some? then e.pe.value.oi as real * Payoff.Intrinsic(e.strike, false, x) else 0.0)
  }

  lemma {:induction false} PainIsPayout(strikes: seq<Entry>, x: real)
    ensures TotalPain(strikes, x) == Payout(strikes, x)
  {
    PainOfPrefix(strikes, x, |strikes|);
    assert strikes[..|strikes|] == strikes;
  }

  lemma {:induction false} PainOfPrefix(strikes: seq<Entry>, x: real, n: nat)
    requires n <= |strikes|
    ensures Pain(strikes, x, n) == Payout(strikes[..n], x)
  {
    if n > 0 {
      PainOfPrefix(strikes, x, n - 1);
      assert strikes[..n][..n - 1] == strikes[..n - 1];
    }
  }

  /** At m no side outweighs the other: the calls that would pay more for a higher settlement and the puts that would
      pay less, and the other way round. */
  ghost predicate Balanced(strikes: seq<Entry>, m: real) {
    && OiWhere(strikes, true, k => k < m) <= OiWhere(strikes, false, k => k >= m)
    && OiWhere(strikes, false, k => k > m) <= OiWhere(strikes, true, k => k <= m)
  }

  /** By how much the pain of one strike grows, at least, per point that the settlement moves up or down from m. */
  ghost function Pull(e: Entry, m: real, up: bool): int { CallPull(e, m, up) + PutPull(e, m, up) }

  ghost function CallPull(e: Entry, m: real, up: bool): int {
    if up then if e.strike <= m then CallOi(e) else 0 else if e.strike < m then -CallOi(e) else 0
  }

  ghost function PutPull(e: Entry, m: real, up: bool): int {
    if up then if e.strike > m then -PutOi(e) else 0 else if e.strike >= m then PutOi(e) else 0
  }

  ghost predicate Between(k: real, m: real, x: real) { m < k < x || x < k < m }

  lemma CallSlope(e: Entry, m: real, x: real, w: real)
    requires CallOi(e) >= 0 && x != m && w == AbsR(x - m)
    ensures CallPain(e, x) >= CallPain(e, m) + Times(CallPull(e, m, x > m), w)
    ensures !Between(e.strike, m, x) ==> CallPain(e, x) == CallPain(e, m) + Times(CallPull(e, m, x > m), w)
  {
    var a, b := Payoff.Intrinsic(e.strike, true, x), Payoff.Intrinsic(e.strike, true, m);
    TimesIsProduct(CallOi(e), w);
    TimesNegated(CallOi(e), w);
    Gains(a, b, w, CallOi(e) as real);
  }

  lemma PutSlope(e: Entry, m: real, x: real, w: real)
    requires PutOi(e) >= 0 && x != m && w == AbsR(x - m)
    ensures PutPain(e, x) >= PutPain(e, m) + Times(PutPull(e, m, x > m), w)
    ensures !Between(e.strike, m, x) ==> PutPain(e, x) == PutPain(e, m) + Times(PutPull(e, m, x > m), w)
  {
    var a, b := Payoff.Intrinsic(e.strike, false, x), Payoff.Intrinsic(e.strike, false, m);
    TimesIsProduct(PutOi(e), w);
    TimesNegated(PutOi(e), w);
    Gains(a, b, w, PutOi(e) as real);
  }

  lemma Gains(a: real, b: real, w: real, oi: real)
    requires oi >= 0.0
    ensures a >= b ==> a * oi >= b * oi
    ensures a >= b - w ==> a * oi >= b * oi - oi * w
    ensures a >= b + w ==> a * oi >= b * oi + oi * w
    ensures a == b - w ==> a * oi == b * oi - oi * w
    ensures a == b + w ==> a * oi == b * oi + oi * w
  {
    if a >= b { Scale(b, a, oi); }
    if a >= b - w { Scale(b - w, a, oi); }
    if a >= b + w { Scale(b + w, a, oi); }
    assert (b - w) * oi == b * oi - oi * w && (b + w) * oi == b * oi + oi * w;
  }

  ghost function PullAmong(strikes: seq<Entry>, m: real, up: bool, n: nat): int
    requires n <= |strikes|
  {
    if n == 0 then 0 else PullAmong(strikes, m, up, n - 1) + Pull(strikes[n - 1], m, up)
  }

  ghost predicate NoneBetween(strikes: seq<Entry>, m: real, x: real) {
    forall i :: 0 <= i < |strikes| ==> !Between(strikes[i].strike, m, x)
  }

  /** A pain grows from pm to px at least as the pull over a distance w says, or exactly so. */
  ghost predicate Sloped(pm: real, px: real, pull: int, w: real, exact: bool) {
    px >= pm + Times(pull, w) && (exact ==> px == pm + Times(pull, w))
  }

  lemma EntrySlope(e: Entry, m: real, x: real, w: real)
    requires OpenInterestOk(e) && x != m && w == AbsR(x - m)
    ensures Sloped(EntryPain(e, m), EntryPain(e, x), Pull(e, m, x > m), w, !Between(e.strike, m, x))
  {
    CallSlope(e, m, x, w);
    PutSlope(e, m, x, w);
    TimesAdds(CallPull(e, m, x > m), PutPull(e, m, x > m), w);
  }

  lemma SlopesAdd(pm: real, px: real, pull: int, qm: real, qx: real, more: int, w: real, exact: bool, besides: bool)
    requires Sloped(pm, px, pull, w, exact) && Sloped(qm, qx, more, w, besides)
    ensures Sloped(pm + qm, px + qx, pull + more, w, exact && besides)
  {
    TimesAdds(pull, more, w);
  }

  lemma {:induction false} PainSlope(strikes: seq<Entry>, m: real, x: real, w: real, up: bool, n: nat)
    requires n <= |strikes| && NonNegativeInterest(strikes) && x != m && w == AbsR(x - m) && up == (x > m)
    ensures Sloped(Pain(strikes, m, n), Pain(strikes, x, n), PullAmong(strikes, m, up, n), w, NoneBetween(strikes, m, x))
  {
    if n > 0 {
      var e, exact := strikes[n - 1], NoneBetween(strikes, m, x);
      PainSlope(strikes, m, x, w, up, n - 1);
      assert OpenInterestOk(e);
      EntrySlope(e, m, x, w);
      SlopesAdd(Pain(strikes, m, n - 1), Pain(strikes, x, n - 1), PullAmong(strikes, m, up, n - 1),
                EntryPain(e, m), EntryPain(e, x), Pull(e, m, up), w, exact, !Between(e.strike, m, x));
    }
  }

  lemma {:induction false} PullIsOi(strikes: seq<Entry>, m: real, n: nat)
    requires n <= |strikes|
    ensures PullAmong(strikes, m, true, n) == OiWhere(strikes[..n], true, k => k <= m) - OiWhere(strikes[..n], false, k => k > m)
    ensures PullAmong(strikes, m, false, n) == OiWhere(strikes[..n], false, k => k >= m) - OiWhere(strikes[..n], true, k => k < m)
  {
    if n > 0 {
      PullIsOi(strikes, m, n - 1);
      assert strikes[..n][..n - 1] == strikes[..n - 1];
    }
  }

  /** At a balanced price the writers pay no more than at any other. */
  lemma BalancedIsOptimal(strikes: seq<Entry>, m: real, x: real)
    requires NonNegativeInterest(strikes) && Balanced(strikes, m)
    ensures TotalPain(strikes, m) <= TotalPain(strikes, x)
  {
    if x != m {
      var w := AbsR(x - m);
      assert strikes[..|strikes|] == strikes;
      PullIsOi(strikes, m, |strikes|);
      PainSlope(strikes, m, x, w, x > m, |strikes|);
      TimesMonotone(0, PullAmong(strikes, m, x > m, |strikes|), w);
    }
  }

  /** Where moving on to x, with no strike in between, does not help, the pull that way is not negative. */
  lemma NoGainNoPull(strikes: seq<Entry>, m: real, x: real)
    requires NonNegativeInterest(strikes) && x != m && NoneBetween(strikes, m, x) && TotalPain(strikes, m) <= TotalPain(strikes, x)
    ensures PullAmong(strikes, m, x > m, |strikes|) >= 0
  {
    var w, pull := AbsR(x - m), PullAmong(strikes, m, x > m, |strikes|);
    PainSlope(strikes, m, x, w, x > m, |strikes|);
    if pull < 0 { TimesMonotone(pull, -1, w); }
  }

  /** A listed strike costs the writers least, over every settlement price, exactly when it is balanced. */
  lemma OptimalIffBalanced(strikes: seq<Entry>, i: nat)
    requires StrictlySorted(strikes) && NonNegativeInterest(strikes) && i < |strikes|
    ensures Balanced(strikes, strikes[i].strike) <==> forall x: real :: TotalPain(strikes, strikes[i].strike) <= TotalPain(strikes, x)
  {
    var m := strikes[i].strike;
    if Balanced(strikes, m) {
      forall x: real ensures TotalPain(strikes, m) <= TotalPain(strikes, x) { BalancedIsOptimal(strikes, m, x); }
    } else if forall x: real :: TotalPain(strikes, m) <= TotalPain(strikes, x) {
      NoGainNoPull(strikes, m, if i > 0 then strikes[i - 1].strike else m - 1.0);
      NoGainNoPull(strikes, m, if i < |strikes| - 1 then strikes[i + 1].strike else m + 1.0);
      assert strikes[..|strikes|] == strikes;
      PullIsOi(strikes, m, |strikes|);
      assert false;
    }
  }
}
