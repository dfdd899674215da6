/** Small building blocks shared by the models: options, results and insertion-ordered dictionaries. */
module Collections {

  datatype Option<+T> = None | Some(value: T)

  datatype Result<+T, +E> = Ok(value: T) | Err(error: E)

  function Abs(x: int): nat { if x < 0 then -x else x }

  function AbsR(x: real): real { if x < 0.0 then -x else x }

  function Min(a: int, b: int): int { if a <= b then a else b }

  function Max(a: int, b: int): int { if a >= b then a else b }

  function MinR(a: real, b: real): real { if a <= b then a else b }

  function MaxR(a: real, b: real): real { if a >= b then a else b }

  /** To the nearest integer, ties to the even neighbour. */
  function RoundHalfEven(x: real): int {
    var below := x.Floor;
    var rest := x - below as real;
    if rest < 0.5 || (rest == 0.5 && below % 2 == 0) then below else below + 1
  }

  lemma RoundHalfEvenError(x: real)
    ensures -0.5 <= RoundHalfEven(x) as real - x <= 0.5
    ensures RoundHalfEven(x) == 0 <==> -0.5 <= x <= 0.5
    ensures x - x.Floor as real == 0.5 ==> RoundHalfEven(x) % 2 == 0
  {
  }

  /** n units at a price, counted unit by unit. */
  ghost function Times(n: int, price: real): real
    decreases Abs(n)
  {
    if n == 0 then 0.0 else if n > 0 then Times(n - 1, price) + price else Times(n + 1, price) - price
  }

  lemma {:induction false} TimesIsProduct(n: int, price: real)
    ensures Times(n, price) == n as real * price
    decreases Abs(n)
  {
    if n > 0 {
      TimesIsProduct(n - 1, price);
      assert (n - 1) as real * price == n as real * price - price;
    } else if n < 0 {
      TimesIsProduct(n + 1, price);
      assert (n + 1) as real * price == n as real * price + price;
    }
  }

  lemma TimesAdds(n: int, m: int, price: real)
    ensures Times(n + m, price) == Times(n, price) + Times(m, price)
  {
    TimesIsProduct(n, price);
    TimesIsProduct(m, price);
    TimesIsProduct(n + m, price);
    assert (n + m) as real * price == n as real * price + m as real * price;
  }

  lemma TimesNegated(n: int, price: real)
    ensures Times(-n, price) == -(n as real * price)
  {
    TimesAdds(n, -n, price);
    TimesIsProduct(n, price);
  }

  lemma {:induction false} TimesMonotone(n: int, m: int, price: real)
    requires n <= m && price >= 0.0
    ensures Times(n, price) <= Times(m, price)
    decreases m - n
  {
    if n < m {
      TimesMonotone(n, m - 1, price);
      TimesAdds(m - 1, 1, price);
    }
  }

  /** The last n elements, or all of them when there are fewer. */
  function Newest<T>(s: seq<T>, n: nat): seq<T> {
    if |s| > n then s[|s| - n..] else s
  }

  /** Trimming after every append keeps what trimming once at the end would. */
  lemma NewestGrows<T>(s: seq<T>, x: T, n: nat)
    requires n > 0
    ensures Newest(s + [x], n) == Newest(Newest(s, n) + [x], n)
  {
    if |s| >= n {
      assert (s + [x])[|s| + 1 - n..] == (Newest(s, n) + [x])[1..];
    }
  }

  // ---- Products of reals, one fact at a time ----

  lemma ProductMonotone(w: real, p: real, q: real)
    requires w >= 0.0 && p <= q
    ensures w * p <= w * q
  {
  }

  lemma ProductCancels(w: real, p: real, q: real)
    requires w > 0.0 && w * p <= w * q
    ensures p <= q
  {
    if q < p { ProductStrict(w, q, p); }
  }

  lemma ProductStrict(w: real, p: real, q: real)
    requires w > 0.0 && p < q
    ensures w * p < w * q
  {
  }

  lemma ProductSplits(w: real, u: real, v: real, p: real)
    requires w == u + v
    ensures w * p == u * p + v * p
  {
  }

  // ---- Multiples ----

  lemma MulMonotone(a: int, b: int, s: int)
    requires a <= b && s > 0
    ensures a * s <= b * s
  {
  }

  /** The multiple of s at or below t. */
  lemma Multiple(t: int, s: int) returns (p: int)
    requires s > 0
    ensures p == t / s && t - t % s == p * s && p * s <= t < p * s + s
  {
    p := t / s;
  }

  /** There is only one multiple of s at most one step below t. */
  lemma OneMultiple(s: int, p: int, q: int, t: int)
    requires s > 0 && p * s <= t < p * s + s && q * s <= t < q * s + s
    ensures p == q
  {
    if p < q { MulMonotone(p + 1, q, s); } else if q < p { MulMonotone(q + 1, p, s); }
  }

  /** Multiples add up, quotient by quotient. */
  lemma QuotientsAdd(a: int, b: int, s: int)
    requires s > 0 && a % s == 0 && b % s == 0
    ensures (a + b) % s == 0 && (a + b) / s == a / s + b / s
  {
    var p := Multiple(a, s);
    var q := Multiple(b, s);
    var r := Multiple(a + b, s);
    assert (p + q) * s == a + b;
    OneMultiple(s, p + q, r, a + b);
  }

  /** The quotient of a multiple has its sign and its size. */
  lemma QuotientOfAbs(a: int, s: int)
    requires s > 0 && a % s == 0
    ensures Abs(a) / s == Abs(a / s)
    ensures (a >= 0 <==> a / s >= 0) && (a <= 0 <==> a / s <= 0)
  {
    var p := Multiple(a, s);
    if p > 0 { MulMonotone(1, p, s); } else { MulMonotone(p, 0, s); }
    if p < 0 { MulMonotone(p, -1, s); }
    var q := Multiple(Abs(a), s);
    if a < 0 { assert (-p) * s == -a; }
    OneMultiple(s, Abs(p), q, Abs(a));
  }

  ghost predicate Distinct<T>(s: seq<T>) {
    forall i, j :: 0 <= i < j < |s| ==> s[i] != s[j]
  }

  lemma DistinctConcat<T>(a: seq<T>, b: seq<T>)
    requires Distinct(a) && Distinct(b)
    requires forall i :: 0 <= i < |a| ==> a[i] !in b
    ensures Distinct(a + b)
  {
    forall i, j | 0 <= i < j < |a + b| ensures (a + b)[i] != (a + b)[j] {
      if i < |a| <= j { assert (a + b)[j] in b; }
    }
  }

  /** A Python dictionary: a finite map that remembers the order in which its keys were first inserted.
      Assigning to a key that is present keeps that key's place. */
  datatype OrderedDict<K(!new, ==), V> = OrderedDict(order: seq<K>, entries: map<K, V>) {

    ghost predicate Valid() {
      && Distinct(order)
      && (forall k :: k in order <==> k in entries)
    }

    function Put(k: K, v: V): OrderedDict<K, V> {
      OrderedDict(if k in entries then order else order + [k], entries[k := v])
    }

    function Remove(k: K): OrderedDict<K, V> {
      OrderedDict(Without(order, k), entries - {k})
    }

    lemma PutKeepsOrder(k: K, v: V)
      requires Valid()
      ensures Put(k, v).Valid()
    {
      if k !in entries {
        assert forall x :: x in order + [k] <==> x in order || x == k;
      }
    }

    /** Assigning a key just before deleting it leaves no trace. */
    lemma PutRemove(k: K, v: V)
      requires Valid()
      ensures Put(k, v).Remove(k) == Remove(k)
    {
      if k !in entries { WithoutAppend(order, k); }
      assert (entries[k := v]) - {k} == entries - {k};
    }

    lemma RemoveKeepsOrder(k: K)
      requires Valid()
      ensures Remove(k).Valid()
      ensures forall x :: x in Remove(k).entries <==> x in entries && x != k
      ensures order != [] && k == order[0] ==> Remove(k).order == order[1..]
    {
      WithoutLaws(order, k);
      if order != [] && k == order[0] {
        assert k !in order[1..];
        WithoutLaws(order[1..], k);
      }
    }
  }

  /** The sequence s with its occurrences of k left out. */
  function Without<T(==)>(s: seq<T>, k: T): seq<T> {
    if s == [] then [] else (if s[0] == k then [] else [s[0]]) + Without(s[1..], k)
  }

  lemma {:induction false} WithoutAppend<T>(s: seq<T>, k: T)
    ensures Without(s + [k], k) == Without(s, k)
  {
    if s != [] {
      assert (s + [k])[1..] == s[1..] + [k];
      WithoutAppend(s[1..], k);
    }
  }

  lemma {:induction false} WithoutLaws<T(!new)>(s: seq<T>, k: T)
    ensures forall x :: x in Without(s, k) <==> x in s && x != k
    ensures Distinct(s) ==> Distinct(Without(s, k))
    ensures k !in s ==> Without(s, k) == s
  {
    if s != [] {
      WithoutLaws(s[1..], k);
      assert s == [s[0]] + s[1..];
      if Distinct(s) {
        assert Distinct(s[1..]);
        assert s[0] !in s[1..];
      }
    }
  }
}
