// Shared vocabulary: results that mirror `require`, machine-width integers,
// collision-free hashes, and the few facts about finite sets and sums over
// maps that the protocol proofs need.
module Prelude {

  datatype Option<+T> = None | Some(value: T)

  datatype Result<+T, +E> = Ok(value: T) | Err(error: E) {
    predicate IsFailure() { Err? }

    function PropagateFailure<U>(): Result<U, E>
      requires Err?
    {
      Err(error)
    }

    function Extract(): T
      requires Ok?
    {
      value
    }
  }

  datatype Check<+E> = Pass | Fail(error: E) {
    predicate IsFailure() { Fail? }

    function PropagateFailure<U>(): Result<U, E>
      requires Fail?
    {
      Err(error)
    }
  }

  // `require(condition, reason)`.
  function Require<E>(condition: bool, reason: E): Check<E> {
    if condition then Pass else Fail(reason)
  }

  const MAX_UINT256: nat := 0xffff_ffff_ffff_ffff_ffff_ffff_ffff_ffff_ffff_ffff_ffff_ffff_ffff_ffff_ffff_ffff

  type uint8 = x: nat | x < 0x100
  type uint32 = x: nat | x < 0x1_0000_0000
  type uint64 = x: nat | x < 0x1_0000_0000_0000_0000
  type Byte = x: nat | x < 0x100

  // An account; 0 is the zero address.
  type Address = nat

  // A 32-byte word. Digests are free constructors, so two digests agree only
  // when their preimages do.
  datatype Hash = ZeroHash | Word(id: nat) | Keccak(text: seq<Byte>) | Sha256(content: seq<nat>)

  // ---- Finite sets of shard indices ----

  function Below(n: nat): (s: set<nat>)
    ensures forall i: nat :: i in s <==> i < n
  {
    if n == 0 then {} else Below(n - 1) + {n - 1}
  }

  lemma {:induction false} BelowSize(n: nat)
    ensures |Below(n)| == n
  {
    if n > 0 {
      BelowSize(n - 1);
    }
  }

  lemma {:induction false} SubsetSize<T>(a: set<T>, b: set<T>)
    requires a <= b
    ensures |a| <= |b|
    ensures |a| == |b| ==> a == b
  {
    assert b == a + (b - a);
    assert |b| == |a| + |b - a|;
    if |a| == |b| {
      assert b - a == {};
    }
  }

  // ---- Sums over maps ----

  // The sum of `weight` over the values of `m`.
  ghost function Total<K, V>(m: map<K, V>, weight: V -> int): int
    decreases |m.Keys|
  {
    if m.Keys == {} then 0 else
      var k :| k in m;
      assert (m - {k}).Keys == m.Keys - {k};
      weight(m[k]) + Total(m - {k}, weight)
  }

  // Any key may be taken out first.
  lemma {:induction false} TotalWithout<K, V>(m: map<K, V>, weight: V -> int, k: K)
    requires k in m
    ensures Total(m, weight) == weight(m[k]) + Total(m - {k}, weight)
    decreases |m.Keys|
  {
    var first :| first in m && Total(m, weight) == weight(m[first]) + Total(m - {first}, weight);
    if first != k {
      var m0, m1 := m - {first}, m - {k};
      assert m0.Keys == m.Keys - {first} && m1.Keys == m.Keys - {k};
      TotalWithout(m0, weight, k);
      TotalWithout(m1, weight, first);
      assert m0 - {k} == m1 - {first};
    }
  }

  lemma TotalAdd<K, V>(m: map<K, V>, weight: V -> int, k: K, v: V)
    requires k !in m
    ensures Total(m[k := v], weight) == Total(m, weight) + weight(v)
  {
    TotalWithout(m[k := v], weight, k);
    assert m[k := v] - {k} == m;
  }

  lemma TotalReplace<K, V>(m: map<K, V>, weight: V -> int, k: K, v: V)
    requires k in m
    ensures Total(m[k := v], weight) == Total(m, weight) - weight(m[k]) + weight(v)
  {
    TotalWithout(m, weight, k);
    TotalWithout(m[k := v], weight, k);
    assert m[k := v] - {k} == m - {k};
  }

  // A part is never larger than a sum of non-negative parts.
  lemma {:induction false} TotalCovers<K, V>(m: map<K, V>, weight: V -> int, k: K)
    requires k in m && forall j :: j in m ==> weight(m[j]) >= 0
    ensures weight(m[k]) <= Total(m, weight)
  {
    TotalWithout(m, weight, k);
    TotalNonNegative(m - {k}, weight);
  }

  lemma {:induction false} TotalNonNegative<K, V>(m: map<K, V>, weight: V -> int)
    requires forall j :: j in m ==> weight(m[j]) >= 0
    ensures Total(m, weight) >= 0
    decreases |m.Keys|
  {
    if m.Keys != {} {
      var k :| k in m && Total(m, weight) == weight(m[k]) + Total(m - {k}, weight);
      assert (m - {k}).Keys == m.Keys - {k};
      TotalNonNegative(m - {k}, weight);
    }
  }

  // ---- Products of naturals ----

  lemma MulMono(a: nat, b: nat, c: nat)
    requires a <= b
    ensures a * c <= b * c
  {
  }

  lemma MulAdd(unit: nat, a: nat, b: nat)
    ensures unit * (a + b) == unit * a + unit * b
  {
  }

  lemma MulPos(a: nat, b: nat)
    requires a > 0 && b > 0
    ensures a * b >= a && a * b >= b
  {
    MulMono(1, a, b);
    MulMono(1, b, a);
  }
}
