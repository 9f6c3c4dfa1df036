/** Small helpers shared by the model: an Option type, integer and real
    min/max, Python's truncating int(), countdowns and list removal. */
module Common {

  datatype Option<T> = None | Some(value: T)

  /** An RGB colour triple, as the source's configuration tables give it. */
  datatype Color = Color(r: int, g: int, b: int)

  function Max(a: int, b: int): int { if a >= b then a else b }

  function Min(a: int, b: int): int { if a <= b then a else b }

  function MaxR(a: real, b: real): real { if a >= b then a else b }

  function MinR(a: real, b: real): real { if a <= b then a else b }

  /** Python's `max(lo, min(hi, v))` on reals. */
  function ClampR(v: real, lo: real, hi: real): (r: real)
    ensures lo <= hi ==> lo <= r <= hi
    ensures lo <= v <= hi ==> r == v
  {
    MaxR(lo, MinR(hi, v))
  }

  /** Python's `int(n / d)`: the quotient truncated toward zero. */
  function TruncDiv(n: int, d: int): (q: int)
    requires d > 0
    ensures 0 <= n ==> 0 <= q && q * d <= n < q * d + d
    ensures n < 0 ==> q <= 0 && q * d - d < n <= q * d
  {
    if n >= 0 then n / d else -((-n) / d)
  }

  /** Python's `int(base * (1 + 0.1 * n))` computed exactly on integers:
      the base grown by n tenths, truncated toward zero. */
  function ScaleByTenths(base: int, n: int): (r: int)
    ensures 0 <= base && 0 <= n ==> base <= r && 10 * r <= base * (10 + n) < 10 * r + 10
  {
    TruncDiv(base * (10 + n), 10)
  }

  /** Rounding of a non-negative quotient to the nearest integer, halves upward. */
  function RoundDiv(n: int, d: int): (q: int)
    requires n >= 0 && d > 0
    ensures 0 <= q
    ensures 2 * q * d - d <= 2 * n < 2 * q * d + d
  {
    (2 * n + d) / (2 * d)
  }

  /** One tick of a countdown guarded by `if t > 0: t -= 1`. */
  function TickDown(t: int): (r: int)
    ensures 0 <= t ==> 0 <= r <= t
    ensures t - 1 <= r && (r == t <==> t <= 0)
  {
    if t > 0 then t - 1 else t
  }

  /** Every element of s occurs once. */
  predicate Distinct<T(==)>(s: seq<T>)
  {
    forall i, j :: 0 <= i < j < |s| ==> s[i] != s[j]
  }

  /** The position of the first occurrence of x in s. */
  function IndexOf<T(==)>(s: seq<T>, x: T): (i: nat)
    requires x in s
    ensures i < |s| && s[i] == x && x !in s[..i]
  {
    if s[0] == x then 0
    else
      var k := IndexOf(s[1..], x);
      assert s[..k + 1] == [s[0]] + s[1..][..k];
      k + 1
  }

  /** Python's `list.remove(x)`: the first occurrence of x is dropped. Python
      raises ValueError when x is absent; every caller in the model removes an
      element it has just found in the list. */
  function RemoveFirst<T(==)>(s: seq<T>, x: T): (r: seq<T>)
    requires x in s
    ensures |r| == |s| - 1
    ensures multiset(r) == multiset(s) - multiset{x}
  {
    var i := IndexOf(s, x);
    assert s == s[..i] + [x] + s[i + 1..];
    s[..i] + s[i + 1..]
  }

  /** Removing from a list whose elements are distinct removes every copy and
      keeps the rest distinct. */
  lemma {:induction false} RemoveFirstDistinct<T>(s: seq<T>, x: T)
    requires x in s && Distinct(s)
    ensures x !in RemoveFirst(s, x) && Distinct(RemoveFirst(s, x))
  {
    var i := IndexOf(s, x);
    var r := RemoveFirst(s, x);
    assert r == s[..i] + s[i + 1..];
    forall a, b | 0 <= a < b < |r| ensures r[a] != r[b] {
      var a' := if a < i then a else a + 1;
      var b' := if b < i then b else b + 1;
      assert r[a] == s[a'] && r[b] == s[b'] && a' < b';
    }
  }

  /** Appending an element that is not yet present keeps a list distinct. */
  lemma AppendDistinct<T>(s: seq<T>, x: T)
    requires Distinct(s) && x !in s
    ensures Distinct(s + [x])
  {
  }

  /** s without the elements `drop` selects, in order: what a Python loop
      over a copy of a list that removes the selected entries leaves. */
  function RemoveWhere<T>(s: seq<T>, drop: T -> bool): (r: seq<T>)
    ensures |r| <= |s|
    decreases |s|
  {
    if s == [] then []
    else RemoveWhere(s[..|s| - 1], drop) + if drop(s[|s| - 1]) then [] else [s[|s| - 1]]
  }

  /** Exactly the entries `drop` does not select survive. */
  lemma {:induction false} RemoveWhereMembers<T>(s: seq<T>, drop: T -> bool)
    ensures forall i :: 0 <= i < |RemoveWhere(s, drop)| ==>
      RemoveWhere(s, drop)[i] in s && !drop(RemoveWhere(s, drop)[i])
    ensures forall i :: 0 <= i < |s| && !drop(s[i]) ==> s[i] in RemoveWhere(s, drop)
    decreases |s|
  {
    if s != [] {
      var init := s[..|s| - 1];
      assert s == init + [s[|s| - 1]];
      RemoveWhereMembers(init, drop);
    }
  }

  /** Filtering one more element. */
  lemma RemoveWhereSnoc<T>(s: seq<T>, x: T, drop: T -> bool)
    ensures RemoveWhere(s + [x], drop) == RemoveWhere(s, drop) + if drop(x) then [] else [x]
  {
    assert (s + [x])[..|s + [x]| - 1] == s;
  }

  /** Filtering a list whose elements are distinct keeps them distinct. */
  lemma {:induction false} RemoveWhereDistinct<T>(s: seq<T>, drop: T -> bool)
    requires Distinct(s)
    ensures Distinct(RemoveWhere(s, drop))
    decreases |s|
  {
    if s != [] {
      var init := s[..|s| - 1];
      var x := s[|s| - 1];
      RemoveWhereDistinct(init, drop);
      RemoveWhereMembers(init, drop);
      if !drop(x) {
        assert x !in RemoveWhere(init, drop) by {
          forall k | 0 <= k < |RemoveWhere(init, drop)| ensures RemoveWhere(init, drop)[k] != x {
            var j :| 0 <= j < |init| && init[j] == RemoveWhere(init, drop)[k];
            assert s[j] == init[j];
          }
        }
        AppendDistinct(RemoveWhere(init, drop), x);
      }
    }
  }

  /** In a list whose elements are distinct, removing x removes x and
      nothing else. */
  lemma RemoveFirstMembers<T>(s: seq<T>, x: T)
    requires x in s && Distinct(s)
    ensures forall y :: y in RemoveFirst(s, x) <==> y in s && y != x
  {
    RemoveFirstDistinct(s, x);
    var r := RemoveFirst(s, x);
    forall y | y in s && y != x ensures y in r {
      assert y in multiset(s);
    }
    forall y | y in r ensures y in s {
      assert y in multiset(r);
    }
  }
}
