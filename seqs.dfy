/** Sequence combinators that mirror JavaScript's `Array.prototype.filter`, `find`,
    `slice`-based batching and `flat`, with the facts the rest of the model relies on. */
module Seqs {
  import opened Wrappers

  /** `s.map(f)`. */
  function Map<A, B>(s: seq<A>, f: A -> B): (r: seq<B>)
    ensures |r| == |s|
    ensures forall i :: 0 <= i < |s| ==> r[i] == f(s[i])
  {
    seq(|s|, i requires 0 <= i < |s| => f(s[i]))
  }

  /** Mapping a sequence extended by one element. */
  lemma {:induction false} MapSnoc<A, B>(s: seq<A>, x: A, f: A -> B)
    ensures Map(s + [x], f) == Map(s, f) + [f(x)]
  {
  }

  /** `s.filter(p)`: the elements of `s` that satisfy `p`, in their original order. */
  function Filter<T>(s: seq<T>, p: T -> bool): (r: seq<T>)
    ensures |r| <= |s|
    ensures forall i :: 0 <= i < |r| ==> p(r[i])
    ensures forall i :: 0 <= i < |r| ==> r[i] in s
    ensures forall i :: 0 <= i < |s| && p(s[i]) ==> s[i] in r
    decreases |s|
  {
    if s == [] then []
    else (if p(s[0]) then [s[0]] else []) + Filter(s[1..], p)
  }

  /** Filtering distributes over concatenation: the order of the kept elements is the
      order of the input. */
  lemma {:induction false} FilterConcat<T>(a: seq<T>, b: seq<T>, p: T -> bool)
    ensures Filter(a + b, p) == Filter(a, p) + Filter(b, p)
    decreases |a|
  {
    if a == [] {
      assert a + b == b;
    } else {
      assert (a + b)[1..] == a[1..] + b;
      FilterConcat(a[1..], b, p);
    }
  }

  /** Filtering a sequence extended by one element. */
  lemma {:induction false} FilterSnoc<T>(s: seq<T>, x: T, p: T -> bool)
    ensures Filter(s + [x], p) == Filter(s, p) + (if p(x) then [x] else [])
  {
    FilterConcat(s, [x], p);
    assert [x][1..] == [];
  }

  /** An input whose every element passes the test is returned as it is. */
  lemma {:induction false} FilterAllPass<T>(s: seq<T>, p: T -> bool)
    requires forall i :: 0 <= i < |s| ==> p(s[i])
    ensures Filter(s, p) == s
    decreases |s|
  {
    if s != [] {
      FilterAllPass(s[1..], p);
    }
  }

  /** An input no element of which passes the test filters to nothing. */
  lemma {:induction false} FilterNonePass<T>(s: seq<T>, p: T -> bool)
    requires forall i :: 0 <= i < |s| ==> !p(s[i])
    ensures Filter(s, p) == []
    decreases |s|
  {
    if s != [] {
      FilterNonePass(s[1..], p);
    }
  }

  /** Filtering twice with the same test is filtering once. */
  lemma {:induction false} FilterIdempotent<T>(s: seq<T>, p: T -> bool)
    ensures Filter(Filter(s, p), p) == Filter(s, p)
  {
    FilterAllPass(Filter(s, p), p);
  }

  /** `s.findIndex(p)`, as an option: the index of the first element satisfying `p`. */
  function FirstIndex<T>(s: seq<T>, p: T -> bool): (r: Option<nat>)
    ensures r.Some? ==> r.value < |s| && p(s[r.value])
    ensures r.Some? ==> forall j :: 0 <= j < r.value ==> !p(s[j])
    ensures r.None? ==> forall j :: 0 <= j < |s| ==> !p(s[j])
    decreases |s|
  {
    if s == [] then None
    else if p(s[0]) then Some(0)
    else match FirstIndex(s[1..], p)
      case None => None
      case Some(k) => Some(k + 1)
  }

  /** `s.find(p) || fallback`, the idiom used to pick a current entry: the first element
      satisfying `p`, else the fallback. */
  function FindOr<T>(s: seq<T>, p: T -> bool, fallback: Option<T>): (r: Option<T>)
    ensures (exists i :: 0 <= i < |s| && p(s[i])) ==> r.Some? && p(r.value) && r.value in s
    ensures (forall i :: 0 <= i < |s| ==> !p(s[i])) ==> r == fallback
  {
    match FirstIndex(s, p)
    case Some(i) => Some(s[i])
    case None => fallback
  }

  /** `find` returns the first element that passes the test. */
  lemma {:induction false} FindOrFirst<T>(s: seq<T>, p: T -> bool, fallback: Option<T>, i: nat)
    requires i < |s| && p(s[i])
    requires forall j :: 0 <= j < i ==> !p(s[j])
    ensures FindOr(s, p, fallback) == Some(s[i])
  {
    var k := FirstIndex(s, p);
    assert k.Some?;
    assert k.value == i;
  }

  /** The batches `s.slice(i, i + n)` for `i = 0, n, 2n, ...`, as a loop with step `n` produces them. */
  function Chunks<T>(s: seq<T>, n: nat): (r: seq<seq<T>>)
    requires n > 0
    ensures forall k :: 0 <= k < |r| ==> 0 < |r[k]| <= n
    ensures forall k :: 0 <= k < |r| - 1 ==> |r[k]| == n
    decreases |s|
  {
    if s == [] then []
    else if |s| <= n then [s]
    else [s[..n]] + Chunks(s[n..], n)
  }

  /** `ss.flat()`: the concatenation of the given sequences, in order. */
  function Flatten<T>(ss: seq<seq<T>>): (r: seq<T>)
    decreases |ss|
  {
    if ss == [] then [] else ss[0] + Flatten(ss[1..])
  }

  /** Flattening one or two sequences. */
  lemma {:induction false} FlattenSmall<T>(a: seq<T>, b: seq<T>)
    ensures Flatten([a]) == a
    ensures Flatten([a, b]) == a + b
  {
    assert [a][1..] == [];
    assert [a, b][1..] == [b];
    assert [b][1..] == [];
  }

  /** Flattening distributes over concatenation. */
  lemma {:induction false} FlattenConcat<T>(a: seq<seq<T>>, b: seq<seq<T>>)
    ensures Flatten(a + b) == Flatten(a) + Flatten(b)
    decreases |a|
  {
    if a == [] {
      assert a + b == b;
    } else {
      assert (a + b)[1..] == a[1..] + b;
      FlattenConcat(a[1..], b);
    }
  }

  /** An element of one of the sequences is an element of their concatenation. */
  lemma {:induction false} FlattenMember<T>(ss: seq<seq<T>>, k: nat, i: nat)
    requires k < |ss| && i < |ss[k]|
    ensures ss[k][i] in Flatten(ss)
    decreases k
  {
    if k > 0 {
      FlattenMember(ss[1..], k - 1, i);
      assert ss[1..][k - 1] == ss[k];
    }
  }

  /** One step of a batching loop: the batches of a suffix are its first slice followed by
      the batches of what remains. */
  /** Moving `b` from the unprocessed rest `b + c` to the processed prefix `a`. */
  lemma {:induction false} Regroup<T>(a: seq<T>, b: seq<T>, c: seq<T>, rest: seq<T>)
    requires rest == b + c
    ensures (a + b) + c == a + rest
  {
  }

  lemma {:induction false} ChunksStep<T>(s: seq<T>, i: nat, end: nat, n: nat)
    requires n > 0 && i < end <= |s|
    requires end == if i + n <= |s| then i + n else |s|
    ensures Chunks(s[i..], n) == [s[i..end]] + Chunks(s[end..], n)
  {
    var t := s[i..];
    if |t| > n {
      assert t[..n] == s[i..end];
      assert t[n..] == s[end..];
    } else {
      assert t == s[i..end];
      assert s[end..] == [];
    }
  }

  /** Batching loses nothing and reorders nothing: the batches put back together are the input. */
  lemma {:induction false} ChunksFlatten<T>(s: seq<T>, n: nat)
    requires n > 0
    ensures Flatten(Chunks(s, n)) == s
    decreases |s|
  {
    if s != [] && |s| > n {
      ChunksFlatten(s[n..], n);
      assert s == s[..n] + s[n..];
    }
  }

  /** Adding `x` to a selection set when it is absent, removing it when present. */
  function Toggle<T(!new)>(s: set<T>, x: T): (r: set<T>)
    ensures x in r <==> x !in s
    ensures forall y :: y != x ==> (y in r <==> y in s)
  {
    if x in s then s - {x} else s + {x}
  }

  /** Toggling the same element twice restores the selection. */
  lemma {:induction false} ToggleTwice<T(!new)>(s: set<T>, x: T)
    ensures Toggle(Toggle(s, x), x) == s
  {
  }

  /** `[...new Set(s)]`: each value once, at its first occurrence. */
  function Dedup<T(==)>(s: seq<T>): (r: seq<T>)
    ensures forall i :: 0 <= i < |r| ==> r[i] in s
    ensures forall i :: 0 <= i < |s| ==> s[i] in r
    ensures forall i, j :: 0 <= i < j < |r| ==> r[i] != r[j]
    decreases |s|
  {
    if s == [] then []
    else
      var init := s[..|s| - 1];
      var d := Dedup(init);
      assert forall i :: 0 <= i < |init| ==> init[i] == s[i];
      if s[|s| - 1] in d then d else d + [s[|s| - 1]]
  }

  /** The position of the first occurrence of `x` in `s`. */
  function IndexOf<T(==)>(s: seq<T>, x: T): (k: nat)
    requires x in s
    ensures k < |s| && s[k] == x
    ensures forall j :: 0 <= j < k ==> s[j] != x
    decreases |s|
  {
    if s[0] == x then 0 else 1 + IndexOf(s[1..], x)
  }

  /** The values of `[...new Set(s)]` come in the order of their first occurrences. */
  lemma {:induction false} DedupKeepsFirstOccurrenceOrder<T>(s: seq<T>, i: nat, j: nat)
    requires i < j < |Dedup(s)|
    ensures Dedup(s)[i] in s && Dedup(s)[j] in s
    ensures IndexOf(s, Dedup(s)[i]) < IndexOf(s, Dedup(s)[j])
    decreases |s|
  {
    var init := s[..|s| - 1];
    var last := s[|s| - 1];
    var d := Dedup(init);
    var r := Dedup(s);
    assert forall k :: 0 <= k < |init| ==> init[k] == s[k];
    assert r[i] == d[i];
    if r[j] in init {
      assert r[j] == d[j];
      DedupKeepsFirstOccurrenceOrder(init, i, j);
      SameFirstIndex(s, init, r[i]);
      SameFirstIndex(s, init, r[j]);
    } else {
      assert r[j] == last;
      var a := IndexOf(init, r[i]);
      assert s[a] == r[i];
    }
  }

  /** A value occurring in a prefix has its first occurrence there. */
  lemma {:induction false} SameFirstIndex<T>(s: seq<T>, init: seq<T>, x: T)
    requires |init| <= |s| && init == s[..|init|] && x in init
    ensures x in s && IndexOf(s, x) == IndexOf(init, x)
  {
    var a := IndexOf(init, x);
    assert s[a] == x;
  }

  /** No two elements of `s` share a key. */
  predicate DistinctBy<T, K(==)>(s: seq<T>, key: T -> K) {
    forall i, j :: 0 <= i < j < |s| ==> key(s[i]) != key(s[j])
  }

  /** Filtering keeps keys distinct: it only drops elements. */
  lemma {:induction false} FilterDistinctBy<T, K>(s: seq<T>, p: T -> bool, key: T -> K)
    requires DistinctBy(s, key)
    ensures DistinctBy(Filter(s, p), key)
    decreases |s|
  {
    if s != [] {
      var rest := s[1..];
      assert DistinctBy(rest, key) by {
        forall i, j | 0 <= i < j < |rest| ensures key(rest[i]) != key(rest[j]) {
          assert rest[i] == s[i + 1] && rest[j] == s[j + 1];
        }
      }
      FilterDistinctBy(rest, p, key);
      var fr := Filter(rest, p);
      forall i | 0 <= i < |fr| ensures key(fr[i]) != key(s[0]) {
        var k :| 0 <= k < |rest| && rest[k] == fr[i];
        assert rest[k] == s[k + 1];
      }
    }
  }
}
