/** Sequence filtering shared by the key-up handler (dropping released keys)
    and by the registry (dropping a stopped binding). */
module Seqs {

  /** The entries of `s` that are not in `drop`, in their original order:
      `s.filter(x => !drop.has(x))`. */
  function RemoveAll<T(==)>(s: seq<T>, drop: set<T>): (r: seq<T>)
    ensures |r| <= |s|
    ensures forall i :: 0 <= i < |r| ==> r[i] in s && r[i] !in drop
    ensures forall i :: 0 <= i < |s| && s[i] !in drop ==> s[i] in r
  {
    if s == [] then []
    else if s[0] in drop then
      RemoveAll(s[1..], drop)
    else
      var r := [s[0]] + RemoveAll(s[1..], drop);
      assert forall i :: 0 < i < |r| ==> r[i] == RemoveAll(s[1..], drop)[i - 1];
      assert forall i :: 0 < i < |s| ==> s[i] == s[1..][i - 1];
      r
  }

  /** No entry occurs twice. */
  ghost predicate Distinct<T>(s: seq<T>) {
    forall i, j :: 0 <= i < j < |s| ==> s[i] != s[j]
  }

  /** Filtering distributes over concatenation: order is kept block by block. */
  lemma {:induction false} RemoveAllAppend<T>(a: seq<T>, b: seq<T>, drop: set<T>)
    ensures RemoveAll(a + b, drop) == RemoveAll(a, drop) + RemoveAll(b, drop)
  {
    if a == [] {
      assert a + b == b;
    } else {
      assert (a + b)[0] == a[0];
      assert (a + b)[1..] == a[1..] + b;
      RemoveAllAppend(a[1..], b, drop);
    }
  }

  /** A single entry is kept exactly when it is not dropped. */
  lemma {:induction false} RemoveAllSingleton<T>(x: T, drop: set<T>)
    ensures RemoveAll([x], drop) == if x in drop then [] else [x]
  {
    assert [x][1..] == [];
  }

  /** Filtering twice by the same set is filtering once. */
  lemma {:induction false} RemoveAllIdempotent<T>(s: seq<T>, drop: set<T>)
    ensures RemoveAll(RemoveAll(s, drop), drop) == RemoveAll(s, drop)
  {
    if s != [] {
      RemoveAllIdempotent(s[1..], drop);
      if s[0] !in drop {
        assert ([s[0]] + RemoveAll(s[1..], drop))[0] == s[0];
        assert ([s[0]] + RemoveAll(s[1..], drop))[1..] == RemoveAll(s[1..], drop);
      }
    }
  }

  /** When nothing in `s` is dropped the sequence comes back unchanged. */
  lemma {:induction false} RemoveAllNone<T>(s: seq<T>, drop: set<T>)
    requires forall i :: 0 <= i < |s| ==> s[i] !in drop
    ensures RemoveAll(s, drop) == s
  {
    if s != [] {
      assert forall i :: 0 <= i < |s[1..]| ==> s[1..][i] == s[i + 1];
      RemoveAllNone(s[1..], drop);
      assert s == [s[0]] + s[1..];
    }
  }

  /** Filtering keeps a sequence free of duplicates. */
  lemma {:induction false} RemoveAllDistinct<T>(s: seq<T>, drop: set<T>)
    requires Distinct(s)
    ensures Distinct(RemoveAll(s, drop))
  {
    if s != [] {
      var t := s[1..];
      assert forall i, j :: 0 <= i < j < |t| ==> t[i] == s[i + 1] && t[j] == s[j + 1];
      RemoveAllDistinct(t, drop);
      if s[0] !in drop {
        var rt := RemoveAll(t, drop);
        assert s[0] !in t by {
          forall i | 0 <= i < |t| ensures t[i] != s[0] { assert t[i] == s[i + 1]; }
        }
        assert s[0] !in rt;
        var r := [s[0]] + rt;
        forall i, j | 0 <= i < j < |r| ensures r[i] != r[j] {
          assert r[j] == rt[j - 1];
          if i > 0 { assert r[i] == rt[i - 1]; }
        }
      }
    }
  }

  /** Removing an entry that occurs exactly once shortens the sequence by one. */
  lemma {:induction false} RemoveOnlyOccurrence<T>(s: seq<T>, x: T)
    requires Distinct(s) && x in s
    ensures |RemoveAll(s, {x})| == |s| - 1
  {
    var t := s[1..];
    assert forall i, j :: 0 <= i < j < |t| ==> t[i] == s[i + 1] && t[j] == s[j + 1];
    if s[0] == x {
      assert forall i :: 0 <= i < |t| ==> t[i] == s[i + 1] && t[i] !in {x};
      RemoveAllNone(t, {x});
    } else {
      assert x in t by {
        var k :| 0 <= k < |s| && s[k] == x;
        assert t[k - 1] == x;
      }
      RemoveOnlyOccurrence(t, x);
    }
  }

  /** The tail of a sequence without repeats has none either, and lacks the head. */
  lemma DistinctTail<T>(s: seq<T>)
    requires Distinct(s) && s != []
    ensures Distinct(s[1..])
    ensures forall i :: 0 <= i < |s[1..]| ==> s[1..][i] != s[0]
  {
    var t := s[1..];
    forall i, j | 0 <= i < j < |t| ensures t[i] != t[j] {
      assert t[i] == s[i + 1] && t[j] == s[j + 1];
    }
    forall i | 0 <= i < |t| ensures t[i] != s[0] {
      assert t[i] == s[i + 1];
    }
  }
}
