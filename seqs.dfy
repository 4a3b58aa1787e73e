/**
 * Sequence helpers shared by both window backends: the "find the first
 * match, then `Vec::remove` it" idiom and the no-duplicates invariant.
 */
module Seqs {

  /** No element occurs twice. */
  predicate NoDuplicates<T(==)>(s: seq<T>)
  {
    forall i, j :: 0 <= i < j < |s| ==> s[i] != s[j]
  }

  /** `s` with its first occurrence of `x` removed; `s` itself when `x` is absent. */
  function RemoveFirst<T(==)>(s: seq<T>, x: T): (r: seq<T>)
    ensures |r| == if x in s then |s| - 1 else |s|
  {
    if s == [] then []
    else if s[0] == x then s[1..]
    else [s[0]] + RemoveFirst(s[1..], x)
  }

  /**
   * Linear scan with early exit, as the backends' `for … { if … { break } }`
   * loops do: the index of the first `x`, or `|s|` when there is none.
   */
  method FindFirst<T(==)>(s: seq<T>, x: T) returns (i: nat)
    ensures i <= |s|
    ensures i < |s| <==> x in s
    ensures i < |s| ==> s[i] == x
    ensures x !in s[..i]
  {
    i := 0;
    while i < |s|
      invariant i <= |s|
      invariant x !in s[..i]
    {
      if s[i] == x {
        return;
      }
      assert s[..i + 1] == s[..i] + [s[i]];
      i := i + 1;
    }
    assert s[..i] == s;
  }

  /**
   * The backends' scan-and-remove loop: walk the vector, and at the first
   * element equal to `x` remove it at that index and stop.
   */
  method RemoveFirstMatch<T(==)>(s: seq<T>, x: T) returns (r: seq<T>)
    ensures r == RemoveFirst(s, x)
  {
    var i := FindFirst(s, x);
    if i < |s| {
      RemoveFirstAt(s, x, i);
      r := s[..i] + s[i + 1..];
    } else {
      RemoveFirstAbsent(s, x);
      r := s;
    }
  }

  /** Removing at the first matching index is `RemoveFirst`. */
  lemma {:induction false} RemoveFirstAt<T>(s: seq<T>, x: T, i: nat)
    requires i < |s| && s[i] == x && x !in s[..i]
    ensures RemoveFirst(s, x) == s[..i] + s[i + 1..]
  {
    if i > 0 {
      assert s[0] in s[..i];
      assert s[1..][..i - 1] == s[1..i];
      assert x !in s[1..][..i - 1];
      RemoveFirstAt(s[1..], x, i - 1);
      assert s[1..][..i - 1] + s[1..][i..] == s[1..i] + s[i + 1..];
      assert s[..i] + s[i + 1..] == [s[0]] + (s[1..i] + s[i + 1..]);
    }
  }

  /** An absent element leaves the sequence unchanged. */
  lemma {:induction false} RemoveFirstAbsent<T>(s: seq<T>, x: T)
    requires x !in s
    ensures RemoveFirst(s, x) == s
  {
    if s != [] {
      assert s[1..] + [] == s[1..];
      assert forall y :: y in s[1..] ==> y in s;
      RemoveFirstAbsent(s[1..], x);
    }
  }

  /** Exactly one copy of `x` leaves (when there is one); the others and their order stay. */
  lemma {:induction false} RemoveFirstMultiset<T>(s: seq<T>, x: T)
    ensures multiset(s) == multiset(RemoveFirst(s, x)) + (if x in s then multiset{x} else multiset{})
  {
    if s != [] {
      var t := s[1..];
      RemoveFirstMultiset(t, x);
      assert s == [s[0]] + t;
      if s[0] != x {
        assert RemoveFirst(s, x) == [s[0]] + RemoveFirst(t, x);
        assert x in s <==> x in t;
      }
    }
  }

  /** Removal keeps a duplicate-free sequence duplicate-free and drops `x` entirely. */
  lemma {:induction false} RemoveFirstNoDuplicates<T>(s: seq<T>, x: T)
    requires NoDuplicates(s)
    ensures NoDuplicates(RemoveFirst(s, x))
    ensures x !in RemoveFirst(s, x)
  {
    if s != [] {
      var t := s[1..];
      assert NoDuplicates(t) by {
        forall a, b | 0 <= a < b < |t| ensures t[a] != t[b] {
          assert t[a] == s[a + 1] && t[b] == s[b + 1];
        }
      }
      assert s[0] !in t by {
        forall k | 0 <= k < |t| ensures t[k] != s[0] {
          assert t[k] == s[k + 1];
        }
      }
      if s[0] == x {
        assert RemoveFirst(s, x) == t;
      } else {
        RemoveFirstNoDuplicates(t, x);
        var r := RemoveFirst(t, x);
        RemoveFirstMultiset(t, x);
        assert s[0] !in r by {
          assert multiset(r) <= multiset(t);
          assert s[0] !in multiset(t);
        }
        assert RemoveFirst(s, x) == [s[0]] + r;
      }
    }
  }

  /**
   * Concatenation is associative. Calling this on named pieces, rather than
   * asserting the equation, keeps the solver from unfolding the recursive
   * functions those pieces are built from.
   */
  lemma AppendAssoc<T>(a: seq<T>, b: seq<T>, c: seq<T>)
    ensures (a + b) + c == a + (b + c)
  {
  }
}
