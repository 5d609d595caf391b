/** Tail queues as sequences: removal of one element, filtering by a set, and counting. */
module Seqs {

  /** A condition as a count. */
  function One(b: bool): nat { if b then 1 else 0 }

  predicate NoDup<T(==)>(s: seq<T>) {
    forall i, j :: 0 <= i < j < |s| ==> s[i] != s[j]
  }

  /** TAILQ_REMOVE: the queue without the first occurrence of `x`. */
  function Remove<T(==)>(s: seq<T>, x: T): (r: seq<T>)
    ensures x !in s ==> r == s
  {
    if s == [] then []
    else if s[0] == x then s[1..]
    else [s[0]] + Remove(s[1..], x)
  }

  /** The elements of `s` outside `gone`, in order. */
  function Kept<T(==)>(s: seq<T>, gone: set<T>): seq<T> {
    if s == [] then []
    else if s[0] in gone then Kept(s[1..], gone)
    else [s[0]] + Kept(s[1..], gone)
  }

  lemma {:induction false} RemoveSplit<T>(s: seq<T>, x: T) returns (i: nat)
    requires x in s
    ensures i < |s| && s[i] == x && x !in s[..i]
    ensures Remove(s, x) == s[..i] + s[i + 1..]
  {
    if s[0] == x {
      i := 0;
    } else {
      var k := RemoveSplit(s[1..], x);
      i := k + 1;
      assert s[..i] == [s[0]] + s[1..][..k];
      assert s[i + 1..] == s[1..][k + 1..];
    }
  }

  /** Removing from a duplicate-free queue leaves exactly the other elements. */
  lemma RemoveMembers<T>(s: seq<T>, x: T)
    requires NoDup(s)
    ensures NoDup(Remove(s, x))
    ensures forall y :: y in Remove(s, x) <==> y in s && y != x
  {
    if x in s {
      var i := RemoveSplit(s, x);
      var r := s[..i] + s[i + 1..];
      forall y ensures y in r <==> y in s && y != x {
        if y in s && y != x {
          var j :| 0 <= j < |s| && s[j] == y;
          assert r[if j < i then j else j - 1] == y;
        }
        if y in r {
          var j :| 0 <= j < |r| && r[j] == y;
          assert y == s[if j < i then j else j + 1];
        }
      }
    }
  }

  lemma {:induction false} RemoveHead<T>(s: seq<T>)
    requires s != []
    ensures Remove(s, s[0]) == s[1..]
  {
  }

  /** Removal behind a prefix that does not hold the element. */
  lemma {:induction false} RemoveBehind<T>(a: seq<T>, b: seq<T>, x: T)
    requires x !in a
    ensures Remove(a + b, x) == a + Remove(b, x)
  {
    if a == [] {
      assert a + b == b;
    } else {
      assert (a + b)[1..] == a[1..] + b;
      RemoveBehind(a[1..], b, x);
    }
  }

  lemma {:induction false} KeptMembers<T>(s: seq<T>, gone: set<T>)
    ensures forall y :: y in Kept(s, gone) <==> y in s && y !in gone
    ensures |Kept(s, gone)| <= |s|
    ensures NoDup(s) ==> NoDup(Kept(s, gone))
  {
    if s != [] {
      KeptMembers(s[1..], gone);
    }
  }

  lemma {:induction false} KeptAll<T>(s: seq<T>)
    ensures Kept(s, {}) == s
  {
    if s != [] {
      KeptAll(s[1..]);
    }
  }

  /** Filtering out one more element removes it. */
  lemma {:induction false} KeptOneLess<T>(s: seq<T>, gone: set<T>, x: T)
    requires NoDup(s)
    ensures Kept(s, gone + {x}) == Remove(Kept(s, gone), x)
  {
    if s != [] {
      KeptOneLess(s[1..], gone, x);
      if s[0] == x && s[0] !in gone {
        KeptMembers(s[1..], gone);
        assert Kept(s, gone) == [x] + Kept(s[1..], gone);
      }
    }
  }
}
