/** Lists kept in order of last use, as the watcher table and the result cache keep them. */
module Recency {

  function RemoveFirst<T(==)>(s: seq<T>, k: T): seq<T> {
    if s == [] then []
    else if s[0] == k then s[1..]
    else [s[0]] + RemoveFirst(s[1..], k)
  }

  function Touch<T(==)>(s: seq<T>, k: T): seq<T> {
    RemoveFirst(s, k) + [k]
  }

  // Listed from the least to the most recently used, so nothing is listed twice.
  ghost predicate Ordered<T>(s: seq<T>, stamp: map<T, nat>) {
    && (forall i :: 0 <= i < |s| ==> s[i] in stamp)
    && (forall i, j :: 0 <= i < j < |s| ==> stamp[s[i]] < stamp[s[j]])
  }

  ghost predicate Before<T>(s: seq<T>, stamp: map<T, nat>, clock: nat) {
    forall i :: 0 <= i < |s| ==> s[i] in stamp && stamp[s[i]] < clock
  }

  ghost function Elements<T>(s: seq<T>): set<T> {
    set x | x in s
  }

  lemma {:induction false} RemoveFirstAt<T>(s: seq<T>, k: T, i: nat)
    requires i < |s| && s[i] == k && k !in s[..i]
    ensures RemoveFirst(s, k) == s[..i] + s[i + 1..]
  {
    if i == 0 {
      assert s[..0] + s[1..] == s[1..];
    } else {
      assert s[0] == s[..i][0];
      assert s[1..][..i - 1] == s[..i][1..];
      RemoveFirstAt(s[1..], k, i - 1);
      assert s[..i] + s[i + 1..] == [s[0]] + (s[1..][..i - 1] + s[1..][i..]);
    }
  }

  lemma {:induction false} RemoveFirstAbsent<T>(s: seq<T>, k: T)
    requires k !in s
    ensures RemoveFirst(s, k) == s
  {
    if s != [] { RemoveFirstAbsent(s[1..], k); }
  }

  lemma OrderedListsOnce<T>(s: seq<T>, stamp: map<T, nat>)
    requires Ordered(s, stamp)
    ensures forall i, j :: 0 <= i < j < |s| ==> s[i] != s[j]
    ensures |s| == |Elements(s)|
    decreases |s|
  {
    if s != [] {
      var r := s[..|s| - 1];
      OrderedListsOnce(r, stamp);
      assert Elements(s) == Elements(r) + {s[|s| - 1]};
    }
  }

  lemma DropAtOrdered<T>(s: seq<T>, i: nat, stamp: map<T, nat>)
    requires Ordered(s, stamp) && i < |s|
    ensures var r := s[..i] + s[i + 1..]; Ordered(r, stamp) && Elements(r) == Elements(s) - {s[i]}
  {
    var r := s[..i] + s[i + 1..];
    assert forall a :: 0 <= a < |r| ==> r[a] == s[if a < i then a else a + 1];
    forall x ensures x in r <==> x in s && x != s[i] {
      if x in s && x != s[i] {
        var j :| 0 <= j < |s| && s[j] == x;
        assert r[if j < i then j else j - 1] == x;
      }
      if x in r {
        var a :| 0 <= a < |r| && r[a] == x;
        assert stamp[x] != stamp[s[i]];
      }
    }
  }

  lemma RemoveFirstOrdered<T>(s: seq<T>, k: T, stamp: map<T, nat>)
    requires Ordered(s, stamp)
    ensures Ordered(RemoveFirst(s, k), stamp)
    ensures Elements(RemoveFirst(s, k)) == Elements(s) - {k}
    ensures |RemoveFirst(s, k)| == if k in s then |s| - 1 else |s|
  {
    if k in s {
      var i :| 0 <= i < |s| && s[i] == k;
      OrderedListsOnce(s, stamp);
      RemoveFirstAt(s, k, i);
      DropAtOrdered(s, i, stamp);
    } else {
      RemoveFirstAbsent(s, k);
    }
  }

  /** Using `k` at time `clock` moves it to the end and keeps the list ordered. */
  lemma TouchOrdered<T>(s: seq<T>, k: T, stamp: map<T, nat>, clock: nat)
    requires Ordered(s, stamp) && Before(s, stamp, clock)
    ensures Ordered(Touch(s, k), stamp[k := clock])
    ensures Before(Touch(s, k), stamp[k := clock], clock + 1)
    ensures Elements(Touch(s, k)) == Elements(s) + {k}
    ensures |Touch(s, k)| == if k in s then |s| else |s| + 1
  {
    RemoveFirstOrdered(s, k, stamp);
    var r := RemoveFirst(s, k);
    forall i | 0 <= i < |r| ensures r[i] != k && r[i] in s {
      assert r[i] in Elements(r);
    }
    assert forall x :: x in Touch(s, k) <==> x in Elements(r) || x == k;
  }

  lemma DropFirstOrdered<T>(s: seq<T>, stamp: map<T, nat>)
    requires Ordered(s, stamp) && s != []
    ensures Ordered(s[1..], stamp)
    ensures Elements(s[1..]) == Elements(s) - {s[0]}
    ensures forall x :: x in s ==> stamp[s[0]] <= stamp[x]
  {
    assert s == [s[0]] + s[1..];
    OrderedListsOnce(s, stamp);
  }
}
