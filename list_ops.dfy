/**
 * The two QList operations the scene's deferred-destroy sweep relies on
 * (QList::removeOne and QList::contains), together with the facts about
 * them that the sweep's guarantees rest on.
 */
module ListOps {

  /** No element occurs twice. */
  ghost predicate NoDup<T>(s: seq<T>) {
    forall x :: x in s ==> multiset(s)[x] == 1
  }

  /** QList::removeOne: drop the first occurrence of x, if there is one. */
  function RemoveOne<T(==)>(s: seq<T>, x: T): seq<T> {
    if |s| == 0 then s
    else if s[0] == x then s[1..]
    else [s[0]] + RemoveOne(s[1..], x)
  }

  /** removeOne applied once for each entry of q, in order. */
  function RemoveEach<T(==)>(s: seq<T>, q: seq<T>): seq<T> {
    if |q| == 0 then s
    else RemoveOne(RemoveEach(s, q[..|q| - 1]), q[|q| - 1])
  }

  /**
   * The entries of q that, when their turn came, were still present in
   * what was left of s after removing the earlier entries of q: the ones
   * the sweep finds "still in the scene" and deletes.
   */
  function SweepDeleted<T(==)>(s: seq<T>, q: seq<T>): seq<T> {
    if |q| == 0 then []
    else
      var last := q[|q| - 1];
      SweepDeleted(s, q[..|q| - 1]) + (if last in RemoveEach(s, q[..|q| - 1]) then [last] else [])
  }

  /** removeOne takes away exactly one copy of x when there is one, and nothing else. */
  lemma {:induction false} RemoveOneMultiset<T>(s: seq<T>, x: T)
    ensures multiset(RemoveOne(s, x)) == multiset(s) - multiset{x}
  {
    if |s| == 0 {
    } else if s[0] == x {
      assert s == [s[0]] + s[1..];
    } else {
      RemoveOneMultiset(s[1..], x);
      assert s == [s[0]] + s[1..];
    }
  }

  /** Removing each entry of q once takes away exactly the multiset of q. */
  lemma {:induction false} RemoveEachMultiset<T>(s: seq<T>, q: seq<T>)
    ensures multiset(RemoveEach(s, q)) == multiset(s) - multiset(q)
  {
    if |q| > 0 {
      var init, last := q[..|q| - 1], q[|q| - 1];
      RemoveEachMultiset(s, init);
      RemoveOneMultiset(RemoveEach(s, init), last);
      assert q == init + [last];
    }
  }

  /** On a list without duplicates, x survives the removals exactly when q never names it. */
  lemma RemoveEachMember<T>(s: seq<T>, q: seq<T>, x: T)
    requires NoDup(s)
    ensures x in RemoveEach(s, q) <==> x in s && x !in q
    ensures NoDup(RemoveEach(s, q))
  {
    RemoveEachMultiset(s, q);
    assert multiset(s)[x] <= 1;
    assert x in RemoveEach(s, q) <==> x in multiset(RemoveEach(s, q));
    forall y ensures multiset(RemoveEach(s, q))[y] <= 1 {
      assert multiset(s)[y] <= 1;
    }
  }

  /** One removeOne step on a list without duplicates. */
  lemma RemoveOneMember<T>(s: seq<T>, x: T, y: T)
    requires NoDup(s)
    ensures y in RemoveOne(s, x) <==> y in s && y != x
    ensures NoDup(RemoveOne(s, x))
  {
    RemoveOneMultiset(s, x);
    assert multiset(s)[y] <= 1;
    assert y in RemoveOne(s, x) <==> y in multiset(RemoveOne(s, x));
    forall z ensures multiset(RemoveOne(s, x))[z] <= 1 {
      assert multiset(s)[z] <= 1;
    }
  }

  /** removeOne of an absent element leaves the list as it was. */
  lemma {:induction false} RemoveOneAbsent<T>(s: seq<T>, x: T)
    requires x !in s
    ensures RemoveOne(s, x) == s
  {
    if |s| > 0 {
      assert x !in s[1..];
      RemoveOneAbsent(s[1..], x);
    }
  }

  /**
   * However often an element is queued, the sweep deletes it once if it
   * was present in the list without duplicates, and never otherwise.
   */
  lemma {:induction false} SweepDeletedCount<T>(s: seq<T>, q: seq<T>, x: T)
    requires NoDup(s)
    ensures multiset(SweepDeleted(s, q))[x] == if x in s && x in q then 1 else 0
  {
    if |q| > 0 {
      var init, last := q[..|q| - 1], q[|q| - 1];
      assert q == init + [last];
      SweepDeletedCount(s, init, x);
      RemoveEachMember(s, init, last);
      RemoveEachMember(s, init, x);
    }
  }

  /** Whatever the sweep deletes was in the list and was queued. */
  lemma {:induction false} SweepDeletedFrom<T>(s: seq<T>, q: seq<T>, x: T)
    requires NoDup(s)
    ensures x in SweepDeleted(s, q) <==> x in s && x in q
    ensures NoDup(SweepDeleted(s, q))
  {
    SweepDeletedCount(s, q, x);
    assert x in SweepDeleted(s, q) <==> x in multiset(SweepDeleted(s, q));
    forall y | y in SweepDeleted(s, q) ensures multiset(SweepDeleted(s, q))[y] == 1 {
      SweepDeletedCount(s, q, y);
    }
  }

  /** If q names every element of s at least as often as s holds it, nothing is left. */
  lemma RemoveEachCovered<T>(s: seq<T>, q: seq<T>)
    requires forall x :: multiset(s)[x] <= multiset(q)[x]
    ensures RemoveEach(s, q) == []
  {
    RemoveEachMultiset(s, q);
    assert multiset(RemoveEach(s, q)) == multiset{};
    assert |RemoveEach(s, q)| == |multiset(RemoveEach(s, q))|;
  }

  /** Two lists without duplicates and with no element in common concatenate to one without duplicates. */
  lemma NoDupAppend<T>(a: seq<T>, b: seq<T>)
    requires NoDup(a) && NoDup(b)
    requires forall x :: x in a ==> x !in b
    ensures NoDup(a + b)
  {
    forall x | x in a + b ensures multiset(a + b)[x] == 1 {
      assert multiset(a + b) == multiset(a) + multiset(b);
      if x in a {
        assert x !in multiset(b);
      } else {
        assert x !in multiset(a);
      }
    }
  }

  /**
   * If every element of a list without duplicates is queued at least once,
   * after whatever else was queued, removing each queued entry empties it.
   */
  lemma RemoveEachAllQueued<T>(s: seq<T>, earlier: seq<T>, listed: seq<T>)
    requires NoDup(s)
    requires forall x :: x in s ==> x in listed
    ensures RemoveEach(s, earlier + listed) == []
  {
    forall x ensures multiset(s)[x] <= multiset(earlier + listed)[x] {
      if x in s {
        assert multiset(earlier + listed) == multiset(earlier) + multiset(listed);
        assert x in multiset(listed);
      } else {
        assert x !in multiset(s);
      }
    }
    RemoveEachCovered(s, earlier + listed);
  }
}
