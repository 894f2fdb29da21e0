// A stable sort by any total preorder.
module Sorting {

  ghost predicate IsOrder<T(!new)>(leq: (T, T) -> bool) {
    && (forall a, b :: leq(a, b) || leq(b, a))
    && (forall a, b, c :: leq(a, b) && leq(b, c) ==> leq(a, c))
  }

  // In front of the first element it does not come after.
  function Insert<T>(e: T, s: seq<T>, leq: (T, T) -> bool): seq<T> {
    if s == [] || leq(e, s[0]) then [e] + s else [s[0]] + Insert(e, s[1..], leq)
  }

  function Sort<T>(s: seq<T>, leq: (T, T) -> bool): seq<T> {
    if s == [] then [] else Insert(s[0], Sort(s[1..], leq), leq)
  }

  predicate Sorted<T>(s: seq<T>, leq: (T, T) -> bool) {
    forall i, j :: 0 <= i < j < |s| ==> leq(s[i], s[j])
  }

  lemma {:induction false} InsertKeeps<T>(e: T, s: seq<T>, leq: (T, T) -> bool)
    ensures multiset(Insert(e, s, leq)) == multiset(s) + multiset{e}
  {
    if s != [] && !leq(e, s[0]) {
      InsertKeeps(e, s[1..], leq);
      assert s == [s[0]] + s[1..];
    }
  }

  lemma {:induction false} InsertSorts<T(!new)>(e: T, s: seq<T>, leq: (T, T) -> bool)
    requires IsOrder(leq) && Sorted(s, leq)
    ensures Sorted(Insert(e, s, leq), leq)
  {
    if s == [] {
    } else if leq(e, s[0]) {
      SortedFront(e, s, leq);
    } else {
      InsertSorts(e, s[1..], leq);
      InsertedAfter(s[0], e, s[1..], leq);
      SortedFront(s[0], Insert(e, s[1..], leq), leq);
    }
  }

  // What comes before everything can be put in front.
  lemma SortedFront<T(!new)>(x: T, s: seq<T>, leq: (T, T) -> bool)
    requires IsOrder(leq) && Sorted(s, leq) && (s != [] ==> leq(x, s[0]))
    ensures Sorted([x] + s, leq)
  {}

  // The head of an insertion is the new element or the old head.
  lemma InsertedAfter<T(!new)>(x: T, e: T, s: seq<T>, leq: (T, T) -> bool)
    requires IsOrder(leq) && !leq(e, x) && (s != [] ==> leq(x, s[0]))
    ensures leq(x, Insert(e, s, leq)[0])
  {}

  lemma {:induction false} SortSorts<T(!new)>(s: seq<T>, leq: (T, T) -> bool)
    requires IsOrder(leq)
    ensures Sorted(Sort(s, leq), leq) && multiset(Sort(s, leq)) == multiset(s) && |Sort(s, leq)| == |s|
  {
    if s != [] {
      SortSorts(s[1..], leq);
      InsertSorts(s[0], Sort(s[1..], leq), leq);
      InsertKeeps(s[0], Sort(s[1..], leq), leq);
      assert s == [s[0]] + s[1..];
      assert |multiset(Sort(s, leq))| == |Sort(s, leq)| && |multiset(s)| == |s|;
    }
  }
}
