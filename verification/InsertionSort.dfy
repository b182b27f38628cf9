/** Sorting a list of numbers, as sort.Ints does. */
module InsertionSort {

  function Insert(k: int, s: seq<int>): (r: seq<int>)
    ensures |r| == |s| + 1
  {
    if s == [] || k <= s[0] then [k] + s else [s[0]] + Insert(k, s[1..])
  }

  function Sorted(s: seq<int>): (r: seq<int>)
    ensures |r| == |s|
  {
    if s == [] then [] else Insert(s[0], Sorted(s[1..]))
  }

  predicate Ordered(s: seq<int>) { |s| <= 1 || (s[0] <= s[1] && Ordered(s[1..])) }

  lemma {:induction false} InsertKeepsOrder(k: int, s: seq<int>)
    requires Ordered(s)
    ensures Ordered(Insert(k, s)) && Insert(k, s)[0] == (if s == [] || k <= s[0] then k else s[0])
  {
    if s != [] && k > s[0] {
      InsertKeepsOrder(k, s[1..]);
      assert Insert(k, s)[1..] == Insert(k, s[1..]);
    } else {
      assert Insert(k, s)[1..] == s;
    }
  }

  lemma {:induction false} InsertMembers(k: int, s: seq<int>, j: int)
    ensures j in Insert(k, s) <==> j == k || j in s
  {
    if s != [] {
      assert j in s <==> j == s[0] || j in s[1..];
      if k > s[0] { InsertMembers(k, s[1..], j); }
    }
  }

  lemma {:induction false} SortedIsOrdered(s: seq<int>)
    ensures Ordered(Sorted(s))
  {
    if s != [] {
      SortedIsOrdered(s[1..]);
      InsertKeepsOrder(s[0], Sorted(s[1..]));
    }
  }

  /** Sorting keeps the members. */
  lemma {:induction false} SortedMembers(s: seq<int>, j: int)
    ensures j in Sorted(s) <==> j in s
  {
    if s != [] {
      SortedMembers(s[1..], j);
      InsertMembers(s[0], Sorted(s[1..]), j);
      assert j in s <==> j == s[0] || j in s[1..];
    }
  }

  predicate Distinct(s: seq<int>) { forall i, j :: 0 <= i < j < |s| ==> s[i] != s[j] }

  lemma {:induction false} InsertKeepsDistinct(k: int, s: seq<int>)
    requires Distinct(s) && k !in s
    ensures Distinct(Insert(k, s))
  {
    if s != [] && k > s[0] {
      assert Distinct(s[1..]);
      InsertKeepsDistinct(k, s[1..]);
      InsertMembers(k, s[1..], s[0]);
      assert s[0] !in s[1..];
      var rest := Insert(k, s[1..]);
      assert forall j :: 0 <= j < |rest| ==> rest[j] != s[0];
    }
  }

  /** Sorting does not repeat anything. */
  lemma {:induction false} SortedDistinct(s: seq<int>)
    requires Distinct(s)
    ensures Distinct(Sorted(s))
  {
    if s != [] {
      assert Distinct(s[1..]) && s[0] !in s[1..];
      SortedDistinct(s[1..]);
      SortedMembers(s[1..], s[0]);
      InsertKeepsDistinct(s[0], Sorted(s[1..]));
    }
  }

  lemma {:induction false} OrderedBelow(s: seq<int>, i: nat, j: nat)
    requires Ordered(s) && i < j < |s|
    ensures s[i] <= s[j]
  {
    if i > 0 {
      OrderedBelow(s[1..], i - 1, j - 1);
    } else if j > 1 {
      OrderedBelow(s[1..], 0, j - 1);
    }
  }

  /** Sorting a list that repeats nothing gives a strictly increasing list. */
  lemma SortedIncreases(s: seq<int>)
    requires Distinct(s)
    ensures forall i, j :: 0 <= i < j < |s| ==> Sorted(s)[i] < Sorted(s)[j]
  {
    SortedIsOrdered(s);
    SortedDistinct(s);
    forall i, j | 0 <= i < j < |s| ensures Sorted(s)[i] < Sorted(s)[j] {
      OrderedBelow(Sorted(s), i, j);
    }
  }
}
