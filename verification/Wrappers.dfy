// Small shared datatypes and facts about sequences.
module Wrappers {
  datatype Option<+T> = None | Some(value: T)

  type pos = n: int | n > 0 witness 1

  // The exceptions the engine raises.
  datatype Error = OutOfBlocks | AlreadyAllocated | BadPrefixKv

  datatype Result<+T> = Ok(value: T) | Err(error: Error)

  ghost predicate NoDup<T>(s: seq<T>) {
    forall i, j :: 0 <= i < j < |s| ==> s[i] != s[j]
  }

  lemma {:induction false} NoDupMultiset<T>(s: seq<T>)
    ensures NoDup(s) <==> forall x :: multiset(s)[x] <= 1
  {
    if |s| > 0 {
      var t, y := s[..|s| - 1], s[|s| - 1];
      assert s == t + [y];
      NoDupMultiset(t);
      assert forall x :: multiset(s)[x] == multiset(t)[x] + if x == y then 1 else 0;
      assert NoDup(s) ==> NoDup(t) && y !in t;
      assert y in t <==> multiset(t)[y] > 0;
    }
  }

  lemma NoDupConcat<T>(s: seq<T>, t: seq<T>)
    requires NoDup(s) && NoDup(t)
    requires forall i, j :: 0 <= i < |s| && 0 <= j < |t| ==> s[i] != t[j]
    ensures NoDup(s + t)
  {
  }

  ghost function Elems<T>(s: seq<T>): set<T> {
    set x | x in s
  }

  lemma PopLast<T>(s: seq<T>)
    requires NoDup(s) && |s| > 0
    ensures NoDup(s[..|s| - 1])
    ensures Elems(s[..|s| - 1]) == Elems(s) - {s[|s| - 1]}
    ensures s[|s| - 1] in Elems(s)
  {
    assert s == s[..|s| - 1] + [s[|s| - 1]];
  }

  lemma PushLast<T>(s: seq<T>, x: T)
    ensures Elems(s + [x]) == Elems(s) + {x}
    ensures NoDup(s + [x]) <==> NoDup(s) && x !in Elems(s)
  {
    var t := s + [x];
    assert forall i :: 0 <= i < |s| ==> t[i] == s[i];
    assert t[|s|] == x;
    assert x in s ==> exists i :: 0 <= i < |s| && t[i] == t[|s|];
  }

  // The natural numbers below n.
  ghost function Below(n: nat): (s: set<nat>)
    ensures forall b: nat :: b in s <==> b < n
    ensures |s| == n
  {
    if n == 0 then {} else Below(n - 1) + {n - 1}
  }

  lemma {:induction false} ElemsCount<T>(s: seq<T>)
    requires NoDup(s)
    ensures |Elems(s)| == |s|
  {
    if s == [] {
      assert Elems(s) == {};
    } else {
      PopLast(s);
      ElemsCount(s[..|s| - 1]);
    }
  }

  // ---------- stable sorting by an ordering ----------

  ghost predicate Ordering<T(!new)>(le: (T, T) -> bool) {
    && (forall x, y :: le(x, y) || le(y, x))
    && (forall x, y, z :: le(x, y) && le(y, z) ==> le(x, z))
  }

  ghost predicate SortedBy<T>(s: seq<T>, le: (T, T) -> bool) {
    forall i, j :: 0 <= i < j < |s| ==> le(s[i], s[j])
  }

  // Inserts after every element that is not larger.
  function InsertBy<T>(s: seq<T>, x: T, le: (T, T) -> bool): (t: seq<T>)
    ensures |t| == |s| + 1
  {
    if s == [] || le(s[|s| - 1], x) then s + [x]
    else InsertBy(s[..|s| - 1], x, le) + [s[|s| - 1]]
  }

  function SortBy<T>(s: seq<T>, le: (T, T) -> bool): (t: seq<T>)
    ensures |t| == |s|
  {
    if s == [] then [] else InsertBy(SortBy(s[..|s| - 1], le), s[|s| - 1], le)
  }

  lemma {:induction false} InsertElements<T>(s: seq<T>, x: T, le: (T, T) -> bool)
    ensures multiset(InsertBy(s, x, le)) == multiset(s) + multiset{x}
    ensures forall y :: y in InsertBy(s, x, le) <==> y in s || y == x
  {
    if s != [] {
      var s', z := s[..|s| - 1], s[|s| - 1];
      assert s == s' + [z];
      InsertElements(s', x, le);
    }
  }

  lemma {:induction false} InsertSorted<T(!new)>(s: seq<T>, x: T, le: (T, T) -> bool)
    requires Ordering(le) && SortedBy(s, le)
    ensures SortedBy(InsertBy(s, x, le), le)
  {
    if s != [] {
      var s', z := s[..|s| - 1], s[|s| - 1];
      if le(z, x) {
        assert forall i :: 0 <= i < |s| ==> le(s[i], z);
      } else {
        InsertSorted(s', x, le);
        InsertElements(s', x, le);
        var t := InsertBy(s', x, le);
        forall i | 0 <= i < |t|
          ensures le(t[i], z)
        {
          assert t[i] in t;
        }
      }
    }
  }

  lemma {:induction false} SortBySorts<T(!new)>(s: seq<T>, le: (T, T) -> bool)
    ensures multiset(SortBy(s, le)) == multiset(s)
    ensures Ordering(le) ==> SortedBy(SortBy(s, le), le)
  {
    if s != [] {
      SortBySorts(s[..|s| - 1], le);
      InsertElements(SortBy(s[..|s| - 1], le), s[|s| - 1], le);
      if Ordering(le) {
        InsertSorted(SortBy(s[..|s| - 1], le), s[|s| - 1], le);
      }
      assert s == s[..|s| - 1] + [s[|s| - 1]];
    }
  }

  // Sorting keeps the elements, and keeps them distinct.
  lemma SortByElements<T(!new)>(s: seq<T>, le: (T, T) -> bool)
    ensures forall x :: x in SortBy(s, le) <==> x in s
    ensures NoDup(s) ==> NoDup(SortBy(s, le))
  {
    SortBySorts(s, le);
    NoDupMultiset(s);
    NoDupMultiset(SortBy(s, le));
    forall x
      ensures x in SortBy(s, le) <==> x in s
    {
      assert x in SortBy(s, le) <==> x in multiset(SortBy(s, le));
      assert x in s <==> x in multiset(s);
    }
  }
}
