/** Sorting file names: what sorted means, why it is unique, and the exchange sort of the C server. */
module Sorting {
  import opened FileNames

  ghost predicate Sorted(names: seq<string>) {
    forall i, j | 0 <= i < j < |names| :: Leq(names[i], names[j])
  }

  function Insert(name: string, names: seq<string>): seq<string> {
    if names == [] || Leq(name, names[0]) then [name] + names else [names[0]] + Insert(name, names[1..])
  }

  /** The sorted order of some names. */
  function Sort(names: seq<string>): seq<string> {
    if names == [] then [] else Insert(names[0], Sort(names[1..]))
  }

  /** The order is total. */
  lemma LeqTotal(a: string, b: string)
    ensures Leq(a, b) || Leq(b, a)
    ensures Leq(a, b) && Leq(b, a) ==> a == b
    ensures Leq(a, a)
  {
    Trichotomy(a, b);
  }

  /** Something no greater than anything in a sorted sequence may stand in front of it. */
  lemma SortedCons(name: string, names: seq<string>)
    requires Sorted(names) && forall x | x in multiset(names) :: Leq(name, x)
    ensures Sorted([name] + names)
  {
    hide Leq;
    var s := [name] + names;
    forall i, j | 0 <= i < j < |s| ensures Leq(s[i], s[j]) {
      assert s[j] == names[j - 1] && s[j] in multiset(names);
      assert i > 0 ==> s[i] == names[i - 1];
    }
  }

  lemma SortedTail(names: seq<string>)
    requires Sorted(names) && names != []
    ensures Sorted(names[1..]) && forall x | x in multiset(names[1..]) :: Leq(names[0], x)
  {
    hide Leq;
    forall x | x in multiset(names[1..]) ensures Leq(names[0], x) {
      var k :| 0 <= k < |names[1..]| && names[1..][k] == x;
      assert names[k + 1] == x;
    }
  }

  lemma {:induction false} InsertSorts(name: string, names: seq<string>)
    requires Sorted(names)
    ensures Sorted(Insert(name, names)) && multiset(Insert(name, names)) == multiset(names) + multiset{name}
  {
    hide Leq, Sorted, Insert;
    InsertIs(name, names);
    if names == [] {
      SortedOne(name);
    } else {
      SortedTail(names);
      LeqTotal(name, names[0]);
      if Leq(name, names[0]) {
        InsertFirst(name, names);
      } else {
        InsertSorts(name, names[1..]);
        InsertLater(name, names, Insert(name, names[1..]));
      }
    }
  }

  lemma InsertIs(name: string, names: seq<string>)
    ensures Insert(name, names) ==
            if names == [] || Leq(name, names[0]) then [name] + names else [names[0]] + Insert(name, names[1..])
    ensures names == [] ==> [name] + names == [name]
  {
    hide Leq;
  }

  lemma InsertFirst(name: string, names: seq<string>)
    requires names != [] && Sorted(names) && Leq(name, names[0])
    ensures Sorted([name] + names) && multiset([name] + names) == multiset(names) + multiset{name}
  {
    hide Leq, Sorted;
    SortedTail(names);
    assert names == [names[0]] + names[1..];
    forall x | x in multiset(names) ensures Leq(name, x) {
      if x != names[0] {
        assert x in multiset(names[1..]);
        LeqTrans(name, names[0], x);
      }
    }
    SortedCons(name, names);
  }

  lemma InsertLater(name: string, names: seq<string>, rest: seq<string>)
    requires names != [] && Sorted(names) && Leq(names[0], name)
    requires Sorted(rest) && multiset(rest) == multiset(names[1..]) + multiset{name}
    ensures Sorted([names[0]] + rest) && multiset([names[0]] + rest) == multiset(names) + multiset{name}
  {
    hide Leq, Sorted;
    SortedTail(names);
    assert names == [names[0]] + names[1..];
    forall x | x in multiset(rest) ensures Leq(names[0], x) {
      assert x == name || x in multiset(names[1..]);
    }
    SortedCons(names[0], rest);
  }

  lemma SortedOne(name: string)
    ensures Sorted([name])
  {
  }

  lemma {:induction false} SortSorts(names: seq<string>)
    ensures Sorted(Sort(names)) && multiset(Sort(names)) == multiset(names)
  {
    if names != [] {
      SortSorts(names[1..]);
      InsertSorts(names[0], Sort(names[1..]));
      assert names == [names[0]] + names[1..];
    }
  }

  lemma Heads(a: seq<string>, b: seq<string>)
    requires a != [] && b != [] && Sorted(a) && Sorted(b) && multiset(a) == multiset(b)
    ensures a[0] == b[0]
  {
    hide Leq;
    assert a[0] in multiset(b) && b[0] in multiset(a);
    var i :| 0 <= i < |b| && b[i] == a[0];
    var j :| 0 <= j < |a| && a[j] == b[0];
    LeqTotal(a[0], b[0]);
  }

  lemma TailElements(names: seq<string>)
    requires names != []
    ensures names == [names[0]] + names[1..] && multiset(names[1..]) == multiset(names) - multiset{names[0]}
  {
    assert names == [names[0]] + names[1..];
  }

  /** There is only one sorted order. */
  lemma {:induction false} SortedUnique(a: seq<string>, b: seq<string>)
    requires Sorted(a) && Sorted(b) && multiset(a) == multiset(b)
    ensures a == b
  {
    hide Leq, Sorted;
    assert |a| == |multiset(a)| == |multiset(b)| == |b|;
    if a != [] {
      SortedTail(a);
      SortedTail(b);
      Heads(a, b);
      TailElements(a);
      TailElements(b);
      SortedUnique(a[1..], b[1..]);
    }
  }

  ghost predicate Rearranged(a: seq<string>, b: seq<string>) {
    |a| == |b| && multiset(a) == multiset(b)
  }

  lemma SwapRearranges(s: seq<string>, i: nat, j: nat)
    requires i < j < |s|
    ensures Rearranged(s, s[i := s[j]][j := s[i]])
  {
  }

  /** The names before `i` are in place; nothing after them comes before them. */
  ghost predicate InPlace(s: seq<string>, i: nat)
    requires i <= |s|
  {
    forall p, q | 0 <= p < i && p < q < |s| :: Leq(s[p], s[q])
  }

  ghost predicate LeastOf(s: seq<string>, i: nat, j: nat)
    requires i < j <= |s|
  {
    forall q | i < q < j :: Leq(s[i], s[q])
  }

  lemma SwapKeeps(s: seq<string>, i: nat, j: nat)
    requires i < j < |s| && InPlace(s, i) && LeastOf(s, i, j) && Less(s[j], s[i])
    ensures InPlace(s[i := s[j]][j := s[i]], i) && LeastOf(s[i := s[j]][j := s[i]], i, j + 1)
  {
    var t := s[i := s[j]][j := s[i]];
    Trichotomy(s[i], s[j]);
    forall q | i < q < j + 1 ensures Leq(t[i], t[q]) {
      if q < j {
        LeqTrans(s[j], s[i], s[q]);
      }
    }
  }

  lemma AdvanceKeeps(s: seq<string>, i: nat)
    requires i < |s| && InPlace(s, i) && LeastOf(s, i, |s|)
    ensures InPlace(s, i + 1)
  {
  }

  /** The exchange sort of message_deliver_offline, in place. */
  method ExchangeSort(names: array<string>)
    modifies names
    ensures names[..] == Sort(old(names[..]))
  {
    hide Less;
    var count := names.Length;
    ghost var start := names[..];
    var i := 0;
    while i < count - 1
      invariant 0 <= i <= count && Rearranged(start, names[..]) && InPlace(names[..], i)
      invariant i < count || count == 0
    {
      for j := i + 1 to count
        invariant Rearranged(start, names[..]) && InPlace(names[..], i) && LeastOf(names[..], i, j)
      {
        if Less(names[j], names[i]) {
          ghost var s := names[..];
          SwapRearranges(s, i, j);
          SwapKeeps(s, i, j);
          names[i], names[j] := names[j], names[i];
          assert names[..] == s[i := s[j]][j := s[i]];
        }
      }
      AdvanceKeeps(names[..], i);
      i := i + 1;
    }
    SortSorts(start);
    SortedUnique(names[..], Sort(start));
  }
}
