/** How the two servers keep a contact list: a growing slice in Go, a fixed array of fixed-size strings in C. */
module ContactTables {
  import opened Options
  import opened Contacts
  import opened Buffers

  const MAX_ITEMS := 128
  const JID_SIZE := 512
  const NAME_SIZE := 256

  // ---- The operations of a run, on the list and on the map it stands for ----

  datatype Op =
    | Put(jid: string, name: Option<string>, subscription: Option<Subscription>, ask: bool)
    | Set(jid: string, name: Option<string>)
    | Drop(jid: string)

  /** A list with room for `capacity` items; a new item that does not fit is dropped. */
  function Fitting(capacity: Option<nat>, before: seq<Item>, after: seq<Item>): seq<Item> {
    if capacity.Some? && |after| > |before| && |before| >= capacity.value then before else after
  }

  function OnList(capacity: Option<nat>, items: seq<Item>, op: Op): seq<Item> {
    match op
    case Put(jid, name, subscription, ask) => Fitting(capacity, items, AddOrUpdated(items, jid, name, subscription, ask))
    case Set(jid, name) => Fitting(capacity, items, Renamed(items, jid, name))
    case Drop(jid) => Removed(items, jid)
  }

  function PutOnMap(m: map<string, Item>, jid: string, name: Option<string>, subscription: Option<Subscription>, ask: bool)
    : map<string, Item>
  {
    m[jid := if jid in m then Item(jid, name.GetOr(m[jid].name), subscription.GetOr(m[jid].subscription), ask)
             else Item(jid, name.GetOr(""), subscription.GetOr(None), ask)]
  }

  /** A roster set carries subscription and ask over. */
  function SetOnMap(m: map<string, Item>, jid: string, name: Option<string>): map<string, Item> {
    if jid in m then m[jid := m[jid].(name := name.GetOr(m[jid].name))]
    else m[jid := Item(jid, name.GetOr(""), None, false)]
  }

  function OnMap(capacity: Option<nat>, m: map<string, Item>, op: Op): map<string, Item> {
    if op.Drop? then m - {op.jid}
    else if capacity.Some? && op.jid !in m && |m| >= capacity.value then m
    else if op.Put? then PutOnMap(m, op.jid, op.name, op.subscription, op.ask)
    else SetOnMap(m, op.jid, op.name)
  }

  function RunList(capacity: Option<nat>, ops: seq<Op>): seq<Item> {
    if ops == [] then [] else OnList(capacity, RunList(capacity, ops[..|ops| - 1]), ops[|ops| - 1])
  }

  function RunMap(capacity: Option<nat>, ops: seq<Op>): map<string, Item> {
    if ops == [] then map[] else OnMap(capacity, RunMap(capacity, ops[..|ops| - 1]), ops[|ops| - 1])
  }

  /** The list holds each entry of the map once, and nothing else. */
  ghost predicate Represents(items: seq<Item>, m: map<string, Item>) {
    && UniqueKeys(items) && |items| == |m|
    && forall k: string :: Get(items, k) == if k in m then Some(m[k]) else Nothing
  }

  lemma GetKey(items: seq<Item>, k: string)
    ensures Get(items, k).Some? ==> Get(items, k).value.jid == k
  {
  }

  lemma PutRepresents(items: seq<Item>, m: map<string, Item>, jid: string, name: Option<string>,
                      subscription: Option<Subscription>, ask: bool)
    requires Represents(items, m)
    ensures Represents(AddOrUpdated(items, jid, name, subscription, ask), PutOnMap(m, jid, name, subscription, ask))
    ensures |AddOrUpdated(items, jid, name, subscription, ask)| == if jid in m then |items| else |items| + 1
  {
    hide Get;
    var after := AddOrUpdated(items, jid, name, subscription, ask);
    AddedLength(items, jid, name, subscription, ask);
    forall k: string ensures UniqueKeys(after)
      && Get(after, k) == var n := PutOnMap(m, jid, name, subscription, ask); if k in n then Some(n[k]) else Nothing
    {
      GetAfterAddOrUpdate(items, jid, name, subscription, ask, k);
      assert Get(items, jid).Some? <==> jid in m;
    }
    assert UniqueKeys(after) by {
      GetAfterAddOrUpdate(items, jid, name, subscription, ask, jid);
    }
  }

  lemma AddedLength(items: seq<Item>, jid: string, name: Option<string>, subscription: Option<Subscription>, ask: bool)
    ensures |AddOrUpdated(items, jid, name, subscription, ask)| == if Get(items, jid).Some? then |items| else |items| + 1
  {
  }

  lemma SetRepresents(items: seq<Item>, m: map<string, Item>, jid: string, name: Option<string>)
    requires Represents(items, m)
    ensures Represents(Renamed(items, jid, name), SetOnMap(m, jid, name))
    ensures |Renamed(items, jid, name)| == if jid in m then |items| else |items| + 1
  {
    hide Represents, AddOrUpdated;
    RepresentsAt(items, m, jid);
    GetKey(items, jid);
    match Get(items, jid)
    case Some(it) => PutRepresents(items, m, jid, name, Some(it.subscription), it.ask);
    case Nothing => PutRepresents(items, m, jid, name, Some(None), false);
  }

  lemma RepresentsAt(items: seq<Item>, m: map<string, Item>, k: string)
    requires Represents(items, m)
    ensures Get(items, k) == if k in m then Some(m[k]) else Nothing
    ensures |items| == |m|
  {
  }

  lemma DropRepresents(items: seq<Item>, m: map<string, Item>, jid: string)
    requires Represents(items, m)
    ensures Represents(Removed(items, jid), m - {jid})
  {
    hide Get;
    RemovedLength(items, jid);
    forall k: string ensures UniqueKeys(Removed(items, jid))
      && Get(Removed(items, jid), k) == if k in m - {jid} then Some((m - {jid})[k]) else Nothing
    {
      GetAfterRemove(items, jid, k);
    }
    GetAfterRemove(items, jid, jid);
    assert Get(items, jid).Some? <==> jid in m;
    MapRemoved(m, jid);
  }

  lemma RemovedLength(items: seq<Item>, jid: string)
    ensures |Removed(items, jid)| == if Get(items, jid).Some? then |items| - 1 else |items|
  {
  }

  lemma MapRemoved(m: map<string, Item>, k: string)
    ensures |m - {k}| == if k in m then |m| - 1 else |m|
  {
    var n := m - {k};
    if k in m {
      assert n[k := m[k]] == m;
    } else {
      assert n == m;
    }
  }

  lemma StepRepresents(capacity: Option<nat>, items: seq<Item>, m: map<string, Item>, op: Op)
    requires Represents(items, m)
    ensures Represents(OnList(capacity, items, op), OnMap(capacity, m, op))
  {
    hide Represents, AddOrUpdated, Renamed, PutOnMap, SetOnMap;
    RepresentsAt(items, m, op.jid);
    match op
    case Put(jid, name, subscription, ask) => PutRepresents(items, m, jid, name, subscription, ask);
    case Set(jid, name) => SetRepresents(items, m, jid, name);
    case Drop(jid) => DropRepresents(items, m, jid);
  }

  /** After any run the list is the map: addresses stay unique, and the C table never holds more than its 128 items. */
  lemma {:induction false} ListRefinesMap(capacity: Option<nat>, ops: seq<Op>)
    ensures Represents(RunList(capacity, ops), RunMap(capacity, ops))
    ensures capacity.Some? ==> |RunList(capacity, ops)| <= capacity.value
  {
    if ops != [] {
      var n := |ops| - 1;
      ListRefinesMap(capacity, ops[..n]);
      var items := RunList(capacity, ops[..n]);
      StepRepresents(capacity, items, RunMap(capacity, ops[..n]), ops[n]);
      StepLength(capacity, items, ops[n]);
    }
  }

  lemma StepLength(capacity: Option<nat>, items: seq<Item>, op: Op)
    ensures |OnList(capacity, items, op)| <= |items| + 1
    ensures capacity.Some? && |items| <= capacity.value ==> |OnList(capacity, items, op)| <= capacity.value
  {
  }

  /** The items whose address is not `jid`, in their order. */
  function Others(items: seq<Item>, jid: string): seq<Item> {
    if items == [] then []
    else if items[0].jid == jid then Others(items[1..], jid)
    else [items[0]] + Others(items[1..], jid)
  }

  lemma {:induction false} OthersAll(items: seq<Item>, jid: string)
    requires forall i | 0 <= i < |items| :: items[i].jid != jid
    ensures Others(items, jid) == items
  {
    if items != [] {
      OthersAll(items[1..], jid);
    }
  }

  lemma RemovedTail(items: seq<Item>, jid: string)
    requires items != []
    ensures Removed(items, jid) ==
            if items[0].jid == jid then items[1..] else [items[0]] + Removed(items[1..], jid)
  {
    hide Find, Removed;
    var rest, r := items[1..], Find(items[1..], jid);
    FindStep(items, jid);
    RemovedIs(items, jid);
    RemovedIs(rest, jid);
    if items[0].jid == jid {
      assert items[..0] + rest == rest;
    } else if r >= 0 {
      ShiftedOut(items, r);
    } else {
      assert items == [items[0]] + rest;
    }
  }

  lemma RemovedIs(items: seq<Item>, jid: string)
    ensures var i := Find(items, jid);
            Removed(items, jid) == if i >= 0 then items[..i] + items[i + 1..] else items
  {
    hide Find;
  }

  lemma ShiftedOut(items: seq<Item>, r: nat)
    requires r + 1 < |items|
    ensures items[..r + 1] + items[r + 2..] == [items[0]] + (items[1..][..r] + items[1..][r + 1..])
  {
    assert items[..r + 1] == [items[0]] + items[1..][..r];
    assert items[r + 2..] == items[1..][r + 1..];
  }

  lemma FindStep(items: seq<Item>, jid: string)
    requires items != []
    ensures var r := Find(items[1..], jid);
            Find(items, jid) == if items[0].jid == jid then 0 else if r < 0 then -1 else r + 1
  {
  }

  lemma UniqueTail(items: seq<Item>)
    requires UniqueKeys(items) && items != []
    ensures UniqueKeys(items[1..]) && forall i | 0 <= i < |items[1..]| :: items[1..][i].jid != items[0].jid
  {
  }

  /** Removing drops the one item and keeps the others as they were, in their order. */
  lemma {:induction false} RemoveKeepsOthers(items: seq<Item>, jid: string)
    requires UniqueKeys(items)
    ensures Removed(items, jid) == Others(items, jid)
  {
    hide UniqueKeys;
    if items != [] {
      UniqueTail(items);
      RemovedTail(items, jid);
      if items[0].jid == jid {
        OthersAll(items[1..], jid);
      } else {
        RemoveKeepsOthers(items[1..], jid);
      }
    }
  }

  // ---- Go: a slice ----

  class Roster {
    var items: seq<Item>

    method FindItem(jid: string) returns (i: int)
      ensures i == Find(items, jid)
    {
      for k := 0 to |items|
        invariant forall m | 0 <= m < k :: items[m].jid != jid
      {
        if items[k].jid == jid {
          FindIs(items, jid, k);
          return k;
        }
      }
      i := -1;
    }

    /** An empty name keeps the old one, and so does a missing subscription. */
    method AddOrUpdate(jid: string, name: string, subscription: Option<Subscription>, ask: bool)
      modifies this
      ensures items == AddOrUpdated(old(items), jid, NonEmpty(name), subscription, ask)
    {
      var i := FindItem(jid);
      if i >= 0 {
        if name != "" {
          items := items[i := items[i].(name := name)];
        }
        if subscription.Some? {
          items := items[i := items[i].(subscription := subscription.value)];
        }
        items := items[i := items[i].(ask := ask)];
        return;
      }
      items := items + [Item(jid, name, subscription.GetOr(None), ask)];
    }

    method Remove(jid: string) returns (found: bool)
      modifies this
      ensures items == Removed(old(items), jid) && (found <==> Find(old(items), jid) >= 0)
    {
      for i := 0 to |items|
        invariant items == old(items) && forall m | 0 <= m < i :: items[m].jid != jid
      {
        if items[i].jid == jid {
          FindIs(items, jid, i);
          items := items[..i] + items[i + 1..];
          return true;
        }
      }
      found := false;
    }

    /** The set branch of a roster request. */
    method Change(jid: string, name: string)
      modifies this
      ensures items == Renamed(old(items), jid, NonEmpty(name))
    {
      var existing := FindItem(jid);
      var subscription, ask := None, false;
      if existing >= 0 {
        subscription, ask := items[existing].subscription, items[existing].ask;
      }
      AddOrUpdate(jid, name, Some(subscription), ask);
      if name != "" && existing >= 0 {
        items := items[existing := items[existing].(name := name)];
      }
    }
  }

  function NonEmpty(name: string): Option<string> {
    if name == "" then Nothing else Some(name)
  }

  lemma FindNone(items: seq<Item>, jid: string)
    requires forall i | 0 <= i < |items| :: items[i].jid != jid
    ensures Find(items, jid) == -1
  {
  }

  // ---- C: an array of fixed-size records ----

  function CroppedName(name: Option<string>): Option<string> {
    if name.Some? then Some(Cropped(name.value, NAME_SIZE)) else Nothing
  }

  /** roster_add_item: a new item stores what fits of its address, and only when the table has room. */
  function AddedInC(items: seq<Item>, jid: string, name: Option<string>, subscription: Option<Subscription>, ask: bool)
    : seq<Item>
  {
    if Find(items, jid) >= 0 then AddOrUpdated(items, jid, CroppedName(name), subscription, ask)
    else if |items| >= MAX_ITEMS then items
    else items + [Item(Cropped(jid, JID_SIZE), CroppedName(name).GetOr(""), subscription.GetOr(None), ask)]
  }

  /** For addresses that fit, the C table is a list with room for 128 items. */
  lemma AddedInCIsPut(items: seq<Item>, jid: string, name: Option<string>, subscription: Option<Subscription>, ask: bool)
    requires |jid| < JID_SIZE
    ensures AddedInC(items, jid, name, subscription, ask) ==
            OnList(Some(MAX_ITEMS), items, Put(jid, CroppedName(name), subscription, ask))
  {
  }

  /** Addresses stay unique unless a new one is too long and what fits of it is already there. */
  lemma AddedInCUnique(items: seq<Item>, jid: string, name: Option<string>, subscription: Option<Subscription>, ask: bool)
    requires UniqueKeys(items)
    ensures UniqueKeys(AddedInC(items, jid, name, subscription, ask)) <==>
            Find(items, jid) >= 0 || |items| >= MAX_ITEMS || Find(items, Cropped(jid, JID_SIZE)) < 0
  {
    var i := Find(items, jid);
    if i >= 0 {
      GetAfterAddOrUpdate(items, jid, CroppedName(name), subscription, ask, jid);
    } else if |items| < MAX_ITEMS {
      var c, after := Find(items, Cropped(jid, JID_SIZE)), AddedInC(items, jid, name, subscription, ask);
      if c >= 0 {
        assert after[c].jid == after[|items|].jid;
      }
    }
  }

  /** So a long address, added twice, ends up in the list twice. */
  lemma LongAddressTwice(items: seq<Item>, jid: string)
    requires |jid| >= JID_SIZE && |items| + 2 <= MAX_ITEMS && UniqueKeys(items)
    requires forall i | 0 <= i < |items| :: |items[i].jid| < JID_SIZE
    ensures var once := AddedInC(items, jid, Nothing, Nothing, false);
            !UniqueKeys(AddedInC(once, jid, Nothing, Nothing, false))
  {
    var once := AddedInC(items, jid, Nothing, Nothing, false);
    var twice := AddedInC(once, jid, Nothing, Nothing, false);
    assert Find(items, jid) < 0 && |Cropped(jid, JID_SIZE)| < |jid|;
    assert Find(once, jid) < 0;
    assert twice[|items|].jid == twice[|items| + 1].jid;
  }

  class RosterArray {
    const items: array<Item>
    var count: nat

    ghost predicate Valid()
      reads this
    {
      items.Length == MAX_ITEMS && count <= MAX_ITEMS
    }

    ghost function Contents(): (s: seq<Item>)
      requires Valid()
      reads this, items
    {
      items[..count]
    }

    constructor ()
      ensures Valid() && fresh(items) && Contents() == []
    {
      items := new Item[MAX_ITEMS](_ => Item("", "", None, false));
      count := 0;
    }

    method FindItem(jid: string) returns (i: int)
      requires Valid()
      ensures i == Find(Contents(), jid)
    {
      for k := 0 to count
        invariant forall m | 0 <= m < k :: items[m].jid != jid
      {
        if items[k].jid == jid {
          FindIs(Contents(), jid, k);
          return k;
        }
      }
      i := -1;
    }

    method Add(jid: string, name: Option<string>, subscription: Option<Subscription>, ask: bool) returns (rc: int)
      requires Valid()
      modifies this`count, items
      ensures Valid() && Contents() == AddedInC(old(Contents()), jid, name, subscription, ask)
      ensures rc == if Find(old(Contents()), jid) < 0 && old(count) == MAX_ITEMS then -1 else 0
    {
      var existing := FindItem(jid);
      if existing >= 0 {
        if name.Some? {
          items[existing] := items[existing].(name := Cropped(name.value, NAME_SIZE));
        }
        if subscription.Some? {
          items[existing] := items[existing].(subscription := subscription.value);
        }
        items[existing] := items[existing].(ask := ask);
        return 0;
      }
      if count >= MAX_ITEMS {
        return -1;
      }
      items[count] := Item(Cropped(jid, JID_SIZE), CroppedName(name).GetOr(""), subscription.GetOr(None), ask);
      count := count + 1;
      rc := 0;
    }

    /** The items behind the removed one move down by one place. */
    method Remove(jid: string) returns (rc: int)
      requires Valid()
      modifies this`count, items
      ensures Valid() && Contents() == Removed(old(Contents()), jid)
      ensures rc == if Find(old(Contents()), jid) < 0 then -1 else 0
    {
      hide Find, Removed;
      for i := 0 to count
        invariant Contents() == old(Contents()) && count == old(count)
        invariant forall m | 0 <= m < i :: items[m].jid != jid
      {
        if items[i].jid == jid {
          FindIs(Contents(), jid, i);
          RemovedIs(Contents(), jid);
          ShiftDown(i);
          return 0;
        }
      }
      FindNone(Contents(), jid);
      RemovedIs(Contents(), jid);
      rc := -1;
    }

    /** memmove over one item. */
    method ShiftDown(i: nat)
      requires Valid() && i < count
      modifies this`count, items
      ensures Valid() && Contents() == old(Contents()[..i]) + old(Contents()[i + 1..])
    {
      forall k | i <= k < count - 1 {
        items[k] := items[k + 1];
      }
      count := count - 1;
    }
  }
}
