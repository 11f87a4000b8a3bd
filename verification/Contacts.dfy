/** One user's contact list: the items of `roster.xml`, kept in order. */
module Contacts {
  import opened Options

  datatype Subscription = None | To | From | Both {
    predicate HasFrom() { From? || Both? }

    predicate HasTo() { To? || Both? }
  }

  datatype Item = Item(jid: string, name: string, subscription: Subscription, ask: bool)

  /** The four ways a subscription stanza rewrites an existing item. */
  datatype Edit = GainTo | GainFrom | LoseTo | LoseFrom

  function Apply(e: Edit, it: Item): Item {
    match e
    case GainTo =>
      it.(subscription := match it.subscription
                          case None => To
                          case From => Both
                          case s => s,
          ask := false)
    case GainFrom =>
      it.(subscription := match it.subscription
                          case None => From
                          case To => Both
                          case s => s)
    case LoseTo =>
      it.(subscription := match it.subscription
                          case To => None
                          case Both => From
                          case s => s,
          ask := false)
    case LoseFrom =>
      it.(subscription := match it.subscription
                          case From => None
                          case Both => To
                          case s => s)
  }

  /** The first item for `jid`, or -1. */
  function Find(items: seq<Item>, jid: string): (i: int)
    ensures -1 <= i < |items|
    ensures i >= 0 ==> items[i].jid == jid && forall k | 0 <= k < i :: items[k].jid != jid
    ensures i < 0 ==> forall k | 0 <= k < |items| :: items[k].jid != jid
  {
    if items == [] then -1
    else if items[0].jid == jid then 0
    else
      var rest := Find(items[1..], jid);
      assert forall k | 1 <= k < |items| :: items[k] == items[1..][k - 1];
      if rest < 0 then -1 else rest + 1
  }

  /** The contact list read as a finite map from address to item. */
  function Get(items: seq<Item>, jid: string): Option<Item> {
    var i := Find(items, jid);
    if i >= 0 then Some(items[i]) else Nothing
  }

  function HasFrom(items: seq<Item>, jid: string): bool {
    Get(items, jid).Some? && Get(items, jid).value.subscription.HasFrom()
  }

  function HasTo(items: seq<Item>, jid: string): bool {
    Get(items, jid).Some? && Get(items, jid).value.subscription.HasTo()
  }

  ghost predicate UniqueKeys(items: seq<Item>) {
    forall i, j | 0 <= i < j < |items| :: items[i].jid != items[j].jid
  }

  // ---- The operations, on the list of items ----

  function Edited(items: seq<Item>, jid: string, e: Edit): seq<Item> {
    var i := Find(items, jid);
    if i >= 0 then items[i := Apply(e, items[i])] else items
  }

  /** `subscribe`, sender's side: remember that an answer is awaited. */
  function Asked(items: seq<Item>, jid: string): seq<Item> {
    var i := Find(items, jid);
    if i >= 0 then items[i := items[i].(ask := true)] else items + [Item(jid, "", None, true)]
  }

  /** `subscribed`, sender's side: an approval may create the item it approves. */
  function Approved(items: seq<Item>, jid: string): seq<Item> {
    if Find(items, jid) >= 0 then Edited(items, jid, GainFrom) else items + [Item(jid, "", From, false)]
  }

  function AddOrUpdated(items: seq<Item>, jid: string, name: Option<string>,
                        subscription: Option<Subscription>, ask: bool): seq<Item> {
    var i := Find(items, jid);
    if i >= 0 then
      items[i := Item(items[i].jid,
                      name.GetOr(items[i].name),
                      subscription.GetOr(items[i].subscription),
                      ask)]
    else
      items + [Item(jid, name.GetOr(""), subscription.GetOr(None), ask)]
  }

  function Removed(items: seq<Item>, jid: string): seq<Item> {
    var i := Find(items, jid);
    if i >= 0 then items[..i] + items[i + 1..] else items
  }

  /** A roster set of a client: the name may change, subscription and ask are carried over. */
  function Renamed(items: seq<Item>, jid: string, name: Option<string>): seq<Item> {
    match Get(items, jid)
    case Some(it) => AddOrUpdated(items, jid, name, Some(it.subscription), it.ask)
    case Nothing => AddOrUpdated(items, jid, name, Some(None), false)
  }

  // ---- What they do to the map ----

  lemma FindIs(items: seq<Item>, jid: string, k: nat)
    requires k < |items| && items[k].jid == jid
    requires forall m | 0 <= m < k :: items[m].jid != jid
    ensures Find(items, jid) == k
  {
  }

  lemma GetAfterUpdate(items: seq<Item>, i: nat, it: Item, k: string)
    requires i < |items| && it.jid == items[i].jid && Find(items, it.jid) == i
    ensures Get(items[i := it], k) == if k == it.jid then Some(it) else Get(items, k)
    ensures UniqueKeys(items) ==> UniqueKeys(items[i := it])
  {
    var after := items[i := it];
    var f := Find(items, k);
    if f >= 0 {
      FindIs(after, k, f);
    }
  }

  lemma GetAfterAppend(items: seq<Item>, it: Item, k: string)
    requires Find(items, it.jid) < 0
    ensures Get(items + [it], k) == if k == it.jid then Some(it) else Get(items, k)
    ensures UniqueKeys(items) ==> UniqueKeys(items + [it])
  {
    var f := Find(items, k);
    if f >= 0 {
      FindIs(items + [it], k, f);
    } else if k == it.jid {
      FindIs(items + [it], k, |items|);
    }
  }

  /** Each operation changes the map at one address only, and keeps addresses unique. */
  lemma GetAfterEdit(items: seq<Item>, jid: string, e: Edit, k: string)
    ensures Get(Edited(items, jid, e), k) ==
            if k == jid && Get(items, jid).Some? then Some(Apply(e, Get(items, jid).value)) else Get(items, k)
    ensures UniqueKeys(items) ==> UniqueKeys(Edited(items, jid, e))
  {
    var i := Find(items, jid);
    if i >= 0 {
      GetAfterUpdate(items, i, Apply(e, items[i]), k);
    }
  }

  lemma GetAfterAsk(items: seq<Item>, jid: string, k: string)
    ensures Get(Asked(items, jid), k) ==
            if k != jid then Get(items, k)
            else if Get(items, jid).Some? then Some(Get(items, jid).value.(ask := true))
            else Some(Item(jid, "", None, true))
    ensures UniqueKeys(items) ==> UniqueKeys(Asked(items, jid))
  {
    var i := Find(items, jid);
    if i >= 0 {
      GetAfterUpdate(items, i, items[i].(ask := true), k);
    } else {
      GetAfterAppend(items, Item(jid, "", None, true), k);
    }
  }

  lemma GetAfterApproval(items: seq<Item>, jid: string, k: string)
    ensures Get(Approved(items, jid), k) ==
            if k != jid then Get(items, k)
            else if Get(items, jid).Some? then Some(Apply(GainFrom, Get(items, jid).value))
            else Some(Item(jid, "", From, false))
    ensures UniqueKeys(items) ==> UniqueKeys(Approved(items, jid))
  {
    if Find(items, jid) >= 0 {
      GetAfterEdit(items, jid, GainFrom, k);
    } else {
      GetAfterAppend(items, Item(jid, "", From, false), k);
    }
  }

  lemma GetAfterAddOrUpdate(items: seq<Item>, jid: string, name: Option<string>,
                            subscription: Option<Subscription>, ask: bool, k: string)
    ensures var was := Get(items, jid);
            Get(AddOrUpdated(items, jid, name, subscription, ask), k) ==
            if k != jid then Get(items, k)
            else if was.Some? then
              Some(Item(jid, name.GetOr(was.value.name), subscription.GetOr(was.value.subscription), ask))
            else Some(Item(jid, name.GetOr(""), subscription.GetOr(None), ask))
    ensures UniqueKeys(items) ==> UniqueKeys(AddOrUpdated(items, jid, name, subscription, ask))
  {
    var i := Find(items, jid);
    if i >= 0 {
      GetAfterUpdate(items, i, AddOrUpdated(items, jid, name, subscription, ask)[i], k);
    } else {
      GetAfterAppend(items, Item(jid, name.GetOr(""), subscription.GetOr(None), ask), k);
    }
  }

  /** A roster set never touches subscription or ask of an existing item (or any other item). */
  lemma RenameKeepsSubscriptions(items: seq<Item>, jid: string, name: Option<string>, k: string)
    ensures Get(items, k).Some? ==>
              && Get(Renamed(items, jid, name), k).Some?
              && Get(Renamed(items, jid, name), k).value.subscription == Get(items, k).value.subscription
              && Get(Renamed(items, jid, name), k).value.ask == Get(items, k).value.ask
    ensures Get(items, k).Nothing? && k != jid ==> Get(Renamed(items, jid, name), k).Nothing?
    ensures Get(items, k).Nothing? && k == jid ==>
              Get(Renamed(items, jid, name), k) == Some(Item(jid, name.GetOr(""), None, false))
    ensures UniqueKeys(items) ==> UniqueKeys(Renamed(items, jid, name))
  {
    match Get(items, jid)
    case Some(it) => GetAfterAddOrUpdate(items, jid, name, Some(it.subscription), it.ask, k);
    case Nothing => GetAfterAddOrUpdate(items, jid, name, Some(None), false, k);
  }

  /** With unique addresses a removal deletes exactly one entry of the map. */
  lemma GetAfterRemove(items: seq<Item>, jid: string, k: string)
    requires UniqueKeys(items)
    ensures Get(Removed(items, jid), k) == if k == jid then Nothing else Get(items, k)
    ensures UniqueKeys(Removed(items, jid))
  {
    var i := Find(items, jid);
    if i >= 0 {
      var after := Removed(items, jid);
      assert forall m | 0 <= m < |after| :: after[m] == items[if m < i then m else m + 1];
      var f := Find(items, k);
      if f >= 0 && k != jid {
        FindIs(after, k, if f < i then f else f - 1);
      }
    }
  }
}
