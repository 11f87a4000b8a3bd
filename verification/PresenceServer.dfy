/** The presence handlers as the servers run them, on session objects updated in place.
    Both programs share this text; they differ in when a target's contact list is in hand, and in teardown order. */
module PresenceServer {
  import opened Options
  import opened Jid
  import opened Contacts
  import opened Protocol

  class Session {
    const local: string
    const domain: string
    const resource: string
    var available: bool
    var initialSent: bool
    var presence: Option<Stanza>
    var loaded: bool
    var roster: seq<Item>
    var sent: seq<Stanza>

    constructor (local: string, domain: string, resource: string)
      ensures this.local == local && this.domain == domain && this.resource == resource
      ensures Snapshot() == Client(local, resource, false, false, Nothing, false, [], [])
    {
      this.local, this.domain, this.resource := local, domain, resource;
      available, initialSent, presence := false, false, Nothing;
      loaded, roster, sent := false, [], [];
    }

    function BareJid(): string {
      Join(local, domain)
    }

    function FullJid(): string {
      Full(local, domain, resource)
    }

    function Snapshot(): Client
      reads this
    {
      Client(local, resource, available, initialSent, presence, loaded, roster, sent)
    }

    method Send(x: Stanza)
      modifies this`sent
      ensures sent == old(sent) + [x]
    {
      sent := sent + [x];
    }
  }

  lemma FromCountStep(items: seq<Item>, i: nat, k: string)
    requires i < |items|
    ensures FromCount(items[..i + 1], k) ==
            FromCount(items[..i], k) + (if items[i].subscription.HasFrom() && Bare(items[i].jid) == k then 1 else 0)
  {
    assert items[..i + 1][..i] == items[..i];
  }

  lemma CopiesStep(sent: seq<Stanza>, x: Stanza, n: nat)
    ensures sent + Copies(x, n + 1) == (sent + Copies(x, n)) + [x]
    ensures sent + Copies(x, n + 0) == sent + Copies(x, n)
  {
    assert Copies(x, n + 1) == Copies(x, n) + [x];
  }

  function FanTurn(st: State, items: seq<Item>, i: nat, x: Stanza, except: string): State
    requires i < |items|
  {
    var j := Bare(items[i].jid);
    var before := Fan(st, items[..i], x, except);
    if items[i].subscription.HasFrom() && j in st.online && j != except then SendTo(before, j, x) else before
  }

  lemma FanStepAt(st: State, items: seq<Item>, i: nat, x: Stanza, except: string, k: string)
    requires i < |items| && k in st.online
    ensures k in FanTurn(st, items, i, x, except).online
    ensures Fan(st, items[..i + 1], x, except).online[k] == FanTurn(st, items, i, x, except).online[k]
  {
    hide FromCount, Bare, Copies;
    FromCountStep(items, i, k);
    CopiesStep(st.online[k].sent, x, FromCount(items[..i], k));
  }

  lemma FanFrame(st: State, items: seq<Item>, x: Stanza, except: string)
    ensures var f := Fan(st, items, x, except);
            f.domain == st.domain && f.order == st.order && f.disk == st.disk && f.online.Keys == st.online.Keys
  {
  }

  lemma FanTurnFrame(st: State, items: seq<Item>, i: nat, x: Stanza, except: string)
    requires i < |items|
    ensures var f := FanTurn(st, items, i, x, except);
            f.domain == st.domain && f.order == st.order && f.disk == st.disk && f.online.Keys == st.online.Keys
  {
    hide Fan, Bare;
    FanFrame(st, items[..i], x, except);
  }

  /** One turn of the broadcast loop. */
  lemma FanStep(st: State, items: seq<Item>, i: nat, x: Stanza, except: string)
    requires i < |items|
    ensures Fan(st, items[..i + 1], x, except) == FanTurn(st, items, i, x, except)
  {
    hide Fan, FanTurn, Bare;
    var next, step := Fan(st, items[..i + 1], x, except), FanTurn(st, items, i, x, except);
    FanFrame(st, items[..i + 1], x, except);
    FanTurnFrame(st, items, i, x, except);
    forall k | k in st.online ensures next.online[k] == step.online[k] {
      FanStepAt(st, items, i, x, except, k);
    }
    assert next.online == step.online;
  }

  class Server {
    const program: Program
    const domain: string
    var byBareJid: map<string, Session>
    var all: seq<Session>
    var disk: map<string, seq<Item>>

    ghost predicate Valid()
      reads this
    {
      && (forall j | j in byBareJid :: byBareJid[j].BareJid() == j && byBareJid[j].domain == domain)
      && (forall i | 0 <= i < |all| :: Live(all[i]))
      && (forall i, k | 0 <= i < k < |all| :: all[i] != all[k])
    }

    predicate Live(s: Session)
      reads this
    {
      s.BareJid() in byBareJid && byBareJid[s.BareJid()] == s
    }

    function View(): State
      reads this, byBareJid.Values
    {
      State(domain,
            map j | j in byBareJid :: byBareJid[j].Snapshot(),
            var sessions := all; seq(|sessions|, i requires 0 <= i < |sessions| => sessions[i].BareJid()),
            disk)
    }

    constructor (program: Program, domain: string, disk: map<string, seq<Item>>)
      ensures Valid() && View() == State(domain, map[], [], disk) && this.program == program
      ensures byBareJid == map[]
    {
      this.program, this.domain, this.disk := program, domain, disk;
      byBareJid, all := map[], [];
    }

    /** What the view says of a session that a lookup finds. */
    lemma Found(j: string)
      requires Valid() && j in byBareJid
      ensures byBareJid[j].BareJid() == j && byBareJid[j].domain == domain && Live(byBareJid[j])
      ensures j in View().online && View().online[j] == byBareJid[j].Snapshot()
    {
    }

    lemma Listed(i: nat)
      requires Valid() && i < |all|
      ensures |View().order| == |all| && View().order[i] == all[i].BareJid() && Live(all[i])
      ensures all[i].BareJid() in byBareJid && all[i] in byBareJid.Values
      ensures all[i].BareJid() in View().online && View().online[all[i].BareJid()] == all[i].Snapshot()
    {
    }

    lemma Lookup(j: string)
      ensures j in View().online <==> j in byBareJid
      ensures View().disk == disk && View().domain == domain
    {
    }

    /** What the others look like does not depend on `s`. */
    twostate lemma Others(s: Session)
      requires old(Valid()) && old(Live(s)) && byBareJid == old(byBareJid) && all == old(all)
      requires forall t | t in byBareJid.Values && t != s :: unchanged(t)
      ensures Valid()
      ensures forall j | j in byBareJid && j != s.BareJid() :: byBareJid[j].Snapshot() == old(byBareJid[j].Snapshot())
    {
      hide Session.Snapshot;
      forall j | j in byBareJid && j != s.BareJid()
        ensures byBareJid[j].Snapshot() == old(byBareJid[j].Snapshot())
      {
        assert byBareJid[j] in byBareJid.Values;
      }
    }

    /** Only `s` and the files have changed. */
    twostate lemma Touched(s: Session)
      requires old(Valid()) && old(Live(s)) && byBareJid == old(byBareJid) && all == old(all)
      requires forall t | t in byBareJid.Values && t != s :: unchanged(t)
      ensures Valid() && View() == Put(old(View()), s.BareJid(), s.Snapshot()).(disk := disk)
    {
      hide Session.Snapshot, Valid;
      Others(s);
      assert View().online == old(View()).online[s.BareJid() := s.Snapshot()];
    }

    method SendOn(s: Session, x: Stanza)
      requires Valid() && Live(s)
      modifies s`sent
      ensures Valid() && View() == SendTo(old(View()), s.BareJid(), x)
    {
      s.Send(x);
      Touched(s);
    }

    method EnsureLoaded(s: Session)
      requires Valid() && Live(s)
      modifies s`loaded, s`roster
      ensures Valid() && View() == Load(old(View()), s.BareJid())
      ensures s.loaded
    {
      if !s.loaded {
        s.roster := OnDisk(disk, s.local);
        s.loaded := true;
      }
      Touched(s);
    }

    /** Replace the contact list in memory and write it to the file. */
    method SetRoster(s: Session, items: seq<Item>)
      requires Valid() && Live(s)
      modifies s`roster, this`disk
      ensures Valid() && View() == SaveRoster(old(View()), s.BareJid(), items)
    {
      s.roster := items;
      disk := Store(disk, s.local, s.roster);
      Touched(s);
    }

    method PushFor(s: Session, jid: string)
      requires Valid() && Live(s)
      modifies s`sent
      ensures Valid() && View() == PushItem(old(View()), s.BareJid(), jid)
    {
      var i := Find(s.roster, jid);
      if i >= 0 {
        SendOn(s, Push(s.roster[i]));
      }
    }

    /** Offer `note` to every live contact that may see our presence. */
    method Broadcast(s: Session, items: seq<Item>, note: Stanza, excludeSelf: bool)
      requires Valid()
      requires s.BareJid() in byBareJid ==> Live(s)
      requires s.BareJid() != NOBODY
      modifies byBareJid.Values
      ensures Valid()
      ensures View() == Fan(old(View()), items, note, if excludeSelf then s.BareJid() else NOBODY)
    {
      ghost var st, except := View(), if excludeSelf then s.BareJid() else NOBODY;
      assert items[..0] == [] && View() == Fan(st, [], note, except) by {
        FanNothing(st, note, except);
      }
      for i := 0 to |items|
        invariant Valid()
        invariant View() == Fan(st, items[..i], note, except)
      {
        FanStep(st, items, i, note, except);
        var item := items[i];
        if item.subscription.HasFrom() {
          var bare := Bare(item.jid);
          if bare in byBareJid {
            var contact := byBareJid[bare];
            if !excludeSelf || contact != s {
              SendOn(contact, note);
            }
          }
        }
      }
      assert items[..|items|] == items;
    }

    // ---- Available and unavailable ----

    method HandleAvailable(s: Session, body: string)
      requires Valid() && Live(s)
      modifies this, byBareJid.Values
      ensures Valid() && byBareJid == old(byBareJid) && all == old(all)
      ensures View() == BecomeAvailable(old(View()), s.BareJid(), body)
    {
      hide View, Valid, Load, SendAll, Fan, Fetched, Pending, Glimpse;
      Found(s.BareJid());
      Lookup(s.BareJid());
      var isInitial := !s.available;
      s.available := true;
      var pres := Available(s.FullJid(), body);
      s.presence := Some(pres);
      Touched(s);
      EnsureLoaded(s);
      Found(s.BareJid());
      var items := s.roster;
      Broadcast(s, items, pres, false);
      FetchPresences(s, items);
      if isInitial {
        Found(s.BareJid());
        Lookup(s.BareJid());
        label Before:
        s.initialSent := true;
        Touched@Before(s);
        Found(s.BareJid());
        RedeliverPendingSubscribes(s);
      }
    }

    /** Receive the current presence of the contacts we may see. */
    method FetchPresences(s: Session, items: seq<Item>)
      requires Valid() && Live(s)
      modifies s`sent
      ensures Valid()
      ensures View() == SendAll(old(View()), s.BareJid(), Fetched(old(View()), items))
    {
      ghost var st, me := View(), s.BareJid();
      SendNothing(st, me);
      for i := 0 to |items|
        invariant Valid()
        invariant View() == SendAll(st, me, Fetched(st, items[..i]))
      {
        var item := items[i];
        assert items[..i + 1][..i] == items[..i];
        SendMore(st, me, Fetched(st, items[..i]), Glimpse(st, item));
        if item.subscription.HasTo() {
          var bare := Bare(item.jid);
          if bare in byBareJid {
            var contact := byBareJid[bare];
            SendsKeepPresence(st, me, Fetched(st, items[..i]), bare);
            assert View().online[bare] == contact.Snapshot();
            if contact.available && contact.presence.Some? {
              SendOn(s, contact.presence.value);
            }
          }
        }
      }
      assert items[..|items|] == items;
    }

    /** Deliver again the requests of one other session. */
    method RedeliverFrom(other: Session, s: Session)
      requires Valid() && Live(s) && Live(other) && other != s
      modifies s`sent
      ensures Valid()
      ensures View() == SendAll(old(View()), s.BareJid(), Asks(other.BareJid(), s.BareJid(), other.roster))
    {
      hide View, Valid, SendAll, Asks;
      ghost var st, me, from := View(), s.BareJid(), other.BareJid();
      var items := other.roster;
      SendNothing(st, me);
      AsksNone(from, me, items);
      for k := 0 to |items|
        invariant Valid()
        invariant View() == SendAll(st, me, Asks(from, me, items[..k]))
      {
        ghost var asks := Asks(from, me, items[..k]);
        AsksNext(from, me, items, k);
        assert asks + [] == asks;
        if items[k].ask {
          if Bare(items[k].jid) == s.BareJid() {
            SendMore(st, me, asks, [SubscribeNote(from, me)]);
            SendOn(s, SubscribeNote(other.BareJid(), s.BareJid()));
          }
        }
      }
      assert items[..|items|] == items;
    }

    /** Deliver again every request that a live session has made to us. */
    method RedeliverPendingSubscribes(s: Session)
      requires Valid() && Live(s)
      modifies s`sent
      ensures Valid()
      ensures var st := old(View()); View() == SendAll(st, s.BareJid(), Pending(st, s.BareJid(), st.order))
    {
      hide SendAll, Asks, Pending, View, Valid;
      ghost var st, me := View(), s.BareJid();
      SendNothing(st, me);
      PendingNone(st, me);
      Sizes();
      for i := 0 to |all|
        invariant Valid()
        invariant View() == SendAll(st, me, Pending(st, me, st.order[..i]))
      {
        var other := all[i];
        ghost var sofar := Pending(st, me, st.order[..i]);
        Listed(i);
        SendsKeep(st, me, sofar);
        PendingNext(st, me, st.order, i);
        assert sofar + [] == sofar;
        SameSession(s, other);
        if other != s && other.loaded {
          SendMore(st, me, sofar, Asks(other.BareJid(), me, other.roster));
          RedeliverFrom(other, s);
        }
      }
      assert st.order[..|all|] == st.order;
    }

    lemma InHand(j: string)
      requires Valid()
      ensures SeesRoster(program, View(), j) <==> j in byBareJid && (program.Go? || byBareJid[j].loaded)
    {
    }

    lemma Sizes()
      ensures |View().order| == |all|
    {
    }

    lemma SameSession(s: Session, t: Session)
      requires Live(s) && Live(t)
      ensures s == t <==> s.BareJid() == t.BareJid()
    {
    }

    method HandleUnavailable(s: Session)
      requires Valid() && Live(s)
      modifies this, byBareJid.Values
      ensures Valid() && byBareJid == old(byBareJid) && all == old(all)
      ensures View() == BroadcastUnavailable(old(View()), s.BareJid())
    {
      hide View, Valid, Fan, Load;
      Found(s.BareJid());
      Lookup(s.BareJid());
      if !s.available && !s.initialSent {
        return;
      }
      EnsureLoaded(s);
      Found(s.BareJid());
      Broadcast(s, s.roster, Unavailable(s.FullJid()), true);
      Found(s.BareJid());
      Lookup(s.BareJid());
      label Sent:
      s.available := false;
      Touched@Sent(s);
    }

    // ---- Subscriptions ----

    method HandleSubscribe(s: Session, to: string)
      requires Valid() && Live(s)
      modifies this, byBareJid.Values
      ensures Valid() && byBareJid == old(byBareJid) && all == old(all)
      ensures View() == AskFor(old(View()), s.BareJid(), to)
    {
      hide View, Valid, Load, SaveRoster, PushItem, Asked, SendAll;
      var targetBare := Bare(to);
      EnsureLoaded(s);
      Found(s.BareJid());
      SetRoster(s, Asked(s.roster, targetBare));
      PushFor(s, targetBare);
      Lookup(targetBare);
      SendNobody(View(), targetBare, [SubscribeNote(s.BareJid(), targetBare)]);
      if targetBare in byBareJid {
        Found(targetBare);
        SendOn(byBareJid[targetBare], SubscribeNote(s.BareJid(), targetBare));
      }
    }

    /** The target's half of a change: on its session if its list is in hand, and else on its file. */
    method EditTargetRoster(target: string, from: string, e: Edit)
      requires Valid()
      modifies this, byBareJid.Values
      ensures Valid() && byBareJid == old(byBareJid) && all == old(all)
      ensures View() == EditTarget(program, old(View()), target, from, e)
    {
      hide View, Valid, Load, SaveRoster, PushItem, Edited;
      Lookup(target);
      if target in byBareJid {
        Found(target);
      }
      if target in byBareJid && (program.Go? || byBareJid[target].loaded) {
        var t := byBareJid[target];
        EnsureLoaded(t);
        Found(target);
        if Find(t.roster, from) >= 0 || e.GainTo? {
          SetRoster(t, Edited(t.roster, from, e));
          PushFor(t, from);
        }
      } else {
        var user := LocalPart(target);
        SaveFile(user, Edited(OnDisk(disk, user), from, e));
      }
    }

    /** Write the contact list of a user whose list no session has in hand. */
    method SaveFile(user: string, items: seq<Item>)
      requires Valid()
      modifies this`disk
      ensures Valid() && View() == old(View()).(disk := Store(old(disk), user, items))
    {
      disk := Store(disk, user, items);
      assert View().online == old(View()).online;
    }

    /** The approver's own half. */
    method ApproveOwnRoster(s: Session, targetBare: string)
      requires Valid() && Live(s)
      modifies this, byBareJid.Values
      ensures Valid() && byBareJid == old(byBareJid) && all == old(all)
      ensures View() == ApproveOwn(old(View()), s.BareJid(), targetBare)
    {
      hide View, Valid, Load, SaveRoster, SendAll, PushItem, Approved;
      EnsureLoaded(s);
      Found(s.BareJid());
      SetRoster(s, Approved(s.roster, targetBare));
      PushFor(s, targetBare);
    }

    method HandleSubscribed(s: Session, to: string)
      requires Valid() && Live(s)
      modifies this, byBareJid.Values
      ensures Valid() && byBareJid == old(byBareJid) && all == old(all)
      ensures View() == Approve(program, old(View()), s.BareJid(), to)
    {
      hide View, Valid, ApproveOwn, EditTarget, SendAll;
      var targetBare := Bare(to);
      ApproveOwnRoster(s, targetBare);
      EditTargetRoster(targetBare, s.BareJid(), GainTo);
      Found(s.BareJid());
      Lookup(targetBare);
      ghost var s2, me := View(), s.BareJid();
      SendMore(s2, targetBare, Current(s2.online[me]), [SubscribedNote(me, targetBare)]);
      if targetBare in byBareJid {
        var target := byBareJid[targetBare];
        Found(targetBare);
        SendNothing(s2, targetBare);
        if s.available && s.presence.Some? {
          SendOn(target, s.presence.value);
        }
        SendOn(target, SubscribedNote(s.BareJid(), targetBare));
      } else {
        SendNobody(s2, targetBare, Current(s2.online[me]) + [SubscribedNote(me, targetBare)]);
      }
    }

    /** The sender's half of a cut: a missing item is left alone. */
    method EditOwnRoster(s: Session, targetBare: string, e: Edit)
      requires Valid() && Live(s)
      modifies this, byBareJid.Values
      ensures Valid() && byBareJid == old(byBareJid) && all == old(all)
      ensures View() == EditOwn(old(View()), s.BareJid(), targetBare, e)
    {
      hide View, Valid, Load, SaveRoster, SendAll, PushItem, Edited;
      EnsureLoaded(s);
      Found(s.BareJid());
      if Find(s.roster, targetBare) >= 0 {
        SetRoster(s, Edited(s.roster, targetBare, e));
        PushFor(s, targetBare);
      }
    }

    /** `unsubscribe` and `unsubscribed` differ in the direction that is cut and in the note. */
    method HandleRevoke(s: Session, to: string, own: Edit, theirs: Edit, note: Stanza)
      requires Valid() && Live(s)
      modifies this, byBareJid.Values
      ensures Valid() && byBareJid == old(byBareJid) && all == old(all)
      ensures View() == Revoke(program, old(View()), s.BareJid(), to, own, theirs, note)
    {
      hide View, Valid, EditOwn, SendAll, EditTarget, SeesRoster;
      Found(s.BareJid());
      var inHand := CutBoth(s, Bare(to), own, theirs);
      if inHand {
        Found(Bare(to));
        SayFarewell(s, byBareJid[Bare(to)], note);
      }
    }

    /** Both halves of a cut; is the target's list in hand? */
    method CutBoth(s: Session, targetBare: string, own: Edit, theirs: Edit) returns (inHand: bool)
      requires Valid() && Live(s)
      modifies this, byBareJid.Values
      ensures Valid() && byBareJid == old(byBareJid) && all == old(all)
      ensures s.BareJid() in old(View()).online
      ensures var s1 := EditOwn(old(View()), s.BareJid(), targetBare, own);
              && View() == EditTarget(program, s1, targetBare, s.BareJid(), theirs)
              && (inHand <==> SeesRoster(program, s1, targetBare)) && (inHand ==> targetBare in byBareJid)
    {
      hide View, Valid, EditOwn, EditTarget, SeesRoster;
      Found(s.BareJid());
      EditOwnRoster(s, targetBare, own);
      InHand(targetBare);
      inHand := targetBare in byBareJid && (program.Go? || byBareJid[targetBare].loaded);
      EditTargetRoster(targetBare, s.BareJid(), theirs);
    }

    /** The note, and that we are gone from the target's sight if we were in it. */
    method SayFarewell(s: Session, target: Session, note: Stanza)
      requires Valid() && Live(s) && Live(target)
      modifies target`sent
      ensures Valid()
      ensures s.BareJid() in old(View()).online
      ensures View() == SendAll(old(View()), target.BareJid(), [note] + Farewell(old(View()), s.BareJid()))
    {
      hide View, Valid, SendAll;
      Found(s.BareJid());
      Lookup(s.BareJid());
      SendMore(View(), target.BareJid(), [note], Farewell(View(), s.BareJid()));
      SendOn(target, note);
      if s.available {
        SendOn(target, Unavailable(s.FullJid()));
      }
    }

    method HandleUnsubscribe(s: Session, to: string)
      requires Valid() && Live(s)
      modifies this, byBareJid.Values
      ensures Valid() && byBareJid == old(byBareJid) && all == old(all)
      ensures View() == Step(program, old(View()), Unsubscribe(s.BareJid(), to))
    {
      HandleRevoke(s, to, LoseTo, LoseFrom, UnsubscribeNote(s.BareJid(), Bare(to)));
    }

    method HandleUnsubscribed(s: Session, to: string)
      requires Valid() && Live(s)
      modifies this, byBareJid.Values
      ensures Valid() && byBareJid == old(byBareJid) && all == old(all)
      ensures View() == Step(program, old(View()), Unsubscribed(s.BareJid(), to))
    {
      HandleRevoke(s, to, LoseFrom, LoseTo, UnsubscribedNote(s.BareJid(), Bare(to)));
    }

    // ---- Contact-list requests ----

    method HandleRosterSet(s: Session, jid: string, name: Option<string>)
      requires Valid() && Live(s)
      modifies this, byBareJid.Values
      ensures Valid() && byBareJid == old(byBareJid) && all == old(all)
      ensures View() == SetContact(program, old(View()), s.BareJid(), jid, NameFor(program, name))
    {
      hide View, Valid, Load, SaveRoster, SendAll, PushItem, AddOrUpdated;
      EnsureLoaded(s);
      Found(s.BareJid());
      if jid == "" && program.Go? {
        SendOn(s, ErrorReply);
        return;
      }
      var given := if program.Go? && name == Some("") then Nothing else name;
      var existing := Find(s.roster, jid);
      if existing >= 0 {
        var it := s.roster[existing];
        SetRoster(s, AddOrUpdated(s.roster, jid, given, Some(it.subscription), it.ask));
      } else {
        SetRoster(s, AddOrUpdated(s.roster, jid, given, Some(None), false));
      }
      SendOn(s, Result);
      PushFor(s, jid);
    }

    method HandleRosterRemove(s: Session, jid: string)
      requires Valid() && Live(s)
      modifies this, byBareJid.Values
      ensures Valid() && byBareJid == old(byBareJid) && all == old(all)
      ensures View() == RemoveContact(program, old(View()), s.BareJid(), jid)
    {
      hide View, Valid, Load, SaveRoster, SendAll, PushItem, Removed;
      EnsureLoaded(s);
      Found(s.BareJid());
      if jid == "" && program.Go? {
        SendOn(s, ErrorReply);
        return;
      }
      SetRoster(s, Removed(s.roster, jid));
      SendMore(View(), s.BareJid(), [Result], [PushRemoved(jid)]);
      assert [Result] + [PushRemoved(jid)] == [Result, PushRemoved(jid)];
      SendOn(s, Result);
      SendOn(s, PushRemoved(jid));
    }

    // ---- Coming and going ----

    /** Take the session out of both indices; the list of sessions is compacted by a swap. */
    method Unregister(s: Session)
      requires Valid() && Live(s)
      modifies this`byBareJid, this`all
      ensures Valid() && s.BareJid() !in byBareJid && byBareJid.Values <= old(byBareJid.Values)
      ensures var st := old(View());
              View() == st.(online := st.online - {s.BareJid()}, order := Dropped(st.order, s.BareJid()))
    {
      ghost var order := View().order;
      byBareJid := byBareJid - {s.BareJid()};
      RemoveFromAll(s, order);
      forall i | 0 <= i < |all| ensures Live(all[i]) {
        assert all[i] in old(all) && all[i] != s;
      }
      Left(s.BareJid());
    }

    twostate lemma Left(j: string)
      requires byBareJid == old(byBareJid) - {j} && disk == old(disk)
      requires forall t | t in byBareJid.Values :: unchanged(t)
      requires |all| == |Dropped(old(View()).order, j)|
      requires forall i | 0 <= i < |all| :: all[i].BareJid() == Dropped(old(View()).order, j)[i]
      ensures var st := old(View()); View() == st.(online := st.online - {j}, order := Dropped(st.order, j))
    {
      hide Dropped;
      forall k | k in byBareJid ensures byBareJid[k].Snapshot() == old(byBareJid[k].Snapshot()) {
        assert byBareJid[k] in byBareJid.Values;
      }
      assert View().online == old(View()).online - {j};
      assert View().order == Dropped(old(View()).order, j);
    }

    method RemoveFromAll(s: Session, ghost order: seq<string>)
      requires |order| == |all| && forall i | 0 <= i < |all| :: order[i] == all[i].BareJid()
      requires forall t | t in all && t.BareJid() == s.BareJid() :: t == s
      requires forall i, k | 0 <= i < k < |all| :: all[i] != all[k]
      modifies this`all
      ensures forall t | t in all :: t in old(all) && t != s
      ensures forall i, k | 0 <= i < k < |all| :: all[i] != all[k]
      ensures |all| == |Dropped(order, s.BareJid())|
      ensures forall i | 0 <= i < |all| :: all[i].BareJid() == Dropped(order, s.BareJid())[i]
    {
      for i := 0 to |all|
        invariant all == old(all)
        invariant forall k | 0 <= k < i :: all[k] != s
      {
        if all[i] == s {
          FirstIs(order, s.BareJid(), i);
          all := all[i := all[|all| - 1]][..|all| - 1];
          return;
        }
      }
    }

    method Depart(s: Session)
      requires Valid() && Live(s)
      modifies this, byBareJid.Values
      ensures Valid() && s.BareJid() !in byBareJid && byBareJid.Values <= old(byBareJid.Values)
      ensures View() == Leave(old(View()), s.BareJid())
    {
      hide View, Valid, BroadcastUnavailable, Dropped;
      if program.C? {
        HandleUnavailable(s);
        Unregister(s);
      } else {
        DepartFirst(s);
      }
    }

    /** Go takes the session out of the registry before it announces the departure. */
    method DepartFirst(s: Session)
      requires Valid() && Live(s)
      modifies this, byBareJid.Values
      ensures Valid() && s.BareJid() !in byBareJid && byBareJid.Values <= old(byBareJid.Values)
      ensures View() == Leave(old(View()), s.BareJid())
    {
      hide View, Valid, Fan, Dropped;
      ghost var st := View();
      Found(s.BareJid());
      Lookup(s.BareJid());
      Unregister(s);
      Lookup(s.BareJid());
      if !s.available && !s.initialSent {
        return;
      }
      if !s.loaded {
        label Absent:
        s.roster := OnDisk(disk, s.local);
        s.loaded := true;
        Quietly@Absent(s);
      }
      LeaveOrder(st, s.BareJid());
      Broadcast(s, s.roster, Unavailable(s.FullJid()), true);
      label Sent:
      s.available := false;
      Quietly@Sent(s);
    }

    /** Changes to a session that is no longer registered do not show. */
    twostate lemma Quietly(s: Session)
      requires old(Valid()) && s.BareJid() !in byBareJid
      requires byBareJid == old(byBareJid) && all == old(all) && disk == old(disk)
      requires forall t | t in byBareJid.Values && t != s :: unchanged(t)
      ensures Valid() && View() == old(View())
    {
      forall j | j in byBareJid ensures byBareJid[j].Snapshot() == old(byBareJid[j].Snapshot()) {
        assert byBareJid[j] in byBareJid.Values;
      }
      assert View().online == old(View()).online;
    }

    /** Enter a new session into both indices. */
    method Enlist(s: Session)
      requires Valid() && s.BareJid() !in byBareJid && s.domain == domain
      modifies this`byBareJid, this`all
      ensures Valid() && Live(s) && byBareJid.Values <= old(byBareJid.Values) + {s}
      ensures View() == Put(old(View()), s.BareJid(), s.Snapshot()).(order := old(View()).order + [s.BareJid()])
    {
      byBareJid := byBareJid[s.BareJid() := s];
      all := all + [s];
      Entered(s);
    }

    twostate lemma Entered(s: Session)
      requires byBareJid == old(byBareJid)[s.BareJid() := s] && all == old(all) + [s] && disk == old(disk)
      requires s.BareJid() !in old(byBareJid) && forall t | t in byBareJid.Values :: unchanged(t)
      ensures View() == Put(old(View()), s.BareJid(), s.Snapshot()).(order := old(View()).order + [s.BareJid()])
    {
      forall k | k in old(byBareJid) ensures byBareJid[k].Snapshot() == old(byBareJid[k].Snapshot()) {
        assert byBareJid[k] in byBareJid.Values;
      }
      hide Session.Snapshot;
      assert View().online == old(View()).online[s.BareJid() := s.Snapshot()];
      assert View().order == old(View()).order + [s.BareJid()];
    }

    /** A new session takes the place of an older one of the same user, which leaves first. */
    method HandleBind(user: string, resource: string) returns (s: Session)
      requires Valid() && user in disk
      modifies this, byBareJid.Values
      ensures Valid() && Live(s) && fresh(s) && byBareJid.Values <= old(byBareJid.Values) + {s}
      ensures View() == Arrive(old(View()), user, resource)
    {
      hide View, Valid, Leave;
      Lookup(Join(user, domain));
      var bare := Join(user, domain);
      if bare in byBareJid {
        Found(bare);
        Depart(byBareJid[bare]);
      }
      label Left:
      s := new Session(user, domain, resource);
      Untouched@Left();
      Enlist(s);
    }

    /** Creating an object changes nothing that is registered. */
    twostate lemma Untouched()
      requires old(Valid()) && unchanged(this)
      requires forall t | t in byBareJid.Values :: unchanged(t)
      ensures Valid() && View() == old(View())
    {
      forall j | j in byBareJid ensures byBareJid[j].Snapshot() == old(byBareJid[j].Snapshot()) {
        assert byBareJid[j] in byBareJid.Values;
      }
      assert View().online == old(View()).online;
    }

    method HandleRemoveAccount(s: Session)
      requires Valid() && Live(s)
      modifies this, byBareJid.Values
      ensures Valid() && byBareJid.Values <= old(byBareJid.Values)
      ensures View() == Expel(old(View()), s.BareJid())
    {
      hide View, Valid, Leave;
      Found(s.BareJid());
      Lookup(s.BareJid());
      DeleteFiles(s.local);
      Depart(s);
    }

    /** In-band registration; the name is checked first. */
    method HandleCreateAccount(user: string)
      requires Valid()
      modifies this`disk
      ensures Valid()
      ensures View() == Step(program, old(View()), CreateAccount(user))
    {
      if user !in disk && ValidName(user) {
        disk := disk[user := []];
        assert View().online == old(View()).online;
      }
    }

    method HandleRosterGet(s: Session)
      requires Valid() && Live(s)
      modifies this, byBareJid.Values
      ensures Valid() && byBareJid == old(byBareJid) && all == old(all)
      ensures s.BareJid() in old(View()).online
      ensures View() == SendTo(Load(old(View()), s.BareJid()), s.BareJid(), Result)
    {
      hide View, Valid, Load, SendAll;
      Found(s.BareJid());
      EnsureLoaded(s);
      SendOn(s, Result);
    }

    /** Whatever a client does: the objects make exactly the step of the protocol. */
    method Perform(op: Op)
      requires Valid()
      modifies this, byBareJid.Values
      ensures Valid() && View() == Step(program, old(View()), op)
      ensures fresh(byBareJid.Values - old(byBareJid.Values))
    {
      hide View, Valid, Arrive, Expel, Leave, BecomeAvailable, BroadcastUnavailable, AskFor, Approve, Revoke, SetContact, RemoveContact;
      match op
      case CreateAccount(user) => HandleCreateAccount(user);
      case Bind(user, resource) =>
        Lookup(user);
        if user in disk {
          var _ := HandleBind(user, resource);
        }
      case _ => PerformStanza(op);
    }

    method PerformStanza(op: Op)
      requires Valid() && Sender(op).Some?
      modifies this, byBareJid.Values
      ensures Valid() && View() == Step(program, old(View()), op)
      ensures byBareJid.Values <= old(byBareJid.Values)
    {
      hide View, Valid, Arrive, Expel, Leave, BecomeAvailable, BroadcastUnavailable, AskFor, Approve, Revoke, SetContact, RemoveContact;
      Lookup(op.me);
      if op.me !in byBareJid {
        return;
      }
      Found(op.me);
      var s := byBareJid[op.me];
      match op
      case RemoveAccount(_) => HandleRemoveAccount(s);
      case Disconnect(_) => Depart(s);
      case GoAvailable(_, body) => HandleAvailable(s, body);
      case GoUnavailable(_) => HandleUnavailable(s);
      case Subscribe(_, to) => HandleSubscribe(s, to);
      case Subscribed(_, to) => HandleSubscribed(s, to);
      case Unsubscribe(_, to) => HandleUnsubscribe(s, to);
      case Unsubscribed(_, to) => HandleUnsubscribed(s, to);
      case RosterGet(_) => HandleRosterGet(s);
      case RosterSet(_, jid, name) => HandleRosterSet(s, jid, name);
      case RosterRemove(_, jid) => HandleRosterRemove(s, jid);
    }

    method DeleteFiles(user: string)
      requires Valid()
      modifies this`disk
      ensures Valid() && disk == old(disk) - {user} && View() == old(View()).(disk := disk)
    {
      disk := disk - {user};
      assert View().online == old(View()).online;
    }
  }

  /** A server started on some files and driven by any sequence of operations is the protocol's run. */
  method Serve(program: Program, domain: string, disk: map<string, seq<Item>>, ops: seq<Op>) returns (server: Server)
    ensures server.Valid()
    ensures server.View() == Run(program, State(domain, map[], [], disk), ops)
  {
    server := new Server(program, domain, disk);
    for i := 0 to |ops|
      invariant fresh(server) && fresh(server.byBareJid.Values) && server.Valid() && server.program == program
      invariant server.View() == Run(program, State(domain, map[], [], disk), ops[..i])
    {
      server.Perform(ops[i]);
      assert ops[..i + 1][..i] == ops[..i];
    }
    assert ops[..|ops|] == ops;
  }

  lemma FirstIs(order: seq<string>, j: string, i: nat)
    requires i < |order| && order[i] == j && forall k | 0 <= k < i :: order[k] != j
    ensures FirstAt(order, j) == i
  {
  }

  /** Announcing and then leaving comes to the same as leaving and then announcing. */
  lemma LeaveOrder(st: State, me: string)
    requires me in st.online && (st.online[me].available || st.online[me].initialSent)
    ensures Leave(st, me) ==
            Fan(st.(online := st.online - {me}, order := Dropped(st.order, me)),
                Load(st, me).online[me].roster, Unavailable(FullJid(st, me)), me)
  {
    hide FromCount, Dropped, Copies;
    var items, note := Load(st, me).online[me].roster, Unavailable(FullJid(st, me));
    var left := Fan(st.(online := st.online - {me}, order := Dropped(st.order, me)), items, note, me);
    assert Leave(st, me).online.Keys == left.online.Keys;
    assert Leave(st, me).online == left.online;
  }

  lemma FanNothing(st: State, x: Stanza, except: string)
    ensures Fan(st, [], x, except) == st
  {
    forall j | j in st.online ensures st.online[j].sent + Copies(x, 0) == st.online[j].sent {
      assert Copies(x, 0) == [];
    }
    assert Fan(st, [], x, except).online == st.online;
  }

  lemma SendNothing(st: State, j: string)
    ensures SendAll(st, j, []) == st
  {
    if j in st.online {
      assert st.online[j].sent + [] == st.online[j].sent;
      assert st.online[j := st.online[j]] == st.online;
    }
  }

  lemma SendNobody(st: State, j: string, xs: seq<Stanza>)
    ensures j !in st.online ==> SendAll(st, j, xs) == st
  {
  }

  lemma SendMore(st: State, j: string, xs: seq<Stanza>, ys: seq<Stanza>)
    ensures SendAll(SendAll(st, j, xs), j, ys) == SendAll(st, j, xs + ys)
    ensures ys == [] ==> SendAll(st, j, xs + ys) == SendAll(st, j, xs)
  {
    if j in st.online {
      assert (st.online[j].sent + xs) + ys == st.online[j].sent + (xs + ys);
    }
    if ys == [] {
      assert xs + ys == xs;
    }
  }

  lemma AsksNone(from: string, me: string, items: seq<Item>)
    ensures Asks(from, me, items[..0]) == []
  {
  }

  lemma AsksNext(from: string, me: string, items: seq<Item>, k: nat)
    requires k < |items|
    ensures Asks(from, me, items[..k + 1]) ==
            Asks(from, me, items[..k]) + (if items[k].ask && Bare(items[k].jid) == me then [SubscribeNote(from, me)] else [])
  {
    assert items[..k + 1][..k] == items[..k];
  }

  lemma PendingNone(st: State, me: string)
    ensures Pending(st, me, st.order[..0]) == []
  {
  }

  lemma PendingNext(st: State, me: string, order: seq<string>, i: nat)
    requires i < |order|
    ensures var j := order[i];
            Pending(st, me, order[..i + 1]) ==
            Pending(st, me, order[..i]) +
            (if j != me && j in st.online && st.online[j].loaded then Asks(j, me, st.online[j].roster) else [])
  {
    assert order[..i + 1][..i] == order[..i];
  }

  lemma SendsKeep(st: State, j: string, xs: seq<Stanza>)
    ensures var t := SendAll(st, j, xs);
            && t.order == st.order && t.online.Keys == st.online.Keys
            && forall k | k in st.online && k != j :: t.online[k] == st.online[k]
  {
  }

  lemma SendsKeepPresence(st: State, j: string, xs: seq<Stanza>, k: string)
    requires k in st.online
    ensures var t := SendAll(st, j, xs);
            && k in t.online && t.online[k].available == st.online[k].available
            && t.online[k].presence == st.online[k].presence
  {
  }
}
