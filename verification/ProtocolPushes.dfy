/** Roster pushes (section 2.1.6 of RFC 6121): a client that applies them always holds the server's contact list. */
module ProtocolPushes {
  import opened Options
  import opened Jid
  import opened Contacts
  import opened Protocol
  import opened ProtocolInvariant
  import opened ProtocolLaws

  /** What a client does with one stanza. */
  function Applied(items: seq<Item>, x: Stanza): seq<Item> {
    match x
    case Push(it) => var i := Find(items, it.jid); if i >= 0 then items[i := it] else items + [it]
    case PushRemoved(jid) => Removed(items, jid)
    case _ => items
  }

  function Replay(items: seq<Item>, xs: seq<Stanza>): seq<Item> {
    if xs == [] then items else Applied(Replay(items, xs[..|xs| - 1]), xs[|xs| - 1])
  }

  /** From `s` to `t` the session of `j` has been sent enough to follow its contact list. */
  ghost predicate Mirrors(s: State, t: State, j: string) {
    j in s.online && s.online[j].loaded ==>
      && j in t.online && t.online[j].loaded
      && exists xs :: t.online[j].sent == s.online[j].sent + xs && t.online[j].roster == Replay(s.online[j].roster, xs)
  }

  lemma {:induction false} ReplayConcat(items: seq<Item>, xs: seq<Stanza>, ys: seq<Stanza>)
    ensures Replay(items, xs + ys) == Replay(Replay(items, xs), ys)
  {
    if ys == [] {
      assert xs + ys == xs;
    } else {
      var n := |ys| - 1;
      assert (xs + ys)[..|xs + ys| - 1] == xs + ys[..n];
      ReplayConcat(items, xs, ys[..n]);
    }
  }

  lemma MirrorsTrans(s: State, t: State, u: State, j: string)
    requires Mirrors(s, t, j) && Mirrors(t, u, j)
    ensures Mirrors(s, u, j)
  {
    if j in s.online && s.online[j].loaded {
      var xs :| t.online[j].sent == s.online[j].sent + xs && t.online[j].roster == Replay(s.online[j].roster, xs);
      var ys :| u.online[j].sent == t.online[j].sent + ys && u.online[j].roster == Replay(t.online[j].roster, ys);
      ReplayConcat(s.online[j].roster, xs, ys);
      assert u.online[j].sent == s.online[j].sent + (xs + ys);
    }
  }

  /** The common case: nothing is sent and the list stays, or one step with known stanzas. */
  lemma MirrorsBy(s: State, t: State, j: string, xs: seq<Stanza>)
    requires j in s.online && s.online[j].loaded ==>
               && j in t.online && t.online[j].loaded
               && t.online[j].sent == s.online[j].sent + xs && t.online[j].roster == Replay(s.online[j].roster, xs)
    ensures Mirrors(s, t, j)
  {
  }

  lemma MirrorsSame(s: State, t: State, j: string)
    requires j in s.online && s.online[j].loaded ==>
               && j in t.online && t.online[j].loaded
               && t.online[j].sent == s.online[j].sent && t.online[j].roster == s.online[j].roster
    ensures Mirrors(s, t, j)
  {
    if j in s.online && s.online[j].loaded {
      assert s.online[j].sent + [] == s.online[j].sent;
      MirrorsBy(s, t, j, []);
    }
  }

  predicate IsPush(x: Stanza) {
    x.Push? || x.PushRemoved?
  }

  lemma {:induction false} ReplayOthers(items: seq<Item>, xs: seq<Stanza>)
    requires forall x | x in xs :: !IsPush(x)
    ensures Replay(items, xs) == items
  {
    if xs != [] {
      assert xs[|xs| - 1] in xs && forall x | x in xs[..|xs| - 1] :: x in xs;
      ReplayOthers(items, xs[..|xs| - 1]);
    }
  }

  lemma ReplayOne(items: seq<Item>, x: Stanza)
    ensures Replay(items, [x]) == Applied(items, x)
  {
    assert [x][..0] == [];
  }

  // ---- The parts of a step ----

  lemma MirrorsSend(st: State, k: string, xs: seq<Stanza>, j: string)
    requires forall x | x in xs :: !IsPush(x)
    ensures Mirrors(st, SendAll(st, k, xs), j)
  {
    if j in st.online && st.online[j].loaded {
      if j == k {
        ReplayOthers(st.online[j].roster, xs);
        MirrorsBy(st, SendAll(st, k, xs), j, xs);
      } else {
        MirrorsSame(st, SendAll(st, k, xs), j);
      }
    }
  }

  lemma MirrorsLoad(st: State, k: string, j: string)
    requires k in st.online
    ensures Mirrors(st, Load(st, k), j)
  {
    MirrorsSame(st, Load(st, k), j);
  }

  lemma MirrorsFan(st: State, items: seq<Item>, x: Stanza, except: string, j: string)
    requires !IsPush(x)
    ensures Mirrors(st, Fan(st, items, x, except), j)
  {
    if j in st.online && st.online[j].loaded {
      if j == except {
        MirrorsSame(st, Fan(st, items, x, except), j);
      } else {
        var xs := Copies(x, FromCount(items, j));
        ReplayOthers(st.online[j].roster, xs);
        MirrorsBy(st, Fan(st, items, x, except), j, xs);
      }
    }
  }

  lemma MirrorsPut(st: State, k: string, c: Client, j: string)
    requires k in st.online && c.sent == st.online[k].sent && c.roster == st.online[k].roster && c.loaded == st.online[k].loaded
    ensures Mirrors(st, Put(st, k, c), j)
  {
    MirrorsSame(st, Put(st, k, c), j);
  }

  /** The new list differs from the old at one address at most, and the item there is what a push carries. */
  ghost predicate OneAway(items: seq<Item>, after: seq<Item>, jid: string) {
    match Get(after, jid)
    case Some(it) => after == Applied(items, Push(it))
    case Nothing => after == items
  }

  lemma MirrorsChange(st: State, k: string, items: seq<Item>, jid: string, j: string)
    requires k in st.online && st.online[k].loaded && OneAway(st.online[k].roster, items, jid)
    ensures Mirrors(st, PushItem(SaveRoster(st, k, items), k, jid), j)
  {
    hide Find;
    var t := PushItem(SaveRoster(st, k, items), k, jid);
    if j != k {
      MirrorsSame(st, t, j);
    } else {
      match Get(items, jid)
      case Some(it) =>
        ReplayOne(st.online[k].roster, Push(it));
        MirrorsBy(st, t, j, [Push(it)]);
      case Nothing =>
        MirrorsSame(st, t, j);
    }
  }

  lemma UpdateOneAway(items: seq<Item>, i: nat, it: Item)
    requires i < |items| && it.jid == items[i].jid && Find(items, it.jid) == i
    ensures OneAway(items, items[i := it], it.jid)
  {
    FindIs(items[i := it], it.jid, i);
  }

  lemma AppendOneAway(items: seq<Item>, it: Item)
    requires Find(items, it.jid) < 0
    ensures OneAway(items, items + [it], it.jid)
  {
    FindIs(items + [it], it.jid, |items|);
  }

  lemma EditOneAway(items: seq<Item>, jid: string, e: Edit)
    ensures OneAway(items, Edited(items, jid, e), jid)
  {
    var i := Find(items, jid);
    if i >= 0 {
      UpdateOneAway(items, i, Apply(e, items[i]));
    }
  }

  lemma AskOneAway(items: seq<Item>, jid: string)
    ensures OneAway(items, Asked(items, jid), jid)
  {
    var i := Find(items, jid);
    if i >= 0 {
      UpdateOneAway(items, i, items[i].(ask := true));
    } else {
      AppendOneAway(items, Item(jid, "", None, true));
    }
  }

  lemma ApproveOneAway(items: seq<Item>, jid: string)
    ensures OneAway(items, Approved(items, jid), jid)
  {
    if Find(items, jid) >= 0 {
      EditOneAway(items, jid, GainFrom);
    } else {
      AppendOneAway(items, Item(jid, "", From, false));
    }
  }

  lemma RenameOneAway(items: seq<Item>, jid: string, name: Option<string>)
    ensures OneAway(items, Renamed(items, jid, name), jid)
  {
    var i := Find(items, jid);
    if i >= 0 {
      UpdateOneAway(items, i, Renamed(items, jid, name)[i]);
    } else {
      AppendOneAway(items, Item(jid, name.GetOr(""), None, false));
    }
  }

  // ---- The steps ----

  lemma AskMirrors(st: State, me: string, to: string, j: string)
    requires me in st.online
    ensures Mirrors(st, AskFor(st, me, to), j)
  {
    hide Load, SaveRoster, PushItem, SendAll, Asked, OneAway, Mirrors;
    var b, s1 := Bare(to), Load(st, me);
    Loaded(st, me);
    MirrorsLoad(st, me, j);
    AskOneAway(s1.online[me].roster, b);
    Saved(s1, me, Asked(s1.online[me].roster, b));
    MirrorsChange(s1, me, Asked(s1.online[me].roster, b), b, j);
    var s2 := PushItem(SaveRoster(s1, me, Asked(s1.online[me].roster, b)), me, b);
    MirrorsSend(s2, b, [SubscribeNote(me, b)], j);
    MirrorsTrans(st, s1, s2, j);
    MirrorsTrans(st, s2, AskFor(st, me, to), j);
  }

  lemma Loaded(st: State, k: string)
    requires k in st.online
    ensures k in Load(st, k).online && Load(st, k).online[k].loaded && Load(st, k).online.Keys == st.online.Keys
  {
  }

  lemma Saved(st: State, k: string, items: seq<Item>)
    requires k in st.online
    ensures k in SaveRoster(st, k, items).online
  {
  }

  lemma ApproveOwnMirrors(st: State, me: string, b: string, j: string)
    requires me in st.online
    ensures Mirrors(st, ApproveOwn(st, me, b), j)
  {
    hide Load, SaveRoster, PushItem, Approved, OneAway, Mirrors;
    var s1 := Load(st, me);
    Loaded(st, me);
    MirrorsLoad(st, me, j);
    ApproveOneAway(s1.online[me].roster, b);
    MirrorsChange(s1, me, Approved(s1.online[me].roster, b), b, j);
    MirrorsTrans(st, s1, ApproveOwn(st, me, b), j);
  }

  lemma EditOwnMirrors(st: State, me: string, b: string, e: Edit, j: string)
    requires me in st.online
    ensures Mirrors(st, EditOwn(st, me, b, e), j)
  {
    hide Load, SaveRoster, PushItem, Edited, OneAway, Mirrors;
    var s1 := Load(st, me);
    Loaded(st, me);
    MirrorsLoad(st, me, j);
    EditOneAway(s1.online[me].roster, b, e);
    MirrorsChange(s1, me, Edited(s1.online[me].roster, b, e), b, j);
    if Get(s1.online[me].roster, b).Some? {
      MirrorsTrans(st, s1, EditOwn(st, me, b, e), j);
    }
  }

  lemma EditTargetMirrors(p: Program, st: State, target: string, from: string, e: Edit, j: string)
    ensures Mirrors(st, EditTarget(p, st, target, from, e), j)
  {
    hide Load, SaveRoster, PushItem, Edited, OneAway;
    if SeesRoster(p, st, target) {
      hide Mirrors;
      var s1 := Load(st, target);
      Loaded(st, target);
      MirrorsLoad(st, target, j);
      EditOneAway(s1.online[target].roster, from, e);
      MirrorsChange(s1, target, Edited(s1.online[target].roster, from, e), from, j);
      if Get(s1.online[target].roster, from).Some? || e.GainTo? {
        MirrorsTrans(st, s1, EditTarget(p, st, target, from, e), j);
      }
    } else {
      MirrorsSame(st, EditTarget(p, st, target, from, e), j);
    }
  }

  lemma {:induction false} FetchedNoPush(st: State, items: seq<Item>)
    requires PresencesOk(st)
    ensures forall x | x in Fetched(st, items) :: !IsPush(x)
  {
    if items != [] {
      FetchedNoPush(st, items[..|items| - 1]);
    }
  }

  lemma {:induction false} AsksNoPush(from: string, me: string, items: seq<Item>)
    ensures forall x | x in Asks(from, me, items) :: !IsPush(x)
  {
    if items != [] {
      AsksNoPush(from, me, items[..|items| - 1]);
    }
  }

  lemma {:induction false} PendingNoPush(st: State, me: string, order: seq<string>)
    ensures forall x | x in Pending(st, me, order) :: !IsPush(x)
  {
    if order != [] {
      var j := order[|order| - 1];
      PendingNoPush(st, me, order[..|order| - 1]);
      if j in st.online {
        AsksNoPush(j, me, st.online[j].roster);
      }
    }
  }

  lemma AnnouncedMirrors(st: State, me: string, body: string, j: string)
    requires me in st.online && PresencesOk(st)
    ensures Mirrors(st, Announced(st, me, body), j)
    ensures PresencesOk(Announced(st, me, body)) && Announced(st, me, body).online.Keys == st.online.Keys
  {
    hide Mirrors;
    var pres := Available(FullJid(st, me), body);
    var c := st.online[me].(available := true, presence := Some(pres));
    var s0 := Put(st, me, c);
    MirrorsPut(st, me, c, j);
    MirrorsLoad(s0, me, j);
    MirrorsTrans(st, s0, Announced(st, me, body), j);
  }

  lemma FanPresences(st: State, items: seq<Item>, x: Stanza, except: string)
    requires PresencesOk(st)
    ensures PresencesOk(Fan(st, items, x, except)) && Fan(st, items, x, except).online.Keys == st.online.Keys
  {
    hide FromCount, Copies;
  }

  lemma AvailableMirrors(st: State, me: string, body: string, j: string)
    requires me in st.online && PresencesOk(st)
    ensures Mirrors(st, BecomeAvailable(st, me, body), j)
  {
    hide Announced, Fan, Fetched, Pending, Mirrors, PresencesOk;
    var pres := Available(FullJid(st, me), body);
    var s1 := Announced(st, me, body);
    AnnouncedMirrors(st, me, body, j);
    var items := s1.online[me].roster;
    var s2 := Fan(s1, items, pres, NOBODY);
    MirrorsFan(s1, items, pres, NOBODY, j);
    FanPresences(s1, items, pres, NOBODY);
    MirrorsTrans(st, s1, s2, j);
    FetchedNoPush(s2, items);
    MirrorsSend(s2, me, Fetched(s2, items), j);
    var s3 := SendAll(s2, me, Fetched(s2, items));
    MirrorsTrans(st, s2, s3, j);
    if !st.online[me].available {
      var s4 := Put(s3, me, s3.online[me].(initialSent := true));
      MirrorsPut(s3, me, s3.online[me].(initialSent := true), j);
      MirrorsTrans(st, s3, s4, j);
      PendingNoPush(s4, me, s4.order);
      MirrorsSend(s4, me, Pending(s4, me, s4.order), j);
      MirrorsTrans(st, s4, BecomeAvailable(st, me, body), j);
    }
  }

  lemma UnavailableMirrors(st: State, me: string, j: string)
    requires me in st.online
    ensures Mirrors(st, BroadcastUnavailable(st, me), j)
    ensures BroadcastUnavailable(st, me).online.Keys == st.online.Keys
  {
    hide Mirrors, FromCount, Copies;
    if st.online[me].available || st.online[me].initialSent {
      var s1 := Load(st, me);
      var note := Unavailable(FullJid(st, me));
      var s2 := Fan(s1, s1.online[me].roster, note, me);
      MirrorsLoad(st, me, j);
      MirrorsFan(s1, s1.online[me].roster, note, me, j);
      MirrorsTrans(st, s1, s2, j);
      MirrorsPut(s2, me, s2.online[me].(available := false), j);
      MirrorsTrans(st, s2, BroadcastUnavailable(st, me), j);
    } else {
      MirrorsSame(st, st, j);
    }
  }

  lemma LeaveMirrors(st: State, me: string, j: string)
    requires me in st.online && j != me
    ensures Mirrors(st, Leave(st, me), j)
  {
    hide BroadcastUnavailable, Dropped, Mirrors;
    UnavailableMirrors(st, me, j);
    MirrorsSame(BroadcastUnavailable(st, me), Leave(st, me), j);
    MirrorsTrans(st, BroadcastUnavailable(st, me), Leave(st, me), j);
  }

  lemma ApproveMirrors(p: Program, st: State, me: string, to: string, j: string)
    requires Inv(st) && Home(st, to) && me in st.online
    ensures Mirrors(st, Approve(p, st, me, to), j)
  {
    hide Inv, ApproveOwn, EditTarget, SendAll, Mirrors;
    var b := Bare(to);
    BareIdempotent(to);
    KeyFacts(st, me);
    ApproveOwnInv(st, me, b);
    var s1 := ApproveOwn(st, me, b);
    QuietOnline(st, s1);
    ApproveOwnMirrors(st, me, b, j);
    EditTargetMirrors(p, s1, b, me, GainTo, j);
    EditTargetInv(p, s1, b, me, GainTo);
    var s2 := EditTarget(p, s1, b, me, GainTo);
    QuietOnline(s1, s2);
    MirrorsTrans(st, s1, s2, j);
    PresencesAvailable(s2);
    MirrorsSend(s2, b, Current(s2.online[me]) + [SubscribedNote(me, b)], j);
    MirrorsTrans(st, s2, Approve(p, st, me, to), j);
  }

  lemma RevokeMirrors(p: Program, st: State, me: string, to: string, own: Edit, theirs: Edit, note: Stanza, j: string)
    requires Inv(st) && Home(st, to) && me in st.online && !IsPush(note)
    ensures Mirrors(st, Revoke(p, st, me, to, own, theirs, note), j)
  {
    hide Inv, EditOwn, EditTarget, SendAll, Mirrors, SeesRoster;
    var b := Bare(to);
    BareIdempotent(to);
    KeyFacts(st, me);
    EditOwnInv(st, me, b, own);
    var s1 := EditOwn(st, me, b, own);
    QuietOnline(st, s1);
    EditOwnMirrors(st, me, b, own, j);
    EditTargetMirrors(p, s1, b, me, theirs, j);
    EditTargetInv(p, s1, b, me, theirs);
    var s2 := EditTarget(p, s1, b, me, theirs);
    QuietOnline(s1, s2);
    MirrorsTrans(st, s1, s2, j);
    if SeesRoster(p, s1, b) {
      MirrorsSend(s2, b, [note] + Farewell(s2, me), j);
      MirrorsTrans(st, s2, Revoke(p, st, me, to, own, theirs, note), j);
    }
  }

  lemma SetMirrors(p: Program, st: State, me: string, jid: string, name: Option<string>, j: string)
    requires me in st.online
    ensures Mirrors(st, SetContact(p, st, me, jid, name), j)
  {
    hide Load, Renamed, Mirrors, Get, OneAway;
    var s1 := Load(st, me);
    Loaded(st, me);
    MirrorsLoad(st, me, j);
    if jid == "" && p.Go? {
      MirrorsSend(s1, me, [ErrorReply], j);
      MirrorsTrans(st, s1, SetContact(p, st, me, jid, name), j);
    } else {
      var items := Renamed(s1.online[me].roster, jid, name);
      var s2 := SendTo(s1, me, Result);
      RenameOneAway(s1.online[me].roster, jid, name);
      MirrorsSend(s1, me, [Result], j);
      MirrorsTrans(st, s1, s2, j);
      MirrorsChange(s2, me, items, jid, j);
      ResultFirst(s1, me, items);
      MirrorsTrans(st, s2, SetContact(p, st, me, jid, name), j);
    }
  }

  lemma ResultFirst(st: State, k: string, items: seq<Item>)
    requires k in st.online
    ensures k in SendTo(st, k, Result).online
    ensures SaveRoster(SendTo(st, k, Result), k, items) == SendTo(SaveRoster(st, k, items), k, Result)
  {
    var a, b := SaveRoster(SendTo(st, k, Result), k, items), SendTo(SaveRoster(st, k, items), k, Result);
    assert a.online == b.online;
  }

  lemma RemoveMirrors(p: Program, st: State, me: string, jid: string, j: string)
    requires me in st.online
    ensures Mirrors(st, RemoveContact(p, st, me, jid), j)
  {
    hide Load, Removed, Mirrors;
    var s1 := Load(st, me);
    Loaded(st, me);
    MirrorsLoad(st, me, j);
    if jid == "" && p.Go? {
      MirrorsSend(s1, me, [ErrorReply], j);
    } else {
      var t := RemoveContact(p, st, me, jid);
      if j == me {
        var xs := [Result, PushRemoved(jid)];
        assert xs[..1] == [Result];
        ReplayOne(s1.online[me].roster, Result);
        MirrorsBy(s1, t, j, xs);
      } else {
        MirrorsSame(s1, t, j);
      }
    }
    MirrorsTrans(st, s1, RemoveContact(p, st, me, jid), j);
  }

  /** Does this operation end the session of `j`? */
  predicate EndsSession(st: State, op: Op, j: string) {
    || ((op.Disconnect? || op.RemoveAccount?) && op.me == j)
    || (op.Bind? && Join(op.user, st.domain) == j)
  }

  lemma ComeAndGoMirrors(p: Program, st: State, op: Op, j: string)
    requires Accepted(p, st, op) && !EndsSession(st, op, j)
    requires op.CreateAccount? || op.RemoveAccount? || op.Bind? || op.Disconnect?
    ensures Mirrors(st, Step(p, st, op), j)
  {
    hide Mirrors, Leave;
    match op
    case CreateAccount(_) => MirrorsSame(st, Step(p, st, op), j);
    case RemoveAccount(me) =>
      var s1 := st.(disk := st.disk - {st.online[me].local});
      MirrorsSame(st, s1, j);
      LeaveMirrors(s1, me, j);
      MirrorsTrans(st, s1, Step(p, st, op), j);
    case Disconnect(me) => LeaveMirrors(st, me, j);
    case Bind(user, resource) =>
      var me := Join(user, st.domain);
      var s1 := if me in st.online && user in st.disk then Leave(st, me) else st;
      if me in st.online {
        LeaveMirrors(st, me, j);
      }
      MirrorsSame(st, st, j);
      MirrorsSame(s1, Step(p, st, op), j);
      MirrorsTrans(st, s1, Step(p, st, op), j);
  }

  /** Every step that leaves a session in place sends it what its client needs to follow the list. */
  lemma StepMirrors(p: Program, st: State, op: Op, j: string)
    requires Inv(st) && HomeOp(st, op) && !EndsSession(st, op, j)
    ensures Mirrors(st, Step(p, st, op), j)
  {
    hide Inv, Mirrors, BecomeAvailable, BroadcastUnavailable, AskFor, Approve, Revoke, SetContact, RemoveContact, Load, PresencesOk;
    if Sender(op).Some? && Sender(op).value !in st.online {
      MirrorsSame(st, st, j);
    } else {
      match op
      case GoAvailable(me, body) =>
        PresencesAvailable(st);
        AvailableMirrors(st, me, body, j);
      case GoUnavailable(me) => UnavailableMirrors(st, me, j);
      case Subscribe(me, to) => AskMirrors(st, me, to, j);
      case Subscribed(me, to) => ApproveMirrors(p, st, me, to, j);
      case Unsubscribe(me, to) => RevokeMirrors(p, st, me, to, LoseTo, LoseFrom, UnsubscribeNote(me, Bare(to)), j);
      case Unsubscribed(me, to) => RevokeMirrors(p, st, me, to, LoseFrom, LoseTo, UnsubscribedNote(me, Bare(to)), j);
      case RosterGet(me) =>
        MirrorsLoad(st, me, j);
        MirrorsSend(Load(st, me), me, [Result], j);
        MirrorsTrans(st, Load(st, me), Step(p, st, op), j);
      case RosterSet(me, jid, name) => SetMirrors(p, st, me, jid, NameFor(p, name), j);
      case RosterRemove(me, jid) => RemoveMirrors(p, st, me, jid, j);
      case _ => ComeAndGoMirrors(p, st, op, j);
    }
  }

  predicate KeepsSession(st: State, ops: seq<Op>, j: string) {
    forall i | 0 <= i < |ops| :: !EndsSession(st, ops[i], j)
  }

  /** Over every run that leaves the session in place, a client that starts from the list as it was loaded and applies
      the pushes it receives, in order, holds exactly the server's list. */
  lemma {:induction false} PushesMirrorTheList(p: Program, st: State, ops: seq<Op>, j: string)
    requires Inv(st) && HomeRun(p, st, ops) && KeepsSession(st, ops, j)
    ensures Mirrors(st, Run(p, st, ops), j)
  {
    hide Inv, Mirrors, Step, HomeOp;
    if ops == [] {
      MirrorsSame(st, st, j);
    } else {
      var n := |ops| - 1;
      var init, op := ops[..n], ops[n];
      assert forall i | 0 <= i < n :: init[i] == ops[i];
      PushesMirrorTheList(p, st, init, j);
      RunInv(p, st, init);
      StepMirrors(p, Run(p, st, init), op, j);
      MirrorsTrans(st, Run(p, st, init), Run(p, st, ops), j);
    }
  }
}
