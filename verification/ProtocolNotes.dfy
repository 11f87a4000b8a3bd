/** Which subscription stanzas reach whom: exactly one, the one that was sent, at exactly the session it was meant for. */
module ProtocolNotes {
  import opened Options
  import opened Jid
  import opened Contacts
  import opened Protocol
  import opened ProtocolInvariant
  import opened ProtocolRuns
  import opened ProtocolPushes

  predicate IsNote(x: Stanza) {
    x.SubscribeNote? || x.SubscribedNote? || x.UnsubscribeNote? || x.UnsubscribedNote?
  }

  function Notes(xs: seq<Stanza>): seq<Stanza> {
    if xs == [] then []
    else Notes(xs[..|xs| - 1]) + (if IsNote(xs[|xs| - 1]) then [xs[|xs| - 1]] else [])
  }

  /** From `s` to `t` the session of `k` was sent the subscription stanzas `ns`, in this order, and no others. */
  ghost predicate Tells(s: State, t: State, k: string, ns: seq<Stanza>) {
    k in s.online ==> k in t.online && Notes(t.online[k].sent) == Notes(s.online[k].sent) + ns
  }

  lemma {:induction false} NotesConcat(xs: seq<Stanza>, ys: seq<Stanza>)
    ensures Notes(xs + ys) == Notes(xs) + Notes(ys)
  {
    if ys == [] {
      assert xs + ys == xs;
    } else {
      var n := |ys| - 1;
      assert (xs + ys)[..|xs + ys| - 1] == xs + ys[..n];
      NotesConcat(xs, ys[..n]);
    }
  }

  lemma NotesOne(x: Stanza)
    ensures Notes([x]) == if IsNote(x) then [x] else []
  {
    assert [x][..0] == [];
  }

  lemma TellsTrans(s: State, t: State, u: State, k: string, xs: seq<Stanza>, ys: seq<Stanza>)
    requires Tells(s, t, k, xs) && Tells(t, u, k, ys)
    ensures Tells(s, u, k, xs + ys)
    ensures xs == [] ==> Tells(s, u, k, ys)
  {
    assert xs == [] ==> xs + ys == ys;
  }

  lemma TellsSend(st: State, j: string, xs: seq<Stanza>, k: string)
    ensures Tells(st, SendAll(st, j, xs), k, if k == j then Notes(xs) else [])
  {
    if k in st.online && k == j {
      NotesConcat(st.online[k].sent, xs);
    }
  }

  lemma TellsPush(st: State, j: string, jid: string, k: string)
    requires j in st.online
    ensures Tells(st, PushItem(st, j, jid), k, [])
  {
    hide Notes, Get;
    match Get(st.online[j].roster, jid)
    case Some(it) =>
      NotesOne(Push(it));
      TellsSend(st, j, [Push(it)], k);
    case Nothing =>
      TellsNothing(st, st, k);
  }

  /** Loading, saving and pushing say nothing to anybody. */
  lemma TellsChange(st: State, j: string, items: seq<Item>, jid: string, k: string)
    requires j in st.online
    ensures j in SaveRoster(st, j, items).online
    ensures Tells(st, PushItem(SaveRoster(st, j, items), j, jid), k, [])
  {
    hide PushItem;
    TellsPush(SaveRoster(st, j, items), j, jid, k);
  }

  lemma TellsLoad(st: State, j: string, k: string)
    requires j in st.online
    ensures j in Load(st, j).online && Tells(st, Load(st, j), k, [])
  {
  }

  lemma TellsOwn(st: State, me: string, b: string, e: Edit, k: string)
    requires me in st.online
    ensures Tells(st, ApproveOwn(st, me, b), k, []) && Tells(st, EditOwn(st, me, b, e), k, [])
  {
    hide Load, SaveRoster, PushItem, Notes, Edited, Approved;
    var s1 := Load(st, me);
    TellsLoad(st, me, k);
    TellsChange(s1, me, Approved(s1.online[me].roster, b), b, k);
    TellsChange(s1, me, Edited(s1.online[me].roster, b, e), b, k);
  }

  lemma TellsTarget(p: Program, st: State, target: string, from: string, e: Edit, k: string)
    ensures Tells(st, EditTarget(p, st, target, from, e), k, [])
  {
    hide Load, SaveRoster, PushItem, Notes, Edited;
    if SeesRoster(p, st, target) {
      var s1 := Load(st, target);
      TellsLoad(st, target, k);
      TellsChange(s1, target, Edited(s1.online[target].roster, from, e), from, k);
    }
  }

  function NoteOf(op: Op): Stanza
    requires IsSubscription(op)
  {
    match op
    case Subscribe(me, to) => SubscribeNote(me, Bare(to))
    case Subscribed(me, to) => SubscribedNote(me, Bare(to))
    case Unsubscribe(me, to) => UnsubscribeNote(me, Bare(to))
    case Unsubscribed(me, to) => UnsubscribedNote(me, Bare(to))
  }

  /** Requests and approvals reach any live target; the two cuts reach it only if its contact list is in hand. */
  predicate Reaches(p: Program, st: State, op: Op, k: string)
    requires IsSubscription(op)
  {
    k == Bare(op.to) && (op.Subscribe? || op.Subscribed? || SeesRoster(p, st, k) || k == op.me)
  }

  lemma AskTells(st: State, me: string, to: string, k: string)
    requires me in st.online
    ensures Tells(st, AskFor(st, me, to), k, if k == Bare(to) then [SubscribeNote(me, Bare(to))] else [])
  {
    hide Load, SaveRoster, PushItem, Asked, SendAll, Tells;
    var b, s1 := Bare(to), Load(st, me);
    TellsLoad(st, me, k);
    var items := Asked(s1.online[me].roster, b);
    TellsChange(s1, me, items, b, k);
    var s2 := PushItem(SaveRoster(s1, me, items), me, b);
    TellsTrans(st, s1, s2, k, [], []);
    NotesOne(SubscribeNote(me, b));
    TellsSend(s2, b, [SubscribeNote(me, b)], k);
    TellsTrans(st, s2, AskFor(st, me, to), k, [], if k == b then [SubscribeNote(me, b)] else []);
  }

  lemma CurrentIsNoNote(st: State, me: string)
    requires Inv(st) && me in st.online
    ensures Notes(Current(st.online[me])) == []
  {
    assert ClientOk(st, me, st.online[me]);
    if st.online[me].presence.Some? {
      NotesOne(st.online[me].presence.value);
    }
  }

  lemma ApproveTells(p: Program, st: State, me: string, to: string, k: string)
    requires Inv(st) && Home(st, to) && me in st.online
    ensures Tells(st, Approve(p, st, me, to), k, if k == Bare(to) then [SubscribedNote(me, Bare(to))] else [])
  {
    hide Inv, Quiet, ApproveOwn, EditTarget, SendAll, Tells, Notes, Current, DiskAfterApproval;
    var b := Bare(to);
    BareIdempotent(to);
    KeyFacts(st, me);
    ApproveOwnInv(st, me, b);
    var s1 := ApproveOwn(st, me, b);
    QuietOnline(st, s1);
    TellsOwn(st, me, b, GainFrom, k);
    EditTargetInv(p, s1, b, me, GainTo);
    var s2 := EditTarget(p, s1, b, me, GainTo);
    QuietOnline(s1, s2);
    TellsTarget(p, s1, b, me, GainTo, k);
    TellsTrans(st, s1, s2, k, [], []);
    ApprovalSent(s2, me, b, k);
    TellsTrans(st, s2, Approve(p, st, me, to), k, [], if k == b then [SubscribedNote(me, b)] else []);
  }

  lemma ApprovalSent(st: State, me: string, b: string, k: string)
    requires Inv(st) && me in st.online
    ensures Tells(st, SendAll(st, b, Current(st.online[me]) + [SubscribedNote(me, b)]), k,
                  if k == b then [SubscribedNote(me, b)] else [])
  {
    hide Inv, SendAll, Tells, Notes, Current;
    CurrentIsNoNote(st, me);
    var note := SubscribedNote(me, b);
    NotesOne(note);
    NotesConcat(Current(st.online[me]), [note]);
    assert [] + [note] == [note];
    TellsSend(st, b, Current(st.online[me]) + [note], k);
  }

  lemma FarewellIsNoNote(st: State, me: string)
    requires me in st.online
    ensures Notes(Farewell(st, me)) == []
  {
    NotesOne(Unavailable(FullJid(st, me)));
  }

  lemma InHandAfterOwn(p: Program, st: State, me: string, b: string, own: Edit)
    requires me in st.online
    ensures SeesRoster(p, EditOwn(st, me, b, own), b) <==> SeesRoster(p, st, b) || b == me
  {
    hide Edited, Get;
  }

  lemma RevokeTells(p: Program, st: State, me: string, to: string, own: Edit, theirs: Edit, note: Stanza, k: string)
    requires Inv(st) && Home(st, to) && me in st.online && IsNote(note)
    ensures var b := Bare(to);
            Tells(st, Revoke(p, st, me, to, own, theirs, note), k,
                  if k == b && (SeesRoster(p, st, b) || b == me) then [note] else [])
  {
    hide Inv, EditOwn, EditTarget, SendAll, Tells, Notes, Farewell, SeesRoster;
    var b := Bare(to);
    BareIdempotent(to);
    KeyFacts(st, me);
    EditOwnInv(st, me, b, own);
    var s1 := EditOwn(st, me, b, own);
    QuietOnline(st, s1);
    TellsOwn(st, me, b, own, k);
    EditTargetInv(p, s1, b, me, theirs);
    var s2 := EditTarget(p, s1, b, me, theirs);
    QuietOnline(s1, s2);
    TellsTarget(p, s1, b, me, theirs, k);
    TellsTrans(st, s1, s2, k, [], []);
    InHandAfterOwn(p, st, me, b, own);
    if SeesRoster(p, s1, b) {
      FarewellIsNoNote(s2, me);
      NotesOne(note);
      NotesConcat([note], Farewell(s2, me));
      TellsSend(s2, b, [note] + Farewell(s2, me), k);
      assert [note] + [] == [note];
      TellsTrans(st, s2, Revoke(p, st, me, to, own, theirs, note), k, [], if k == b then [note] else []);
    }
  }

  /** Every subscription stanza of a live user reaches the target's session exactly once, as sent, and no other session
      is told anything about subscriptions; in C a cut does not reach a target that has not loaded its contact list. */
  lemma NotesDelivered(p: Program, st: State, op: Op, k: string)
    requires Inv(st) && HomeOp(st, op) && IsSubscription(op) && op.me in st.online
    ensures Tells(st, Step(p, st, op), k, if Reaches(p, st, op, k) then [NoteOf(op)] else [])
  {
    hide Inv, Tells, AskFor, Approve, Revoke;
    match op
    case Subscribe(me, to) => AskTells(st, me, to, k);
    case Subscribed(me, to) => ApproveTells(p, st, me, to, k);
    case Unsubscribe(me, to) => RevokeTells(p, st, me, to, LoseTo, LoseFrom, UnsubscribeNote(me, Bare(to)), k);
    case Unsubscribed(me, to) => RevokeTells(p, st, me, to, LoseFrom, LoseTo, UnsubscribedNote(me, Bare(to)), k);
    case _ =>
  }

  // ---- All operations ----

  lemma TellsNothing(s: State, t: State, k: string)
    requires k in s.online ==> k in t.online && t.online[k].sent == s.online[k].sent
    ensures Tells(s, t, k, [])
  {
  }

  lemma {:induction false} NotesNone(xs: seq<Stanza>)
    requires forall x | x in xs :: !IsNote(x)
    ensures Notes(xs) == []
  {
    hide IsNote;
    if xs != [] {
      assert xs[|xs| - 1] in xs && forall x | x in xs[..|xs| - 1] :: x in xs;
      NotesNone(xs[..|xs| - 1]);
    }
  }

  lemma {:induction false} NotesAll(xs: seq<Stanza>)
    requires forall x | x in xs :: IsNote(x)
    ensures Notes(xs) == xs
  {
    hide IsNote;
    if xs != [] {
      var n := |xs| - 1;
      assert xs[n] in xs && forall x | x in xs[..n] :: x in xs;
      NotesAll(xs[..n]);
      assert xs == xs[..n] + [xs[n]];
    }
  }

  lemma TellsFan(st: State, items: seq<Item>, x: Stanza, except: string, k: string)
    requires !IsNote(x)
    ensures Tells(st, Fan(st, items, x, except), k, [])
  {
    if k in st.online {
      var copies := if k == except then [] else Copies(x, FromCount(items, k));
      NotesNone(copies);
      NotesConcat(st.online[k].sent, copies);
      assert k == except ==> st.online[k].sent + [] == st.online[k].sent;
    }
  }

  lemma {:induction false} FetchedSilent(st: State, items: seq<Item>)
    requires PresencesOk(st)
    ensures forall x | x in Fetched(st, items) :: !IsNote(x)
  {
    if items != [] {
      FetchedSilent(st, items[..|items| - 1]);
    }
  }

  lemma {:induction false} WaitingNotes(st: State, me: string, order: seq<string>)
    ensures forall x | x in Waiting(st, me, order) :: IsNote(x)
  {
    if order != [] {
      WaitingNotes(st, me, order[..|order| - 1]);
    }
  }

  /** Who waits for an answer depends on the loaded lists only. */
  lemma {:induction false} WaitingSame(s: State, t: State, me: string, order: seq<string>)
    requires t.online.Keys == s.online.Keys
    requires forall k | k in s.online && k != me ::
               t.online[k].loaded == s.online[k].loaded && t.online[k].roster == s.online[k].roster
    ensures Waiting(t, me, order) == Waiting(s, me, order)
  {
    if order != [] {
      WaitingSame(s, t, me, order[..|order| - 1]);
    }
  }

  lemma FanKeeps(st: State, items: seq<Item>, x: Stanza, except: string)
    ensures var t := Fan(st, items, x, except);
            && t.online.Keys == st.online.Keys && t.order == st.order
            && forall k | k in st.online :: t.online[k].(sent := []) == st.online[k].(sent := [])
  {
    hide FromCount, Copies;
    var t := Fan(st, items, x, except);
    assert t.online.Keys == st.online.Keys && t.order == st.order;
    forall k | k in st.online ensures t.online[k].(sent := []) == st.online[k].(sent := []) {
      FanKeepsOne(st, items, x, except, k);
    }
    hide Fan;
  }

  lemma FanKeepsOne(st: State, items: seq<Item>, x: Stanza, except: string, k: string)
    requires k in st.online
    ensures k in Fan(st, items, x, except).online
    ensures Fan(st, items, x, except).online[k].(sent := []) == st.online[k].(sent := [])
  {
    hide FromCount, Copies;
  }

  lemma AnnouncedKeeps(st: State, me: string, body: string)
    requires me in st.online
    ensures var t := Announced(st, me, body);
            && t.online.Keys == st.online.Keys && t.order == st.order
            && forall k | k in st.online ::
                 (k != me ==> t.online[k] == st.online[k]) && t.online[k].sent == st.online[k].sent
  {
  }

  /** A broadcast and what it fetches contain no subscription stanza. */
  lemma AvailableTellsNothing(st: State, me: string, body: string, k: string)
    requires Inv(st) && me in st.online
    ensures var s1 := Announced(st, me, body);
            var items := s1.online[me].roster;
            var s2 := Fan(s1, items, Available(FullJid(st, me), body), NOBODY);
            Tells(st, SendAll(s2, me, Fetched(s2, items)), k, [])
  {
    hide Inv, Announced, Fan, Fetched, SendAll, Tells, Notes, PresencesOk;
    AnnouncedInv(st, me, body);
    AnnouncedKeeps(st, me, body);
    var s1 := Announced(st, me, body);
    var items := s1.online[me].roster;
    var pres := Available(FullJid(st, me), body);
    TellsNothing(st, s1, k);
    TellsFan(s1, items, pres, NOBODY, k);
    FanInv(s1, items, pres, NOBODY);
    var s2 := Fan(s1, items, pres, NOBODY);
    TellsTrans(st, s1, s2, k, [], []);
    PresencesAvailable(s2);
    FetchedSilent(s2, items);
    NotesNone(Fetched(s2, items));
    TellsSend(s2, me, Fetched(s2, items), k);
    TellsTrans(st, s2, SendAll(s2, me, Fetched(s2, items)), k, [], []);
  }

  /** What the first presence of a session adds: the requests that wait for its answer. */
  lemma AvailableTells(st: State, me: string, body: string, k: string)
    requires Inv(st) && me in st.online
    ensures Tells(st, BecomeAvailable(st, me, body), k,
                  if k == me && !st.online[me].available then Waiting(st, me, st.order) else [])
  {
    hide Inv, Announced, Fan, Fetched, SendAll, Tells, Notes, Pending, Waiting;
    AvailableTellsNothing(st, me, body, k);
    var s1 := Announced(st, me, body);
    AnnouncedKeeps(st, me, body);
    var items := s1.online[me].roster;
    var pres := Available(FullJid(st, me), body);
    var s2 := Fan(s1, items, pres, NOBODY);
    FanKeeps(s1, items, pres, NOBODY);
    var s3 := SendAll(s2, me, Fetched(s2, items));
    SendKeeps(s2, me, Fetched(s2, items));
    if !st.online[me].available {
      PendingTells(st, s3, me, k);
    }
  }

  lemma PendingTells(st: State, s3: State, me: string, k: string)
    requires Inv(st) && me in st.online && s3.online.Keys == st.online.Keys && s3.order == st.order
    requires forall j | j in st.online && j != me ::
               s3.online[j].loaded == st.online[j].loaded && s3.online[j].roster == st.online[j].roster
    requires Tells(st, s3, k, [])
    ensures var s4 := Put(s3, me, s3.online[me].(initialSent := true));
            Tells(st, SendAll(s4, me, Pending(s4, me, s4.order)), k, if k == me then Waiting(st, me, st.order) else [])
  {
    hide Inv, SendAll, Tells, Notes, Pending, Waiting;
    var s4 := Put(s3, me, s3.online[me].(initialSent := true));
    TellsNothing(s3, s4, k);
    TellsTrans(st, s3, s4, k, [], []);
    FirstPending(st, s4, me);
    WaitingNotes(st, me, st.order);
    NotesAll(Waiting(st, me, st.order));
    TellsSend(s4, me, Waiting(st, me, st.order), k);
    TellsTrans(st, s4, SendAll(s4, me, Waiting(st, me, st.order)), k, [], if k == me then Waiting(st, me, st.order) else []);
  }

  lemma SendKeeps(st: State, j: string, xs: seq<Stanza>)
    ensures var t := SendAll(st, j, xs);
            && t.online.Keys == st.online.Keys && t.order == st.order
            && forall k | k in st.online :: t.online[k].(sent := []) == st.online[k].(sent := [])
  {
  }

  /** On the state at which pending requests are looked up, the same ones wait as before the step. */
  lemma FirstPending(st: State, s4: State, me: string)
    requires Inv(st) && me in st.online && s4.online.Keys == st.online.Keys && s4.order == st.order
    requires forall k | k in st.online && k != me ::
               s4.online[k].loaded == st.online[k].loaded && s4.online[k].roster == st.online[k].roster
    ensures Pending(s4, me, s4.order) == Waiting(st, me, st.order)
  {
    hide Inv, Waiting, Pending;
    KeyFacts(st, me);
    PendingIs(st, me, st.order);
    PendingSame(st, s4, me, st.order);
  }

  lemma {:induction false} PendingSame(s: State, t: State, me: string, order: seq<string>)
    requires t.online.Keys == s.online.Keys
    requires forall k | k in s.online && k != me ::
               t.online[k].loaded == s.online[k].loaded && t.online[k].roster == s.online[k].roster
    ensures Pending(t, me, order) == Pending(s, me, order)
  {
    if order != [] {
      PendingSame(s, t, me, order[..|order| - 1]);
    }
  }

  lemma UnavailableTells(st: State, me: string, k: string)
    requires me in st.online
    ensures BroadcastUnavailable(st, me).online.Keys == st.online.Keys
    ensures Tells(st, BroadcastUnavailable(st, me), k, [])
  {
    hide Fan, Notes, Tells;
    if st.online[me].available || st.online[me].initialSent {
      var s1, note := Load(st, me), Unavailable(FullJid(st, me));
      TellsLoad(st, me, k);
      var s2 := Fan(s1, s1.online[me].roster, note, me);
      FanKeeps(s1, s1.online[me].roster, note, me);
      TellsFan(s1, s1.online[me].roster, note, me, k);
      TellsTrans(st, s1, s2, k, [], []);
      TellsNothing(s2, BroadcastUnavailable(st, me), k);
      TellsTrans(st, s2, BroadcastUnavailable(st, me), k, [], []);
    } else {
      TellsNothing(st, st, k);
    }
  }

  lemma LeaveTells(st: State, me: string, k: string)
    requires me in st.online && k != me
    ensures Tells(st, Leave(st, me), k, [])
  {
    hide BroadcastUnavailable, Dropped, Tells;
    UnavailableTells(st, me, k);
    TellsNothing(BroadcastUnavailable(st, me), Leave(st, me), k);
    TellsTrans(st, BroadcastUnavailable(st, me), Leave(st, me), k, [], []);
  }

  lemma RosterTells(p: Program, st: State, op: Op, k: string)
    requires (op.RosterGet? || op.RosterSet? || op.RosterRemove?) && op.me in st.online
    ensures Tells(st, Step(p, st, op), k, [])
  {
    hide Load, Notes, Tells, SendAll, Renamed, Removed, PushItem;
    var me, s1 := op.me, Load(st, op.me);
    TellsLoad(st, me, k);
    NotesOne(Result);
    NotesOne(ErrorReply);
    TellsSend(s1, me, [Result], k);
    TellsSend(s1, me, [ErrorReply], k);
    TellsTrans(st, s1, SendAll(s1, me, [Result]), k, [], []);
    TellsTrans(st, s1, SendAll(s1, me, [ErrorReply]), k, [], []);
    if op.RosterSet? && !(op.jid == "" && p.Go?) {
      SetTells(s1, me, Renamed(s1.online[me].roster, op.jid, NameFor(p, op.name)), op.jid, k);
      TellsTrans(st, s1, Step(p, st, op), k, [], []);
    }
    if op.RosterRemove? && !(op.jid == "" && p.Go?) {
      RemoveTells(s1, me, Removed(s1.online[me].roster, op.jid), op.jid, k);
      TellsTrans(st, s1, Step(p, st, op), k, [], []);
    }
  }

  lemma SetTells(st: State, me: string, items: seq<Item>, jid: string, k: string)
    requires me in st.online
    ensures me in SendTo(SaveRoster(st, me, items), me, Result).online
    ensures Tells(st, PushItem(SendTo(SaveRoster(st, me, items), me, Result), me, jid), k, [])
  {
    hide Notes, Tells, PushItem;
    var s1 := SaveRoster(st, me, items);
    var s2 := SendTo(s1, me, Result);
    TellsNothing(st, s1, k);
    NotesOne(Result);
    TellsSend(s1, me, [Result], k);
    TellsTrans(st, s1, s2, k, [], []);
    TellsPush(s2, me, jid, k);
    TellsTrans(st, s2, PushItem(s2, me, jid), k, [], []);
  }

  lemma RemoveTells(st: State, me: string, items: seq<Item>, jid: string, k: string)
    requires me in st.online
    ensures Tells(st, SendAll(SaveRoster(st, me, items), me, [Result, PushRemoved(jid)]), k, [])
  {
    hide Tells;
    var s1 := SaveRoster(st, me, items);
    TellsNothing(st, s1, k);
    NotesNone([Result, PushRemoved(jid)]);
    TellsSend(s1, me, [Result, PushRemoved(jid)], k);
    TellsTrans(st, s1, SendAll(s1, me, [Result, PushRemoved(jid)]), k, [], []);
  }

  lemma ComeAndGoTells(p: Program, st: State, op: Op, k: string)
    requires Accepted(p, st, op) && !EndsSession(st, op, k)
    requires op.CreateAccount? || op.RemoveAccount? || op.Bind? || op.Disconnect?
    ensures Tells(st, Step(p, st, op), k, [])
  {
    hide Tells, Leave;
    match op
    case CreateAccount(_) => TellsNothing(st, Step(p, st, op), k);
    case RemoveAccount(me) =>
      var s1 := st.(disk := st.disk - {st.online[me].local});
      TellsNothing(st, s1, k);
      LeaveTells(s1, me, k);
      TellsTrans(st, s1, Step(p, st, op), k, [], []);
    case Disconnect(me) => LeaveTells(st, me, k);
    case Bind(user, resource) =>
      var me := Join(user, st.domain);
      var s1 := if me in st.online && user in st.disk then Leave(st, me) else st;
      if me in st.online {
        LeaveTells(st, me, k);
      }
      TellsNothing(st, st, k);
      TellsNothing(s1, Step(p, st, op), k);
      TellsTrans(st, s1, Step(p, st, op), k, [], []);
  }

  /** What a step says about subscriptions to the session of `k`. */
  function NotesFor(p: Program, st: State, op: Op, k: string): seq<Stanza> {
    if Sender(op).Some? && Sender(op).value !in st.online then []
    else if IsSubscription(op) then (if Reaches(p, st, op, k) then [NoteOf(op)] else [])
    else if op.GoAvailable? && k == op.me && !st.online[k].available then Waiting(st, k, st.order)
    else []
  }

  /** Whatever a client does: a subscription stanza reaches its target, the first presence of a session brings it exactly
      the requests that wait for its answer, and nothing else tells any session anything about subscriptions. */
  lemma NotesStep(p: Program, st: State, op: Op, k: string)
    requires Inv(st) && HomeOp(st, op) && !EndsSession(st, op, k)
    ensures Tells(st, Step(p, st, op), k, NotesFor(p, st, op, k))
  {
    hide Inv, Tells, BecomeAvailable, BroadcastUnavailable, Waiting, Reaches;
    if Sender(op).Some? && Sender(op).value !in st.online {
      TellsNothing(st, st, k);
    } else if IsSubscription(op) {
      NotesDelivered(p, st, op, k);
    } else if op.GoAvailable? {
      AvailableTells(st, op.me, op.body, k);
    } else if op.GoUnavailable? {
      UnavailableTells(st, op.me, k);
    } else if op.RosterGet? || op.RosterSet? || op.RosterRemove? {
      RosterTells(p, st, op, k);
    } else {
      ComeAndGoTells(p, st, op, k);
    }
  }
}
