/** Which sessions have their contact list in hand: what the C program looks at before it tells a target of a cut. */
module ProtocolLists {
  import opened Options
  import opened Jid
  import opened Contacts
  import opened Protocol
  import opened ProtocolInvariant
  import opened ProtocolNotes

  predicate HasList(st: State, j: string) {
    j in st.online && st.online[j].loaded
  }

  /** A login: the session starts without its list. */
  predicate LogsIn(st: State, op: Op, j: string) {
    op.Bind? && op.user in st.disk && op.user + "@" + st.domain == j
  }

  /** The operations that make the sender's list be read. */
  predicate ReadsOwn(op: Op) {
    op.GoAvailable? || IsSubscription(op) || op.RosterGet? || op.RosterSet? || op.RosterRemove?
  }

  /** Go reads the target's list to make its half of a change; C makes it on the file if the list is not in hand. */
  predicate ReadsTarget(p: Program, op: Op, j: string) {
    p.Go? && (op.Subscribed? || op.Unsubscribe? || op.Unsubscribed?) && j == Bare(op.to)
  }

  lemma ListAfterLoad(st: State, me: string, j: string)
    requires me in st.online
    ensures me in Load(st, me).online && Load(st, me).online.Keys == st.online.Keys
    ensures HasList(Load(st, me), j) <==> HasList(st, j) || j == me
  {
  }

  lemma ListAfterSend(st: State, k: string, xs: seq<Stanza>, j: string)
    ensures SendAll(st, k, xs).online.Keys == st.online.Keys
    ensures HasList(SendAll(st, k, xs), j) <==> HasList(st, j)
  {
  }

  lemma ListAfterPush(st: State, k: string, jid: string, j: string)
    requires k in st.online
    ensures PushItem(st, k, jid).online.Keys == st.online.Keys
    ensures HasList(PushItem(st, k, jid), j) <==> HasList(st, j)
  {
    hide Get, HasList;
    match Get(st.online[k].roster, jid)
    case Some(it) => ListAfterSend(st, k, [Push(it)], j);
    case Nothing =>
  }

  lemma ListAfterChange(st: State, k: string, items: seq<Item>, jid: string, j: string)
    requires k in st.online
    ensures var s1 := SaveRoster(st, k, items);
            && k in s1.online && s1.online.Keys == st.online.Keys && PushItem(s1, k, jid).online.Keys == st.online.Keys
            && (HasList(s1, j) <==> HasList(st, j)) && (HasList(PushItem(s1, k, jid), j) <==> HasList(st, j))
  {
    hide PushItem;
    ListAfterPush(SaveRoster(st, k, items), k, jid, j);
  }

  lemma ListAfterOwn(st: State, me: string, b: string, e: Edit, j: string)
    requires me in st.online
    ensures ApproveOwn(st, me, b).online.Keys == st.online.Keys && EditOwn(st, me, b, e).online.Keys == st.online.Keys
    ensures HasList(ApproveOwn(st, me, b), j) <==> HasList(st, j) || j == me
    ensures HasList(EditOwn(st, me, b, e), j) <==> HasList(st, j) || j == me
  {
    hide Load, SaveRoster, PushItem, Edited, Approved, Get, HasList;
    var s1 := Load(st, me);
    ListAfterLoad(st, me, j);
    ListAfterChange(s1, me, Approved(s1.online[me].roster, b), b, j);
    ListAfterChange(s1, me, Edited(s1.online[me].roster, b, e), b, j);
  }

  lemma ListAfterTarget(p: Program, st: State, b: string, from: string, e: Edit, j: string)
    ensures EditTarget(p, st, b, from, e).online.Keys == st.online.Keys
    ensures HasList(EditTarget(p, st, b, from, e), j) <==> HasList(st, j) || (p.Go? && j == b && j in st.online)
  {
    hide Load, SaveRoster, PushItem, Edited, Get;
    if SeesRoster(p, st, b) {
      var s1 := Load(st, b);
      ListAfterLoad(st, b, j);
      ListAfterChange(s1, b, Edited(s1.online[b].roster, from, e), from, j);
    }
  }

  lemma ListAfterSubscription(p: Program, st: State, op: Op, j: string)
    requires IsSubscription(op) && op.me in st.online
    ensures HasList(Step(p, st, op), j) <==> HasList(st, j) || j == op.me || (ReadsTarget(p, op, j) && j in st.online)
  {
    hide Load, SaveRoster, PushItem, SendAll, ApproveOwn, EditOwn, EditTarget, Asked, HasList;
    var me, b := op.me, Bare(op.to);
    match op
    case Subscribe(_, _) =>
      var s1 := Load(st, me);
      ListAfterLoad(st, me, j);
      ListAfterChange(s1, me, Asked(s1.online[me].roster, b), b, j);
      ListAfterSend(PushItem(SaveRoster(s1, me, Asked(s1.online[me].roster, b)), me, b), b, [SubscribeNote(me, b)], j);
    case Subscribed(_, _) =>
      ListAfterOwn(st, me, b, GainFrom, j);
      ListAfterTarget(p, ApproveOwn(st, me, b), b, me, GainTo, j);
      var s2 := EditTarget(p, ApproveOwn(st, me, b), b, me, GainTo);
      ListAfterSend(s2, b, Current(s2.online[me]) + [SubscribedNote(me, b)], j);
    case Unsubscribe(_, _) => ListAfterCut(p, st, me, b, LoseTo, LoseFrom, UnsubscribeNote(me, b), j);
    case Unsubscribed(_, _) => ListAfterCut(p, st, me, b, LoseFrom, LoseTo, UnsubscribedNote(me, b), j);
    case _ =>
  }

  lemma ListAfterCut(p: Program, st: State, me: string, b: string, own: Edit, theirs: Edit, note: Stanza, j: string)
    requires me in st.online
    ensures var s1 := EditOwn(st, me, b, own);
            var s2 := EditTarget(p, s1, b, me, theirs);
            && me in s2.online
            && (HasList(s2, j) <==> HasList(st, j) || j == me || (p.Go? && j == b && j in st.online))
            && (HasList(SendAll(s2, b, [note] + Farewell(s2, me)), j) <==> HasList(s2, j))
  {
    hide EditOwn, EditTarget, SendAll, HasList, Farewell;
    ListAfterOwn(st, me, b, own, j);
    var s1 := EditOwn(st, me, b, own);
    ListAfterTarget(p, s1, b, me, theirs, j);
    var s2 := EditTarget(p, s1, b, me, theirs);
    ListAfterSend(s2, b, [note] + Farewell(s2, me), j);
  }

  lemma ListAfterRosterIq(p: Program, st: State, op: Op, j: string)
    requires (op.RosterGet? || op.RosterSet? || op.RosterRemove?) && op.me in st.online
    ensures HasList(Step(p, st, op), j) <==> HasList(st, j) || j == op.me
  {
    hide Load, SaveRoster, PushItem, SendAll, Renamed, Removed, HasList;
    var me, s1 := op.me, Load(st, op.me);
    ListAfterLoad(st, me, j);
    ListAfterSend(s1, me, [Result], j);
    ListAfterSend(s1, me, [ErrorReply], j);
    if op.RosterSet? {
      var s2 := SaveRoster(s1, me, Renamed(s1.online[me].roster, op.jid, NameFor(p, op.name)));
      ListAfterChange(s1, me, Renamed(s1.online[me].roster, op.jid, NameFor(p, op.name)), op.jid, j);
      ListAfterSend(s2, me, [Result], j);
      ListAfterPush(SendAll(s2, me, [Result]), me, op.jid, j);
    }
    if op.RosterRemove? {
      var s2 := SaveRoster(s1, me, Removed(s1.online[me].roster, op.jid));
      ListAfterChange(s1, me, Removed(s1.online[me].roster, op.jid), op.jid, j);
      ListAfterSend(s2, me, [Result, PushRemoved(op.jid)], j);
    }
  }

  lemma ListAfterFan(st: State, items: seq<Item>, x: Stanza, except: string, j: string)
    ensures Fan(st, items, x, except).online.Keys == st.online.Keys
    ensures HasList(Fan(st, items, x, except), j) <==> HasList(st, j)
  {
    hide Fan;
    FanKeeps(st, items, x, except);
    if j in st.online {
      assert Fan(st, items, x, except).online[j].(sent := []).loaded == st.online[j].(sent := []).loaded;
    }
  }

  lemma ListAfterAvailable(st: State, me: string, body: string, j: string)
    requires me in st.online
    ensures HasList(BecomeAvailable(st, me, body), j) <==> HasList(st, j) || j == me
  {
    hide Fan, SendAll, Fetched, Pending, HasList;
    var pres, s1 := Available(FullJid(st, me), body), Announced(st, me, body);
    ListAfterAnnounce(st, me, body, j);
    var s2 := Fan(s1, s1.online[me].roster, pres, NOBODY);
    ListAfterFan(s1, s1.online[me].roster, pres, NOBODY, j);
    var s3 := SendAll(s2, me, Fetched(s2, s1.online[me].roster));
    ListAfterSend(s2, me, Fetched(s2, s1.online[me].roster), j);
    var s4 := Put(s3, me, s3.online[me].(initialSent := true));
    ListAfterMark(s3, me, j);
    ListAfterSend(s4, me, Pending(s4, me, s4.order), j);
  }

  lemma ListAfterAnnounce(st: State, me: string, body: string, j: string)
    requires me in st.online
    ensures Announced(st, me, body).online.Keys == st.online.Keys
    ensures HasList(Announced(st, me, body), j) <==> HasList(st, j) || j == me
  {
  }

  lemma ListAfterMark(st: State, me: string, j: string)
    requires me in st.online
    ensures Put(st, me, st.online[me].(initialSent := true)).online.Keys == st.online.Keys
    ensures HasList(Put(st, me, st.online[me].(initialSent := true)), j) <==> HasList(st, j)
  {
  }

  lemma ListAfterUnavailable(st: State, me: string, j: string)
    requires Inv(st) && me in st.online
    ensures BroadcastUnavailable(st, me).online.Keys == st.online.Keys
    ensures HasList(BroadcastUnavailable(st, me), j) <==> HasList(st, j)
  {
    hide Inv, Fan, HasList;
    KeyFacts(st, me);
    if st.online[me].available || st.online[me].initialSent {
      var x := Unavailable(FullJid(st, me));
      assert Load(st, me) == st;
      ListAfterFan(st, st.online[me].roster, x, me, j);
      ListAfterSilence(Fan(st, st.online[me].roster, x, me), me, j);
    }
  }

  lemma ListAfterSilence(st: State, me: string, j: string)
    requires me in st.online
    ensures Put(st, me, st.online[me].(available := false)).online.Keys == st.online.Keys
    ensures HasList(Put(st, me, st.online[me].(available := false)), j) <==> HasList(st, j)
  {
  }

  lemma ListAfterLeave(st: State, me: string, j: string)
    requires Inv(st) && me in st.online
    ensures Leave(st, me).online.Keys == st.online.Keys - {me}
    ensures HasList(Leave(st, me), j) <==> HasList(st, j) && j != me
  {
    hide Inv, BroadcastUnavailable, Dropped;
    ListAfterUnavailable(st, me, j);
  }

  lemma ListAfterBind(p: Program, st: State, user: string, resource: string, j: string)
    requires Inv(st)
    ensures HasList(Step(p, st, Bind(user, resource)), j) <==> HasList(st, j) && !LogsIn(st, Bind(user, resource), j)
  {
    hide Inv, Leave;
    var me := Join(user, st.domain);
    if user in st.disk && me in st.online {
      ListAfterLeave(st, me, j);
    }
  }

  /** Whoever asks for something that needs his list has it from then on, in Go also the target of a change; a login starts
      without it, and nothing else matters. */
  lemma ListStep(p: Program, st: State, op: Op, j: string)
    requires Inv(st) && (Sender(op).Some? ==> Sender(op).value in st.online)
    ensures HasList(Step(p, st, op), j) <==>
            if LogsIn(st, op, j) || ((op.Disconnect? || op.RemoveAccount?) && op.me == j) then false
            else HasList(st, j) || (ReadsOwn(op) && op.me == j) || (ReadsTarget(p, op, j) && j in st.online)
  {
    hide Inv, HasList, BecomeAvailable, BroadcastUnavailable, AskFor, Approve, Revoke, SetContact, RemoveContact, Leave;
    match op
    case GoAvailable(me, body) => ListAfterAvailable(st, me, body, j);
    case GoUnavailable(me) => ListAfterUnavailable(st, me, j);
    case Disconnect(me) => ListAfterLeave(st, me, j);
    case RemoveAccount(me) =>
      LeaveIgnoresDisk(st, me, st.disk - {st.online[me].local});
      ListAfterLeave(st, me, j);
      SameLists(Leave(st, me), Step(p, st, op), j);
    case Bind(user, resource) => ListAfterBind(p, st, user, resource, j);
    case CreateAccount(_) => SameLists(st, Step(p, st, op), j);
    case RosterGet(_) => ListAfterRosterIq(p, st, op, j);
    case RosterSet(_, _, _) => ListAfterRosterIq(p, st, op, j);
    case RosterRemove(_, _) => ListAfterRosterIq(p, st, op, j);
    case _ => ListAfterSubscription(p, st, op, j);
  }

  lemma SameLists(s: State, t: State, j: string)
    requires s.online == t.online
    ensures HasList(s, j) <==> HasList(t, j)
  {
  }
}
