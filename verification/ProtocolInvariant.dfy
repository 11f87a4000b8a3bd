/** What every step of the protocol keeps: cached contact lists equal the files, and sessions are well formed. */
module ProtocolInvariant {
  import opened Options
  import opened Jid
  import opened Contacts
  import opened Protocol

  /** Addresses are unique, and only a bare address can carry a subscription. */
  ghost predicate RosterOk(items: seq<Item>) {
    && UniqueKeys(items)
    && forall i | 0 <= i < |items| :: ItemOk(items[i])
  }

  predicate ItemOk(it: Item) {
    Bare(it.jid) != it.jid ==> it.subscription.None? && !it.ask
  }

  ghost predicate ClientOk(st: State, j: string, c: Client) {
    && c.local in st.disk
    && j == Join(c.local, st.domain)
    && (c.loaded ==> c.roster == st.disk[c.local])
    && (c.available ==> c.presence.Some?)
    && (c.available || c.initialSent ==> c.loaded)
    && (c.presence.Some? ==> c.presence.value.Available? && Bare(c.presence.value.from) == j)
  }

  ghost predicate OrderOk(order: seq<string>, keys: set<string>) {
    && (forall i, k | 0 <= i < k < |order| :: order[i] != order[k])
    && (forall j | j in order :: j in keys)
    && (forall j | j in keys :: j in order)
  }

  ghost predicate Inv(st: State) {
    && ValidDomain(st.domain)
    && (forall u | u in st.disk :: ValidName(u) && RosterOk(st.disk[u]))
    && (forall j | j in st.online :: ClientOk(st, j, st.online[j]))
    && OrderOk(st.order, st.online.Keys)
  }

  /** What a session remembers as its presence is an available one. */
  ghost predicate PresencesOk(st: State) {
    forall j | j in st.online && st.online[j].presence.Some? :: st.online[j].presence.value.Available?
  }

  lemma PresencesAvailable(st: State)
    requires Inv(st)
    ensures PresencesOk(st)
  {
    forall j | j in st.online && st.online[j].presence.Some? ensures st.online[j].presence.value.Available? {
      assert ClientOk(st, j, st.online[j]);
    }
  }

  // ---- Contact lists stay well formed ----

  lemma EditOk(items: seq<Item>, jid: string, e: Edit)
    requires RosterOk(items) && Bare(jid) == jid
    ensures RosterOk(Edited(items, jid, e))
  {
    GetAfterEdit(items, jid, e, jid);
  }

  lemma EditAbsent(items: seq<Item>, jid: string, e: Edit)
    requires Get(items, jid).Nothing?
    ensures Edited(items, jid, e) == items
  {
  }

  lemma AskOk(items: seq<Item>, jid: string)
    requires RosterOk(items) && Bare(jid) == jid
    ensures RosterOk(Asked(items, jid))
  {
    GetAfterAsk(items, jid, jid);
  }

  lemma ApproveOk(items: seq<Item>, jid: string)
    requires RosterOk(items) && Bare(jid) == jid
    ensures RosterOk(Approved(items, jid))
  {
    GetAfterApproval(items, jid, jid);
  }

  lemma RenameOk(items: seq<Item>, jid: string, name: Option<string>)
    requires RosterOk(items)
    ensures RosterOk(Renamed(items, jid, name))
  {
    RenameKeepsSubscriptions(items, jid, name, jid);
  }

  lemma RemoveOk(items: seq<Item>, jid: string)
    requires RosterOk(items)
    ensures RosterOk(Removed(items, jid))
  {
    GetAfterRemove(items, jid, jid);
  }

  // ---- Parts of a step keep the invariant ----

  lemma FileOk(st: State, u: string)
    requires Inv(st)
    ensures RosterOk(OnDisk(st.disk, u))
  {
  }

  /** `t` differs from `s` only in what sessions cache and in what was sent. */
  ghost predicate Quiet(s: State, t: State) {
    && t.domain == s.domain && t.order == s.order
    && t.online.Keys == s.online.Keys
    && forall j | j in s.online :: SameClient(s.online[j], t.online[j])
  }

  predicate SameClient(c: Client, d: Client) {
    && d.local == c.local && d.resource == c.resource
    && d.available == c.available && d.initialSent == c.initialSent && d.presence == c.presence
    && (c.loaded ==> d.loaded)
  }

  lemma QuietTrans(s: State, t: State, u: State)
    requires Quiet(s, t) && Quiet(t, u)
    ensures Quiet(s, u)
  {
    forall j | j in s.online ensures SameClient(s.online[j], u.online[j]) {
      assert SameClient(s.online[j], t.online[j]) && SameClient(t.online[j], u.online[j]);
    }
  }

  lemma QuietOnline(s: State, t: State)
    requires Quiet(s, t)
    ensures t.domain == s.domain && t.online.Keys == s.online.Keys
    ensures forall j | j in s.online :: SameClient(s.online[j], t.online[j])
  {
  }

  /** Nothing but outgoing stanzas differs. */
  ghost predicate SendsOnly(s: State, t: State) {
    && t.disk == s.disk && Quiet(s, t)
    && forall j | j in s.online :: t.online[j].loaded == s.online[j].loaded && t.online[j].roster == s.online[j].roster
  }

  lemma SendsOnlyInv(s: State, t: State)
    requires Inv(s) && SendsOnly(s, t)
    ensures Inv(t)
  {
    forall j | j in t.online ensures ClientOk(t, j, t.online[j]) {
      assert ClientOk(s, j, s.online[j]);
      assert SameClient(s.online[j], t.online[j]);
    }
  }

  lemma LoadInv(st: State, j: string)
    requires Inv(st) && j in st.online
    ensures Inv(Load(st, j)) && Quiet(st, Load(st, j))
    ensures Load(st, j).disk == st.disk
    ensures Load(st, j).online[j].loaded && Load(st, j).online[j].roster == st.disk[st.online[j].local]
    ensures forall k | k in st.online :: Load(st, j).online[k].sent == st.online[k].sent
  {
    var t := Load(st, j);
    assert ClientOk(st, j, st.online[j]);
    forall k | k in t.online ensures ClientOk(t, k, t.online[k]) {
      assert ClientOk(st, k, st.online[k]);
    }
    assert t.online.Keys == st.online.Keys;
  }

  lemma SaveInv(st: State, j: string, items: seq<Item>)
    requires Inv(st) && j in st.online && st.online[j].loaded && RosterOk(items)
    ensures Inv(SaveRoster(st, j, items)) && Quiet(st, SaveRoster(st, j, items))
    ensures SaveRoster(st, j, items).disk == st.disk[st.online[j].local := items]
    ensures forall k | k in st.online :: SaveRoster(st, j, items).online[k].sent == st.online[k].sent
  {
    hide RosterOk, OrderOk;
    var t := SaveRoster(st, j, items);
    assert ClientOk(st, j, st.online[j]);
    forall k | k in t.online ensures ClientOk(t, k, t.online[k]) {
      assert ClientOk(st, k, st.online[k]);
      SameUser(st, j, k);
    }
    assert t.online.Keys == st.online.Keys;
  }

  lemma SameUser(st: State, j: string, k: string)
    requires Inv(st) && j in st.online && k in st.online
    ensures st.online[j].local == st.online[k].local <==> j == k
  {
    assert ClientOk(st, j, st.online[j]) && ClientOk(st, k, st.online[k]);
  }

  lemma SendAllInv(st: State, j: string, xs: seq<Stanza>)
    requires Inv(st)
    ensures SendsOnly(st, SendAll(st, j, xs)) && Quiet(st, SendAll(st, j, xs)) && Inv(SendAll(st, j, xs))
    ensures SendAll(st, j, xs).disk == st.disk
  {
    assert SendAll(st, j, xs).online.Keys == st.online.Keys;
    SendsOnlyInv(st, SendAll(st, j, xs));
  }

  lemma FanInv(st: State, items: seq<Item>, x: Stanza, except: string)
    requires Inv(st)
    ensures SendsOnly(st, Fan(st, items, x, except)) && Inv(Fan(st, items, x, except))
  {
    hide Inv;
    FanSendsOnly(st, items, x, except);
    SendsOnlyInv(st, Fan(st, items, x, except));
  }

  lemma FanSendsOnly(st: State, items: seq<Item>, x: Stanza, except: string)
    ensures SendsOnly(st, Fan(st, items, x, except))
  {
    hide FromCount, Copies;
    var t := Fan(st, items, x, except);
    forall j | j in st.online ensures SameClient(st.online[j], t.online[j])
      && t.online[j].loaded == st.online[j].loaded && t.online[j].roster == st.online[j].roster
    {
      FanClient(st, items, x, except, j);
    }
    FanKeys(st, items, x, except);
    hide Fan;
  }

  lemma FanClient(st: State, items: seq<Item>, x: Stanza, except: string, j: string)
    requires j in st.online
    ensures var t := Fan(st, items, x, except);
            && j in t.online && SameClient(st.online[j], t.online[j])
            && t.online[j].loaded == st.online[j].loaded && t.online[j].roster == st.online[j].roster
  {
  }

  lemma FanKeys(st: State, items: seq<Item>, x: Stanza, except: string)
    ensures var t := Fan(st, items, x, except);
            t.online.Keys == st.online.Keys && t.domain == st.domain && t.order == st.order && t.disk == st.disk
  {
  }

  lemma PushInv(st: State, j: string, jid: string)
    requires Inv(st) && j in st.online
    ensures SendsOnly(st, PushItem(st, j, jid)) && Quiet(st, PushItem(st, j, jid)) && Inv(PushItem(st, j, jid))
    ensures PushItem(st, j, jid).disk == st.disk
  {
    match Get(st.online[j].roster, jid)
    case Some(it) => SendAllInv(st, j, [Push(it)]);
    case Nothing =>
  }

  /** The keys of live sessions are bare addresses of accounts. */
  lemma KeyFacts(st: State, j: string)
    requires Inv(st) && j in st.online
    ensures ValidName(st.online[j].local) && LocalPart(j) == st.online[j].local && Bare(j) == j
    ensures forall r :: Bare(Full(st.online[j].local, st.domain, r)) == j
    ensures j == Join(st.online[j].local, st.domain) && st.online[j].local in st.disk
    ensures j != "" && ClientOk(st, j, st.online[j]) && RosterOk(st.disk[st.online[j].local])
  {
    assert ClientOk(st, j, st.online[j]);
    forall r ensures Bare(Full(st.online[j].local, st.domain, r)) == j {
      CutJoined(st.online[j].local, st.domain, r);
    }
    CutJoined(st.online[j].local, st.domain, "");
  }

  /** The invariant, where only the file of a user without a loaded session has changed. */
  lemma FileEditInv(st: State, u: string, items: seq<Item>)
    requires Inv(st) && RosterOk(items)
    requires var j := Join(u, st.domain); j in st.online ==> !st.online[j].loaded
    ensures Inv(st.(disk := Store(st.disk, u, items)))
  {
    var t := st.(disk := Store(st.disk, u, items));
    forall j | j in t.online ensures ClientOk(t, j, t.online[j]) {
      assert ClientOk(st, j, st.online[j]);
    }
  }

  // ---- Sending availability ----

  lemma BroadcastInv(st: State, me: string)
    requires Inv(st) && me in st.online
    ensures Inv(BroadcastUnavailable(st, me))
    ensures BroadcastUnavailable(st, me).disk == st.disk
    ensures BroadcastUnavailable(st, me).online.Keys == st.online.Keys
    ensures BroadcastUnavailable(st, me).order == st.order
    ensures BroadcastUnavailable(st, me).domain == st.domain
  {
    if st.online[me].available || st.online[me].initialSent {
      assert ClientOk(st, me, st.online[me]);
      var s2 := Fan(st, st.online[me].roster, Unavailable(FullJid(st, me)), me);
      FanInv(st, st.online[me].roster, Unavailable(FullJid(st, me)), me);
      var t := BroadcastUnavailable(st, me);
      forall j | j in t.online ensures ClientOk(t, j, t.online[j]) {
        assert ClientOk(s2, j, s2.online[j]);
      }
      assert t.online.Keys == st.online.Keys;
    }
  }

  lemma DroppedOk(order: seq<string>, keys: set<string>, j: string)
    requires OrderOk(order, keys)
    ensures OrderOk(Dropped(order, j), keys - {j})
  {
    var i := FirstAt(order, j);
    var after := Dropped(order, j);
    if i >= 0 {
      var n := |order| - 1;
      assert forall k | 0 <= k < n :: after[k] == order[if k == i then n else k];
      forall k | k in keys - {j} ensures k in after {
        var at :| 0 <= at < |order| && order[at] == k;
        assert after[if at == n then i else at] == k;
      }
    }
  }

  lemma LeaveInv(st: State, me: string)
    requires Inv(st) && me in st.online
    ensures Inv(Leave(st, me)) && Leave(st, me).disk == st.disk
    ensures Leave(st, me).online.Keys == st.online.Keys - {me}
    ensures Leave(st, me).domain == st.domain
  {
    BroadcastInv(st, me);
    var s1 := BroadcastUnavailable(st, me);
    DroppedOk(s1.order, s1.online.Keys, me);
    var t := Leave(st, me);
    assert t.online.Keys == st.online.Keys - {me};
    forall j | j in t.online ensures ClientOk(t, j, t.online[j]) {
      assert ClientOk(s1, j, s1.online[j]);
    }
  }

  /** Whoever has anything to broadcast has the contact list in hand, so the file may already be gone. */
  lemma LeaveIgnoresDisk(st: State, me: string, disk: map<string, seq<Item>>)
    requires Inv(st) && me in st.online
    ensures Leave(st.(disk := disk), me) == Leave(st, me).(disk := disk)
  {
    assert ClientOk(st, me, st.online[me]);
  }

  lemma RemoveAccountInv(st: State, me: string)
    requires Inv(st) && me in st.online
    ensures Inv(Leave(st.(disk := st.disk - {st.online[me].local}), me))
    ensures Leave(st.(disk := st.disk - {st.online[me].local}), me) ==
            Leave(st, me).(disk := st.disk - {st.online[me].local})
  {
    LeaveIgnoresDisk(st, me, st.disk - {st.online[me].local});
    LeaveInv(st, me);
    var s1 := Leave(st, me);
    var t := s1.(disk := st.disk - {st.online[me].local});
    assert ClientOk(st, me, st.online[me]);
    forall j | j in t.online ensures ClientOk(t, j, t.online[j]) {
      assert ClientOk(s1, j, s1.online[j]);
    }
  }

  lemma JoinInv(st: State, user: string, resource: string)
    requires Inv(st) && user in st.disk && Join(user, st.domain) !in st.online
    ensures Inv(Join1(st, Join(user, st.domain), user, resource))
  {
    var me := Join(user, st.domain);
    var t := Join1(st, me, user, resource);
    forall j | j in t.online ensures ClientOk(t, j, t.online[j]) {
      if j != me {
        assert ClientOk(st, j, st.online[j]);
      }
    }
    assert t.online.Keys == st.online.Keys + {me};
    assert me !in st.order;
    forall j | j in t.online.Keys ensures j in t.order {
      if j == me {
        assert t.order[|st.order|] == me;
      }
    }
  }

  lemma AnnouncedInv(st: State, me: string, body: string)
    requires Inv(st) && me in st.online
    ensures var t := Announced(st, me, body);
            && Inv(t) && t.domain == st.domain && t.disk == st.disk && t.order == st.order
            && t.online.Keys == st.online.Keys
            && t.online[me] == st.online[me].(available := true,
                                              presence := Some(Available(FullJid(st, me), body)),
                                              loaded := true,
                                              roster := st.disk[st.online[me].local])
            && forall j | j in st.online && j != me :: t.online[j] == st.online[j]
  {
    KeyFacts(st, me);
    assert ClientOk(st, me, st.online[me]);
    var t := Announced(st, me, body);
    assert t.online.Keys == st.online.Keys;
    forall j | j in t.online ensures ClientOk(t, j, t.online[j]) {
      assert ClientOk(st, j, st.online[j]);
    }
  }

  /** The first presence of a session is marked as such after the broadcast. */
  lemma MarkInv(st: State, me: string)
    requires Inv(st) && me in st.online && st.online[me].loaded
    ensures var t := Put(st, me, st.online[me].(initialSent := true));
            Inv(t) && t.online.Keys == st.online.Keys && t.disk == st.disk
  {
    var t := Put(st, me, st.online[me].(initialSent := true));
    assert t.online.Keys == st.online.Keys;
    forall j | j in t.online ensures ClientOk(t, j, t.online[j]) {
      assert ClientOk(st, j, st.online[j]);
    }
  }

  lemma AvailableInv(st: State, me: string, body: string)
    requires Inv(st) && me in st.online
    ensures Inv(BecomeAvailable(st, me, body)) && BecomeAvailable(st, me, body).disk == st.disk
    ensures BecomeAvailable(st, me, body).online.Keys == st.online.Keys
    ensures BecomeAvailable(st, me, body).domain == st.domain
  {
    hide Inv, Fan, Fetched, Pending, Announced;
    var pres := Available(FullJid(st, me), body);
    AnnouncedInv(st, me, body);
    var s1 := Announced(st, me, body);
    var items := s1.online[me].roster;
    FanInv(s1, items, pres, NOBODY);
    var s2 := Fan(s1, items, pres, NOBODY);
    SendAllInv(s2, me, Fetched(s2, items));
    var s3 := SendAll(s2, me, Fetched(s2, items));
    MarkInv(s3, me);
    var s4 := Put(s3, me, s3.online[me].(initialSent := true));
    SendAllInv(s4, me, Pending(s4, me, s4.order));
  }

  // ---- Subscriptions ----

  /** The file an operation of `me` changes for `to` belongs to the user that `to` names at this server. */
  predicate Home(st: State, to: string) {
    var b := Bare(to);
    LocalPart(b) in st.disk ==> b == Join(LocalPart(b), st.domain)
  }

  lemma AskInv(st: State, me: string, to: string)
    requires Inv(st) && me in st.online
    ensures Inv(AskFor(st, me, to)) && Quiet(st, AskFor(st, me, to))
    ensures var u := st.online[me].local;
            AskFor(st, me, to).disk == st.disk[u := Asked(st.disk[u], Bare(to))]
  {
    hide Inv, RosterOk;
    var b := Bare(to);
    BareIdempotent(to);
    KeyFacts(st, me);
    LoadInv(st, me);
    var s1 := Load(st, me);
    AskOk(s1.online[me].roster, b);
    SaveInv(s1, me, Asked(s1.online[me].roster, b));
    var s2 := SaveRoster(s1, me, Asked(s1.online[me].roster, b));
    PushInv(s2, me, b);
    SendAllInv(PushItem(s2, me, b), b, [SubscribeNote(me, b)]);
  }

  lemma ApproveOwnInv(st: State, me: string, b: string)
    requires Inv(st) && me in st.online && Bare(b) == b
    ensures Inv(ApproveOwn(st, me, b)) && Quiet(st, ApproveOwn(st, me, b))
    ensures var u := st.online[me].local;
            ApproveOwn(st, me, b).disk == st.disk[u := Approved(st.disk[u], b)]
  {
    hide Inv, RosterOk;
    KeyFacts(st, me);
    LoadInv(st, me);
    var s1 := Load(st, me);
    ApproveOk(s1.online[me].roster, b);
    SaveInv(s1, me, Approved(s1.online[me].roster, b));
    PushInv(SaveRoster(s1, me, Approved(s1.online[me].roster, b)), me, b);
  }

  lemma EditOwnInv(st: State, me: string, b: string, e: Edit)
    requires Inv(st) && me in st.online && Bare(b) == b
    ensures Inv(EditOwn(st, me, b, e)) && Quiet(st, EditOwn(st, me, b, e))
    ensures var u := st.online[me].local;
            EditOwn(st, me, b, e).disk == st.disk[u := Edited(st.disk[u], b, e)]
  {
    hide Inv, RosterOk, Quiet, Load, SaveRoster, PushItem, Edited, Get;
    KeyFacts(st, me);
    LoadInv(st, me);
    var s1 := Load(st, me);
    QuietOnline(st, s1);
    var items := Edited(s1.online[me].roster, b, e);
    EditOk(s1.online[me].roster, b, e);
    if Get(s1.online[me].roster, b).Some? {
      SaveInv(s1, me, items);
      var s2 := SaveRoster(s1, me, items);
      QuietOnline(s1, s2);
      PushInv(s2, me, b);
      QuietTrans(st, s1, s2);
      QuietTrans(st, s2, PushItem(s2, me, b));
    } else {
      EditAbsent(s1.online[me].roster, b, e);
    }
  }

  lemma EditLiveInv(st: State, b: string, from: string, e: Edit)
    requires Inv(st) && Bare(from) == from && b in st.online
    ensures Inv(EditTarget(Go, st, b, from, e)) && Quiet(st, EditTarget(Go, st, b, from, e))
    ensures EditTarget(Go, st, b, from, e).disk ==
            Store(st.disk, LocalPart(b), Edited(OnDisk(st.disk, LocalPart(b)), from, e))
  {
    hide Inv, RosterOk, Quiet, Load, SaveRoster, PushItem, Edited, Get;
    KeyFacts(st, b);
    LoadInv(st, b);
    var s1 := Load(st, b);
    QuietOnline(st, s1);
    var items := Edited(s1.online[b].roster, from, e);
    EditOk(s1.online[b].roster, from, e);
    if Get(s1.online[b].roster, from).Some? || e.GainTo? {
      SaveInv(s1, b, items);
      var s2 := SaveRoster(s1, b, items);
      QuietOnline(s1, s2);
      PushInv(s2, b, from);
      QuietTrans(st, s1, s2);
      QuietTrans(st, s2, PushItem(s2, b, from));
    } else {
      EditAbsent(s1.online[b].roster, from, e);
    }
  }

  /** The target's half has the same effect on the files whether it worked on a session or on a file. */
  lemma EditTargetInv(p: Program, st: State, b: string, from: string, e: Edit)
    requires Inv(st) && Bare(from) == from
    requires LocalPart(b) in st.disk ==> b == Join(LocalPart(b), st.domain)
    ensures Inv(EditTarget(p, st, b, from, e)) && Quiet(st, EditTarget(p, st, b, from, e))
    ensures EditTarget(p, st, b, from, e).disk ==
            Store(st.disk, LocalPart(b), Edited(OnDisk(st.disk, LocalPart(b)), from, e))
  {
    hide Inv, RosterOk, Load, SaveRoster, PushItem, Edited;
    var u := LocalPart(b);
    if SeesRoster(p, st, b) {
      EditLiveInv(st, b, from, e);
    } else if u in st.disk {
      FileOk(st, u);
      EditOk(st.disk[u], from, e);
      FileEditInv(st, u, Edited(st.disk[u], from, e));
    } else {
      assert st.(disk := Store(st.disk, u, Edited(OnDisk(st.disk, u), from, e))) == st;
    }
  }

  lemma ApproveInv(p: Program, st: State, me: string, to: string)
    requires Inv(st) && me in st.online && Home(st, to)
    ensures Inv(Approve(p, st, me, to)) && Quiet(st, Approve(p, st, me, to))
    ensures Approve(p, st, me, to).disk == DiskAfterApproval(st.disk, st.online[me].local, me, Bare(to))
  {
    hide Inv, RosterOk, Quiet, ApproveOwn, EditOwn, EditTarget, SendAll;
    var b := Bare(to);
    BareIdempotent(to);
    KeyFacts(st, me);
    ApproveOwnInv(st, me, b);
    var s1 := ApproveOwn(st, me, b);
    QuietOnline(st, s1);
    EditTargetInv(p, s1, b, me, GainTo);
    QuietOnline(s1, EditTarget(p, s1, b, me, GainTo));
    var s2 := EditTarget(p, s1, b, me, GainTo);
    QuietTrans(st, s1, s2);
    SendAllInv(s2, b, Current(s2.online[me]) + [SubscribedNote(me, b)]);
    QuietTrans(st, s2, Approve(p, st, me, to));
  }

  lemma RevokeInv(p: Program, st: State, me: string, to: string, own: Edit, theirs: Edit, note: Stanza)
    requires Inv(st) && me in st.online && Home(st, to)
    ensures var t := Revoke(p, st, me, to, own, theirs, note);
            && Inv(t) && Quiet(st, t)
            && t.disk == DiskAfterRevoke(st.disk, st.online[me].local, me, Bare(to), own, theirs)
  {
    hide Inv, RosterOk, Quiet, ApproveOwn, EditOwn, EditTarget, SendAll;
    var b := Bare(to);
    BareIdempotent(to);
    KeyFacts(st, me);
    EditOwnInv(st, me, b, own);
    var s1 := EditOwn(st, me, b, own);
    QuietOnline(st, s1);
    EditTargetInv(p, s1, b, me, theirs);
    QuietOnline(s1, EditTarget(p, s1, b, me, theirs));
    var s2 := EditTarget(p, s1, b, me, theirs);
    QuietTrans(st, s1, s2);
    if SeesRoster(p, s1, b) {
      SendAllInv(s2, b, [note] + Farewell(s2, me));
      QuietTrans(st, s2, Revoke(p, st, me, to, own, theirs, note));
    }
  }

  function DiskAfterApproval(disk: map<string, seq<Item>>, u: string, me: string, b: string): map<string, seq<Item>> {
    var d1 := Store(disk, u, Approved(OnDisk(disk, u), b));
    Store(d1, LocalPart(b), Edited(OnDisk(d1, LocalPart(b)), me, GainTo))
  }

  function DiskAfterRevoke(disk: map<string, seq<Item>>, u: string, me: string, b: string,
                           own: Edit, theirs: Edit): map<string, seq<Item>> {
    var d1 := Store(disk, u, Edited(OnDisk(disk, u), b, own));
    Store(d1, LocalPart(b), Edited(OnDisk(d1, LocalPart(b)), me, theirs))
  }

  // ---- The step ----

  predicate HomeOp(st: State, op: Op) {
    match op
    case Subscribed(_, to) => Home(st, to)
    case Unsubscribe(_, to) => Home(st, to)
    case Unsubscribed(_, to) => Home(st, to)
    case _ => true
  }

  /** What an operation does to the files, read off the files alone: nobody's session is consulted. */
  function DiskStep(disk: map<string, seq<Item>>, op: Op): map<string, seq<Item>> {
    match op
    case CreateAccount(user) => if user in disk || !ValidName(user) then disk else disk[user := []]
    case RemoveAccount(me) => disk - {LocalPart(me)}
    case Subscribe(me, to) => Store(disk, LocalPart(me), Asked(OnDisk(disk, LocalPart(me)), Bare(to)))
    case Subscribed(me, to) => DiskAfterApproval(disk, LocalPart(me), me, Bare(to))
    case Unsubscribe(me, to) => DiskAfterRevoke(disk, LocalPart(me), me, Bare(to), LoseTo, LoseFrom)
    case Unsubscribed(me, to) => DiskAfterRevoke(disk, LocalPart(me), me, Bare(to), LoseFrom, LoseTo)
    case RosterSet(me, jid, name) =>
      Store(disk, LocalPart(me), Renamed(OnDisk(disk, LocalPart(me)), jid, name))
    case RosterRemove(me, jid) =>
      Store(disk, LocalPart(me), Removed(OnDisk(disk, LocalPart(me)), jid))
    case _ => disk
  }

  /** The operation comes from a live session, and is not refused as malformed. */
  predicate Accepted(p: Program, st: State, op: Op) {
    && (Sender(op).Some? ==> Sender(op).value in st.online)
    && (op.RosterSet? || op.RosterRemove? ==> op.jid != "" || p.C?)
  }

  lemma CreateInv(st: State, user: string)
    requires Inv(st) && user !in st.disk && ValidName(user)
    ensures Inv(st.(disk := st.disk[user := []]))
  {
    var t := st.(disk := st.disk[user := []]);
    forall j | j in t.online ensures ClientOk(t, j, t.online[j]) {
      assert ClientOk(st, j, st.online[j]);
    }
  }

  lemma RosterIqInv(st: State, me: string, items: seq<Item>, xs: seq<Stanza>, jid: string)
    requires Inv(st) && me in st.online && RosterOk(items)
    ensures var t := SendAll(SaveRoster(Load(st, me), me, items), me, xs);
            && Inv(t) && Quiet(st, t) && t.disk == st.disk[st.online[me].local := items]
            && Inv(PushItem(t, me, jid)) && Quiet(st, PushItem(t, me, jid)) && PushItem(t, me, jid).disk == t.disk
  {
    hide Inv, RosterOk, Quiet, SaveRoster, Load, SendAll, PushItem;
    LoadInv(st, me);
    var s1 := Load(st, me);
    QuietOnline(st, s1);
    SaveInv(s1, me, items);
    var s2 := SaveRoster(s1, me, items);
    QuietOnline(s1, s2);
    SendAllInv(s2, me, xs);
    var s3 := SendAll(s2, me, xs);
    QuietOnline(s2, s3);
    PushInv(s3, me, jid);
    QuietTrans(st, s1, s2);
    QuietTrans(st, s2, s3);
    QuietTrans(st, s3, PushItem(s3, me, jid));
  }

  lemma ReplyInv(st: State, me: string, x: Stanza)
    requires Inv(st) && me in st.online
    ensures me in Load(st, me).online
    ensures var t := SendTo(Load(st, me), me, x); Inv(t) && Quiet(st, t) && t.disk == st.disk
  {
    hide Inv, Quiet, Load, SendAll;
    LoadInv(st, me);
    var s1 := Load(st, me);
    SendAllInv(s1, me, [x]);
    QuietTrans(st, s1, SendAll(s1, me, [x]));
  }

  lemma RosterSetInv(p: Program, st: State, op: Op)
    requires Inv(st) && (op.RosterGet? || op.RosterSet? || op.RosterRemove?) && op.me in st.online
    ensures Inv(Step(p, st, op)) && Quiet(st, Step(p, st, op))
    ensures Step(p, st, op).disk == if Accepted(p, st, op) then DiskStep(st.disk, AsTaken(p, op)) else st.disk
  {
    hide Inv, RosterOk, Quiet, Load, SaveRoster, SendAll, PushItem, Renamed, Removed;
    var me := op.me;
    KeyFacts(st, me);
    var items := st.disk[st.online[me].local];
    if op.RosterGet? {
      ReplyInv(st, me, Result);
    } else if !Accepted(p, st, op) {
      ReplyInv(st, me, ErrorReply);
    } else if op.RosterSet? {
      LoadInv(st, me);
      RenameOk(items, op.jid, NameFor(p, op.name));
      RosterIqInv(st, me, Renamed(items, op.jid, NameFor(p, op.name)), [Result], op.jid);
    } else {
      LoadInv(st, me);
      RemoveOk(items, op.jid);
      RosterIqInv(st, me, Removed(items, op.jid), [Result, PushRemoved(op.jid)], op.jid);
    }
  }

  lemma ComeAndGoInv(p: Program, st: State, op: Op)
    requires Inv(st) && (op.CreateAccount? || op.RemoveAccount? || op.Bind? || op.Disconnect?)
    requires Accepted(p, st, op)
    ensures Inv(Step(p, st, op)) && Step(p, st, op).disk == DiskStep(st.disk, op)
    ensures Step(p, st, op).domain == st.domain
  {
    hide Inv, RosterOk, BroadcastUnavailable, Dropped;
    match op
    case CreateAccount(user) =>
      if user !in st.disk && ValidName(user) {
        CreateInv(st, user);
      }
    case RemoveAccount(me) =>
      KeyFacts(st, me);
      RemoveAccountInv(st, me);
      LeaveInv(st, me);
    case Bind(user, resource) =>
      if user in st.disk {
        var me := Join(user, st.domain);
        if me in st.online {
          LeaveInv(st, me);
          JoinInv(Leave(st, me), user, resource);
        } else {
          JoinInv(st, user, resource);
        }
      }
    case Disconnect(me) => LeaveInv(st, me);
  }

  predicate IsSubscription(op: Op) {
    op.Subscribe? || op.Subscribed? || op.Unsubscribe? || op.Unsubscribed?
  }

  lemma SubscriptionInv(p: Program, st: State, op: Op)
    requires Inv(st) && HomeOp(st, op) && IsSubscription(op) && op.me in st.online
    ensures Inv(Step(p, st, op)) && Quiet(st, Step(p, st, op))
    ensures Step(p, st, op).disk == DiskStep(st.disk, op)
  {
    hide Inv, Quiet, AskFor, Approve, Revoke, DiskAfterApproval, DiskAfterRevoke;
    KeyFacts(st, op.me);
    match op
    case Subscribe(me, to) => AskInv(st, me, to);
    case Subscribed(me, to) => ApproveInv(p, st, me, to);
    case Unsubscribe(me, to) => RevokeInv(p, st, me, to, LoseTo, LoseFrom, UnsubscribeNote(me, Bare(to)));
    case Unsubscribed(me, to) => RevokeInv(p, st, me, to, LoseFrom, LoseTo, UnsubscribedNote(me, Bare(to)));
    case _ =>
  }

  lemma RefusedStep(p: Program, st: State, op: Op)
    requires Sender(op).Some? && Sender(op).value !in st.online
    ensures Step(p, st, op) == st
  {
  }

  /** Every step keeps the invariant, and changes the files independently of who is online or loaded. */
  lemma AvailabilityInv(p: Program, st: State, op: Op)
    requires Inv(st) && (op.GoAvailable? || op.GoUnavailable?) && op.me in st.online
    ensures Inv(Step(p, st, op)) && Step(p, st, op).domain == st.domain
    ensures Step(p, st, op).disk == st.disk && DiskStep(st.disk, op) == st.disk
  {
    hide Inv, BecomeAvailable, BroadcastUnavailable;
    if op.GoAvailable? {
      AvailableInv(st, op.me, op.body);
    } else {
      BroadcastInv(st, op.me);
    }
  }

  lemma StepInv(p: Program, st: State, op: Op)
    requires Inv(st) && HomeOp(st, op)
    ensures Inv(Step(p, st, op))
    ensures Step(p, st, op).domain == st.domain
    ensures Step(p, st, op).disk == if Accepted(p, st, op) then DiskStep(st.disk, AsTaken(p, op)) else st.disk
  {
    hide Inv, Quiet, Step, DiskStep;
    if Sender(op).Some? && Sender(op).value !in st.online {
      RefusedStep(p, st, op);
    } else if op.GoAvailable? || op.GoUnavailable? {
      AvailabilityInv(p, st, op);
    } else {
      if IsSubscription(op) {
        SubscriptionInv(p, st, op);
        QuietOnline(st, Step(p, st, op));
      } else if op.RosterGet? || op.RosterSet? || op.RosterRemove? {
        RosterSetInv(p, st, op);
        QuietOnline(st, Step(p, st, op));
      } else {
        ComeAndGoInv(p, st, op);
      }
    }
  }
}
