/** Every stanza that a step sends to a session: which, how often and in which order, read off files and flags. */
module ProtocolOutput {
  import opened Options
  import opened Jid
  import opened Contacts
  import opened Protocol
  import opened ProtocolInvariant
  import opened ProtocolLaws
  import opened ProtocolPresence
  import opened ProtocolRuns
  import opened ProtocolPushes
  import opened ProtocolNotes

  /** From `s` to `t` the session of `k` was sent `xs`, in this order, and nothing else. */
  ghost predicate Gets(s: State, t: State, k: string, xs: seq<Stanza>) {
    k in s.online ==> k in t.online && t.online[k].sent == s.online[k].sent + xs
  }

  lemma GetsTrans(s: State, t: State, u: State, k: string, xs: seq<Stanza>, ys: seq<Stanza>)
    requires Gets(s, t, k, xs) && Gets(t, u, k, ys)
    ensures Gets(s, u, k, xs + ys)
    ensures xs == [] ==> Gets(s, u, k, ys)
    ensures ys == [] ==> Gets(s, u, k, xs)
  {
    assert xs == [] ==> xs + ys == ys;
    assert ys == [] ==> xs + ys == xs;
  }

  lemma GetsNothing(s: State, t: State, k: string)
    requires k in s.online ==> k in t.online && t.online[k].sent == s.online[k].sent
    ensures Gets(s, t, k, [])
  {
  }

  lemma GetsSend(st: State, j: string, xs: seq<Stanza>, k: string)
    ensures Gets(st, SendAll(st, j, xs), k, if k == j then xs else [])
  {
  }

  // ---- What is sent, written out ----

  /** The address a session announces itself under. */
  function Address(st: State, me: string): string
    requires me in st.online
  {
    var c := st.online[me];
    c.local + "@" + st.domain + (if c.resource == "" then "" else "/" + c.resource)
  }

  lemma AddressIs(st: State, me: string)
    requires me in st.online
    ensures FullJid(st, me) == Address(st, me)
  {
    var c := st.online[me];
    assert Join(c.local, st.domain) + "" == Join(c.local, st.domain);
  }

  /** The file of a session's user. */
  function File(st: State, me: string): seq<Item>
    requires me in st.online
  {
    OnDisk(st.disk, st.online[me].local)
  }

  /** A subscription from its two directions. */
  function Directions(sees: bool, lets: bool): Subscription {
    if sees && lets then Both else if sees then To else if lets then From else None
  }

  /** An item with both directions and the wait for an answer set as given. */
  function Set(it: Item, sees: bool, lets: bool, ask: bool): Item {
    Item(it.jid, it.name, Directions(sees, lets), ask)
  }

  function Pushed(it: Option<Item>): seq<Stanza> {
    match it
    case Some(i) => [Push(i)]
    case Nothing => []
  }

  function Mapped(it: Option<Item>, e: Edit): Option<Item> {
    match it
    case Nothing => Nothing
    case Some(i) =>
      var sees, lets := i.subscription == To || i.subscription == Both, i.subscription == From || i.subscription == Both;
      Some(match e
           case GainTo => Set(i, true, lets, false)
           case GainFrom => Set(i, sees, true, i.ask)
           case LoseTo => Set(i, false, lets, false)
           case LoseFrom => Set(i, sees, false, i.ask))
  }

  lemma MappedIs(it: Item, e: Edit)
    ensures Mapped(Some(it), e) == Some(Apply(e, it))
  {
  }

  /** What is shown of a session to those who may see it: the presence it last announced, if it is available. */
  function Shown(st: State, j: string): seq<Stanza> {
    if j in st.online then Current(st.online[j]) else []
  }

  /** What a contact list brings its owner, who announces `pres`: for every contact he sees, in the order of the list,
      what that contact announced. */
  function Sights(st: State, me: string, pres: Stanza, items: seq<Item>): seq<Stanza> {
    if items == [] then []
    else
      var it := items[|items| - 1];
      Sights(st, me, pres, items[..|items| - 1]) +
      (if it.subscription == To || it.subscription == Both
       then (if it.jid == me then [pres] else Shown(st, it.jid))
       else [])
  }

  /** What those whom the sender lets see him are told when he leaves, or takes his presence back. */
  function Partings(st: State, me: string, k: string): seq<Stanza>
    requires me in st.online
  {
    if (st.online[me].available || st.online[me].initialSent) && k != me && HasFrom(File(st, me), k)
    then [Unavailable(Address(st, me))] else []
  }

  function Arrivals(st: State, me: string, body: string, k: string): seq<Stanza>
    requires me in st.online
  {
    var pres := Available(Address(st, me), body);
    (if HasFrom(File(st, me), k) then [pres] else []) +
    (if k == me then Sights(st, me, pres, File(st, me)) else []) +
    (if k == me && !st.online[me].available then Waiting(st, me, st.order) else [])
  }

  /** Is the target's contact list in hand when its half of a change is made? */
  predicate InHand(p: Program, st: State, me: string, b: string) {
    b in st.online && (p.Go? || st.online[b].loaded || b == me)
  }

  /** The item of a request after it was made. */
  function AskedItem(st: State, me: string, b: string): Item
    requires me in st.online
  {
    match Get(File(st, me), b)
    case Some(it) => it.(ask := true)
    case Nothing => Item(b, "", None, true)
  }

  /** The approver's item after his approval. */
  function ApprovedItem(st: State, me: string, b: string): Item
    requires me in st.online
  {
    var was := Get(File(st, me), b);
    if was.Some? then Mapped(was, GainFrom).value else Item(b, "", From, false)
  }

  /** The target's item of the sender, when its half is made. */
  function TheirItem(st: State, me: string, b: string, own: Option<Item>): Option<Item>
    requires b in st.online
  {
    if b == me then own else Get(File(st, b), me)
  }

  function Approvals(p: Program, st: State, me: string, b: string, k: string): seq<Stanza>
    requires me in st.online
  {
    var own := Some(ApprovedItem(st, me, b));
    (if k == me then Pushed(own) else []) +
    (if k == b && InHand(p, st, me, b) then Pushed(Mapped(TheirItem(st, me, b, own), GainTo)) else []) +
    (if k == b then Current(st.online[me]) + [SubscribedNote(me, b)] else [])
  }

  function Cuts(p: Program, st: State, me: string, b: string, mine: Edit, theirs: Edit, note: Stanza, k: string): seq<Stanza>
    requires me in st.online
  {
    var own := Mapped(Get(File(st, me), b), mine);
    (if k == me then Pushed(own) else []) +
    (if k == b && InHand(p, st, me, b)
     then Pushed(Mapped(TheirItem(st, me, b, own), theirs)) +
          ([note] + (if st.online[me].available then [Unavailable(Address(st, me))] else []))
     else [])
  }

  function RenamedItem(st: State, me: string, jid: string, name: Option<string>): Item
    requires me in st.online
  {
    match Get(File(st, me), jid)
    case Some(it) => if name.Some? then it.(name := name.value) else it
    case Nothing => Item(jid, if name.Some? then name.value else "", None, false)
  }

  /** Everything that an operation sends to the session of `k`. */
  function Output(p: Program, st: State, op: Op, k: string): seq<Stanza> {
    if Sender(op).Some? && Sender(op).value !in st.online then []
    else
      match op
      case CreateAccount(_) => []
      case RemoveAccount(me) => Partings(st, me, k)
      case Bind(user, _) =>
        var before := user + "@" + st.domain;
        if user in st.disk && before in st.online then Partings(st, before, k) else []
      case Disconnect(me) => Partings(st, me, k)
      case GoAvailable(me, body) => Arrivals(st, me, body, k)
      case GoUnavailable(me) => Partings(st, me, k)
      case Subscribe(me, to) =>
        (if k == me then [Push(AskedItem(st, me, Bare(to)))] else []) +
        (if k == Bare(to) then [SubscribeNote(me, Bare(to))] else [])
      case Subscribed(me, to) => Approvals(p, st, me, Bare(to), k)
      case Unsubscribe(me, to) => Cuts(p, st, me, Bare(to), LoseTo, LoseFrom, UnsubscribeNote(me, Bare(to)), k)
      case Unsubscribed(me, to) => Cuts(p, st, me, Bare(to), LoseFrom, LoseTo, UnsubscribedNote(me, Bare(to)), k)
      case RosterGet(me) => if k == me then [Result] else []
      case RosterSet(me, jid, name) =>
        if k != me then []
        else if p.Go? && jid == "" then [ErrorReply]
        else [Result, Push(RenamedItem(st, me, jid, if p.Go? && name == Some("") then Nothing else name))]
      case RosterRemove(me, jid) =>
        if k != me then []
        else if p.Go? && jid == "" then [ErrorReply]
        else [Result, PushRemoved(jid)]
  }

  // ---- The parts ----

  lemma GetsLoad(st: State, j: string, k: string)
    requires j in st.online
    ensures j in Load(st, j).online && Gets(st, Load(st, j), k, [])
  {
  }

  lemma GetsPush(st: State, j: string, jid: string, k: string)
    requires j in st.online
    ensures Gets(st, PushItem(st, j, jid), k, if k == j then Pushed(Get(st.online[j].roster, jid)) else [])
  {
    hide Get;
    match Get(st.online[j].roster, jid)
    case Some(it) => GetsSend(st, j, [Push(it)], k);
    case Nothing => GetsNothing(st, st, k);
  }

  /** Saving a list and pushing one of its items. */
  lemma GetsChange(st: State, j: string, items: seq<Item>, jid: string, k: string)
    requires j in st.online
    ensures j in SaveRoster(st, j, items).online
    ensures Gets(st, PushItem(SaveRoster(st, j, items), j, jid), k, if k == j then Pushed(Get(items, jid)) else [])
  {
    hide PushItem, Get;
    GetsPush(SaveRoster(st, j, items), j, jid, k);
  }

  lemma LoadedFile(st: State, j: string)
    requires Inv(st) && j in st.online
    ensures j in Load(st, j).online && Load(st, j).online[j].roster == File(st, j)
  {
    hide Inv, RosterOk;
    LoadInv(st, j);
    KeyFacts(st, j);
  }

  lemma GetsAsk(st: State, me: string, to: string, k: string)
    requires Inv(st) && me in st.online
    ensures Gets(st, AskFor(st, me, to), k, Output(Go, st, Subscribe(me, to), k))
  {
    hide Inv, Load, SaveRoster, PushItem, Asked, SendAll, Gets, Get;
    var b, s1, items := Bare(to), Load(st, me), File(st, me);
    LoadedFile(st, me);
    GetAfterAsk(items, b, b);
    GetsLoad(st, me, k);
    GetsChange(s1, me, Asked(items, b), b, k);
    var s2 := PushItem(SaveRoster(s1, me, Asked(items, b)), me, b);
    var push := if k == me then [Push(AskedItem(st, me, b))] else [];
    GetsTrans(st, s1, s2, k, [], push);
    GetsSend(s2, b, [SubscribeNote(me, b)], k);
    GetsTrans(st, s2, AskFor(st, me, to), k, push, if k == b then [SubscribeNote(me, b)] else []);
  }

  lemma GetsOwnApproval(st: State, me: string, b: string, k: string)
    requires Inv(st) && me in st.online
    ensures Gets(st, ApproveOwn(st, me, b), k, if k == me then [Push(ApprovedItem(st, me, b))] else [])
  {
    hide Inv, Load, SaveRoster, PushItem, Approved, Gets, Get, Apply;
    var s1, items := Load(st, me), File(st, me);
    LoadedFile(st, me);
    GetAfterApproval(items, b, b);
    if Get(items, b).Some? {
      MappedIs(Get(items, b).value, GainFrom);
    }
    GetsLoad(st, me, k);
    GetsChange(s1, me, Approved(items, b), b, k);
    GetsTrans(st, s1, ApproveOwn(st, me, b), k, [], if k == me then [Push(ApprovedItem(st, me, b))] else []);
  }

  lemma GetsOwnCut(st: State, me: string, b: string, e: Edit, k: string)
    requires Inv(st) && me in st.online
    ensures Gets(st, EditOwn(st, me, b, e), k, if k == me then Pushed(Mapped(Get(File(st, me), b), e)) else [])
  {
    hide Inv, Load, SaveRoster, PushItem, Edited, Gets, Get, Apply;
    var s1, items := Load(st, me), File(st, me);
    LoadedFile(st, me);
    GetAfterEdit(items, b, e, b);
    GetsLoad(st, me, k);
    if Get(items, b).Some? {
      MappedIs(Get(items, b).value, e);
      GetsChange(s1, me, Edited(items, b, e), b, k);
      GetsTrans(st, s1, EditOwn(st, me, b, e), k, [], if k == me then Pushed(Mapped(Get(items, b), e)) else []);
    }
  }

  lemma GetsTarget(p: Program, st: State, b: string, from: string, e: Edit, k: string)
    requires Inv(st)
    ensures Gets(st, EditTarget(p, st, b, from, e), k,
                 if k == b && SeesRoster(p, st, b) then Pushed(Mapped(Get(File(st, b), from), e)) else [])
  {
    hide Inv, Load, SaveRoster, PushItem, Edited, Gets, Get, Apply;
    if SeesRoster(p, st, b) {
      var s1, items := Load(st, b), File(st, b);
      LoadedFile(st, b);
      GetAfterEdit(items, from, e, from);
      GetsLoad(st, b, k);
      var out := if k == b then Pushed(Mapped(Get(items, from), e)) else [];
      if Get(items, from).Some? {
        MappedIs(Get(items, from).value, e);
      }
      if Get(items, from).Some? || e.GainTo? {
        GetsChange(s1, b, Edited(items, from, e), from, k);
        GetsTrans(st, s1, EditTarget(p, st, b, from, e), k, [], out);
      }
    } else {
      GetsNothing(st, EditTarget(p, st, b, from, e), k);
    }
  }

  // ---- Approvals and cuts ----

  /** The target's item of the sender, after the sender's own half. */
  lemma ItemAfterOwnApproval(p: Program, st: State, me: string, b: string)
    requires Inv(st) && me in st.online && Bare(b) == b
    ensures var s1 := ApproveOwn(st, me, b);
            && Inv(s1) && Quiet(st, s1)
            && (SeesRoster(p, s1, b) <==> InHand(p, st, me, b))
            && (b in st.online ==> b in s1.online && Get(File(s1, b), me) == TheirItem(st, me, b, Some(ApprovedItem(st, me, b))))
  {
    hide Inv, RosterOk, Approved, Get, Apply;
    ApproveOwnInv(st, me, b);
    QuietOnline(st, ApproveOwn(st, me, b));
    if b in st.online {
      SameUser(st, me, b);
      GetAfterApproval(File(st, me), b, b);
      if Get(File(st, me), b).Some? {
        MappedIs(Get(File(st, me), b).value, GainFrom);
      }
      KeyFacts(st, me);
      KeyFacts(st, b);
    }
  }

  lemma ItemAfterOwnCut(p: Program, st: State, me: string, b: string, e: Edit)
    requires Inv(st) && me in st.online && Bare(b) == b
    ensures var s1 := EditOwn(st, me, b, e);
            && Inv(s1) && Quiet(st, s1)
            && (SeesRoster(p, s1, b) <==> InHand(p, st, me, b))
            && (b in st.online ==> b in s1.online && Get(File(s1, b), me) == TheirItem(st, me, b, Mapped(Get(File(st, me), b), e)))
  {
    hide Inv, RosterOk, Edited, Get, Apply;
    EditOwnInv(st, me, b, e);
    QuietOnline(st, EditOwn(st, me, b, e));
    if b in st.online {
      SameUser(st, me, b);
      GetAfterEdit(File(st, me), b, e, b);
      if Get(File(st, me), b).Some? {
        MappedIs(Get(File(st, me), b).value, e);
      }
      KeyFacts(st, me);
      KeyFacts(st, b);
    }
  }

  lemma TargetQuiet(p: Program, st: State, b: string, from: string, e: Edit, me: string)
    requires me in st.online
    ensures var t := EditTarget(p, st, b, from, e);
            me in t.online && SameClient(st.online[me], t.online[me]) && t.domain == st.domain
  {
    hide Edited, Get, PushItem;
    if SeesRoster(p, st, b) {
      var s1 := Load(st, b);
      PushQuiet(SaveRoster(s1, b, Edited(s1.online[b].roster, from, e)), b, from, me);
    }
  }

  lemma PushQuiet(st: State, j: string, jid: string, me: string)
    requires me in st.online && j in st.online
    ensures var t := PushItem(st, j, jid);
            me in t.online && SameClient(st.online[me], t.online[me]) && t.domain == st.domain
  {
    hide Get;
  }

  lemma GetsApproval(p: Program, st: State, me: string, to: string, k: string)
    requires Inv(st) && me in st.online
    ensures Gets(st, Approve(p, st, me, to), k, Approvals(p, st, me, Bare(to), k))
  {
    hide Inv, Quiet, ApproveOwn, EditTarget, SendAll, Gets, Get, SeesRoster, Mapped, ApprovedItem, TheirItem;
    var b := Bare(to);
    BareIdempotent(to);
    var s1 := ApproveOwn(st, me, b);
    ItemAfterOwnApproval(p, st, me, b);
    QuietOnline(st, s1);
    var s2 := EditTarget(p, s1, b, me, GainTo);
    TargetQuiet(p, s1, b, me, GainTo, me);
    var own := if k == me then [Push(ApprovedItem(st, me, b))] else [];
    var theirs := if k == b && SeesRoster(p, s1, b) then Pushed(Mapped(Get(File(s1, b), me), GainTo)) else [];
    var news := if k == b then Current(st.online[me]) + [SubscribedNote(me, b)] else [];
    GetsOwnApproval(st, me, b, k);
    GetsTarget(p, s1, b, me, GainTo, k);
    GetsTrans(st, s1, s2, k, own, theirs);
    GetsSend(s2, b, Current(s2.online[me]) + [SubscribedNote(me, b)], k);
    GetsTrans(st, s2, Approve(p, st, me, to), k, own + theirs, news);
  }

  lemma GetsCut(p: Program, st: State, me: string, to: string, mine: Edit, theirs: Edit, note: Stanza, k: string)
    requires Inv(st) && me in st.online
    ensures Gets(st, Revoke(p, st, me, to, mine, theirs, note), k, Cuts(p, st, me, Bare(to), mine, theirs, note, k))
  {
    hide Inv, Quiet, EditOwn, EditTarget, SendAll, Gets, Get, SeesRoster, Mapped, TheirItem, Address, Farewell, Pushed, File;
    var b := Bare(to);
    BareIdempotent(to);
    var s1 := EditOwn(st, me, b, mine);
    ItemAfterOwnCut(p, st, me, b, mine);
    QuietOnline(st, s1);
    var s2 := EditTarget(p, s1, b, me, theirs);
    TargetQuiet(p, s1, b, me, theirs, me);
    var own := if k == me then Pushed(Mapped(Get(File(st, me), b), mine)) else [];
    var push := if k == b && SeesRoster(p, s1, b) then Pushed(Mapped(Get(File(s1, b), me), theirs)) else [];
    GetsOwnCut(st, me, b, mine, k);
    GetsTarget(p, s1, b, me, theirs, k);
    GetsTrans(st, s1, s2, k, own, push);
    FarewellIs(st, s2, me);
    var news := [note] + Farewell(s2, me);
    if SeesRoster(p, s1, b) {
      GetsSend(s2, b, news, k);
      GetsTrans(st, s2, Revoke(p, st, me, to, mine, theirs, note), k, own + push, if k == b then news else []);
      assert own + push + news == own + (push + news);
    }
  }

  lemma FarewellIs(s: State, t: State, me: string)
    requires me in s.online && me in t.online && SameClient(s.online[me], t.online[me]) && t.domain == s.domain
    ensures Farewell(t, me) == if s.online[me].available then [Unavailable(Address(s, me))] else []
  {
    AddressIs(s, me);
  }

  // ---- Contact-list requests ----

  lemma GetsRosterIq(p: Program, st: State, op: Op, k: string)
    requires Inv(st) && (op.RosterGet? || op.RosterSet? || op.RosterRemove?) && op.me in st.online
    ensures Gets(st, Step(p, st, op), k, Output(p, st, op, k))
  {
    hide Inv, Load, SendAll, SaveRoster, PushItem, Renamed, Removed, Gets, Get, RenamedItem;
    var me, s1, items := op.me, Load(st, op.me), File(st, op.me);
    LoadedFile(st, me);
    GetsLoad(st, me, k);
    GetsSend(s1, me, [Result], k);
    GetsSend(s1, me, [ErrorReply], k);
    GetsTrans(st, s1, SendAll(s1, me, [Result]), k, [], if k == me then [Result] else []);
    GetsTrans(st, s1, SendAll(s1, me, [ErrorReply]), k, [], if k == me then [ErrorReply] else []);
    if op.RosterSet? && !(op.jid == "" && p.Go?) {
      var name := NameFor(p, op.name);
      RenamedIs(st, me, op.jid, name);
      GetsSet(s1, me, Renamed(items, op.jid, name), op.jid, k);
      GetsTrans(st, s1, Step(p, st, op), k, [],
                if k == me then [Result, Push(RenamedItem(st, me, op.jid, name))] else []);
    }
    if op.RosterRemove? && !(op.jid == "" && p.Go?) {
      GetsRemoved(s1, me, Removed(items, op.jid), op.jid, k);
      GetsTrans(st, s1, Step(p, st, op), k, [], if k == me then [Result, PushRemoved(op.jid)] else []);
    }
  }

  lemma RenamedIs(st: State, me: string, jid: string, name: Option<string>)
    requires me in st.online
    ensures Get(Renamed(File(st, me), jid, name), jid) == Some(RenamedItem(st, me, jid, name))
  {
    var items := File(st, me);
    match Get(items, jid)
    case Some(it) => GetAfterAddOrUpdate(items, jid, name, Some(it.subscription), it.ask, jid);
    case Nothing => GetAfterAddOrUpdate(items, jid, name, Some(None), false, jid);
  }

  lemma GetsSet(st: State, me: string, items: seq<Item>, jid: string, k: string)
    requires me in st.online && Get(items, jid).Some?
    ensures me in SendTo(SaveRoster(st, me, items), me, Result).online
    ensures Gets(st, PushItem(SendTo(SaveRoster(st, me, items), me, Result), me, jid), k,
                 if k == me then [Result, Push(Get(items, jid).value)] else [])
  {
    hide Get, PushItem, Gets;
    var s1 := SaveRoster(st, me, items);
    var s2 := SendTo(s1, me, Result);
    GetsNothing(st, s1, k);
    GetsSend(s1, me, [Result], k);
    GetsTrans(st, s1, s2, k, [], if k == me then [Result] else []);
    GetsPush(s2, me, jid, k);
    var it := Get(items, jid).value;
    GetsTrans(st, s2, PushItem(s2, me, jid), k, if k == me then [Result] else [], if k == me then [Push(it)] else []);
    assert [Result] + [Push(it)] == [Result, Push(it)];
  }

  lemma GetsRemoved(st: State, me: string, items: seq<Item>, jid: string, k: string)
    requires me in st.online
    ensures Gets(st, SendAll(SaveRoster(st, me, items), me, [Result, PushRemoved(jid)]), k,
                 if k == me then [Result, PushRemoved(jid)] else [])
  {
    hide Gets;
    var s1 := SaveRoster(st, me, items);
    GetsNothing(st, s1, k);
    GetsSend(s1, me, [Result, PushRemoved(jid)], k);
    GetsTrans(st, s1, SendAll(s1, me, [Result, PushRemoved(jid)]), k, [], if k == me then [Result, PushRemoved(jid)] else []);
  }

  // ---- Presences ----

  lemma GetsFan(st: State, items: seq<Item>, x: Stanza, except: string, k: string)
    requires RosterOk(items) && Bare(k) == k
    ensures Gets(st, Fan(st, items, x, except), k, if k != except && HasFrom(items, k) then [x] else [])
  {
    FromCountIs(items, k);
    assert Copies(x, 0) == [] && Copies(x, 1) == [x];
    if k in st.online {
      assert st.online[k].sent + [] == st.online[k].sent;
    }
  }

  /** The list is read after the broadcast; it shows what was there before, and the sender himself as he is now. */
  lemma {:induction false} FetchedIsSights(st: State, t: State, me: string, pres: Stanza, items: seq<Item>)
    requires Inv(st) && RosterOk(items) && me in st.online && t.online.Keys == st.online.Keys
    requires t.online[me].available && t.online[me].presence == Some(pres)
    requires forall j | j in st.online && j != me ::
               t.online[j].available == st.online[j].available && t.online[j].presence == st.online[j].presence
    ensures Fetched(t, items) == Sights(st, me, pres, items)
  {
    hide Inv;
    if items != [] {
      assert ItemOk(items[|items| - 1]);
      FetchedIsSights(st, t, me, pres, items[..|items| - 1]);
    }
  }

  /** The broadcast and what the list brings, before the waiting requests. */
  lemma GetsBroadcast(st: State, me: string, body: string, k: string)
    requires Inv(st) && me in st.online && k in st.online
    ensures var s1, pres := Announced(st, me, body), Available(FullJid(st, me), body);
            var s2 := Fan(s1, s1.online[me].roster, pres, NOBODY);
            var s3 := SendAll(s2, me, Fetched(s2, s1.online[me].roster));
            && Gets(st, s3, k, (if HasFrom(File(st, me), k) then [pres] else []) +
                               (if k == me then Sights(st, me, pres, File(st, me)) else []))
            && s3.online.Keys == st.online.Keys && s3.order == st.order
            && forall j | j in st.online && j != me ::
                 s3.online[j].loaded == st.online[j].loaded && s3.online[j].roster == st.online[j].roster
  {
    hide Inv, RosterOk, Announced, Fan, Fetched, SendAll, Gets, Sights, HasFrom, FullJid;
    var pres := Available(FullJid(st, me), body);
    AnnouncedInv(st, me, body);
    KeyFacts(st, me);
    KeyFacts(st, k);
    var s1, items := Announced(st, me, body), File(st, me);
    GetsNothing(st, s1, k);
    GetsFan(s1, items, pres, NOBODY, k);
    var s2 := Fan(s1, items, pres, NOBODY);
    FanKeeps(s1, items, pres, NOBODY);
    var own := if HasFrom(items, k) then [pres] else [];
    GetsTrans(st, s1, s2, k, [], own);
    SightsAfterFan(st, s1, s2, me, pres, items);
    GetsSend(s2, me, Fetched(s2, items), k);
    GetsTrans(st, s2, SendAll(s2, me, Fetched(s2, items)), k, own, if k == me then Sights(st, me, pres, items) else []);
    SendKeeps(s2, me, Fetched(s2, items));
    OthersKept(st, s1, s2, SendAll(s2, me, Fetched(s2, items)), me);
  }

  lemma OthersKept(st: State, s1: State, s2: State, s3: State, me: string)
    requires s1.online.Keys == s2.online.Keys == s3.online.Keys == st.online.Keys
    requires forall j | j in st.online && j != me :: s1.online[j] == st.online[j]
    requires forall j | j in s1.online :: s2.online[j].(sent := []) == s1.online[j].(sent := [])
    requires forall j | j in s2.online :: s3.online[j].(sent := []) == s2.online[j].(sent := [])
    ensures forall j | j in st.online && j != me ::
              s3.online[j].loaded == st.online[j].loaded && s3.online[j].roster == st.online[j].roster
  {
    forall j | j in st.online && j != me
      ensures s3.online[j].loaded == st.online[j].loaded && s3.online[j].roster == st.online[j].roster
    {
      assert s3.online[j].(sent := []) == s2.online[j].(sent := []) == s1.online[j].(sent := []);
    }
  }

  lemma GetsArrival(st: State, me: string, body: string, k: string)
    requires Inv(st) && me in st.online
    ensures Gets(st, BecomeAvailable(st, me, body), k, Arrivals(st, me, body, k))
  {
    hide Inv, Announced, Fan, Fetched, SendAll, Gets, Pending, Waiting, Sights, HasFrom, Address, FullJid;
    if k in st.online {
      AddressIs(st, me);
      AnnouncedInv(st, me, body);
      GetsBroadcast(st, me, body, k);
      var pres, s1 := Available(FullJid(st, me), body), Announced(st, me, body);
      var s2 := Fan(s1, s1.online[me].roster, pres, NOBODY);
      var s3 := SendAll(s2, me, Fetched(s2, s1.online[me].roster));
      var news := (if HasFrom(File(st, me), k) then [pres] else []) + (if k == me then Sights(st, me, pres, File(st, me)) else []);
      if !st.online[me].available {
        GetsPending(st, s3, me, k);
        GetsTrans(st, s3, BecomeAvailable(st, me, body), k, news, if k == me then Waiting(st, me, st.order) else []);
      } else {
        assert news + [] == news;
      }
    } else {
      GetsAbsent(st, BecomeAvailable(st, me, body), k, Arrivals(st, me, body, k));
    }
  }

  lemma GetsAbsent(s: State, t: State, k: string, xs: seq<Stanza>)
    requires k !in s.online
    ensures Gets(s, t, k, xs)
  {
  }

  lemma SightsAfterFan(st: State, s1: State, s2: State, me: string, pres: Stanza, items: seq<Item>)
    requires Inv(st) && RosterOk(items) && me in st.online
    requires s1.online.Keys == st.online.Keys && s1.online[me].available && s1.online[me].presence == Some(pres)
    requires forall j | j in st.online && j != me :: s1.online[j] == st.online[j]
    requires s2.online.Keys == s1.online.Keys
    requires forall j | j in s1.online :: s2.online[j].(sent := []) == s1.online[j].(sent := [])
    ensures Fetched(s2, items) == Sights(st, me, pres, items)
  {
    hide Inv, RosterOk;
    forall j | j in s1.online
      ensures s2.online[j].available == s1.online[j].available && s2.online[j].presence == s1.online[j].presence
    {
      assert s2.online[j].(sent := []) == s1.online[j].(sent := []);
    }
    FetchedIsSights(st, s2, me, pres, items);
  }

  lemma GetsPending(st: State, s3: State, me: string, k: string)
    requires Inv(st) && me in st.online && s3.online.Keys == st.online.Keys && s3.order == st.order
    requires forall j | j in st.online && j != me ::
               s3.online[j].loaded == st.online[j].loaded && s3.online[j].roster == st.online[j].roster
    ensures var s4 := Put(s3, me, s3.online[me].(initialSent := true));
            Gets(s3, SendAll(s4, me, Pending(s4, me, s4.order)), k, if k == me then Waiting(st, me, st.order) else [])
  {
    hide Inv, SendAll, Gets, Pending, Waiting;
    var s4 := Put(s3, me, s3.online[me].(initialSent := true));
    GetsNothing(s3, s4, k);
    FirstPending(st, s4, me);
    var waiting := Waiting(st, me, st.order);
    GetsSend(s4, me, waiting, k);
    GetsTrans(s3, s4, SendAll(s4, me, waiting), k, [], if k == me then waiting else []);
  }

  lemma GetsParting(st: State, me: string, k: string)
    requires Inv(st) && me in st.online && (k in st.online ==> Bare(k) == k)
    ensures BroadcastUnavailable(st, me).online.Keys == st.online.Keys
    ensures Gets(st, BroadcastUnavailable(st, me), k, Partings(st, me, k))
  {
    hide Inv, RosterOk, Fan, Gets, Load, HasFrom, Address;
    UnavailableTells(st, me, k);
    if k !in st.online {
      GetsAbsent(st, BroadcastUnavailable(st, me), k, Partings(st, me, k));
    } else if st.online[me].available || st.online[me].initialSent {
      KeyFacts(st, me);
      LoadedFile(st, me);
      AddressIs(st, me);
      var s1, items, note := Load(st, me), File(st, me), Unavailable(Address(st, me));
      GetsLoad(st, me, k);
      GetsFan(s1, items, note, me, k);
      FanKeeps(s1, items, note, me);
      var s2 := Fan(s1, items, note, me);
      GetsTrans(st, s1, s2, k, [], Partings(st, me, k));
      GetsNothing(s2, BroadcastUnavailable(st, me), k);
      GetsTrans(st, s2, BroadcastUnavailable(st, me), k, Partings(st, me, k), []);
    } else {
      GetsNothing(st, st, k);
    }
  }

  lemma GetsLeave(st: State, me: string, k: string)
    requires Inv(st) && me in st.online && k != me && (k in st.online ==> Bare(k) == k)
    ensures Gets(st, Leave(st, me), k, Partings(st, me, k))
  {
    hide Inv, BroadcastUnavailable, Dropped, Gets, Partings;
    GetsParting(st, me, k);
    SentAfterLeave(st, me, k);
    GetsNothing(BroadcastUnavailable(st, me), Leave(st, me), k);
    GetsTrans(st, BroadcastUnavailable(st, me), Leave(st, me), k, Partings(st, me, k), []);
  }

  lemma SentAfterLeave(st: State, me: string, k: string)
    requires me in st.online && k != me
    ensures var s1, t := BroadcastUnavailable(st, me), Leave(st, me);
            (k in s1.online <==> k in t.online) && (k in s1.online ==> t.online[k] == s1.online[k])
  {
    hide BroadcastUnavailable, Dropped;
  }

  lemma GetsComeAndGo(p: Program, st: State, op: Op, k: string)
    requires Inv(st) && Accepted(p, st, op) && !EndsSession(st, op, k) && (k in st.online ==> Bare(k) == k)
    requires op.CreateAccount? || op.RemoveAccount? || op.Bind? || op.Disconnect?
    ensures Gets(st, Step(p, st, op), k, Output(p, st, op, k))
  {
    hide Inv, Gets, Leave, Partings;
    match op
    case CreateAccount(_) => GetsNothing(st, Step(p, st, op), k);
    case RemoveAccount(me) =>
      var disk := st.disk - {st.online[me].local};
      LeaveIgnoresDisk(st, me, disk);
      GetsLeave(st, me, k);
      GetsNothing(Leave(st, me), Step(p, st, op), k);
      GetsTrans(st, Leave(st, me), Step(p, st, op), k, Partings(st, me, k), []);
    case Disconnect(me) => GetsLeave(st, me, k);
    case Bind(user, resource) => GetsBind(p, st, user, resource, k);
  }

  lemma GetsBind(p: Program, st: State, user: string, resource: string, k: string)
    requires Inv(st) && k != Join(user, st.domain) && (k in st.online ==> Bare(k) == k)
    ensures Gets(st, Step(p, st, Bind(user, resource)), k, Output(p, st, Bind(user, resource), k))
  {
    hide Inv, Gets, Leave, Partings;
    var me := Join(user, st.domain);
    GetsNothing(st, st, k);
    if user in st.disk {
      var s1 := if me in st.online then Leave(st, me) else st;
      var out := if me in st.online then Partings(st, me, k) else [];
      if me in st.online {
        GetsLeave(st, me, k);
      }
      GetsNothing(s1, Step(p, st, Bind(user, resource)), k);
      GetsTrans(st, s1, Step(p, st, Bind(user, resource)), k, out, []);
    }
  }

  /** Whatever a client does, a session that stays is sent exactly the stanzas of `Output`, in that order. */
  lemma OutputStep(p: Program, st: State, op: Op, k: string)
    requires Inv(st) && !EndsSession(st, op, k)
    ensures Gets(st, Step(p, st, op), k, Output(p, st, op, k))
  {
    hide Inv, Gets, BecomeAvailable, BroadcastUnavailable, AskFor, Approve, Revoke, Arrivals, Partings, Approvals, Cuts;
    if k in st.online {
      KeyFacts(st, k);
    }
    if Sender(op).Some? && Sender(op).value !in st.online {
      GetsNothing(st, st, k);
    } else {
      match op
      case GoAvailable(me, body) => GetsArrival(st, me, body, k);
      case GoUnavailable(me) => GetsParting(st, me, k);
      case Subscribe(me, to) => GetsAsk(st, me, to, k);
      case Subscribed(me, to) => GetsApproval(p, st, me, to, k);
      case Unsubscribe(me, to) => GetsCut(p, st, me, to, LoseTo, LoseFrom, UnsubscribeNote(me, Bare(to)), k);
      case Unsubscribed(me, to) => GetsCut(p, st, me, to, LoseFrom, LoseTo, UnsubscribedNote(me, Bare(to)), k);
      case RosterGet(_) => GetsRosterIq(p, st, op, k);
      case RosterSet(_, _, _) => GetsRosterIq(p, st, op, k);
      case RosterRemove(_, _) => GetsRosterIq(p, st, op, k);
      case _ => GetsComeAndGo(p, st, op, k);
    }
  }

  // ---- Once per contact ----

  /** The available presences among `xs` that come from `who`. */
  function OfSender(xs: seq<Stanza>, who: string): seq<Stanza> {
    if xs == [] then []
    else
      OfSender(xs[..|xs| - 1], who) +
      (var x := xs[|xs| - 1]; if x.Available? && Bare(x.from) == who then [x] else [])
  }

  lemma OfSenderMore(xs: seq<Stanza>, ys: seq<Stanza>, who: string)
    requires |ys| <= 1
    ensures OfSender(xs + ys, who) == OfSender(xs, who) + OfSender(ys, who)
  {
    if ys == [] {
      assert xs + ys == xs;
    } else {
      assert (xs + ys)[..|xs|] == xs && ys[..0] == [];
    }
  }

  /** A list brings from each contact it sees exactly what that contact shows, once, and from nobody else anything. */
  lemma {:induction false} OncePerContact(st: State, me: string, pres: Stanza, items: seq<Item>, who: string)
    requires Inv(st) && RosterOk(items) && pres.Available? && Bare(pres.from) == me && Bare(who) == who
    ensures OfSender(Sights(st, me, pres, items), who) ==
            if !HasTo(items, who) then [] else if who == me then [pres] else Shown(st, who)
  {
    hide Inv, RosterOk, OfSender, HasTo, HasFrom, Shown;
    OneSender(st, me, pres, who, who);
    if items == [] {
      EmptyList(who);
    } else {
      var front, it := items[..|items| - 1], items[|items| - 1];
      LastItem(items, who);
      LastItemOk(items);
      OncePerContact(st, me, pres, front, who);
      OneSender(st, me, pres, it.jid, who);
      var more := if it.subscription == To || it.subscription == Both
        then (if it.jid == me then [pres] else Shown(st, it.jid)) else [];
      OfSenderMore(Sights(st, me, pres, front), more, who);
      OneSightEach(items, who);
    }
  }

  lemma LastItemOk(items: seq<Item>)
    requires RosterOk(items) && items != []
    ensures ItemOk(items[|items| - 1])
  {
  }

  /** A contact that is seen stands in the list once. */
  lemma OneSightEach(items: seq<Item>, who: string)
    requires RosterOk(items) && items != [] && Bare(who) == who
    ensures items[|items| - 1].jid == who ==> !HasTo(items[..|items| - 1], who)
  {
    var front := items[..|items| - 1];
    var f := Find(front, who);
    if f >= 0 {
      assert items[f] == front[f];
    }
  }

  /** What one session shows comes from its own address. */
  lemma OneSender(st: State, me: string, pres: Stanza, j: string, who: string)
    requires Inv(st) && pres.Available? && Bare(pres.from) == me
    ensures OfSender([], who) == []
    ensures OfSender([pres], who) == if who == me then [pres] else []
    ensures |Shown(st, j)| <= 1 && OfSender(Shown(st, j), who) == if j == who then Shown(st, j) else []
  {
    assert [pres][..0] == [];
    if j in st.online {
      assert ClientOk(st, j, st.online[j]);
      assert Shown(st, j) != [] ==> Shown(st, j)[..0] == [];
    }
  }

  // ---- Over whole runs ----

  /** The resource of the last login under the address `j`. */
  function LastResource(domain: string, ops: seq<Op>, j: string): string {
    if ops == [] then ""
    else
      match ops[|ops| - 1]
      case Bind(user, resource) =>
        if user + "@" + domain == j then resource else LastResource(domain, ops[..|ops| - 1], j)
      case _ => LastResource(domain, ops[..|ops| - 1], j)
  }

  function AddressIn(domain: string, ops: seq<Op>, j: string): string {
    var r := LastResource(domain, ops, j);
    if r == "" then j else j + "/" + r
  }

  /** The available presence that `j` last announced, unless it has taken it back or logged in again since. */
  function LastShown(domain: string, ops: seq<Op>, j: string): seq<Stanza> {
    if ops == [] then []
    else
      var before := ops[..|ops| - 1];
      match ops[|ops| - 1]
      case Bind(user, _) => if user + "@" + domain == j then [] else LastShown(domain, before, j)
      case GoAvailable(me, body) =>
        if me == j then [Available(AddressIn(domain, before, j), body)] else LastShown(domain, before, j)
      case GoUnavailable(me) => if me == j then [] else LastShown(domain, before, j)
      case _ => LastShown(domain, before, j)
  }

  /** Has `j` announced itself since its last login? */
  predicate HasSent(domain: string, ops: seq<Op>, j: string) {
    ops != []
    && var before := ops[..|ops| - 1];
       match ops[|ops| - 1]
       case Bind(user, _) => user + "@" + domain != j && HasSent(domain, before, j)
       case GoAvailable(me, _) => me == j || HasSent(domain, before, j)
       case _ => HasSent(domain, before, j)
  }

  lemma {:induction false} ShownHasSent(domain: string, ops: seq<Op>, j: string)
    requires LastShown(domain, ops, j) != []
    ensures HasSent(domain, ops, j)
  {
    if ops != [] && LastShown(domain, ops[..|ops| - 1], j) != [] {
      ShownHasSent(domain, ops[..|ops| - 1], j);
    }
  }

  /** What a step leaves of a session's presence. */
  ghost predicate SameShow(s: State, t: State, j: string) {
    && j in s.online && j in t.online
    && s.online[j].local == t.online[j].local && s.online[j].resource == t.online[j].resource
    && s.online[j].available == t.online[j].available && s.online[j].presence == t.online[j].presence
    && s.online[j].initialSent == t.online[j].initialSent
  }

  lemma ShowAfterArrival(st: State, me: string, body: string, j: string)
    requires me in st.online && j in BecomeAvailable(st, me, body).online
    ensures var t := BecomeAvailable(st, me, body);
            && j in st.online
            && t.online[j].local == st.online[j].local && t.online[j].resource == st.online[j].resource
            && if j == me
               then t.online[j].available && t.online[j].presence == Some(Available(Address(st, me), body))
                    && (t.online[j].initialSent <==> st.online[j].initialSent || !st.online[j].available)
               else SameShow(st, t, j)
  {
    hide Fan, Fetched, SendAll, Pending, Address;
    AddressIs(st, me);
    var s1 := Announced(st, me, body);
    var items := s1.online[me].roster;
    var pres := Available(FullJid(st, me), body);
    FanKeeps(s1, items, pres, NOBODY);
    var s2 := Fan(s1, items, pres, NOBODY);
    SendKeeps(s2, me, Fetched(s2, items));
    var s3 := SendAll(s2, me, Fetched(s2, items));
    var s4 := Put(s3, me, s3.online[me].(initialSent := true));
    SendKeeps(s4, me, Pending(s4, me, s4.order));
    ShowKept(s1, s2, s3, s4, BecomeAvailable(st, me, body), me, j, st.online[me].available);
  }

  lemma ShowKept(s1: State, s2: State, s3: State, s4: State, t: State, me: string, j: string, short: bool)
    requires j in s1.online && s2.online.Keys == s1.online.Keys && s3.online.Keys == s1.online.Keys
    requires me in s3.online && s4 == Put(s3, me, s3.online[me].(initialSent := true))
    requires s2.online[j].(sent := []) == s1.online[j].(sent := [])
    requires s3.online[j].(sent := []) == s2.online[j].(sent := [])
    requires if short then t == s3 else j in t.online && t.online[j].(sent := []) == s4.online[j].(sent := [])
    ensures j in t.online && t.online[j].initialSent == (s1.online[j].initialSent || (j == me && !short))
    ensures SameShow(s1, t.(online := t.online[j := t.online[j].(initialSent := s1.online[j].initialSent)]), j)
  {
    assert s1.online[j].(sent := []).initialSent == s3.online[j].(sent := []).initialSent;
    assert s1.online[j].(sent := []).available == s3.online[j].(sent := []).available;
    assert s1.online[j].(sent := []).presence == s3.online[j].(sent := []).presence;
    assert s1.online[j].(sent := []).local == s3.online[j].(sent := []).local;
    assert s1.online[j].(sent := []).resource == s3.online[j].(sent := []).resource;
    if !short {
      assert t.online[j].(sent := []).available == s4.online[j].(sent := []).available;
      assert t.online[j].(sent := []).presence == s4.online[j].(sent := []).presence;
      assert t.online[j].(sent := []).local == s4.online[j].(sent := []).local;
      assert t.online[j].(sent := []).resource == s4.online[j].(sent := []).resource;
      assert t.online[j].(sent := []).initialSent == s4.online[j].(sent := []).initialSent;
    }
  }

  lemma ShowAfterParting(st: State, me: string, j: string)
    requires me in st.online && j in BroadcastUnavailable(st, me).online
    ensures var t := BroadcastUnavailable(st, me);
            && j in st.online
            && t.online[j].local == st.online[j].local && t.online[j].resource == st.online[j].resource
            && if j == me then !t.online[j].available && t.online[j].initialSent == st.online[j].initialSent
               else SameShow(st, t, j)
  {
    hide Fan;
    if st.online[me].available || st.online[me].initialSent {
      var s1, note := Load(st, me), Unavailable(FullJid(st, me));
      FanKeeps(s1, s1.online[me].roster, note, me);
      var s2 := Fan(s1, s1.online[me].roster, note, me);
      assert s2.online[j].(sent := []) == s1.online[j].(sent := []);
      assert s2.online[j].(sent := []).available == s1.online[j].(sent := []).available;
      assert s2.online[j].(sent := []).presence == s1.online[j].(sent := []).presence;
      assert s2.online[j].(sent := []).local == s1.online[j].(sent := []).local;
      assert s2.online[j].(sent := []).resource == s1.online[j].(sent := []).resource;
      assert s2.online[j].(sent := []).initialSent == s1.online[j].(sent := []).initialSent;
    }
  }

  lemma ShowAfterLeave(st: State, me: string, j: string)
    requires me in st.online && j in Leave(st, me).online
    ensures j != me && SameShow(st, Leave(st, me), j)
  {
    hide BroadcastUnavailable, Dropped;
    ShowAfterParting(st, me, j);
  }

  lemma ShowAfterComeAndGo(p: Program, st: State, op: Op, j: string)
    requires Inv(st) && Accepted(p, st, op) && j in Step(p, st, op).online
    requires op.CreateAccount? || op.RemoveAccount? || op.Disconnect?
    ensures SameShow(st, Step(p, st, op), j)
  {
    hide Inv, Leave;
    match op
    case RemoveAccount(me) =>
      LeaveIgnoresDisk(st, me, st.disk - {st.online[me].local});
      ShowAfterLeave(st, me, j);
    case Disconnect(me) => ShowAfterLeave(st, me, j);
    case _ =>
  }

  lemma ShowAfterBind(p: Program, st: State, user: string, resource: string, j: string)
    requires Inv(st) && j in Step(p, st, Bind(user, resource)).online
    ensures var t := Step(p, st, Bind(user, resource));
            if j == Join(user, st.domain)
            then t.online[j].local == user && t.online[j].resource == resource && !t.online[j].available
                 && !t.online[j].initialSent
            else SameShow(st, t, j)
  {
    hide Inv, Leave;
    var me := Join(user, st.domain);
    if user in st.disk {
      if j != me && me in st.online {
        ShowAfterLeave(st, me, j);
      }
    } else if me in st.online {
      KeyFacts(st, me);
      JoinInjective(user, st.online[me].local, st.domain);
    }
  }

  /** Does `op` change what is shown under `j`? */
  predicate Concerns(st: State, op: Op, j: string) {
    || ((op.GoAvailable? || op.GoUnavailable?) && op.me == j)
    || (op.Bind? && op.user + "@" + st.domain == j)
  }

  lemma ShowUntouched(p: Program, st: State, op: Op, j: string)
    requires Inv(st) && HomeOp(st, op) && j in Step(p, st, op).online && !Concerns(st, op, j)
    ensures SameShow(st, Step(p, st, op), j)
  {
    hide Inv, BecomeAvailable, BroadcastUnavailable, AskFor, Approve, Revoke, SetContact, RemoveContact, Quiet, Leave;
    if Sender(op).Some? && Sender(op).value !in st.online {
    } else {
      match op
      case GoAvailable(me, body) => ShowAfterArrival(st, me, body, j);
      case GoUnavailable(me) => ShowAfterParting(st, me, j);
      case Bind(user, resource) => ShowAfterBind(p, st, user, resource, j);
      case CreateAccount(_) => ShowAfterComeAndGo(p, st, op, j);
      case RemoveAccount(_) => ShowAfterComeAndGo(p, st, op, j);
      case Disconnect(_) => ShowAfterComeAndGo(p, st, op, j);
      case RosterGet(_) => QuietShow(p, st, op, j);
      case RosterSet(_, _, _) => QuietShow(p, st, op, j);
      case RosterRemove(_, _) => QuietShow(p, st, op, j);
      case _ => QuietShow(p, st, op, j);
    }
  }

  lemma QuietShow(p: Program, st: State, op: Op, j: string)
    requires Inv(st) && HomeOp(st, op) && Sender(op).Some? && op.me in st.online && j in Step(p, st, op).online
    requires IsSubscription(op) || op.RosterGet? || op.RosterSet? || op.RosterRemove?
    ensures SameShow(st, Step(p, st, op), j)
  {
    hide Inv, Step, Quiet;
    if IsSubscription(op) {
      SubscriptionInv(p, st, op);
    } else {
      RosterSetInv(p, st, op);
    }
    QuietOnline(st, Step(p, st, op));
  }

  lemma SameShowShows(s: State, t: State, j: string)
    requires SameShow(s, t, j) && s.domain == t.domain
    ensures Shown(t, j) == Shown(s, j) && Address(t, j) == Address(s, j)
    ensures s.online[j].initialSent == t.online[j].initialSent
  {
  }

  lemma ShownStep(p: Program, st: State, op: Op, j: string)
    requires Inv(st) && HomeOp(st, op) && j in Step(p, st, op).online
    ensures var t, login := Step(p, st, op), op.Bind? && op.user + "@" + st.domain == j;
            && (j in st.online || login)
            && Address(t, j) == (if login then j + (if op.resource == "" then "" else "/" + op.resource) else Address(st, j))
            && Shown(t, j) == (if login || (op.GoUnavailable? && op.me == j) then []
                               else if op.GoAvailable? && op.me == j then [Available(Address(st, j), op.body)]
                               else Shown(st, j))
            && (t.online[j].initialSent <==>
                  !login && (st.online[j].initialSent || (op.GoAvailable? && op.me == j && !st.online[j].available)))
  {
    hide Inv, Address, BecomeAvailable, BroadcastUnavailable, Leave;
    StepInv(p, st, op);
    var t := Step(p, st, op);
    if Concerns(st, op, j) {
      match op
      case GoAvailable(me, body) =>
        ShowAfterArrival(st, me, body, j);
        SameAddress(st, t, j);
      case GoUnavailable(me) =>
        ShowAfterParting(st, me, j);
        SameAddress(st, t, j);
      case Bind(user, resource) =>
        ShowAfterBind(p, st, user, resource, j);
        NewAddress(t, j, user, resource);
      case _ =>
    } else {
      ShowUntouched(p, st, op, j);
      SameShowShows(st, t, j);
    }
  }

  lemma SameAddress(s: State, t: State, j: string)
    requires j in s.online && j in t.online && s.domain == t.domain
    requires s.online[j].local == t.online[j].local && s.online[j].resource == t.online[j].resource
    ensures Address(s, j) == Address(t, j)
  {
  }

  lemma NewAddress(t: State, j: string, user: string, resource: string)
    requires j in t.online && t.online[j].local == user && t.online[j].resource == resource && user + "@" + t.domain == j
    ensures Address(t, j) == j + (if resource == "" then "" else "/" + resource)
  {
  }

  lemma HistoryStep(domain: string, ops: seq<Op>, j: string)
    requires ops != []
    ensures var before, op := ops[..|ops| - 1], ops[|ops| - 1];
            var login := op.Bind? && op.user + "@" + domain == j;
            && AddressIn(domain, ops, j) ==
               (if login then j + (if op.resource == "" then "" else "/" + op.resource) else AddressIn(domain, before, j))
            && LastShown(domain, ops, j) ==
               (if login || (op.GoUnavailable? && op.me == j) then []
                else if op.GoAvailable? && op.me == j then [Available(AddressIn(domain, before, j), op.body)]
                else LastShown(domain, before, j))
            && (HasSent(domain, ops, j) <==> !login && (HasSent(domain, before, j) || (op.GoAvailable? && op.me == j)))
  {
    assert j + "" == j;
  }

  /** After every run a live session goes by the address of its last login, shows exactly the presence it announced last,
      under that address and with that content, and is known to have announced itself exactly if it has since that login. */
  lemma {:induction false} ShownIsHistory(p: Program, st: State, ops: seq<Op>, j: string)
    requires Initial(st) && HomeRun(p, st, ops) && j in Run(p, st, ops).online
    ensures var s := Run(p, st, ops);
            && Address(s, j) == AddressIn(st.domain, ops, j) && Shown(s, j) == LastShown(st.domain, ops, j)
            && s.online[j].initialSent == HasSent(st.domain, ops, j)
  {
    InitialInv(st);
    hide Inv, Step, HomeOp, Address, Shown, AddressIn, LastShown, HasSent;
    assert ops != [];
    hide Initial;
    var before, op := ops[..|ops| - 1], ops[|ops| - 1];
    RunInv(p, st, before);
    var s := Run(p, st, before);
    ShownStep(p, s, op, j);
    HistoryStep(st.domain, ops, j);
    if j in s.online {
      ShownIsHistory(p, st, before, j);
      AvailableShown(s, j);
      if s.online[j].available {
        ShownHasSent(st.domain, before, j);
      }
    }
  }

  /** The presences that a contact list is to bring after the operations `ops`. */
  function SightsIn(domain: string, online: set<string>, ops: seq<Op>, items: seq<Item>): seq<Stanza> {
    if items == [] then []
    else
      var it := items[|items| - 1];
      SightsIn(domain, online, ops, items[..|items| - 1]) +
      (if (it.subscription == To || it.subscription == Both) && it.jid in online then LastShown(domain, ops, it.jid) else [])
  }

  lemma {:induction false} SightsAreHistory(p: Program, st: State, ops: seq<Op>, me: string, body: string, items: seq<Item>)
    requires Initial(st) && HomeRun(p, st, ops) && me in Run(p, st, ops).online
    ensures var s, op := Run(p, st, ops), GoAvailable(me, body);
            Sights(s, me, Available(AddressIn(st.domain, ops, me), body), items) ==
            SightsIn(st.domain, s.online.Keys, ops + [op], items)
  {
    hide Initial, HomeRun, Run, Shown;
    if items != [] {
      SightsAreHistory(p, st, ops, me, body, items[..|items| - 1]);
      var s, jid := Run(p, st, ops), items[|items| - 1].jid;
      assert (ops + [GoAvailable(me, body)])[..|ops|] == ops;
      if jid in s.online {
        ShownIsHistory(p, st, ops, jid);
      } else {
        NobodyShown(s, jid);
      }
    }
  }

  lemma NobodyShown(st: State, j: string)
    requires j !in st.online
    ensures Shown(st, j) == []
  {
  }

  /** After every run, an available presence of `me` sends every session exactly this: one copy under the address of his
      last login if he lets it see him; himself besides, in the order of his list, what each connected contact he sees
      announced last; and with his first presence the requests that wait for him. */
  lemma ArrivalAfterRun(p: Program, st: State, ops: seq<Op>, me: string, body: string, k: string)
    requires Initial(st) && HomeRun(p, st, ops) && me in Run(p, st, ops).online
    ensures var s, op := Run(p, st, ops), GoAvailable(me, body);
            Gets(s, Step(p, s, op), k,
                 (if HasFrom(File(s, me), k) then [Available(AddressIn(st.domain, ops, me), body)] else []) +
                 (if k == me then SightsIn(st.domain, s.online.Keys, ops + [op], File(s, me)) else []) +
                 (if k == me && LastShown(st.domain, ops, me) == [] then Waiting(s, me, s.order) else []))
  {
    InitialInv(st);
    hide Initial, Inv, HomeRun, Run, Step, Gets, Sights, SightsIn, HasFrom, Waiting, Output, Shown, Address, LastShown, AddressIn;
    RunInv(p, st, ops);
    var s := Run(p, st, ops);
    OutputStep(p, s, GoAvailable(me, body), k);
    ArrivalOutput(p, s, me, body, k);
    ShownIsHistory(p, st, ops, me);
    SightsAreHistory(p, st, ops, me, body, File(s, me));
  }

  lemma ArrivalOutput(p: Program, st: State, me: string, body: string, k: string)
    requires Inv(st) && me in st.online
    ensures !EndsSession(st, GoAvailable(me, body), k)
    ensures Output(p, st, GoAvailable(me, body), k) ==
            (if HasFrom(File(st, me), k) then [Available(Address(st, me), body)] else []) +
            (if k == me then Sights(st, me, Available(Address(st, me), body), File(st, me)) else []) +
            (if k == me && Shown(st, me) == [] then Waiting(st, me, st.order) else [])
  {
    hide Inv, Sights, HasFrom, Waiting, Shown, Address;
    AvailableShown(st, me);
  }

  lemma AvailableShown(st: State, me: string)
    requires Inv(st) && me in st.online
    ensures st.online[me].available <==> Shown(st, me) != []
  {
    assert ClientOk(st, me, st.online[me]);
  }

  /** After every run, an approval of `me` sends the approved contact, after the push of its own item if its list is in
      hand, exactly what `me` announced last, and the approval. */
  lemma ApprovalAfterRun(p: Program, st: State, ops: seq<Op>, me: string, to: string)
    requires Initial(st) && HomeRun(p, st, ops) && me in Run(p, st, ops).online && me != Bare(to)
    ensures var s, b := Run(p, st, ops), Bare(to);
            var pushed := if InHand(p, s, me, b) then Pushed(Mapped(Get(File(s, b), me), GainTo)) else [];
            Gets(s, Step(p, s, Subscribed(me, to)), b, pushed + (LastShown(st.domain, ops, me) + [SubscribedNote(me, b)]))
  {
    InitialInv(st);
    hide Initial, Inv, HomeRun, Run, Step, Gets, Mapped, Get;
    RunInv(p, st, ops);
    var s, b := Run(p, st, ops), Bare(to);
    OutputStep(p, s, Subscribed(me, to), b);
    ShownIsHistory(p, st, ops, me);
    ApprovalOutput(p, s, me, to);
    hide Output, Shown, InHand;
  }

  lemma ApprovalOutput(p: Program, st: State, me: string, to: string)
    requires me in st.online && me != Bare(to)
    ensures var b := Bare(to);
            var pushed := if InHand(p, st, me, b) then Pushed(Mapped(Get(File(st, b), me), GainTo)) else [];
            Output(p, st, Subscribed(me, to), b) == pushed + (Shown(st, me) + [SubscribedNote(me, b)])
  {
    hide Mapped, Get, Current;
    var b := Bare(to);
    var pushed := if InHand(p, st, me, b) then Pushed(Mapped(Get(File(st, b), me), GainTo)) else [];
    assert [] + pushed == pushed;
  }

  /** After every run, whoever leaves or takes his presence back, having announced himself since his last login, is announced
      as gone under the address of that login, once to each session he lets see him, and to nobody else. */
  lemma PartingAfterRun(p: Program, st: State, ops: seq<Op>, me: string, op: Op, k: string)
    requires Initial(st) && HomeRun(p, st, ops) && me in Run(p, st, ops).online && k != me
    requires op == GoUnavailable(me) || op == Disconnect(me) || op == RemoveAccount(me)
    ensures var s := Run(p, st, ops);
            Gets(s, Step(p, s, op), k,
                 if HasSent(st.domain, ops, me) && HasFrom(File(s, me), k)
                 then [Unavailable(AddressIn(st.domain, ops, me))] else [])
  {
    InitialInv(st);
    hide Initial, Inv, HomeRun, Run, Step, Gets, HasFrom, Shown, Address, LastShown, AddressIn, HasSent;
    RunInv(p, st, ops);
    var s := Run(p, st, ops);
    OutputStep(p, s, op, k);
    ShownIsHistory(p, st, ops, me);
    AvailableShown(s, me);
    if s.online[me].available {
      ShownHasSent(st.domain, ops, me);
    }
  }
}
