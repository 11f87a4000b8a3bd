/** The subscription and presence protocol on values: what both servers keep, and what each stanza does to it.
    A user is named by a localpart, a live session by the bare address it is registered under. */
module Protocol {
  import opened Options
  import opened Jid
  import opened Contacts

  datatype Stanza =
    | Available(from: string, body: string)
    | Unavailable(from: string)
    | SubscribeNote(from: string, to: string)
    | SubscribedNote(from: string, to: string)
    | UnsubscribeNote(from: string, to: string)
    | UnsubscribedNote(from: string, to: string)
    | Push(item: Item)
    | PushRemoved(jid: string)
    | Result
    | ErrorReply

  datatype Client = Client(
    local: string,
    resource: string,
    available: bool,
    initialSent: bool,
    presence: Option<Stanza>,
    loaded: bool,
    roster: seq<Item>,
    sent: seq<Stanza>)

  datatype State = State(
    domain: string,
    online: map<string, Client>,
    order: seq<string>,
    disk: map<string, seq<Item>>)

  /** The two programs; they part ways when the target is online but its contact list is not loaded. */
  datatype Program = Go | C

  datatype Op =
    | CreateAccount(user: string)
    | RemoveAccount(me: string)
    | Bind(user: string, resource: string)
    | Disconnect(me: string)
    | GoAvailable(me: string, body: string)
    | GoUnavailable(me: string)
    | Subscribe(me: string, to: string)
    | Subscribed(me: string, to: string)
    | Unsubscribe(me: string, to: string)
    | Unsubscribed(me: string, to: string)
    | RosterGet(me: string)
    | RosterSet(me: string, jid: string, name: Option<string>)
    | RosterRemove(me: string, jid: string)

  // ---- Parts of a step ----

  function OnDisk(disk: map<string, seq<Item>>, user: string): seq<Item> {
    if user in disk then disk[user] else []
  }

  /** Saving succeeds only while the account's directory exists. */
  function Store(disk: map<string, seq<Item>>, user: string, items: seq<Item>): map<string, seq<Item>> {
    if user in disk then disk[user := items] else disk
  }

  function Put(st: State, j: string, c: Client): State {
    st.(online := st.online[j := c])
  }

  function FullJid(st: State, j: string): string
    requires j in st.online
  {
    Full(st.online[j].local, st.domain, st.online[j].resource)
  }

  function Load(st: State, j: string): State
    requires j in st.online
  {
    var c := st.online[j];
    if c.loaded then st else Put(st, j, c.(loaded := true, roster := OnDisk(st.disk, c.local)))
  }

  function SaveRoster(st: State, j: string, items: seq<Item>): State
    requires j in st.online
  {
    var c := st.online[j];
    Put(st, j, c.(roster := items)).(disk := Store(st.disk, c.local, items))
  }

  function SendTo(st: State, j: string, x: Stanza): State {
    SendAll(st, j, [x])
  }

  function SendAll(st: State, j: string, xs: seq<Stanza>): State {
    if j in st.online then Put(st, j, st.online[j].(sent := st.online[j].sent + xs)) else st
  }

  // ---- Available and unavailable ----

  function Copies(x: Stanza, n: nat): seq<Stanza> {
    seq(n, i => x)
  }

  /** How many items address `j` and let it see our presence. */
  function FromCount(items: seq<Item>, j: string): nat {
    if items == [] then 0
    else
      var it := items[|items| - 1];
      FromCount(items[..|items| - 1], j) + (if it.subscription.HasFrom() && Bare(it.jid) == j then 1 else 0)
  }

  /** Send `x` to every live contact that may see our presence, once per item. */
  function Fan(st: State, items: seq<Item>, x: Stanza, except: string): State {
    st.(online := map j | j in st.online ::
      if j == except then st.online[j]
      else st.online[j].(sent := st.online[j].sent + Copies(x, FromCount(items, j))))
  }

  /** What one item lets us see right now. */
  function Glimpse(st: State, it: Item): seq<Stanza> {
    var j := Bare(it.jid);
    if it.subscription.HasTo() && j in st.online && st.online[j].available && st.online[j].presence.Some?
    then [st.online[j].presence.value] else []
  }

  /** The presences we may see, in the order of our contact list. */
  function Fetched(st: State, items: seq<Item>): seq<Stanza> {
    if items == [] then []
    else Fetched(st, items[..|items| - 1]) + Glimpse(st, items[|items| - 1])
  }

  function Asks(from: string, me: string, items: seq<Item>): seq<Stanza> {
    if items == [] then []
    else
      var it := items[|items| - 1];
      Asks(from, me, items[..|items| - 1]) +
      (if it.ask && Bare(it.jid) == me then [SubscribeNote(from, me)] else [])
  }

  function Pending(st: State, me: string, order: seq<string>): seq<Stanza> {
    if order == [] then []
    else
      var j := order[|order| - 1];
      Pending(st, me, order[..|order| - 1]) +
      (if j != me && j in st.online && st.online[j].loaded then Asks(j, me, st.online[j].roster) else [])
  }

  /** No bare address is empty, so this excludes nobody from a broadcast. */
  const NOBODY := ""

  /** The sender's own part of an available presence: remember the stanza, load the contact list. */
  function Announced(st: State, me: string, body: string): State
    requires me in st.online
  {
    var pres := Available(FullJid(st, me), body);
    Load(Put(st, me, st.online[me].(available := true, presence := Some(pres))), me)
  }

  function BecomeAvailable(st: State, me: string, body: string): State
    requires me in st.online
  {
    var pres := Available(FullJid(st, me), body);
    var initial := !st.online[me].available;
    var s1 := Announced(st, me, body);
    var items := s1.online[me].roster;
    var s2 := Fan(s1, items, pres, NOBODY);
    var s3 := SendAll(s2, me, Fetched(s2, items));
    if initial then
      var s4 := Put(s3, me, s3.online[me].(initialSent := true));
      SendAll(s4, me, Pending(s4, me, s4.order))
    else
      s3
  }

  function BroadcastUnavailable(st: State, me: string): State
    requires me in st.online
  {
    if !st.online[me].available && !st.online[me].initialSent then st
    else
      var s1 := Load(st, me);
      var s2 := Fan(s1, s1.online[me].roster, Unavailable(FullJid(st, me)), me);
      Put(s2, me, s2.online[me].(available := false))
  }

  /** Swap-removal from the list of sessions. */
  function Dropped(order: seq<string>, j: string): seq<string> {
    var i := FirstAt(order, j);
    if i < 0 then order
    else order[i := order[|order| - 1]][..|order| - 1]
  }

  function FirstAt(order: seq<string>, j: string): (i: int)
    ensures -1 <= i < |order|
    ensures i >= 0 ==> order[i] == j && forall k | 0 <= k < i :: order[k] != j
    ensures i < 0 ==> j !in order
  {
    if order == [] then -1
    else if order[0] == j then 0
    else
      var rest := FirstAt(order[1..], j);
      assert order == [order[0]] + order[1..];
      assert forall k | 1 <= k < |order| :: order[k] == order[1..][k - 1];
      if rest < 0 then -1 else rest + 1
  }

  function Leave(st: State, me: string): State
    requires me in st.online
  {
    var s1 := BroadcastUnavailable(st, me);
    s1.(online := s1.online - {me}, order := Dropped(s1.order, me))
  }

  function Join1(st: State, me: string, user: string, resource: string): State {
    Put(st, me, Client(user, resource, false, false, Nothing, false, [], [])).(order := st.order + [me])
  }

  /** A new session; an older one of the same user leaves first. */
  function Arrive(st: State, user: string, resource: string): State {
    var me := Join(user, st.domain);
    Join1(if me in st.online then Leave(st, me) else st, me, user, resource)
  }

  function Expel(st: State, me: string): State
    requires me in st.online
  {
    Leave(st.(disk := st.disk - {st.online[me].local}), me)
  }

  // ---- Subscriptions ----

  function PushItem(st: State, j: string, jid: string): State
    requires j in st.online
  {
    match Get(st.online[j].roster, jid)
    case Some(it) => SendTo(st, j, Push(it))
    case Nothing => st
  }

  function AskFor(st: State, me: string, to: string): State
    requires me in st.online
  {
    var b := Bare(to);
    var s1 := Load(st, me);
    var s2 := PushItem(SaveRoster(s1, me, Asked(s1.online[me].roster, b)), me, b);
    SendTo(s2, b, SubscribeNote(me, b))
  }

  /** Does the handler work on the target's session, or on its file? */
  predicate SeesRoster(p: Program, st: State, j: string) {
    j in st.online && (p.Go? || st.online[j].loaded)
  }

  /** The target's half of a subscription change. */
  function EditTarget(p: Program, st: State, target: string, from: string, e: Edit): State {
    if SeesRoster(p, st, target) then
      var s1 := Load(st, target);
      if Get(s1.online[target].roster, from).Some? || e.GainTo?
      then PushItem(SaveRoster(s1, target, Edited(s1.online[target].roster, from, e)), target, from)
      else s1
    else
      var user := LocalPart(target);
      st.(disk := Store(st.disk, user, Edited(OnDisk(st.disk, user), from, e)))
  }

  function Current(c: Client): seq<Stanza> {
    if c.available && c.presence.Some? then [c.presence.value] else []
  }

  /** The approver's half of `subscribed`. */
  function ApproveOwn(st: State, me: string, b: string): State
    requires me in st.online
  {
    var s1 := Load(st, me);
    PushItem(SaveRoster(s1, me, Approved(s1.online[me].roster, b)), me, b)
  }

  function Approve(p: Program, st: State, me: string, to: string): State
    requires me in st.online
  {
    var b := Bare(to);
    var s1 := ApproveOwn(st, me, b);
    var s2 := EditTarget(p, s1, b, me, GainTo);
    SendAll(s2, b, Current(s2.online[me]) + [SubscribedNote(me, b)])
  }

  /** The sender's half of `unsubscribe` and `unsubscribed`: nothing happens to a missing item. */
  function EditOwn(st: State, me: string, b: string, e: Edit): State
    requires me in st.online
  {
    var s1 := Load(st, me);
    if Get(s1.online[me].roster, b).Some?
    then PushItem(SaveRoster(s1, me, Edited(s1.online[me].roster, b, e)), me, b)
    else s1
  }

  function Farewell(st: State, me: string): seq<Stanza>
    requires me in st.online
  {
    if st.online[me].available then [Unavailable(FullJid(st, me))] else []
  }

  /** `unsubscribe` and `unsubscribed`: both sides lose one direction; the target is told if its list is in hand. */
  function Revoke(p: Program, st: State, me: string, to: string, own: Edit, theirs: Edit, note: Stanza): State
    requires me in st.online
  {
    var b := Bare(to);
    var s1 := EditOwn(st, me, b, own);
    var s2 := EditTarget(p, s1, b, me, theirs);
    if SeesRoster(p, s1, b) then SendAll(s2, b, [note] + Farewell(s2, me)) else s2
  }

  // ---- Contact-list requests ----

  /** Go takes an empty name for none. */
  function NameFor(p: Program, name: Option<string>): Option<string> {
    if p.Go? && name == Some("") then Nothing else name
  }

  /** The operation as the program takes it. */
  function AsTaken(p: Program, op: Op): Op {
    if op.RosterSet? then op.(name := NameFor(p, op.name)) else op
  }

  /** Add or rename a contact. Go refuses an empty address. */
  function SetContact(p: Program, st: State, me: string, jid: string, name: Option<string>): State
    requires me in st.online
  {
    var s1 := Load(st, me);
    if jid == "" && p.Go? then SendTo(s1, me, ErrorReply)
    else PushItem(SendTo(SaveRoster(s1, me, Renamed(s1.online[me].roster, jid, name)), me, Result), me, jid)
  }

  function RemoveContact(p: Program, st: State, me: string, jid: string): State
    requires me in st.online
  {
    var s1 := Load(st, me);
    if jid == "" && p.Go? then SendTo(s1, me, ErrorReply)
    else SendAll(SaveRoster(s1, me, Removed(s1.online[me].roster, jid)), me, [Result, PushRemoved(jid)])
  }

  // ---- The step ----

  function Sender(op: Op): Option<string> {
    match op
    case CreateAccount(_) => Nothing
    case Bind(_, _) => Nothing
    case _ => Some(op.me)
  }

  /** What one stanza, one connection or one account change does. A stanza needs a live session to come from. */
  function Step(p: Program, st: State, op: Op): State {
    if Sender(op).Some? && Sender(op).value !in st.online then st
    else
      match op
      case CreateAccount(user) =>
        if user in st.disk || !ValidName(user) then st else st.(disk := st.disk[user := []])
      case RemoveAccount(me) => Expel(st, me)
      case Bind(user, resource) => if user in st.disk then Arrive(st, user, resource) else st
      case Disconnect(me) => Leave(st, me)
      case GoAvailable(me, body) => BecomeAvailable(st, me, body)
      case GoUnavailable(me) => BroadcastUnavailable(st, me)
      case Subscribe(me, to) => AskFor(st, me, to)
      case Subscribed(me, to) => Approve(p, st, me, to)
      case Unsubscribe(me, to) => Revoke(p, st, me, to, LoseTo, LoseFrom, UnsubscribeNote(me, Bare(to)))
      case Unsubscribed(me, to) => Revoke(p, st, me, to, LoseFrom, LoseTo, UnsubscribedNote(me, Bare(to)))
      case RosterGet(me) => SendTo(Load(st, me), me, Result)
      case RosterSet(me, jid, name) => SetContact(p, st, me, jid, NameFor(p, name))
      case RosterRemove(me, jid) => RemoveContact(p, st, me, jid)
  }

  function Run(p: Program, st: State, ops: seq<Op>): State {
    if ops == [] then st else Step(p, Run(p, st, ops[..|ops| - 1]), ops[|ops| - 1])
  }

  /** A server that has just started, with accounts but no sessions and empty contact lists. */
  predicate Initial(st: State) {
    && ValidDomain(st.domain)
    && st.online == map[] && st.order == []
    && forall u | u in st.disk :: ValidName(u) && st.disk[u] == []
  }
}
