/** What the protocol promises about pairs of users, step by step and over whole runs. */
module ProtocolLaws {
  import opened Options
  import opened Jid
  import opened Contacts
  import opened Protocol
  import opened ProtocolInvariant

  function Key(st: State, u: string): string {
    Join(u, st.domain)
  }

  /** `x`'s contact list lets `y` see `x`'s presence ("from" or "both"). */
  predicate Lets(st: State, x: string, y: string) {
    HasFrom(OnDisk(st.disk, x), Key(st, y))
  }

  /** `x`'s contact list says that `x` sees `y`'s presence ("to" or "both"). */
  predicate Sees(st: State, x: string, y: string) {
    HasTo(OnDisk(st.disk, x), Key(st, y))
  }

  predicate Knows(st: State, x: string, y: string) {
    Get(OnDisk(st.disk, x), Key(st, y)).Some?
  }

  /** `x` has asked to see `y`'s presence, and still waits for the answer. */
  predicate Awaits(st: State, x: string, y: string) {
    var it := Get(OnDisk(st.disk, x), Key(st, y));
    it.Some? && it.value.ask
  }

  // ---- The three relations after a step ----

  /** Each operation adds or removes one pair of "lets", whoever is online. */
  predicate LetsAfter(st: State, op: Op, x: string, y: string) {
    match op
    case RemoveAccount(me) => Lets(st, x, y) && Key(st, x) != me
    case Subscribed(me, to) => Lets(st, x, y) || (Key(st, x) == me && Key(st, y) == Bare(to))
    case Unsubscribe(me, to) => Lets(st, x, y) && !(Key(st, x) == Bare(to) && Key(st, y) == me)
    case Unsubscribed(me, to) => Lets(st, x, y) && !(Key(st, x) == me && Key(st, y) == Bare(to))
    case RosterRemove(me, jid) => Lets(st, x, y) && !(Key(st, x) == me && Key(st, y) == jid)
    case _ => Lets(st, x, y)
  }

  /** Each operation adds or removes one pair of "sees"; an approval adds it only to an item that is there. */
  predicate SeesAfter(st: State, op: Op, x: string, y: string) {
    match op
    case RemoveAccount(me) => Sees(st, x, y) && Key(st, x) != me
    case Subscribed(me, to) =>
      Sees(st, x, y) || (Key(st, x) == Bare(to) && Key(st, y) == me && (Knows(st, x, y) || x == y))
    case Unsubscribe(me, to) => Sees(st, x, y) && !(Key(st, x) == me && Key(st, y) == Bare(to))
    case Unsubscribed(me, to) => Sees(st, x, y) && !(Key(st, x) == Bare(to) && Key(st, y) == me)
    case RosterRemove(me, jid) => Sees(st, x, y) && !(Key(st, x) == me && Key(st, y) == jid)
    case _ => Sees(st, x, y)
  }

  /** `x` asks to see `y`. */
  predicate Requests(st: State, op: Op, x: string, y: string) {
    op.Subscribe? && Key(st, x) == op.me && Key(st, y) == Bare(op.to)
  }

  /** What ends `x`'s wait for `y`: `y` answers either way, or `x` takes the request back, with the item or the account too. */
  predicate Settles(st: State, op: Op, x: string, y: string) {
    match op
    case RemoveAccount(me) => Key(st, x) == me
    case Subscribed(me, to) => Key(st, y) == me && Key(st, x) == Bare(to)
    case Unsubscribe(me, to) => Key(st, x) == me && Key(st, y) == Bare(to)
    case Unsubscribed(me, to) => Key(st, y) == me && Key(st, x) == Bare(to)
    case RosterRemove(me, jid) => Key(st, x) == me && Key(st, y) == jid
    case _ => false
  }

  predicate AwaitsAfter(st: State, op: Op, x: string, y: string) {
    Requests(st, op, x, y) || (Awaits(st, x, y) && !Settles(st, op, x, y))
  }

  /** Addresses of users at this server are told apart by their names. */
  lemma NamesAndKeys(st: State, u: string)
    requires Inv(st) && ValidName(u)
    ensures LocalPart(Key(st, u)) == u && Bare(Key(st, u)) == Key(st, u) && Key(st, u) != ""
    ensures forall v | ValidName(v) && Key(st, v) == Key(st, u) :: v == u
    ensures Key(st, u) in st.online ==> st.online[Key(st, u)].local == u && u in st.disk
  {
    CutJoined(u, st.domain, "");
    forall v | ValidName(v) && Key(st, v) == Key(st, u) ensures v == u {
      CutJoined(v, st.domain, "");
    }
    if Key(st, u) in st.online {
      KeyFacts(st, Key(st, u));
    }
  }

  lemma FromHasItem(st: State, x: string, y: string)
    ensures Sees(st, x, y) || Lets(st, x, y) || Awaits(st, x, y) ==> Knows(st, x, y)
  {
  }

  /** Rewriting one item of one file. */
  lemma RelationsAfterEdit(st: State, t: State, u: string, jid: string, e: Edit, x: string, y: string)
    requires t.domain == st.domain && t.disk == Store(st.disk, u, Edited(OnDisk(st.disk, u), jid, e))
    ensures var hit := x == u && Key(st, y) == jid && Knows(st, x, y);
            && Lets(t, x, y) == (if hit && e.GainFrom? then true else Lets(st, x, y) && !(hit && e.LoseFrom?))
            && Sees(t, x, y) == (if hit && e.GainTo? then true else Sees(st, x, y) && !(hit && e.LoseTo?))
            && Knows(t, x, y) == Knows(st, x, y)
            && Awaits(t, x, y) == (Awaits(st, x, y) && !(hit && (e.GainTo? || e.LoseTo?)))
  {
    hide Edited, Get;
    NoItems(Key(st, y));
    GetAfterEdit(OnDisk(st.disk, u), jid, e, Key(st, y));
  }

  lemma RelationsAfterOwnApproval(st: State, t: State, u: string, b: string, x: string, y: string)
    requires u in st.disk
    requires t.domain == st.domain && t.disk == Store(st.disk, u, Approved(OnDisk(st.disk, u), b))
    ensures var hit := x == u && Key(st, y) == b;
            && Lets(t, x, y) == (Lets(st, x, y) || hit)
            && Sees(t, x, y) == Sees(st, x, y)
            && Knows(t, x, y) == (Knows(st, x, y) || hit)
            && Awaits(t, x, y) == Awaits(st, x, y)
  {
    hide Approved, Get;
    GetAfterApproval(OnDisk(st.disk, u), b, Key(st, y));
  }

  /** The target's file is named by the localpart of the target, and the target is a user of this server. */
  lemma TargetFile(st: State, me: string, to: string, x: string, y: string)
    requires Inv(st) && Home(st, to) && me in st.online && ValidName(x) && ValidName(y)
    ensures Key(st, x) == me <==> x == LocalPart(me)
    ensures Key(st, y) == me <==> y == LocalPart(me)
    ensures Key(st, x) == Bare(to) ==> x == LocalPart(Bare(to))
    ensures x == LocalPart(Bare(to)) && Key(st, x) != Bare(to) ==> x !in st.disk
    ensures LocalPart(me) in st.disk
  {
    hide Inv, RosterOk, ClientOk;
    KeyFacts(st, me);
    NamesAndKeys(st, x);
    NamesAndKeys(st, y);
  }

  lemma UnknownFile(st: State, x: string, y: string)
    requires x !in st.disk
    ensures !Knows(st, x, y)
  {
    NoItems(Key(st, y));
  }

  lemma RelationsAfterApproval(st: State, t: State, me: string, to: string, x: string, y: string)
    requires Inv(st) && Home(st, to) && me in st.online && ValidName(x) && ValidName(y)
    requires t.domain == st.domain && t.disk == DiskStep(st.disk, Subscribed(me, to))
    ensures Lets(t, x, y) == LetsAfter(st, Subscribed(me, to), x, y)
    ensures Sees(t, x, y) == SeesAfter(st, Subscribed(me, to), x, y)
    ensures Awaits(t, x, y) == AwaitsAfter(st, Subscribed(me, to), x, y)
  {
    TargetFile(st, me, to, x, y);
    hide Inv, Edited, Approved, Get, HasFrom, HasTo, Lets, Sees, Knows, Awaits;
    var b, u := Bare(to), LocalPart(me);
    var s1 := st.(disk := Store(st.disk, u, Approved(OnDisk(st.disk, u), b)));
    RelationsAfterOwnApproval(st, s1, u, b, x, y);
    RelationsAfterEdit(s1, t, LocalPart(b), me, GainTo, x, y);
    FromHasItem(st, x, y);
    if x !in st.disk {
      UnknownFile(st, x, y);
    }
  }

  lemma RelationsAfterRevoke(st: State, t: State, me: string, to: string, own: Edit, theirs: Edit,
                             x: string, y: string)
    requires Inv(st) && Home(st, to) && me in st.online && ValidName(x) && ValidName(y)
    requires (own == LoseTo && theirs == LoseFrom) || (own == LoseFrom && theirs == LoseTo)
    requires t.domain == st.domain
    requires t.disk == DiskAfterRevoke(st.disk, LocalPart(me), me, Bare(to), own, theirs)
    ensures var here := Key(st, x) == me && Key(st, y) == Bare(to);
            var there := Key(st, x) == Bare(to) && Key(st, y) == me;
            && Lets(t, x, y) == (Lets(st, x, y) && !(if own.LoseFrom? then here else there))
            && Sees(t, x, y) == (Sees(st, x, y) && !(if own.LoseTo? then here else there))
            && Awaits(t, x, y) == (Awaits(st, x, y) && !(if own.LoseTo? then here else there))
  {
    TargetFile(st, me, to, x, y);
    hide Inv, Edited, Get, HasFrom, HasTo, Lets, Sees, Knows, Awaits;
    var b, u := Bare(to), LocalPart(me);
    var s1 := st.(disk := Store(st.disk, u, Edited(OnDisk(st.disk, u), b, own)));
    RelationsAfterEdit(st, s1, u, b, own, x, y);
    RelationsAfterEdit(s1, t, LocalPart(b), me, theirs, x, y);
    FromHasItem(st, x, y);
    if x !in st.disk {
      UnknownFile(st, x, y);
    }
  }

  /** A contact-list request of `me` changes only what his own list says about one address. */
  lemma RelationsAfterRosterIq(st: State, t: State, op: Op, x: string, y: string)
    requires Inv(st) && ValidName(x) && ValidName(y)
    requires op.Subscribe? || op.RosterSet? || op.RosterRemove?
    requires op.me in st.online && t.domain == st.domain && t.disk == DiskStep(st.disk, op)
    ensures Lets(t, x, y) == LetsAfter(st, op, x, y)
    ensures Sees(t, x, y) == SeesAfter(st, op, x, y)
    ensures Awaits(t, x, y) == AwaitsAfter(st, op, x, y)
  {
    hide Inv, RosterOk, ClientOk, Asked, Renamed, Removed, Get, UniqueKeys, Bare, LocalPart;
    FileUnique(st, LocalPart(op.me));
    OwnFile(st, op.me, x);
    var items, k := OnDisk(st.disk, LocalPart(op.me)), Key(st, y);
    match op
    case Subscribe(me, to) => GetAfterAsk(items, Bare(to), k);
    case RosterSet(me, jid, name) => RenameKeepsSubscriptions(items, jid, name, k);
    case RosterRemove(me, jid) => GetAfterRemove(items, jid, k);
    case _ =>
  }

  lemma OwnFile(st: State, me: string, x: string)
    requires Inv(st) && me in st.online && ValidName(x)
    ensures LocalPart(me) in st.disk && (Key(st, x) == me <==> x == LocalPart(me))
  {
    hide Inv;
    NamesAndKeys(st, x);
    KeyFacts(st, me);
  }

  lemma RelationsAfterAccount(st: State, t: State, op: Op, x: string, y: string)
    requires Inv(st) && ValidName(x) && ValidName(y)
    requires op.CreateAccount? || (op.RemoveAccount? && op.me in st.online)
    requires t.domain == st.domain && t.disk == DiskStep(st.disk, op)
    ensures Lets(t, x, y) == LetsAfter(st, op, x, y)
    ensures Sees(t, x, y) == SeesAfter(st, op, x, y)
    ensures Awaits(t, x, y) == AwaitsAfter(st, op, x, y)
  {
    hide Inv, RosterOk, ClientOk, Get;
    NoItems(Key(st, y));
    NamesAndKeys(st, x);
    if op.RemoveAccount? {
      KeyFacts(st, op.me);
      assert Key(st, x) == op.me <==> x == LocalPart(op.me);
    }
  }

  /** The effect of any accepted operation on the three relations, for every pair of users,
      in both programs, whoever is online, loaded or offline. */
  lemma RelationsAfter(p: Program, st: State, op: Op, x: string, y: string)
    requires Inv(st) && HomeOp(st, op) && Accepted(p, st, op) && ValidName(x) && ValidName(y)
    ensures Lets(Step(p, st, op), x, y) == LetsAfter(st, op, x, y)
    ensures Sees(Step(p, st, op), x, y) == SeesAfter(st, op, x, y)
    ensures Awaits(Step(p, st, op), x, y) == AwaitsAfter(st, op, x, y)
  {
    hide Inv, Step, DiskAfterRevoke, DiskAfterApproval, HasFrom, HasTo;
    StepInv(p, st, op);
    var t := Step(p, st, op);
    match op
    case Subscribed(me, to) => RelationsAfterApproval(st, t, me, to, x, y);
    case Unsubscribe(me, to) => RelationsAfterRevoke(st, t, me, to, LoseTo, LoseFrom, x, y);
    case Unsubscribed(me, to) => RelationsAfterRevoke(st, t, me, to, LoseFrom, LoseTo, x, y);
    case CreateAccount(_) => RelationsAfterAccount(st, t, op, x, y);
    case RemoveAccount(_) => RelationsAfterAccount(st, t, op, x, y);
    case Subscribe(_, _) => RelationsAfterRosterIq(st, t, op, x, y);
    case RosterSet(_, _, _) => RelationsAfterRosterIq(st, t, AsTaken(p, op), x, y);
    case RosterRemove(_, _) => RelationsAfterRosterIq(st, t, op, x, y);
    case _ =>
  }

  lemma NoItems(jid: string)
    ensures Get([], jid).Nothing?
  {
  }

  lemma FileUnique(st: State, u: string)
    requires Inv(st)
    ensures UniqueKeys(OnDisk(st.disk, u))
  {
  }

  // ---- Reciprocity ----

  /** `y` believes to see `x` only if `x` lets `y` see. */
  predicate Reciprocal(st: State, x: string, y: string) {
    Sees(st, y, x) ==> Lets(st, x, y)
  }

  predicate Matched(st: State, x: string, y: string) {
    Sees(st, y, x) <==> Lets(st, x, y)
  }

  /** The only operations that end reciprocity: `x` forgets a watcher without a word to him. */
  predicate Forgets(st: State, op: Op, x: string, y: string) {
    && x != y
    && ((op.RosterRemove? && op.me == Key(st, x) && op.jid == Key(st, y))
        || (op.RemoveAccount? && op.me == Key(st, x)))
  }

  /** An accepted step keeps reciprocity exactly when it is not such a removal of a live watcher. */
  lemma ReciprocityStep(p: Program, st: State, op: Op, x: string, y: string)
    requires Inv(st) && HomeOp(st, op) && Accepted(p, st, op) && ValidName(x) && ValidName(y)
    requires Reciprocal(st, x, y)
    ensures Reciprocal(Step(p, st, op), x, y) <==> !(Forgets(st, op, x, y) && Sees(st, y, x))
  {
    hide Inv, Step, HasFrom, HasTo;
    RelationsAfter(p, st, op, x, y);
    RelationsAfter(p, st, op, y, x);
    NamesAndKeys(st, x);
    NamesAndKeys(st, y);
  }

  /** What ends the two-way agreement: a removal on either side, or an approval nobody asked for. */
  predicate Unmatches(st: State, op: Op, x: string, y: string) {
    && x != y
    && (((Forgets(st, op, x, y) || Forgets(st, op, y, x)) && Lets(st, x, y))
        || (op.Subscribed? && op.me == Key(st, x) && Bare(op.to) == Key(st, y) && !Knows(st, y, x)))
  }

  lemma MatchedStep(p: Program, st: State, op: Op, x: string, y: string)
    requires Inv(st) && HomeOp(st, op) && Accepted(p, st, op) && ValidName(x) && ValidName(y)
    requires Matched(st, x, y)
    ensures Matched(Step(p, st, op), x, y) <==> !Unmatches(st, op, x, y)
  {
    hide Inv, Step, HasFrom, HasTo;
    RelationsAfter(p, st, op, x, y);
    RelationsAfter(p, st, op, y, x);
    NamesAndKeys(st, x);
    NamesAndKeys(st, y);
    FromHasItem(st, y, x);
  }

  // ---- Runs ----

  predicate HomeRun(p: Program, st: State, ops: seq<Op>) {
    ops != [] ==>
      && HomeRun(p, st, ops[..|ops| - 1])
      && HomeOp(Run(p, st, ops[..|ops| - 1]), ops[|ops| - 1])
  }

  lemma InitialInv(st: State)
    requires Initial(st)
    ensures Inv(st)
  {
  }

  lemma {:induction false} RunInv(p: Program, st: State, ops: seq<Op>)
    requires Inv(st) && HomeRun(p, st, ops)
    ensures Inv(Run(p, st, ops)) && Run(p, st, ops).domain == st.domain
  {
    hide Inv;
    if ops != [] {
      RunInv(p, st, ops[..|ops| - 1]);
      StepInv(p, Run(p, st, ops[..|ops| - 1]), ops[|ops| - 1]);
    }
  }

  lemma NotAccepted(p: Program, st: State, op: Op)
    requires Inv(st) && HomeOp(st, op) && !Accepted(p, st, op)
    ensures Step(p, st, op).disk == st.disk && Step(p, st, op).domain == st.domain
  {
    hide Inv;
    StepInv(p, st, op);
  }

  /** After every run in which `x` has not forgotten `y`, the two contact lists are views of one relation. */
  lemma {:induction false} ReciprocityForever(p: Program, st: State, ops: seq<Op>, x: string, y: string)
    requires Inv(st) && Reciprocal(st, x, y) && HomeRun(p, st, ops) && ValidName(x) && ValidName(y)
    requires forall i | 0 <= i < |ops| :: !Forgets(st, ops[i], x, y)
    ensures Reciprocal(Run(p, st, ops), x, y)
  {
    hide Inv, Reciprocal, Step;
    if ops != [] {
      var before := ops[..|ops| - 1];
      var op := ops[|ops| - 1];
      forall i | 0 <= i < |before| ensures !Forgets(st, before[i], x, y) {
        assert before[i] == ops[i];
      }
      ReciprocityForever(p, st, before, x, y);
      RunInv(p, st, before);
      var s := Run(p, st, before);
      if Accepted(p, s, op) {
        ReciprocityStep(p, s, op, x, y);
      } else {
        NotAccepted(p, s, op);
        SameFilesReciprocal(s, Step(p, s, op), x, y);
      }
    }
  }

  /** No accepted operation of the run is a removal that hits the pair, or an approval that answers no item. */
  predicate MatchingRun(p: Program, st: State, ops: seq<Op>, x: string, y: string) {
    ops != [] ==>
      && MatchingRun(p, st, ops[..|ops| - 1], x, y)
      && var s := Run(p, st, ops[..|ops| - 1]);
         Accepted(p, s, ops[|ops| - 1]) ==> !Unmatches(s, ops[|ops| - 1], x, y)
  }

  /** After every such run `y` sees `x` exactly if `x` lets `y` see. */
  lemma {:induction false} MatchedForever(p: Program, st: State, ops: seq<Op>, x: string, y: string)
    requires Inv(st) && Matched(st, x, y) && HomeRun(p, st, ops) && ValidName(x) && ValidName(y)
    requires MatchingRun(p, st, ops, x, y)
    ensures Matched(Run(p, st, ops), x, y)
  {
    hide Inv, Matched, Unmatches, Step;
    if ops != [] {
      var before, op := ops[..|ops| - 1], ops[|ops| - 1];
      MatchedForever(p, st, before, x, y);
      RunInv(p, st, before);
      var s := Run(p, st, before);
      if Accepted(p, s, op) {
        MatchedStep(p, s, op, x, y);
      } else {
        NotAccepted(p, s, op);
        SameFilesMatched(s, Step(p, s, op), x, y);
      }
    }
  }

  lemma SameFilesMatched(s: State, t: State, x: string, y: string)
    requires s.disk == t.disk && s.domain == t.domain && Matched(s, x, y)
    ensures Matched(t, x, y)
  {
  }

  lemma SameFilesReciprocal(s: State, t: State, x: string, y: string)
    requires s.disk == t.disk && s.domain == t.domain && Reciprocal(s, x, y)
    ensures Reciprocal(t, x, y)
  {
  }

  // ---- Sessions and files agree ----

  /** The operations that change files. */
  predicate ChangesFiles(op: Op) {
    !(op.Bind? || op.Disconnect? || op.GoAvailable? || op.GoUnavailable? || op.RosterGet?)
  }

  function Taken(p: Program, ops: seq<Op>): seq<Op> {
    if ops == [] then [] else Taken(p, ops[..|ops| - 1]) + [AsTaken(p, ops[|ops| - 1])]
  }

  /** The file-changing operations of a run, as the program takes them. */
  function FilesOnly(p: Program, ops: seq<Op>): seq<Op> {
    if ops == [] then []
    else FilesOnly(p, ops[..|ops| - 1]) + (if ChangesFiles(ops[|ops| - 1]) then [AsTaken(p, ops[|ops| - 1])] else [])
  }

  function DiskRun(disk: map<string, seq<Item>>, ops: seq<Op>): map<string, seq<Item>> {
    if ops == [] then disk else DiskStep(DiskRun(disk, ops[..|ops| - 1]), ops[|ops| - 1])
  }

  predicate AcceptedRun(p: Program, st: State, ops: seq<Op>) {
    ops != [] ==>
      && AcceptedRun(p, st, ops[..|ops| - 1])
      && Accepted(p, Run(p, st, ops[..|ops| - 1]), ops[|ops| - 1])
  }

  lemma DiskRunSnoc(disk: map<string, seq<Item>>, ops: seq<Op>, op: Op)
    ensures DiskRun(disk, ops + [op]) == DiskStep(DiskRun(disk, ops), op)
  {
    hide DiskStep;
    assert (ops + [op])[..|ops|] == ops;
  }

  /** Connections and presences do not matter for the files. */
  lemma {:induction false} DiskRunOnly(p: Program, disk: map<string, seq<Item>>, ops: seq<Op>)
    ensures DiskRun(disk, Taken(p, ops)) == DiskRun(disk, FilesOnly(p, ops))
  {
    if ops != [] {
      hide DiskRun, AsTaken;
      var before, op := ops[..|ops| - 1], ops[|ops| - 1];
      DiskRunOnly(p, disk, before);
      DiskRunSnoc(disk, Taken(p, before), AsTaken(p, op));
      DiskRunSnoc(disk, FilesOnly(p, before), AsTaken(p, op));
      TakenKind(p, disk, op);
      TakenKind(p, DiskRun(disk, Taken(p, before)), op);
      assert ChangesFiles(op) || FilesOnly(p, ops) == FilesOnly(p, before);
    }
  }

  lemma TakenKind(p: Program, disk: map<string, seq<Item>>, op: Op)
    ensures !ChangesFiles(op) ==> DiskStep(disk, AsTaken(p, op)) == disk
  {
  }

  /** The files after a run are computed from the files before it: sessions are only a cache. */
  lemma {:induction false} FilesAfterRun(p: Program, st: State, ops: seq<Op>)
    requires Inv(st) && HomeRun(p, st, ops) && AcceptedRun(p, st, ops)
    ensures Run(p, st, ops).disk == DiskRun(st.disk, Taken(p, ops))
    ensures var t := Run(p, st, ops);
            forall j | j in t.online && t.online[j].loaded ::
              t.online[j].local in t.disk && t.online[j].roster == t.disk[t.online[j].local]
  {
    RunInv(p, st, ops);
    CachesEqualFiles(Run(p, st, ops));
    hide Inv, DiskRun, DiskStep, Step, AsTaken, Accepted, HomeOp;
    if ops == [] {
      NothingRun(st.disk);
    } else {
      var before := ops[..|ops| - 1];
      FilesAfterRun(p, st, before);
      RunInv(p, st, before);
      StepInv(p, Run(p, st, before), ops[|ops| - 1]);
      DiskRunSnoc(st.disk, Taken(p, before), AsTaken(p, ops[|ops| - 1]));
    }
  }

  lemma NothingRun(disk: map<string, seq<Item>>)
    ensures DiskRun(disk, []) == disk
  {
  }

  lemma CachesEqualFiles(st: State)
    requires Inv(st)
    ensures forall j | j in st.online && st.online[j].loaded ::
              st.online[j].local in st.disk && st.online[j].roster == st.disk[st.online[j].local]
  {
    forall j | j in st.online && st.online[j].loaded
      ensures st.online[j].local in st.disk && st.online[j].roster == st.disk[st.online[j].local]
    {
      assert ClientOk(st, j, st.online[j]);
    }
  }

  /** Two servers, in either language, that start from the same files and accept the same file-changing operations (an
      empty name is none in Go) end with the same files, however connections and presences were mixed in. */
  lemma OnlineAndOfflineAgree(p: Program, st: State, ops: seq<Op>, q: Program, st': State, ops': seq<Op>)
    requires Inv(st) && HomeRun(p, st, ops) && AcceptedRun(p, st, ops)
    requires Inv(st') && HomeRun(q, st', ops') && AcceptedRun(q, st', ops')
    requires st.disk == st'.disk && FilesOnly(p, ops) == FilesOnly(q, ops')
    ensures Run(p, st, ops).disk == Run(q, st', ops').disk
  {
    FilesAfterRun(p, st, ops);
    FilesAfterRun(q, st', ops');
    DiskRunOnly(p, st.disk, ops);
    DiskRunOnly(q, st'.disk, ops');
  }
}
