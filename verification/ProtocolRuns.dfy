/** The presence promises over whole runs, where they end, and what a broadcast delivers. */
module ProtocolRuns {
  import opened Options
  import opened Jid
  import opened Contacts
  import opened Protocol
  import opened ProtocolInvariant
  import opened ProtocolLaws
  import opened ProtocolPresence

  // ---- No stale availability, over runs ----

  predicate Calm(p: Program, st: State, op: Op, x: string, y: string) {
    !Forgets(st, op, x, y) && !(Strands(p, st, op, x, y) && Hears(st, Key(st, y), Key(st, x)))
  }

  predicate CalmRun(p: Program, st: State, ops: seq<Op>, x: string, y: string) {
    ops != [] ==>
      && CalmRun(p, st, ops[..|ops| - 1], x, y)
      && Calm(p, Run(p, st, ops[..|ops| - 1]), ops[|ops| - 1], x, y)
  }

  lemma RefusedPresence(p: Program, st: State, op: Op, x: string, y: string)
    requires Inv(st) && HomeOp(st, op) && !Accepted(p, st, op)
    ensures var t := Step(p, st, op);
            && (Fresh(st, x, y) ==> Fresh(t, x, y)) && (Reciprocal(st, x, y) ==> Reciprocal(t, x, y))
  {
    hide Inv, Told;
    NotAccepted(p, st, op);
    if op.RosterSet? || op.RosterRemove? {
      if op.me in st.online {
        HearsAfterRosterIq(p, st, op, Key(st, y), Key(st, x));
        RosterSetInv(p, st, op);
        QuietActive(st, Step(p, st, op), x);
      }
    }
  }

  /** After every calm run: whoever was last told that `x` is available is right, and still entitled to know. */
  lemma {:induction false} NoStaleAvailability(p: Program, st: State, ops: seq<Op>, x: string, y: string)
    requires Inv(st) && Reciprocal(st, x, y) && Fresh(st, x, y)
    requires HomeRun(p, st, ops) && CalmRun(p, st, ops, x, y)
    requires ValidName(x) && ValidName(y) && x != y
    ensures Fresh(Run(p, st, ops), x, y) && Reciprocal(Run(p, st, ops), x, y)
  {
    hide Inv, Step, Fresh, Reciprocal, Strands, Forgets;
    if ops != [] {
      var before, op := ops[..|ops| - 1], ops[|ops| - 1];
      NoStaleAvailability(p, st, before, x, y);
      RunInv(p, st, before);
      var s := Run(p, st, before);
      if Accepted(p, s, op) {
        FreshStep(p, s, op, x, y);
        ReciprocityStep(p, s, op, x, y);
      } else {
        RefusedPresence(p, s, op, x, y);
      }
    }
  }

  /** From a fresh start nobody has been told anything and nobody sees anyone. */
  lemma InitialPair(st: State, x: string, y: string)
    requires Initial(st)
    ensures Inv(st) && Reciprocal(st, x, y) && Matched(st, x, y) && Fresh(st, x, y)
  {
    InitialInv(st);
    NoItems(Key(st, x));
    NoItems(Key(st, y));
  }

  // ---- Where it ends: two short runs ----

  /** What one accepted step makes of a pair, gathered in one place. */
  lemma PairStep(p: Program, st: State, op: Op, x: string, y: string)
    requires Inv(st) && HomeOp(st, op) && Accepted(p, st, op) && ValidName(x) && ValidName(y) && x != y
    ensures var t := Step(p, st, op);
            && Inv(t) && t.domain == st.domain
            && Hears(t, Key(t, y), Key(t, x)) == HearsAfter(p, st, op, x, y)
            && Active(t, x) == ActiveAfter(st, op, x)
            && Lets(t, x, y) == LetsAfter(st, op, x, y) && Sees(t, y, x) == SeesAfter(st, op, y, x)
  {
    hide Inv, Step, Lets, Sees, Hears;
    StepInv(p, st, op);
    HearsStep(p, st, op, x, y);
    ActiveStep(p, st, op, x);
    RelationsAfter(p, st, op, x, y);
    RelationsAfter(p, st, op, y, x);
  }

  lemma StaysOnline(p: Program, st: State, op: Op, j: string)
    requires Inv(st) && HomeOp(st, op) && Accepted(p, st, op) && j in st.online
    requires op.GoAvailable? || IsSubscription(op) || (op.Bind? && Join(op.user, st.domain) != j)
    ensures j in Step(p, st, op).online
  {
    hide Inv, RosterOk, BecomeAvailable, Leave;
    if op.GoAvailable? {
      AvailableInv(st, op.me, op.body);
    } else if IsSubscription(op) {
      hide Step;
      SubscriptionInv(p, st, op);
      QuietOnline(st, Step(p, st, op));
    } else if op.user in st.disk && Join(op.user, st.domain) in st.online {
      LeaveInv(st, Join(op.user, st.domain));
    }
  }

  /** Another user's presence loads nobody's contact list. */
  lemma StaysUnloaded(st: State, me: string, body: string, j: string)
    requires Inv(st) && me in st.online && j in st.online && j != me
    ensures j in BecomeAvailable(st, me, body).online
    ensures BecomeAvailable(st, me, body).online[j].loaded == st.online[j].loaded
  {
    hide Inv, Fetched, Pending, Announced;
    AnnouncedInv(st, me, body);
  }

  lemma Bound(p: Program, st: State, user: string, resource: string)
    requires user in st.disk
    ensures var t, j := Step(p, st, Bind(user, resource)), Join(user, st.domain);
            j in t.online && !t.online[j].loaded
  {
  }

  lemma RunSnoc(p: Program, st: State, ops: seq<Op>, op: Op)
    ensures Run(p, st, ops + [op]) == Step(p, Run(p, st, ops), op)
    ensures HomeRun(p, st, ops + [op]) == (HomeRun(p, st, ops) && HomeOp(Run(p, st, ops), op))
  {
    assert (ops + [op])[..|ops + [op]| - 1] == ops;
  }

  lemma RunOne(p: Program, st: State, a: Op)
    ensures Run(p, st, [a]) == Step(p, st, a) && HomeRun(p, st, [a]) == HomeOp(st, a)
  {
    hide Step, HomeOp;
    assert [a][..0] == [];
  }

  lemma RunTwo(p: Program, st: State, a: Op, b: Op)
    ensures Run(p, st, [a, b]) == Step(p, Step(p, st, a), b)
    ensures HomeRun(p, st, [a, b]) == (HomeOp(st, a) && HomeOp(Step(p, st, a), b))
  {
    hide Run, HomeRun, Step, HomeOp;
    RunOne(p, st, a);
    RunSnoc(p, st, [a], b);
    assert [a, b] == [a] + [b];
  }

  /** A user of this server is at home in any state of any run. */
  lemma HomeKey(st: State, u: string)
    requires Inv(st) && ValidName(u)
    ensures Home(st, Key(st, u)) && Bare(Key(st, u)) == Key(st, u)
  {
    NamesAndKeys(st, u);
  }

  /** Two different users are online. */
  ghost predicate Scene(st: State, x: string, y: string) {
    Inv(st) && ValidName(x) && ValidName(y) && x != y && Key(st, x) in st.online && Key(st, y) in st.online
  }

  lemma SceneStep(p: Program, st: State, op: Op, x: string, y: string)
    requires Scene(st, x, y) && Accepted(p, st, op) && HomeOp(st, op)
    requires op.GoAvailable? || IsSubscription(op)
    ensures var t := Step(p, st, op);
            && Scene(t, x, y) && t.domain == st.domain
            && Hears(t, Key(t, y), Key(t, x)) == HearsAfter(p, st, op, x, y)
            && Active(t, x) == ActiveAfter(st, op, x)
            && Lets(t, x, y) == LetsAfter(st, op, x, y) && Sees(t, y, x) == SeesAfter(st, op, y, x)
  {
    hide Inv, Step, Lets, Sees, Hears, HearsAfter, ActiveAfter, LetsAfter, SeesAfter;
    PairStep(p, st, op, x, y);
    StaysOnline(p, st, op, Key(st, x));
    StaysOnline(p, st, op, Key(st, y));
  }

  lemma SceneBegins(p: Program, st: State, x: string, y: string)
    requires Inv(st) && x in st.disk && y in st.disk && x != y
    ensures var s1 := Step(p, st, Bind(x, "home"));
            var t := Step(p, s1, Bind(y, "work"));
            t.domain == st.domain && Scene(t, x, y)
  {
    hide Inv, Step;
    NameOf(st, x);
    NameOf(st, y);
    var s1 := Step(p, st, Bind(x, "home"));
    StepInv(p, st, Bind(x, "home"));
    Bound(p, st, x, "home");
    StepInv(p, s1, Bind(y, "work"));
    Bound(p, s1, y, "work");
    JoinInjective2(st, x, y);
    StaysOnline(p, s1, Bind(y, "work"), Key(st, x));
  }

  /** `x` is available, `y` asks and `x` approves. */
  function Approval(st: State, x: string, y: string): seq<Op> {
    [GoAvailable(Key(st, x), ""), Subscribe(Key(st, y), Key(st, x)), Subscribed(Key(st, x), Key(st, y))]
  }

  function Meeting(st: State, x: string, y: string): seq<Op> {
    [Bind(x, "home"), Bind(y, "work")] + Approval(st, x, y)
  }

  lemma AfterApproval(p: Program, st: State, x: string, y: string)
    requires Scene(st, x, y)
    ensures var X, Y := Key(st, x), Key(st, y);
            var s1 := Step(p, st, GoAvailable(X, ""));
            var s2 := Step(p, s1, Subscribe(Y, X));
            var t := Step(p, s2, Subscribed(X, Y));
            && HomeOp(s1, Subscribe(Y, X)) && HomeOp(s2, Subscribed(X, Y))
            && Scene(t, x, y) && t.domain == st.domain
            && Hears(t, Y, X) && Active(t, x) && Lets(t, x, y) && Sees(t, y, x)
  {
    hide Inv, Step, Lets, Sees, Hears, Knows, Bare, LocalPart;
    var X, Y := Key(st, x), Key(st, y);
    HomeKey(st, x);
    HomeKey(st, y);
    var s1 := Step(p, st, GoAvailable(X, ""));
    SceneStep(p, st, GoAvailable(X, ""), x, y);
    var s2 := Step(p, s1, Subscribe(Y, X));
    SceneStep(p, s1, Subscribe(Y, X), x, y);
    AskedKnows(p, s1, y, x);
    HomeKey(s2, y);
    SceneStep(p, s2, Subscribed(X, Y), x, y);
  }

  /** After meeting, `y` has been told that `x` is available, and both lists say so. */
  lemma AfterMeeting(p: Program, st: State, x: string, y: string)
    requires Initial(st) && x in st.disk && y in st.disk && x != y
    ensures var t := Run(p, st, Meeting(st, x, y));
            && HomeRun(p, st, Meeting(st, x, y))
            && Scene(t, x, y) && t.domain == st.domain
            && Hears(t, Key(st, y), Key(st, x)) && Active(t, x) && Lets(t, x, y) && Sees(t, y, x)
  {
    hide Inv, Step, Lets, Sees, Hears, Active, Scene, Run, HomeRun;
    InitialInv(st);
    SceneBegins(p, st, x, y);
    var bound := [Bind(x, "home"), Bind(y, "work")];
    RunTwo(p, st, Bind(x, "home"), Bind(y, "work"));
    AfterApproval(p, Run(p, st, bound), x, y);
    RunThree(p, st, bound, GoAvailable(Key(st, x), ""), Subscribe(Key(st, y), Key(st, x)), Subscribed(Key(st, x), Key(st, y)));
  }

  lemma RunThree(p: Program, st: State, ops: seq<Op>, a: Op, b: Op, c: Op)
    requires HomeRun(p, st, ops)
    requires var s := Run(p, st, ops);
             HomeOp(s, a) && HomeOp(Step(p, s, a), b) && HomeOp(Step(p, Step(p, s, a), b), c)
    ensures HomeRun(p, st, ops + [a, b, c])
    ensures Run(p, st, ops + [a, b, c]) == Step(p, Step(p, Step(p, Run(p, st, ops), a), b), c)
  {
    hide Step, Run, HomeRun, HomeOp;
    RunSnoc(p, st, ops, a);
    RunSnoc(p, st, ops + [a], b);
    RunSnoc(p, st, ops + [a] + [b], c);
    assert ops + [a, b, c] == ops + [a] + [b] + [c];
  }

  lemma JoinInjective2(st: State, x: string, y: string)
    requires x != y
    ensures Key(st, x) != Key(st, y)
  {
    if Key(st, x) == Key(st, y) {
      JoinInjective(x, y, st.domain);
    }
  }

  lemma AskedKnows(p: Program, st: State, y: string, x: string)
    requires Inv(st) && ValidName(x) && ValidName(y) && Key(st, y) in st.online
    requires HomeOp(st, Subscribe(Key(st, y), Key(st, x)))
    ensures Knows(Step(p, st, Subscribe(Key(st, y), Key(st, x))), y, x)
  {
    hide Inv, Step, Asked, Get;
    NamesAndKeys(st, x);
    NamesAndKeys(st, y);
    StepInv(p, st, Subscribe(Key(st, y), Key(st, x)));
    GetAfterAsk(OnDisk(st.disk, y), Key(st, x), Key(st, x));
  }

  /** In both programs: whoever unsubscribes keeps seeing the contact as available, because the notice of
      unavailability goes the other way. */
  lemma UnsubscribeStrands(p: Program, st: State, x: string, y: string)
    requires Initial(st) && x in st.disk && y in st.disk && x != y
    ensures var ops := Meeting(st, x, y) + [Unsubscribe(Key(st, y), Key(st, x))];
            HomeRun(p, st, ops) && !Fresh(Run(p, st, ops), x, y)
  {
    AfterMeeting(p, st, x, y);
    hide Inv, Step, Lets, Sees, Hears, Run, HomeRun, Meeting, Bare, Scene, Active, Fresh;
    var s := Run(p, st, Meeting(st, x, y));
    Abandons(p, s, x, y);
    RunSnoc(p, st, Meeting(st, x, y), Unsubscribe(Key(st, y), Key(st, x)));
  }

  lemma Abandons(p: Program, st: State, x: string, y: string)
    requires Scene(st, x, y)
    requires Hears(st, Key(st, y), Key(st, x)) && Active(st, x) && Lets(st, x, y)
    ensures HomeOp(st, Unsubscribe(Key(st, y), Key(st, x)))
    ensures !Fresh(Step(p, st, Unsubscribe(Key(st, y), Key(st, x))), x, y)
  {
    hide Inv, Step, Lets, Sees, Hears, Bare;
    HomeKey(st, x);
    FreshStep(p, st, Unsubscribe(Key(st, y), Key(st, x)), x, y);
  }

  /** `y` reconnects, and is told of `x`'s presence before asking for its contact list. */
  lemma BackUnloaded(p: Program, st: State, x: string, y: string)
    requires Scene(st, x, y) && y in st.disk && Lets(st, x, y)
    ensures var s1 := Step(p, st, Bind(y, "again"));
            var t := Step(p, s1, GoAvailable(Key(st, x), ""));
            && t.domain == st.domain && Scene(t, x, y) && !t.online[Key(st, y)].loaded
            && Hears(t, Key(st, y), Key(st, x)) && Active(t, x) && Lets(t, x, y)
  {
    hide Inv, Step, Lets, Sees, Hears;
    var X, Y := Key(st, x), Key(st, y);
    var s1 := Step(p, st, Bind(y, "again"));
    PairStep(p, st, Bind(y, "again"), x, y);
    Bound(p, st, y, "again");
    JoinInjective2(st, x, y);
    StaysOnline(p, st, Bind(y, "again"), X);
    SceneStep(p, s1, GoAvailable(X, ""), x, y);
    StillUnloaded(p, s1, X, "", Y);
  }

  lemma SceneOnDisk(st: State, x: string, y: string)
    requires Scene(st, x, y)
    ensures x in st.disk && y in st.disk
  {
    NamesAndKeys(st, x);
    NamesAndKeys(st, y);
  }

  /** Here the programs differ: `y` comes back, has not asked for its contact list yet, and `x` revokes.
      Go tells `y` that `x` is gone; C edits the file and leaves `y` with an outdated presence. */
  lemma RevocationStrandsInC(p: Program, st: State, x: string, y: string)
    requires Initial(st) && x in st.disk && y in st.disk && x != y
    ensures var X, Y := Key(st, x), Key(st, y);
            var ops := Meeting(st, x, y) + [Bind(y, "again")] + [GoAvailable(X, "")] + [Unsubscribed(X, Y)];
            HomeRun(p, st, ops) && (Fresh(Run(p, st, ops), x, y) <==> p.Go?)
  {
    AfterMeeting(p, st, x, y);
    hide Inv, Step, Lets, Sees, Hears, Run, HomeRun, Meeting, Bare;
    var X, Y := Key(st, x), Key(st, y);
    var ops := Meeting(st, x, y);
    var s := Run(p, st, ops);
    SceneOnDisk(s, x, y);
    BackUnloaded(p, s, x, y);
    RunSnoc(p, st, ops, Bind(y, "again"));
    RunSnoc(p, st, ops + [Bind(y, "again")], GoAvailable(X, ""));
    var s2 := Run(p, st, ops + [Bind(y, "again")] + [GoAvailable(X, "")]);
    HomeKey(s2, y);
    NotYetStale(p, s2, x, y);
    RunSnoc(p, st, ops + [Bind(y, "again")] + [GoAvailable(X, "")], Unsubscribed(X, Y));
  }

  lemma NotYetStale(p: Program, st: State, x: string, y: string)
    requires Scene(st, x, y) && !st.online[Key(st, y)].loaded
    requires Hears(st, Key(st, y), Key(st, x)) && Active(st, x) && Lets(st, x, y)
    ensures Fresh(Step(p, st, Unsubscribed(Key(st, x), Key(st, y))), x, y) <==> p.Go?
  {
    hide Inv, Step, Lets, Sees, Hears, Bare;
    HomeKey(st, y);
    FreshStep(p, st, Unsubscribed(Key(st, x), Key(st, y)), x, y);
  }

  lemma StillUnloaded(p: Program, st: State, me: string, body: string, j: string)
    requires Inv(st) && me in st.online && j in st.online && j != me
    ensures var t := Step(p, st, GoAvailable(me, body)); j in t.online && t.online[j].loaded == st.online[j].loaded
  {
    hide BecomeAvailable, Inv;
    StaysUnloaded(st, me, body, j);
  }

  // ---- Fan-out ----

  /** An available broadcast brings every other live user exactly one copy if the sender lets it see him,
      and nothing else; it changes no other session. */
  lemma FanOutExact(st: State, x: string, body: string, y: string)
    requires Inv(st) && ValidName(x) && ValidName(y) && x != y
    requires Key(st, x) in st.online && Key(st, y) in st.online
    ensures var X, Y := Key(st, x), Key(st, y);
            var t := BecomeAvailable(st, X, body);
            && Y in t.online
            && t.online[Y] == st.online[Y].(sent := st.online[Y].sent +
                 (if Lets(st, x, y) then [Available(FullJid(st, X), body)] else []))
            && (Reciprocal(st, x, y) && Sees(st, y, x) ==> t.online[Y].sent == st.online[Y].sent + [Available(FullJid(st, X), body)])
  {
    hide Inv, Fetched, Pending, Announced, HasFrom, HasTo;
    var X, Y := Key(st, x), Key(st, y);
    KeyFacts(st, X);
    NamesAndKeys(st, x);
    NamesAndKeys(st, y);
    AnnouncedInv(st, X, body);
    FromCountIs(Announced(st, X, body).online[X].roster, Y);
    assert Copies(Available(FullJid(st, X), body), 1) == [Available(FullJid(st, X), body)];
    assert Copies(Available(FullJid(st, X), body), 0) == [];
    assert st.online[Y].sent + [] == st.online[Y].sent;
  }

  // ---- Requests waiting for an answer ----

  lemma {:induction false} AsksIs(from: string, me: string, items: seq<Item>)
    requires RosterOk(items) && Bare(me) == me
    ensures Asks(from, me, items) ==
            if Get(items, me).Some? && Get(items, me).value.ask then [SubscribeNote(from, me)] else []
  {
    if items != [] {
      var n := |items| - 1;
      var front, it := items[..n], items[n];
      assert items == front + [it];
      assert ItemOk(it);
      AsksIs(from, me, front);
      var f := Find(front, me);
      if f >= 0 {
        FindIs(items, me, f);
      } else if it.jid == me {
        FindIs(items, me, n);
      } else {
        assert Find(items, me) < 0;
      }
    }
  }

  /** Does `j`'s session wait for an answer of `me`? */
  predicate Waits(st: State, me: string, j: string) {
    && j != me && j in st.online && st.online[j].loaded
    && Get(st.online[j].roster, me).Some? && Get(st.online[j].roster, me).value.ask
  }

  function Waiting(st: State, me: string, order: seq<string>): seq<Stanza> {
    if order == [] then []
    else
      var j := order[|order| - 1];
      Waiting(st, me, order[..|order| - 1]) + (if Waits(st, me, j) then [SubscribeNote(j, me)] else [])
  }

  lemma {:induction false} PendingIs(st: State, me: string, order: seq<string>)
    requires Inv(st) && Bare(me) == me
    ensures Pending(st, me, order) == Waiting(st, me, order)
  {
    if order != [] {
      var j := order[|order| - 1];
      PendingIs(st, me, order[..|order| - 1]);
      if j in st.online && st.online[j].loaded {
        assert ClientOk(st, j, st.online[j]);
        AsksIs(j, me, st.online[j].roster);
      }
    }
  }

  lemma {:induction false} WaitingCount(st: State, me: string, order: seq<string>, j: string)
    requires forall i, k | 0 <= i < k < |order| :: order[i] != order[k]
    ensures multiset(Waiting(st, me, order))[SubscribeNote(j, me)] ==
            if j in order && Waits(st, me, j) then 1 else 0
  {
    if order != [] {
      var front, last := order[..|order| - 1], order[|order| - 1];
      assert order == front + [last];
      WaitingCount(st, me, front, j);
    }
  }

  /** Each waiting session's request is delivered again exactly once, and nothing else is. */
  lemma PendingOncePerRequest(st: State, me: string, x: Stanza)
    requires Inv(st) && me in st.online
    ensures multiset(Pending(st, me, st.order))[x] ==
            if x.SubscribeNote? && x.to == me && Waits(st, me, x.from) then 1 else 0
  {
    KeyFacts(st, me);
    PendingIs(st, me, st.order);
    if x.SubscribeNote? && x.to == me {
      WaitingCount(st, me, st.order, x.from);
    } else {
      WaitingOnly(st, me, st.order, x);
    }
  }

  lemma {:induction false} WaitingOnly(st: State, me: string, order: seq<string>, x: Stanza)
    requires !(x.SubscribeNote? && x.to == me)
    ensures x !in Waiting(st, me, order)
  {
    if order != [] {
      WaitingOnly(st, me, order[..|order| - 1], x);
    }
  }

  // ---- Addresses of other servers ----

  /** What a subscription stanza does to the item of its sender in the target's list. */
  function Theirs(op: Op): Edit
    requires IsSubscription(op) && !op.Subscribe?
  {
    if op.Subscribed? then GainTo else if op.Unsubscribe? then LoseFrom else LoseTo
  }

  /** Does a session that has loaded the list of the account `u`, or is about to, miss a change of the sender's item? */
  predicate Misses(st: State, op: Op, u: string)
    requires IsSubscription(op) && !op.Subscribe?
  {
    var j, it := Key(st, u), Get(OnDisk(st.disk, u), op.me);
    && j in st.online && (st.online[j].loaded || j == op.me)
    && it.Some? && Apply(Theirs(op), it.value) != it.value
  }

  /** A target at another domain whose localpart is an account here: the handler edits that account's file behind
      the back of its session. The invariant survives exactly when no loaded list misses a change. */
  lemma ForeignTarget(p: Program, st: State, op: Op)
    requires Inv(st) && IsSubscription(op) && !op.Subscribe? && op.me in st.online && !Home(st, op.to)
    ensures Inv(Step(p, st, op)) <==> !Misses(st, op, LocalPart(Bare(op.to)))
  {
    hide Inv, Approve, Revoke, Misses;
    ForeignIsOffline(st, op.to);
    BareIdempotent(op.to);
    KeyFacts(st, op.me);
    match op
    case Subscribed(me, to) => ForeignApproval(p, st, op, me, to);
    case Unsubscribe(me, to) => ForeignCut(p, st, op, LoseTo, UnsubscribeNote(me, Bare(to)));
    case Unsubscribed(me, to) => ForeignCut(p, st, op, LoseFrom, UnsubscribedNote(me, Bare(to)));
    case _ =>
  }

  lemma ForeignIsOffline(st: State, to: string)
    requires Inv(st) && !Home(st, to)
    ensures Bare(to) !in st.online && LocalPart(Bare(to)) in st.disk
  {
    hide Inv;
    if Bare(to) in st.online {
      KeyFacts(st, Bare(to));
    }
  }

  lemma ForeignApproval(p: Program, st: State, op: Op, me: string, to: string)
    requires op == Subscribed(me, to) && Inv(st) && me in st.online && Bare(to) !in st.online && LocalPart(Bare(to)) in st.disk
    requires Bare(Bare(to)) == Bare(to) && Bare(me) == me
    ensures Inv(Approve(p, st, me, to)) <==> !Misses(st, op, LocalPart(Bare(to)))
  {
    hide Inv, ApproveOwn, Edited, RosterOk, Quiet;
    var b := Bare(to);
    ApproveOwnInv(st, me, b);
    OwnApprovalSeen(st, me, b, LocalPart(b));
    QuietOnline(st, ApproveOwn(st, me, b));
    BehindTheBack(ApproveOwn(st, me, b), LocalPart(b), me, GainTo);
  }

  lemma ForeignCut(p: Program, st: State, op: Op, mine: Edit, note: Stanza)
    requires (op.Unsubscribe? && mine.LoseTo?) || (op.Unsubscribed? && mine.LoseFrom?)
    requires Inv(st) && op.me in st.online && Bare(op.to) !in st.online && LocalPart(Bare(op.to)) in st.disk
    requires Bare(Bare(op.to)) == Bare(op.to) && Bare(op.me) == op.me
    ensures Inv(Revoke(p, st, op.me, op.to, mine, Theirs(op), note)) <==> !Misses(st, op, LocalPart(Bare(op.to)))
  {
    hide Inv, EditOwn, Edited, RosterOk, Quiet;
    var b := Bare(op.to);
    EditOwnInv(st, op.me, b, mine);
    OwnEditSeen(st, op.me, b, mine, LocalPart(b));
    QuietOnline(st, EditOwn(st, op.me, b, mine));
    BehindTheBack(EditOwn(st, op.me, b, mine), LocalPart(b), op.me, Theirs(op));
  }

  /** The sender's own half loads its list and leaves alone what any list says of the sender. */
  lemma OwnEditSeen(st: State, me: string, b: string, e: Edit, u: string)
    requires Inv(st) && me in st.online && Bare(b) == b && b != me
    ensures var t, j := EditOwn(st, me, b, e), Key(st, u);
            && Get(OnDisk(t.disk, u), me) == Get(OnDisk(st.disk, u), me)
            && (j in t.online && t.online[j].loaded <==> j in st.online && (st.online[j].loaded || j == me))
  {
    hide Inv, Edited, Get, Quiet, RosterOk;
    EditOwnInv(st, me, b, e);
    KeyFacts(st, me);
    GetAfterEdit(st.disk[st.online[me].local], b, e, me);
  }

  lemma OwnApprovalSeen(st: State, me: string, b: string, u: string)
    requires Inv(st) && me in st.online && Bare(b) == b && b != me
    ensures var t, j := ApproveOwn(st, me, b), Key(st, u);
            && Get(OnDisk(t.disk, u), me) == Get(OnDisk(st.disk, u), me)
            && (j in t.online && t.online[j].loaded <==> j in st.online && (st.online[j].loaded || j == me))
  {
    hide Inv, Approved, Get, Quiet, RosterOk;
    ApproveOwnInv(st, me, b);
    KeyFacts(st, me);
    GetAfterApproval(st.disk[st.online[me].local], b, me);
  }

  lemma EditShows(items: seq<Item>, jid: string, e: Edit)
    ensures Edited(items, jid, e) == items <==>
            (Get(items, jid).Some? ==> Apply(e, Get(items, jid).value) == Get(items, jid).value)
  {
  }

  lemma BehindTheBack(st: State, u: string, from: string, e: Edit)
    requires Inv(st) && u in st.disk && Bare(from) == from
    ensures var j, it := Key(st, u), Get(OnDisk(st.disk, u), from);
            Inv(st.(disk := Store(st.disk, u, Edited(OnDisk(st.disk, u), from, e)))) <==>
            !(j in st.online && st.online[j].loaded && it.Some? && Apply(e, it.value) != it.value)
  {
    hide Edited, Get, Apply;
    var items := Edited(OnDisk(st.disk, u), from, e);
    EditShows(OnDisk(st.disk, u), from, e);
    FileOk(st, u);
    EditOk(OnDisk(st.disk, u), from, e);
    var t := st.(disk := Store(st.disk, u, items));
    var j := Key(st, u);
    NameOf(st, u);
    NamesAndKeys(st, u);
    if j in st.online && st.online[j].loaded {
      assert ClientOk(st, j, st.online[j]);
      if items == OnDisk(st.disk, u) {
        assert t == st;
      } else {
        assert !ClientOk(t, j, t.online[j]);
      }
    } else {
      FileEditInv(st, u, items);
    }
  }
}
