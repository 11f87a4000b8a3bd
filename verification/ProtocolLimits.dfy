/** Runs from a fresh start at whose end the promises do not hold. */
module ProtocolLimits {
  import opened Options
  import opened Jid
  import opened Contacts
  import opened Protocol
  import opened ProtocolInvariant
  import opened ProtocolLaws
  import opened ProtocolPresence
  import opened ProtocolRuns
  import opened ProtocolNotes

  /** `x` lets `y` see his presence and then removes `y` from his list: `y` goes on believing. */
  lemma RemovalEndsReciprocity(p: Program, st: State, x: string, y: string)
    requires Initial(st) && x in st.disk && y in st.disk && x != y
    ensures var ops := Meeting(st, x, y) + [RosterRemove(Key(st, x), Key(st, y))];
            HomeRun(p, st, ops) && !Reciprocal(Run(p, st, ops), x, y)
  {
    AfterMeeting(p, st, x, y);
    hide Inv, Step, Lets, Sees, Run, HomeRun, HomeOp, Meeting, Scene, Reciprocal, Hears, Active;
    Forgetting(p, Run(p, st, Meeting(st, x, y)), x, y);
    RunSnoc(p, st, Meeting(st, x, y), RosterRemove(Key(st, x), Key(st, y)));
  }

  lemma Forgetting(p: Program, st: State, x: string, y: string)
    requires Scene(st, x, y) && Lets(st, x, y) && Sees(st, y, x)
    ensures var op := RosterRemove(Key(st, x), Key(st, y));
            HomeOp(st, op) && !Reciprocal(Step(p, st, op), x, y)
  {
    hide Inv, Step, Lets, Sees;
    NamesAndKeys(st, y);
    ReciprocityStep(p, st, RosterRemove(Key(st, x), Key(st, y)), x, y);
  }

  /** `x` approves a request that `y` never made: `x` lets `y` see, and `y` does not know. */
  lemma UnaskedApprovalUnmatches(p: Program, st: State, x: string, y: string)
    requires Initial(st) && x in st.disk && y in st.disk && x != y
    ensures var ops := [Bind(x, "home"), Bind(y, "work")] + [Subscribed(Key(st, x), Key(st, y))];
            HomeRun(p, st, ops) && !Matched(Run(p, st, ops), x, y)
  {
    InitialPair(st, x, y);
    NothingKnown(st, x, y);
    hide Inv, Step, Lets, Sees, Knows, Run, HomeRun, Matched, Initial, Scene, HomeOp;
    var ops := [Bind(x, "home"), Bind(y, "work")];
    SceneBegins(p, st, x, y);
    RunTwo(p, st, Bind(x, "home"), Bind(y, "work"));
    BindsKeepFiles(p, st, x, y);
    BindsAreHome(st, x, "home");
    BindsAreHome(Step(p, st, Bind(x, "home")), y, "work");
    SameFilesMatched(st, Run(p, st, ops), x, y);
    SameFilesKnown(st, Run(p, st, ops), y, x);
    Strangers(p, Run(p, st, ops), x, y);
    RunSnoc(p, st, ops, Subscribed(Key(st, x), Key(st, y)));
  }

  lemma BindsAreHome(st: State, user: string, resource: string)
    ensures HomeOp(st, Bind(user, resource))
  {
  }

  lemma Strangers(p: Program, st: State, x: string, y: string)
    requires Scene(st, x, y) && Matched(st, x, y) && !Knows(st, y, x)
    ensures var op := Subscribed(Key(st, x), Key(st, y));
            HomeOp(st, op) && !Matched(Step(p, st, op), x, y)
  {
    hide Inv, Step, Lets, Sees, Knows, Matched;
    HomeKey(st, y);
    MatchedStep(p, st, Subscribed(Key(st, x), Key(st, y)), x, y);
  }

  lemma NothingKnown(st: State, x: string, y: string)
    requires Initial(st)
    ensures !Knows(st, x, y) && !Knows(st, y, x)
  {
    NoItems(Key(st, x));
    NoItems(Key(st, y));
  }

  lemma SameFilesKnown(s: State, t: State, x: string, y: string)
    requires s.disk == t.disk && s.domain == t.domain
    ensures Knows(t, x, y) == Knows(s, x, y)
  {
  }

  lemma BindsKeepFiles(p: Program, st: State, x: string, y: string)
    requires Inv(st)
    ensures var t := Step(p, Step(p, st, Bind(x, "home")), Bind(y, "work")); t.disk == st.disk && t.domain == st.domain
  {
    hide Inv, Step;
    StepInv(p, st, Bind(x, "home"));
    StepInv(p, Step(p, st, Bind(x, "home")), Bind(y, "work"));
  }

  /** `y` sees `x` and has its list at hand; `x` revokes, but names `y` at another server: the file of `y` changes, his
      session does not notice. */
  lemma ForeignRevocationBreaks(p: Program, st: State, x: string, y: string, foreign: string)
    requires Initial(st) && x in st.disk && y in st.disk && x != y
    requires ValidDomain(foreign) && foreign != st.domain
    ensures var ops := Meeting(st, x, y) + [RosterGet(Key(st, y))] + [Unsubscribed(Key(st, x), Join(y, foreign))];
            !Inv(Run(p, st, ops))
  {
    AfterMeeting(p, st, x, y);
    hide Inv, Step, Lets, Sees, Run, HomeRun, Meeting, Misses;
    var X, Y, ops := Key(st, x), Key(st, y), Meeting(st, x, y);
    var s := Run(p, st, ops);
    var t := Step(p, s, RosterGet(Y));
    AskedForList(p, s, x, y);
    RunSnoc(p, st, ops, RosterGet(Y));
    var op := Unsubscribed(X, Join(y, foreign));
    CutJoined(y, foreign, "");
    JoinTellsDomains(y, foreign, st.domain);
    SceneOnDisk(t, x, y);
    MissedCut(t, x, y, op);
    ForeignTarget(p, t, op);
    RunSnoc(p, st, ops + [RosterGet(Y)], op);
  }

  lemma JoinTellsDomains(user: string, a: string, b: string)
    requires a != b
    ensures Join(user, a) != Join(user, b)
  {
    assert Join(user, a)[|user| + 1..] == a && Join(user, b)[|user| + 1..] == b;
  }

  lemma AskedForList(p: Program, st: State, x: string, y: string)
    requires Scene(st, x, y)
    ensures var t := Step(p, st, RosterGet(Key(st, y)));
            && Scene(t, x, y) && t.domain == st.domain && t.online[Key(st, y)].loaded && Sees(t, y, x) == Sees(st, y, x)
  {
    hide Inv, Load, Quiet, Sees, SendAll;
    var Y := Key(st, y);
    LoadInv(st, Y);
    SendAllInv(Load(st, Y), Y, [Result]);
    var t := SendAll(Load(st, Y), Y, [Result]);
    QuietTrans(st, Load(st, Y), t);
    QuietOnline(st, t);
    QuietOnline(Load(st, Y), t);
    SameFilesSeen(st, t, y, x);
  }

  lemma SameFilesSeen(s: State, t: State, x: string, y: string)
    requires s.disk == t.disk && s.domain == t.domain
    ensures Sees(t, x, y) == Sees(s, x, y)
  {
  }

  lemma MissedCut(st: State, x: string, y: string, op: Op)
    requires Scene(st, x, y) && op.Unsubscribed? && op.me == Key(st, x)
    requires st.online[Key(st, y)].loaded && Sees(st, y, x)
    ensures Misses(st, op, y)
  {
    hide Inv, Get;
  }

  /** In C a revocation does not reach a user who is online and has not asked for his list; in Go it does. */
  lemma CutIsLostInC(p: Program, st: State, x: string, y: string)
    requires Initial(st) && x in st.disk && y in st.disk && x != y
    ensures var X, Y := Key(st, x), Key(st, y);
            var ops := Meeting(st, x, y) + [Bind(y, "again")] + [GoAvailable(X, "")];
            var s, op := Run(p, st, ops), Unsubscribed(X, Y);
            && HomeRun(p, st, ops + [op]) && Y in s.online
            && Tells(s, Step(p, s, op), Y, if p.Go? then [UnsubscribedNote(X, Y)] else [])
  {
    AfterMeeting(p, st, x, y);
    hide Inv, Step, Lets, Sees, Hears, Run, HomeRun, HomeOp, Meeting, Tells, Active;
    var X, Y, ops := Key(st, x), Key(st, y), Meeting(st, x, y);
    SceneOnDisk(Run(p, st, ops), x, y);
    BackUnloaded(p, Run(p, st, ops), x, y);
    hide Scene;
    RunTwoMore(p, st, ops, Bind(y, "again"), GoAvailable(X, ""));
    RevokedUnloaded(p, Run(p, st, ops + [Bind(y, "again")] + [GoAvailable(X, "")]), x, y);
    RunSnoc(p, st, ops + [Bind(y, "again")] + [GoAvailable(X, "")], Unsubscribed(X, Y));
  }

  lemma RunTwoMore(p: Program, st: State, ops: seq<Op>, a: Op, b: Op)
    requires HomeRun(p, st, ops) && (a.Bind? || a.GoAvailable?) && (b.Bind? || b.GoAvailable?)
    ensures HomeRun(p, st, ops + [a] + [b])
    ensures Run(p, st, ops + [a] + [b]) == Step(p, Step(p, Run(p, st, ops), a), b)
  {
    hide Step, Run, HomeRun;
    RunSnoc(p, st, ops, a);
    RunSnoc(p, st, ops + [a], b);
  }

  lemma RevokedUnloaded(p: Program, st: State, x: string, y: string)
    requires Scene(st, x, y) && !st.online[Key(st, y)].loaded
    ensures var X, Y := Key(st, x), Key(st, y);
            var op := Unsubscribed(X, Y);
            && HomeOp(st, op) && Y in st.online
            && Tells(st, Step(p, st, op), Y, if p.Go? then [UnsubscribedNote(X, Y)] else [])
  {
    hide Inv, Step, Tells;
    HomeKey(st, y);
    JoinInjective2(st, x, y);
    NotesDelivered(p, st, Unsubscribed(Key(st, x), Key(st, y)), Key(st, y));
  }
}
