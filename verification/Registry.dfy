/** The Go server's index of sessions under every interleaving: each critical section and each Close is one step. */
module Registry {
  import opened Options

  type Id = nat

  /** Where a session's goroutine stands. `Holding` is a binder that has registered and not yet closed what it displaced. */
  datatype Phase = Serving | Holding(displaced: Id) | Leaving | Unlisted | Done

  /** What happened, in order. */
  datatype Event =
    | Accepted(s: Id)
    | Registered(s: Id, jid: string)
    | Unregistered(s: Id)
    | Closed(s: Id)

  datatype State = State(
    phase: map<Id, Phase>,
    jid: map<Id, string>,
    byBareJID: map<string, Id>,
    all: seq<Id>,
    log: seq<Event>)

  datatype Action =
    | Accept(s: Id)
    | Login(s: Id, jid: string)
    | Register(s: Id)
    | Kick(s: Id)
    | Exit(s: Id)
    | Unregister(s: Id)
    | Close(s: Id)

  const Initial := State(map[], map[], map[], [], [])

  // ---- The index operations ----

  function FirstAt(all: seq<Id>, s: Id): (i: int)
    ensures -1 <= i < |all|
    ensures i >= 0 ==> all[i] == s && s !in all[..i]
    ensures i < 0 ==> s !in all
  {
    if all == [] then -1
    else if all[0] == s then 0
    else
      var rest := FirstAt(all[1..], s);
      assert all == [all[0]] + all[1..];
      if rest < 0 then -1
      else
        assert all[..rest + 1] == [all[0]] + all[1..][..rest];
        rest + 1
  }

  /** Swap-removal of the first occurrence. */
  function Without(all: seq<Id>, s: Id): seq<Id> {
    var i := FirstAt(all, s);
    if i < 0 then all else all[i := all[|all| - 1]][..|all| - 1]
  }

  /** The entry goes only while it is still this session's own. */
  function Released(byBareJID: map<string, Id>, jid: string, s: Id): map<string, Id> {
    if jid != "" && jid in byBareJID && byBareJID[jid] == s then byBareJID - {jid} else byBareJID
  }

  // ---- One step of one goroutine ----

  predicate Enabled(st: State, a: Action) {
    if a.Accept? then a.s !in st.phase
    else
      && a.s in st.phase
      && match a
         case Login(s, jid) => st.phase[s].Serving? && s !in st.jid && jid != ""
         case Register(s) => st.phase[s].Serving? && s in st.jid
         case Kick(s) => st.phase[s].Holding?
         case Exit(s) => st.phase[s].Serving?
         case Unregister(s) => st.phase[s].Leaving?
         case Close(s) => st.phase[s].Unlisted?
         case Accept(_) => true
  }

  function Next(st: State, a: Action): State {
    if !Enabled(st, a) then st
    else
      match a
      case Accept(s) =>
        st.(phase := st.phase[s := Serving], all := st.all + [s], log := st.log + [Accepted(s)])
      case Login(s, jid) =>
        st.(jid := st.jid[s := jid])
      case Register(s) =>
        var j := st.jid[s];
        var now := st.(byBareJID := st.byBareJID[j := s], log := st.log + [Registered(s, j)]);
        if j in st.byBareJID then now.(phase := st.phase[s := Holding(st.byBareJID[j])]) else now
      case Kick(s) =>
        st.(phase := st.phase[s := Serving], log := st.log + [Closed(st.phase[s].displaced)])
      case Exit(s) =>
        st.(phase := st.phase[s := Leaving])
      case Unregister(s) =>
        st.(byBareJID := Released(st.byBareJID, if s in st.jid then st.jid[s] else "", s),
            all := Without(st.all, s),
            phase := st.phase[s := Unlisted],
            log := st.log + [Unregistered(s)])
      case Close(s) =>
        st.(phase := st.phase[s := Done], log := st.log + [Closed(s)])
  }

  function Run(actions: seq<Action>): State {
    if actions == [] then Initial else Next(Run(actions[..|actions| - 1]), actions[|actions| - 1])
  }

  // ---- What the history says ----

  /** Who registered last under `jid`. */
  function LastUnder(log: seq<Event>, jid: string): Option<Id> {
    if log == [] then Nothing
    else
      var e := log[|log| - 1];
      if e.Registered? && e.jid == jid then Some(e.s) else LastUnder(log[..|log| - 1], jid)
  }

  /** Registered under `jid` at some point and not unregistered since. */
  ghost predicate StandsUnder(log: seq<Event>, s: Id, jid: string) {
    Registered(s, jid) in log && Unregistered(s) !in log
  }

  /** The index says exactly what the history says. */
  ghost predicate IndexIsHistory(st: State) {
    forall j: string, s: Id ::
      (j in st.byBareJID && st.byBareJID[j] == s) <==> (LastUnder(st.log, j) == Some(s) && Unregistered(s) !in st.log)
  }

  ghost predicate Held(st: State, s: Id) {
    exists b: Id :: b in st.phase && st.phase[b] == Holding(s)
  }

  /** Whoever stands under an address and is not the one indexed there is closed, or about to be. */
  ghost predicate DisplacedAreDoomed(st: State) {
    forall j: string, s: Id :: StandsUnder(st.log, s, j) && !(j in st.byBareJID && st.byBareJID[j] == s) ==>
      Closed(s) in st.log || Held(st, s)
  }

  /** The list of all sessions is the accepted ones less the unregistered ones, each once. */
  ghost predicate ListIsHistory(st: State) {
    && (forall s: Id :: s in st.all <==> Accepted(s) in st.log && Unregistered(s) !in st.log)
    && (forall i, k | 0 <= i < k < |st.all| :: st.all[i] != st.all[k])
  }

  // How phases, addresses and history hang together.

  ghost predicate PhasesKnown(st: State) {
    && (forall s: Id :: s in st.phase <==> Accepted(s) in st.log)
    && (forall s: Id :: Unregistered(s) in st.log <==> s in st.phase && (st.phase[s].Unlisted? || st.phase[s].Done?))
  }

  ghost predicate AddressesKnown(st: State) {
    && (forall s: Id, j: string :: Registered(s, j) in st.log ==> s in st.jid && st.jid[s] == j)
    && (forall s: Id :: s in st.jid ==> st.jid[s] != "" && s in st.phase)
  }

  ghost predicate LastRegistered(st: State) {
    forall j: string :: LastUnder(st.log, j).Some? ==> Registered(LastUnder(st.log, j).value, j) in st.log
  }

  ghost predicate Inv(st: State) {
    && PhasesKnown(st) && AddressesKnown(st) && LastRegistered(st)
    && IndexIsHistory(st) && DisplacedAreDoomed(st) && ListIsHistory(st)
  }

  // ---- The laws ----

  lemma WithoutElements(all: seq<Id>, s: Id)
    requires forall i, k | 0 <= i < k < |all| :: all[i] != all[k]
    ensures forall i, k | 0 <= i < k < |Without(all, s)| :: Without(all, s)[i] != Without(all, s)[k]
    ensures forall x: Id :: x in Without(all, s) <==> x in all && x != s
  {
    var i, n := FirstAt(all, s), |all| - 1;
    if i >= 0 {
      var w := Without(all, s);
      assert forall k | 0 <= k < n :: w[k] == if k == i then all[n] else all[k];
      forall x: Id ensures x in w <==> x in all && x != s {
        if x in all && x != s {
          var k :| 0 <= k <= n && all[k] == x;
          assert w[if k == n then i else k] == x;
        }
        if x in w {
          var k :| 0 <= k < n && w[k] == x;
        }
      }
    }
  }

  lemma Appended(log: seq<Event>, e: Event)
    ensures forall x: Event :: x in log + [e] <==> x in log || x == e
    ensures forall j: string :: LastUnder(log + [e], j) ==
                                if e.Registered? && e.jid == j then Some(e.s) else LastUnder(log, j)
  {
    assert (log + [e])[..|log|] == log;
  }

  lemma StepPhases(st: State, a: Action)
    requires PhasesKnown(st) && Enabled(st, a)
    ensures PhasesKnown(Next(st, a))
  {
    hide LastUnder, Without, Released;
    var after := Next(st, a);
    if |after.log| > |st.log| {
      Appended(st.log, after.log[|st.log|]);
    }
  }

  lemma StepAddresses(st: State, a: Action)
    requires AddressesKnown(st) && Enabled(st, a)
    ensures AddressesKnown(Next(st, a))
  {
    hide LastUnder, Without, Released;
    var after := Next(st, a);
    if |after.log| > |st.log| {
      Appended(st.log, after.log[|st.log|]);
    }
  }

  lemma StepLast(st: State, a: Action)
    requires LastRegistered(st) && Enabled(st, a)
    ensures LastRegistered(Next(st, a))
  {
    hide LastUnder, Without, Released;
    var after := Next(st, a);
    if |after.log| > |st.log| {
      Appended(st.log, after.log[|st.log|]);
    }
  }

  /** A step that neither registers nor unregisters leaves index and registrations alone. */
  lemma StepIndexOther(st: State, a: Action)
    requires IndexIsHistory(st) && Enabled(st, a) && !a.Register? && !a.Unregister?
    ensures IndexIsHistory(Next(st, a))
  {
    hide LastUnder, Without, Released;
    var after := Next(st, a);
    if |after.log| > |st.log| {
      Appended(st.log, after.log[|st.log|]);
    }
  }

  lemma StepIndexRegister(st: State, a: Action)
    requires Inv(st) && Enabled(st, a) && a.Register?
    ensures IndexIsHistory(Next(st, a))
  {
    hide LastUnder, DisplacedAreDoomed, ListIsHistory;
    var after, j := Next(st, a), st.jid[a.s];
    Appended(st.log, Registered(a.s, j));
    assert after.log == st.log + [Registered(a.s, j)] && after.byBareJID == st.byBareJID[j := a.s];
    hide Next;
  }

  lemma StepIndexUnregister(st: State, a: Action)
    requires Inv(st) && Enabled(st, a) && a.Unregister?
    ensures IndexIsHistory(Next(st, a))
  {
    hide LastUnder, DisplacedAreDoomed, ListIsHistory, Without;
    var after, own := Next(st, a), if a.s in st.jid then st.jid[a.s] else "";
    Appended(st.log, Unregistered(a.s));
    assert after.log == st.log + [Unregistered(a.s)] && after.byBareJID == Released(st.byBareJID, own, a.s);
    hide Next;
    forall j: string ensures j in st.byBareJID && st.byBareJID[j] == a.s ==> j == own && j != "" {
      if j in st.byBareJID && st.byBareJID[j] == a.s {
        assert LastUnder(st.log, j) == Some(a.s);
        assert Registered(a.s, j) in st.log;
      }
    }
  }

  lemma StepDoomed(st: State, a: Action)
    requires Inv(st) && Enabled(st, a)
    ensures DisplacedAreDoomed(Next(st, a))
  {
    forall j: string, s: Id |
      StandsUnder(Next(st, a).log, s, j) && !(j in Next(st, a).byBareJID && Next(st, a).byBareJID[j] == s)
      ensures Closed(s) in Next(st, a).log || Held(Next(st, a), s)
    {
      StepDoomedOne(st, a, s, j);
    }
  }

  lemma StepDoomedOne(st: State, a: Action, s: Id, j: string)
    requires DisplacedAreDoomed(st) && Enabled(st, a)
    requires Unregistered(s) in st.log <==> s in st.phase && (st.phase[s].Unlisted? || st.phase[s].Done?)
    requires StandsUnder(Next(st, a).log, s, j)
    requires !(j in Next(st, a).byBareJID && Next(st, a).byBareJID[j] == s)
    ensures Closed(s) in Next(st, a).log || Held(Next(st, a), s)
  {
    hide LastUnder, Without;
    var after := Next(st, a);
    if |after.log| > |st.log| {
      Appended(st.log, after.log[|st.log|]);
    }
    assert StandsUnder(st.log, s, j);
    if a.Register? && j in st.byBareJID && st.byBareJID[j] == s {
      assert after.phase[a.s] == Holding(s);
    } else if Closed(s) !in after.log {
      assert !(j in st.byBareJID && st.byBareJID[j] == s);
      var b: Id :| b in st.phase && st.phase[b] == Holding(s);
      assert after.phase[b] == Holding(s);
    }
  }

  lemma StepList(st: State, a: Action)
    requires Inv(st) && Enabled(st, a)
    ensures ListIsHistory(Next(st, a))
  {
    var after := Next(st, a);
    if |after.log| > |st.log| {
      Appended(st.log, after.log[|st.log|]);
    }
    WithoutElements(st.all, a.s);
  }

  /** The index equals its history after every interleaving of every number of sessions. */
  lemma {:induction false} IndexEqualsHistory(actions: seq<Action>)
    ensures Inv(Run(actions))
  {
    if actions != [] {
      var before, a := Run(actions[..|actions| - 1]), actions[|actions| - 1];
      IndexEqualsHistory(actions[..|actions| - 1]);
      if Enabled(before, a) {
        StepPhases(before, a);
        StepAddresses(before, a);
        StepLast(before, a);
        if a.Register? {
          StepIndexRegister(before, a);
        } else if a.Unregister? {
          StepIndexUnregister(before, a);
        } else {
          StepIndexOther(before, a);
        }
        StepDoomed(before, a);
        StepList(before, a);
      }
    }
  }

  /** Every binder has closed what it displaced, and every closed session has left. */
  ghost predicate Settled(st: State) {
    && (forall b: Id | b in st.phase :: !st.phase[b].Holding?)
    && (forall c: Id | Closed(c) in st.log :: Unregistered(c) in st.log)
  }

  /** Then an address has at most one session standing under it, and the index names that one. */
  lemma OneSessionPerAddress(actions: seq<Action>, jid: string, s: Id)
    requires Settled(Run(actions))
    ensures var st := Run(actions);
            StandsUnder(st.log, s, jid) <==> jid in st.byBareJID && st.byBareJID[jid] == s
  {
    IndexEqualsHistory(actions);
    WhenSettled(Run(actions), jid, s);
  }

  lemma WhenSettled(st: State, jid: string, s: Id)
    requires Inv(st) && Settled(st)
    ensures StandsUnder(st.log, s, jid) <==> jid in st.byBareJID && st.byBareJID[jid] == s
  {
    hide PhasesKnown, AddressesKnown, ListIsHistory, LastUnder;
    assert LastUnder(st.log, jid) == Some(s) ==> Registered(s, jid) in st.log;
  }

  lemma AddressesLast(st: State, a: Action)
    ensures forall s: Id :: s in st.jid ==> s in Next(st, a).jid && Next(st, a).jid[s] == st.jid[s]
  {
  }

  /** Only its own exit or a newcomer under the same address takes a session out of the index: the late exit of a
      displaced session, for one, leaves its successor alone. */
  lemma {:induction false} StaysIndexed(actions: seq<Action>, more: seq<Action>, jid: string, s: Id)
    requires var st := Run(actions); jid in st.byBareJID && st.byBareJID[jid] == s
    requires Unregister(s) !in more
    requires var last := Run(actions + more);
             forall x: Id :: x != s && Register(x) in more && x in last.jid ==> last.jid[x] != jid
    ensures var last := Run(actions + more); jid in last.byBareJID && last.byBareJID[jid] == s
  {
    if more == [] {
      assert actions + more == actions;
    } else {
      var n := |more| - 1;
      assert (actions + more)[..|actions + more| - 1] == actions + more[..n];
      AddressesLast(Run(actions + more[..n]), more[n]);
      StaysIndexed(actions, more[..n], jid, s);
    }
  }

  /** The index as the server keeps it, updated in place, with the addresses the sessions carry. Where each goroutine
      stands and what has happened are only there for the proof. */
  class Index {
    var byBareJID: map<string, Id>
    var all: seq<Id>
    var jid: map<Id, string>
    ghost var phase: map<Id, Phase>
    ghost var log: seq<Event>

    ghost function View(): State
      reads this
    {
      State(phase, jid, byBareJID, all, log)
    }

    constructor ()
      ensures View() == Initial
    {
      byBareJID, all, jid := map[], [], map[];
      phase, log := map[], [];
    }

    /** The empty string before the login. */
    function BareJID(s: Id): string
      reads this
    {
      if s in jid then jid[s] else ""
    }

    method AddToAll(s: Id)
      requires Enabled(View(), Action.Accept(s))
      modifies this
      ensures View() == Next(old(View()), Action.Accept(s))
    {
      all := all + [s];
      phase, log := phase[s := Serving], log + [Accepted(s)];
    }

    /** The newcomer takes the address; whom it displaces is the caller's to close. */
    method Register(s: Id) returns (displaced: Option<Id>)
      requires Enabled(View(), Action.Register(s))
      modifies this
      ensures View() == Next(old(View()), Action.Register(s))
      ensures phase[s] == if displaced.Some? then Holding(displaced.value) else Serving
    {
      var bareJID := BareJID(s);
      displaced := if bareJID in byBareJID then Some(byBareJID[bareJID]) else Nothing;
      byBareJID := byBareJID[bareJID := s];
      log := log + [Registered(s, bareJID)];
      if displaced.Some? {
        phase := phase[s := Holding(displaced.value)];
      }
    }

    method Unregister(s: Id)
      requires Enabled(View(), Action.Unregister(s))
      modifies this
      ensures View() == Next(old(View()), Action.Unregister(s))
    {
      var bareJID := BareJID(s);
      if bareJID != "" && bareJID in byBareJID && byBareJID[bareJID] == s {
        byBareJID := byBareJID - {bareJID};
      }
      phase, log := phase[s := Unlisted], log + [Unregistered(s)];
      RemoveFromAll(s);
    }

    method RemoveFromAll(s: Id)
      modifies this`all
      ensures all == Without(old(all), s)
    {
      for i := 0 to |all|
        invariant all == old(all) && s !in all[..i]
      {
        if all[i] == s {
          FirstIs(all, s, i);
          all := all[i := all[|all| - 1]];
          all := all[..|all| - 1];
          return;
        }
      }
      assert all[..|all|] == all;
    }

    /** A lookup finds the last to register, unless it has left. */
    method FindByBareJID(j: string) returns (r: Option<Id>)
      requires Inv(View())
      ensures forall s :: r == Some(s) <==> LastUnder(log, j) == Some(s) && Unregistered(s) !in log
    {
      r := if j in byBareJID then Some(byBareJID[j]) else Nothing;
    }

    /** One step of one goroutine. */
    method Perform(a: Action)
      requires Enabled(View(), a)
      modifies this
      ensures View() == Next(old(View()), a)
    {
      match a
      case Accept(s) => AddToAll(s);
      case Login(s, j) => jid := jid[s := j];
      case Register(s) => var _ := Register(s);
      case Kick(s) => phase, log := phase[s := Serving], log + [Closed(phase[s].displaced)];
      case Exit(s) => phase := phase[s := Leaving];
      case Unregister(s) => Unregister(s);
      case Close(s) => phase, log := phase[s := Done], log + [Closed(s)];
    }
  }

  /** An interleaving: every goroutine takes the steps of its own code in order. */
  predicate Interleaving(actions: seq<Action>) {
    forall k | 0 <= k < |actions| :: Enabled(Run(actions[..k]), actions[k])
  }

  /** A server driven through any interleaving holds what the history says. */
  method Serve(actions: seq<Action>) returns (index: Index)
    requires Interleaving(actions)
    ensures index.View() == Run(actions) && Inv(index.View())
  {
    index := new Index();
    assert actions[..0] == [];
    for i := 0 to |actions|
      invariant fresh(index) && index.View() == Run(actions[..i])
    {
      assert Enabled(Run(actions[..i]), actions[i]);
      index.Perform(actions[i]);
      assert actions[..i + 1][..i] == actions[..i];
    }
    assert actions[..|actions|] == actions;
    IndexEqualsHistory(actions);
  }

  lemma FirstIs(all: seq<Id>, s: Id, i: nat)
    requires i < |all| && all[i] == s && s !in all[..i]
    ensures FirstAt(all, s) == i
  {
    var f := FirstAt(all, s);
    assert forall k | 0 <= k < i :: all[..i][k] != s;
  }
}
