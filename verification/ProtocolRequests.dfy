/** Subscription requests over whole runs: a request waits, and is delivered again, until it is settled. */
module ProtocolRequests {
  import opened Options
  import opened Jid
  import opened Contacts
  import opened Protocol
  import opened ProtocolInvariant
  import opened ProtocolLaws
  import opened ProtocolRuns
  import opened ProtocolPushes
  import opened ProtocolNotes

  /** In the run of `ops`, the operation at `i` is carried out. */
  predicate Happens(p: Program, st: State, ops: seq<Op>, i: nat)
    requires i < |ops|
  {
    Accepted(p, Run(p, st, ops[..i]), ops[i])
  }

  /** `x` made a request to `y` at `i`, and since then neither did `y` answer nor did `x` take it back. */
  predicate OpenSince(p: Program, st: State, ops: seq<Op>, i: nat, x: string, y: string)
    requires i < |ops|
  {
    && Happens(p, st, ops, i) && Requests(st, ops[i], x, y)
    && forall k | i < k < |ops| && Happens(p, st, ops, k) :: !Settles(st, ops[k], x, y)
  }

  predicate Open(p: Program, st: State, ops: seq<Op>, x: string, y: string) {
    exists i | 0 <= i < |ops| :: OpenSince(p, st, ops, i, x, y)
  }

  lemma HappensEarlier(p: Program, st: State, ops: seq<Op>, i: nat)
    requires i < |ops| - 1
    ensures Happens(p, st, ops[..|ops| - 1], i) == Happens(p, st, ops, i)
  {
    assert ops[..|ops| - 1][..i] == ops[..i];
  }

  /** A request is open if the last operation makes it, or it was open before and the last operation does not settle it. */
  lemma OpenStep(p: Program, st: State, ops: seq<Op>, x: string, y: string)
    requires ops != []
    ensures var before, op, n := ops[..|ops| - 1], ops[|ops| - 1], |ops| - 1;
            Open(p, st, ops, x, y) <==>
            if Happens(p, st, ops, n)
            then Requests(st, op, x, y) || (Open(p, st, before, x, y) && !Settles(st, op, x, y))
            else Open(p, st, before, x, y)
  {
    hide Happens, Settles, Requests;
    var before, op, n := ops[..|ops| - 1], ops[|ops| - 1], |ops| - 1;
    forall i | 0 <= i < n ensures Happens(p, st, before, i) == Happens(p, st, ops, i) {
      HappensEarlier(p, st, ops, i);
    }
    forall i | 0 <= i < n
      ensures OpenSince(p, st, ops, i, x, y) <==>
              OpenSince(p, st, before, i, x, y) && !(Happens(p, st, ops, n) && Settles(st, op, x, y))
    {
      OpenSinceStep(p, st, ops, i, x, y);
    }
    OpenAtLast(p, st, ops, x, y);
    hide OpenSince;
    if Open(p, st, ops, x, y) {
      var i :| 0 <= i < |ops| && OpenSince(p, st, ops, i, x, y);
      assert i == n || OpenSince(p, st, before, i, x, y);
    }
    if Open(p, st, before, x, y) {
      var i :| 0 <= i < |before| && OpenSince(p, st, before, i, x, y);
      assert OpenSince(p, st, ops, i, x, y) || (Happens(p, st, ops, n) && Settles(st, op, x, y));
    }
  }

  lemma OpenAtLast(p: Program, st: State, ops: seq<Op>, x: string, y: string)
    requires ops != []
    ensures OpenSince(p, st, ops, |ops| - 1, x, y) <==>
            Happens(p, st, ops, |ops| - 1) && Requests(st, ops[|ops| - 1], x, y)
  {
    hide Happens, Requests;
  }

  lemma OpenSinceStep(p: Program, st: State, ops: seq<Op>, i: nat, x: string, y: string)
    requires i < |ops| - 1
    ensures OpenSince(p, st, ops, i, x, y) <==>
            && OpenSince(p, st, ops[..|ops| - 1], i, x, y)
            && !(Happens(p, st, ops, |ops| - 1) && Settles(st, ops[|ops| - 1], x, y))
  {
    hide Happens, Settles, Requests;
    var n, before := |ops| - 1, ops[..|ops| - 1];
    forall k | 0 <= k < n ensures Happens(p, st, before, k) == Happens(p, st, ops, k) {
      HappensEarlier(p, st, ops, k);
    }
    if OpenSince(p, st, ops, i, x, y) {
      forall k | i < k < n && Happens(p, st, before, k) ensures !Settles(st, before[k], x, y) {
        assert Happens(p, st, ops, k) && before[k] == ops[k];
      }
    }
    if OpenSince(p, st, before, i, x, y) && !(Happens(p, st, ops, n) && Settles(st, ops[n], x, y)) {
      forall k | i < k < |ops| && Happens(p, st, ops, k) ensures !Settles(st, ops[k], x, y) {
        if k < n {
          assert Happens(p, st, before, k) && before[k] == ops[k];
        }
      }
    }
  }

  lemma SameDomainRequests(s: State, t: State, op: Op, x: string, y: string)
    requires s.domain == t.domain
    ensures Requests(s, op, x, y) == Requests(t, op, x, y) && Settles(s, op, x, y) == Settles(t, op, x, y)
  {
  }

  lemma SameFilesAwaits(s: State, t: State, x: string, y: string)
    requires s.disk == t.disk && s.domain == t.domain
    ensures Awaits(s, x, y) == Awaits(t, x, y)
  {
  }

  /** After every run, `x`'s file says that `y` owes him an answer exactly if `x` has asked, and since then `y` has not
      answered and `x` has not taken the request back. */
  lemma {:induction false} AwaitsIsOpen(p: Program, st: State, ops: seq<Op>, x: string, y: string)
    requires Initial(st) && HomeRun(p, st, ops) && ValidName(x) && ValidName(y)
    ensures Awaits(Run(p, st, ops), x, y) <==> Open(p, st, ops, x, y)
  {
    InitialInv(st);
    if ops == [] {
      hide Inv;
      NoItems(Key(st, y));
    } else {
      hide Inv, Step, Awaits, Open, Requests, Settles;
      var n, before := |ops| - 1, ops[..|ops| - 1];
      AwaitsIsOpen(p, st, before, x, y);
      OpenStep(p, st, ops, x, y);
      RunInv(p, st, before);
      var s, op := Run(p, st, before), ops[n];
      assert Run(p, st, ops) == Step(p, s, op);
      SameDomainRequests(st, s, op, x, y);
      assert Happens(p, st, ops, n) == Accepted(p, s, op);
      if Accepted(p, s, op) {
        RelationsAfter(p, s, op, x, y);
      } else {
        NotAccepted(p, s, op);
        SameFilesAwaits(s, Step(p, s, op), x, y);
      }
    }
  }

  /** A session that has loaded its list waits for the answer of another exactly if its file says so. */
  lemma WaitsIsAwaits(st: State, x: string, y: string)
    requires Inv(st) && ValidName(x) && ValidName(y) && x != y
    ensures Waits(st, Key(st, y), Key(st, x)) <==>
            Key(st, x) in st.online && st.online[Key(st, x)].loaded && Awaits(st, x, y)
  {
    hide Get;
    NamesAndKeys(st, x);
    NamesAndKeys(st, y);
    if Key(st, x) in st.online {
      assert ClientOk(st, Key(st, x), st.online[Key(st, x)]);
    }
  }

  /** How often the request of `x` is delivered again to `y`, who sends his first presence after any run: once if `x` is
      connected with his list loaded and has asked, and neither was it answered nor withdrawn since; else not at all. */
  lemma RedeliveredExactlyIfOpen(p: Program, st: State, ops: seq<Op>, body: string, x: string, y: string)
    requires Initial(st) && HomeRun(p, st, ops) && ValidName(x) && ValidName(y) && x != y
    requires var s, Y := Run(p, st, ops), Key(st, y); Y in s.online && !s.online[Y].available
    ensures var s, X, Y := Run(p, st, ops), Key(st, x), Key(st, y);
            var ns := Waiting(s, Y, s.order);
            && Tells(s, Step(p, s, GoAvailable(Y, body)), Y, ns)
            && multiset(ns)[SubscribeNote(X, Y)] ==
               if X in s.online && s.online[X].loaded && Open(p, st, ops, x, y) then 1 else 0
  {
    hide Initial, Open, Step, Tells, Waiting;
    var s, X, Y := Run(p, st, ops), Key(st, x), Key(st, y);
    AwaitsIsOpen(p, st, ops, x, y);
    InitialInv(st);
    hide Inv;
    RunInv(p, st, ops);
    NotesStep(p, s, GoAvailable(Y, body), Y);
    WaitsIsAwaits(s, x, y);
    KeyFacts(s, Y);
    OrderUnique(s);
    WaitingCount(s, Y, s.order, X);
    OnlineInOrder(s);
  }

  lemma OrderUnique(st: State)
    requires Inv(st)
    ensures forall i, k | 0 <= i < k < |st.order| :: st.order[i] != st.order[k]
  {
  }

  lemma OnlineInOrder(st: State)
    requires Inv(st)
    ensures forall j :: j in st.order <==> j in st.online
  {
  }
}
