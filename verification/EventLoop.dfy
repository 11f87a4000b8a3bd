/** The poll loop of the C server: what one readable socket may do to the whole table, teardown that waits until the
    parser is off the stack, and a pass over a table that shrinks and moves under the loop. */
module EventLoop {
  import opened Bytes
  import opened Connections
  import opened Happenings
  import opened SessionTable
  import opened Effects

  /** Everything the contracts below speak of: how each connection stands, and how those who are gone have left. */
  ghost function Now(t: Table): World
    requires t.Valid()
    reads t`nfds, t`live, t`left, t.pollfds, t.sessions, t.live, set c: Conn | c in t.live :: c.writeBuf
  {
    World(t.Marks(), t.left)
  }

  predicate Ends(script: seq<Event>) {
    exists i | 0 <= i < |script| :: Fatal(script[i])
  }

  predicate Binds(script: seq<Event>) {
    exists i | 0 <= i < |script| :: script[i].Bind?
  }

  /** Every address a session has while the events run, starting with `jid`. */
  function Names(jid: string, script: seq<Event>): set<string> {
    {jid} + set i | 0 <= i < |script| && script[i].Login? :: script[i].jid
  }

  /** Between two rounds of the loop nothing is pending anywhere; in a callback only `actor` is busy. */
  ghost predicate Idle(marks: map<Conn, Mark>, actor: Conn?) {
    forall d | d in marks && d != actor ::
      !marks[d].flags.inParse && !marks[d].flags.resetPending && !marks[d].flags.teardownPending
  }

  lemma IdleKept(a: map<Conn, Mark>, b: map<Conn, Mark>, actor: Conn?)
    requires Idle(a, actor) && Follows(a, b, actor)
    ensures Idle(b, actor)
  {
  }

  lemma FollowsOutlasts(a: map<Conn, Mark>, b: map<Conn, Mark>, actor: Conn?)
    requires Follows(a, b, actor)
    ensures Outlasts(a, b)
  {
  }

  lemma Here(t: Table, c: Conn)
    requires t.Valid() && c in t.live
    ensures c in t.Marks() && {c, c.writeBuf} <= t.Repr()
    ensures t.Marks()[c] == t.Seen(c)
    ensures t.Marks()[c].slot == c.pollIndex && t.Marks()[c].written == c.written && t.Marks()[c].accepted == c.accepted
    ensures t.Marks()[c].flags == Flags(c.jid, c.inParse, c.resetPending, c.teardownPending)
    ensures 1 <= c.pollIndex < t.nfds && |t.sessions[..]| == MAX_CLIENTS && t.sessions[..][c.pollIndex] == c
    ensures c.accepted <= c.written && |c.written| == |c.accepted| + c.writeLen
  {
    assert t.Settled(c);
    c.Pending();
  }

  lemma There(t: Table)
    requires t.Valid()
    ensures {t, t.pollfds, t.sessions} <= t.Repr() && t.Marks().Keys == t.live
    ensures 1 <= t.nfds <= MAX_CLIENTS && |t.live| == t.nfds - 1
    ensures t.pollfds.Length == MAX_CLIENTS && t.sessions.Length == MAX_CLIENTS
    ensures forall i | 1 <= i < t.nfds :: t.sessions[i] != null && t.sessions[i] in t.live
    ensures forall i | t.nfds <= i < MAX_CLIENTS :: t.sessions[i] == null
    ensures forall d | d in t.Marks() :: t.Marks()[d].slot <= |t.Marks()| && t.Marks()[d].flags.jid == d.jid
    ensures forall d | d in t.live :: !d.disconnected && d in t.Repr() && d.writeBuf in t.Repr()
  {
    forall i | 1 <= i < t.nfds ensures t.sessions[i] != null && t.sessions[i] in t.live {
      assert t.InSlot(i);
    }
    forall d | d in t.live ensures d.pollIndex < t.nfds && !d.disconnected {
      assert t.Settled(d);
    }
  }

  /** What the table owns exists. */
  lemma Exists(t: Table)
    ensures forall o | o in t.Repr() :: allocated(o)
  {
  }

  twostate lemma ReprShrinks(t: Table)
    requires t.live <= old(t.live) && forall d | d in t.live :: d.writeBuf == old(d.writeBuf)
    ensures t.Repr() <= old(t.Repr())
  {
  }

  twostate lemma ReprKept(t: Table)
    requires t.live == old(t.live) && forall d | d in t.live :: d.writeBuf == old(d.writeBuf)
    ensures t.Repr() == old(t.Repr())
  {
  }

  /** session_write, for the table: only the output of `c` grows. */
  method Post(t: Table, c: Conn, data: seq<Byte>)
    requires t.Valid() && c in t.live
    modifies t.Repr()
    ensures t.Valid() && fresh(t.Repr() - old(t.Repr())) && t.history == old(t.history)
    ensures t.live == old(t.live)
    ensures Follows(old(t.Marks()), t.Marks(), null)
    ensures c in old(t.Marks()) && t.Marks() == Posted(old(t.Marks()), c, data) && t.left == old(t.left)
  {
    hide Table.Valid, Table.Marks, Table.Repr, Follows;
    Here(t, c);
    There(t);
    t.Write(c, data);
    FollowsOne(old(t.Marks()), c, t.Marks()[c], null);
  }

  lemma FoundIsFirst(t: Table, jid: string, target: Conn?)
    requires t.Valid()
    requires target != null ==> target in t.live && target.jid == jid && jid != ""
    requires target != null ==> forall d | d in t.live && d.jid == jid :: target.pollIndex <= d.pollIndex
    requires target == null ==> jid == "" || forall d | d in t.live :: d.jid != jid
    ensures forall c :: First(t.Marks(), jid, c) <==> c == target
  {
    forall c ensures First(t.Marks(), jid, c) <==> c == target {
      if First(t.Marks(), jid, c) && target != null {
        assert t.Settled(c) && t.Settled(target);
        assert t.Marks()[target].slot == target.pollIndex;
      }
    }
  }

  /** Notices go out one by one to whoever is connected. */
  method Notify(t: Table, notices: seq<Notice>)
    requires t.Valid()
    modifies t.Repr()
    ensures t.Valid() && fresh(t.Repr() - old(t.Repr())) && t.history == old(t.history)
    ensures t.live == old(t.live) && t.Marks() == Notified(old(t.Marks()), notices) && t.left == old(t.left)
    ensures Follows(old(t.Marks()), t.Marks(), null)
  {
    hide Table.Valid, Table.Marks, Table.Seen, Table.Repr, Follows, Notified, First;
    ghost var m := t.Marks();
    NotifiedNone(m, notices);
    for i := 0 to |notices|
      invariant t.Valid() && fresh(t.Repr() - old(t.Repr())) && t.history == old(t.history)
      invariant t.live == old(t.live) && t.Marks() == Notified(m, notices[..i]) && t.left == old(t.left)
    {
      var target := t.FindByJid(notices[i].to);
      There(t);
      FoundIsFirst(t, notices[i].to, target);
      FirstUnmoved(m, notices, i, notices[i].to);
      NotifiedNext(m, notices, i, target);
      if target != null {
        Here(t, target);
        Post(t, target, notices[i].data);
        Exists(t);
      }
    }
    assert notices[..|notices|] == notices;
    FollowsNotified(m, notices);
  }

  /** Leave the table for good: say goodbye, give up the slot, release the parser. Never under a running parser. */
  method Teardown(t: Table, c: Conn, farewell: seq<Notice>)
    requires t.Valid() && c in t.live && !c.inParse
    modifies t.Repr()
    ensures t.Valid() && fresh(t.Repr() - old(t.Repr())) && t.history == old(t.history)
    ensures t.live == old(t.live) - {c} && c.disconnected
    ensures c in old(t.Marks()) && Now(t) == Departed(old(Now(t)), c, farewell)
    ensures c.written == old(c.written) + Said(old(t.Marks()), farewell, c)
    ensures Follows(old(t.Marks()), t.Marks(), null)
  {
    hide Table.Valid, Table.Marks, Table.Seen, Table.Repr, Follows, Said, Notified, Without;
    Here(t, c);
    SaidIs(t.Marks(), farewell, c);
    Notify(t, farewell);
    Exists(t);
    ghost var m := t.Marks();
    Here(t, c);
    Vacate(t, c);
    Exists(t);
    FollowsTrans(old(t.Marks()), m, t.Marks(), null);
  }

  lemma OwnSlots(t: Table)
    requires t.Valid()
    ensures forall d, e | d in t.Marks() && e in t.Marks() && t.Marks()[d].slot == t.Marks()[e].slot :: d == e
  {
    forall d, e | d in t.Marks() && e in t.Marks() && t.Marks()[d].slot == t.Marks()[e].slot ensures d == e {
      assert t.Settled(d) && t.Settled(e);
    }
  }

  /** Give up the slot. The source sets the flag just before the removal, which does not look at it. */
  method Vacate(t: Table, c: Conn)
    requires t.Valid() && c in t.live
    modifies t.Repr()
    ensures t.Valid() && fresh(t.Repr() - old(t.Repr())) && t.history == old(t.history)
    ensures t.live == old(t.live) - {c} && c.disconnected && c.written == old(c.written)
    ensures c in old(t.Marks()) && t.Marks() == Without(old(t.Marks()), c)
    ensures t.left == old(t.left)[c := old(t.Marks()[c])]
    ensures Follows(old(t.Marks()), t.Marks(), null)
  {
    hide Table.Valid, Table.Marks, Table.Seen, Table.Repr, Follows, Without;
    There(t);
    Here(t, c);
    OwnSlots(t);
    t.left := t.left[c := t.Marks()[c]];
    t.Remove(c);
    ReprShrinks(t);
    c.disconnected := true;
    FollowsWithout(old(t.Marks()), c);
  }

  /** A callback or the loop updates the standing of `c`. */
  method Stand(t: Table, c: Conn, f: Flags)
    requires t.Valid() && c in t.live
    modifies t.Repr()
    ensures t.Valid() && t.Repr() == old(t.Repr()) && t.history == old(t.history)
    ensures t.live == old(t.live) && c in old(t.Marks())
    ensures t.Marks() == Stood(old(t.Marks()), c, f) && t.left == old(t.left)
    ensures Follows(old(t.Marks()), t.Marks(), c)
  {
    hide Table.Valid, Table.Marks, Table.Repr, Follows;
    Here(t, c);
    There(t);
    t.Facts(c);
    c.jid, c.inParse, c.resetPending, c.teardownPending := f.jid, f.inParse, f.resetPending, f.teardownPending;
    t.OneChanged(c);
    t.OneMarked(c);
    ReprKept(t);
    FollowsOne(old(t.Marks()), c, t.Marks()[c], c);
  }

  /** The end is asked for: at once, or when the chunk has been parsed. */
  method Close(t: Table, c: Conn, farewell: seq<Notice>)
    requires t.Valid() && c in t.live
    modifies t.Repr()
    ensures t.Valid() && fresh(t.Repr() - old(t.Repr())) && t.history == old(t.history)
    ensures Follows(old(t.Marks()), t.Marks(), c)
    ensures old(c.inParse) ==>
              && t.live == old(t.live) && c in old(t.Marks()) && t.left == old(t.left)
              && t.Marks() == Stood(old(t.Marks()), c, old(t.Marks()[c].flags).(teardownPending := true))
    ensures !old(c.inParse) ==>
              && t.live == old(t.live) - {c} && c.disconnected && Follows(old(t.Marks()), t.Marks(), null)
              && c in old(t.Marks()) && Now(t) == Departed(old(Now(t)), c, farewell)
  {
    hide Table.Valid, Table.Marks, Table.Seen, Table.Repr, Follows, Notified, Said;
    if c.inParse {
      Here(t, c);
      Stand(t, c, Flags(c.jid, c.inParse, c.resetPending, true));
    } else {
      Teardown(t, c, farewell);
      FollowsWeaken(old(t.Marks()), t.Marks(), c);
    }
  }

  /** stream_send_error: say why, push it out, and ask for the end. */
  method SendStreamError(t: Table, c: Conn, error: seq<Byte>, answer: Answer, farewell: seq<Notice>)
    requires t.Valid() && c in t.live
    modifies t.Repr()
    ensures t.Valid() && fresh(t.Repr() - old(t.Repr())) && t.history == old(t.history)
    ensures Follows(old(t.Marks()), t.Marks(), c) && c in old(t.Marks())
    ensures old(c.inParse) ==>
              && t.live == old(t.live) && t.left == old(t.left)
              && t.Marks() == Stood(Offered(Posted(old(t.Marks()), c, error), c, answer), c,
                                    old(t.Marks()[c].flags).(teardownPending := true))
    ensures !old(c.inParse) ==>
              && t.live == old(t.live) - {c} && c.disconnected && Follows(old(t.Marks()), t.Marks(), null)
              && Now(t) == Departed(World(Offered(Posted(old(t.Marks()), c, error), c, answer), old(t.left)), c, farewell)
  {
    hide Table.Valid, Table.Repr, Table.Marks, Follows, Table.Seen, Departed, Handed;
    Here(t, c);
    ghost var m0 := t.Marks();
    HandedTells(Posted(m0, c, error)[c], answer);
    PushOut(t, c, error, answer);
    Exists(t);
    ghost var m := t.Marks();
    Here(t, c);
    Close(t, c, farewell);
    Exists(t);
    FollowsWeaken(m0, m, c);
    FollowsTrans(m0, m, t.Marks(), c);
    if !old(c.inParse) {
      FollowsTrans(m0, m, t.Marks(), null);
    }
  }

  method PushOut(t: Table, c: Conn, data: seq<Byte>, answer: Answer)
    requires t.Valid() && c in t.live
    modifies t.Repr()
    ensures t.Valid() && fresh(t.Repr() - old(t.Repr())) && t.history == old(t.history)
    ensures t.live == old(t.live) && Follows(old(t.Marks()), t.Marks(), null)
    ensures c in old(t.Marks()) && t.Marks() == Offered(Posted(old(t.Marks()), c, data), c, answer) && t.left == old(t.left)
  {
    hide Table.Valid, Table.Repr, Table.Marks, Follows, Table.Seen, Handed;
    Post(t, c, data);
    Exists(t);
    ghost var m := t.Marks();
    var _ := Drain(t, c, answer);
    Exists(t);
    FollowsTrans(old(t.Marks()), m, t.Marks(), null);
  }

  /** session_flush, for the table. The socket takes no more than it is offered. */
  method Drain(t: Table, c: Conn, answer: Answer) returns (ok: bool)
    requires t.Valid() && c in t.live
    modifies t.Repr()
    ensures t.Valid() && fresh(t.Repr() - old(t.Repr())) && t.history == old(t.history)
    ensures t.live == old(t.live) && Follows(old(t.Marks()), t.Marks(), null)
    ensures c in old(t.Marks()) && (ok <==> !(answer.Failed? && Waits(old(t.Marks()[c]))))
    ensures t.Marks() == Offered(old(t.Marks()), c, answer) && t.left == old(t.left)
  {
    hide Table.Valid, Table.Marks, Table.Repr, Follows;
    Here(t, c);
    There(t);
    ClippedHands(t.Marks()[c], answer);
    ok := t.Flush(c, Clip(answer, c.writeLen));
    FollowsHanded(old(t.Marks()), c, answer);
  }

  lemma ClippedHands(m: Mark, answer: Answer)
    requires m.accepted <= m.written
    ensures Handed(m, Clip(answer, |m.written| - |m.accepted|)) == Handed(m, answer)
  {
  }

  lemma FollowsHanded(m: map<Conn, Mark>, c: Conn, answer: Answer)
    requires c in m && m[c].accepted <= m[c].written
    ensures Follows(m, Offered(m, c, answer), null)
  {
    hide Follows;
    FollowsOne(m, c, Handed(m[c], answer), null);
  }

  /** The conflict check of resource binding: the first session found under the address goes, unless it is `c` itself. */
  method Displace(t: Table, c: Conn, error: seq<Byte>, answer: Answer, farewell: seq<Notice>) returns (ghost kicked: set<Conn>)
    requires t.Valid() && c in t.live && Idle(t.Marks(), c)
    modifies t.Repr()
    ensures t.Valid() && fresh(t.Repr() - old(t.Repr())) && t.history == old(t.history)
    ensures Follows(old(t.Marks()), t.Marks(), null)
    ensures t.live == old(t.live) - kicked && kicked <= old(t.live) - {c} && |kicked| <= 1
    ensures KickedIn(old(t.Marks()), kicked, {old(c.jid)})
    ensures kicked == {} <==> old(c.jid) == "" || First(old(t.Marks()), old(c.jid), c)
    ensures c in old(t.Marks()) && Now(t) == Outcome(old(Now(t)), c, Bind(error, answer, farewell))
    ensures kicked == {} ==> t.Marks() == old(t.Marks())
    ensures forall d | d in kicked :: First(old(t.Marks()), old(c.jid), d) && d.disconnected
  {
    hide Table.Valid, Table.Repr, Table.Marks, Table.Seen, Follows, Departed, Posted, Offered, Outcome;
    kicked := {};
    Here(t, c);
    FollowsSelf(t.Marks(), null);
    var existing := t.FindByJid(c.jid);
    FoundIsFirst(t, c.jid, existing);
    hide First;
    OneIsFound(t, c, existing);
    RivalIs(Now(t), c, error, answer, farewell, existing);
    if existing != null && existing != c {
      Here(t, existing);
      SendStreamError(t, existing, error, answer, farewell);
      Exists(t);
      kicked := {existing};
    }
  }

  lemma RivalIs(w: World, c: Conn, error: seq<Byte>, answer: Answer, farewell: seq<Notice>, found: Conn?)
    requires c in w.live && forall d :: First(w.live, w.live[c].flags.jid, d) <==> d == found
    ensures found != null ==> found in w.live
    ensures Outcome(w, c, Bind(error, answer, farewell)) ==
            if found == null || found == c then w
            else Departed(World(Offered(Posted(w.live, found, error), found, answer), w.left), found, farewell)
  {
    hide Departed, Posted, Offered;
    assert found != null ==> First(w.live, w.live[c].flags.jid, found);
  }

  lemma OneIsFound(t: Table, c: Conn, found: Conn?)
    requires t.Valid() && c in t.live && (found == null ==> c.jid == "" || forall d | d in t.live :: d.jid != c.jid)
    requires forall d :: First(t.Marks(), c.jid, d) <==> d == found
    ensures found == null ==> c.jid == ""
    ensures c.jid == "" ==> found == null
  {
    assert found != null ==> First(t.Marks(), c.jid, found);
  }

  /** One callback while the parser of `c` is on the stack: others may be displaced, `c` itself stays in the table. */
  method Callback(t: Table, c: Conn, e: Event) returns (ghost kicked: set<Conn>)
    requires t.Valid() && c in t.live && c.inParse && Idle(t.Marks(), c)
    modifies t.Repr()
    ensures t.Valid() && fresh(t.Repr() - old(t.Repr())) && t.history == old(t.history)
    ensures c in old(t.Marks()) && Now(t) == Outcome(old(Now(t)), c, e)
    ensures Follows(old(t.Marks()), t.Marks(), c)
    ensures t.live == old(t.live) - kicked && kicked <= old(t.live) - {c}
    ensures kicked == {} || e.Bind?
    ensures KickedIn(old(t.Marks()), kicked, {old(c.jid)})
    ensures c in t.Marks() && t.Marks()[c].flags == After(e, old(t.Marks()[c].flags))
  {
    hide Table.Valid, Table.Repr, Table.Marks, Table.Seen, Follows, Notified, Rival, Departed, Handed;
    kicked := {};
    Here(t, c);
    OutcomeKeeps(Now(t), c, e);
    match e
    case Reply(data) =>
      Post(t, c, data);
      Exists(t);
      FollowsWeaken(old(t.Marks()), t.Marks(), c);
    case Deliver(notice) =>
      Notify(t, [notice]);
      Exists(t);
      Here(t, c);
      FollowsWeaken(old(t.Marks()), t.Marks(), c);
    case Login(jid) =>
      Stand(t, c, Flags(jid, c.inParse, true, c.teardownPending));
    case Bind(error, answer, farewell) =>
      kicked := Displace(t, c, error, answer, farewell);
      Exists(t);
      Here(t, c);
      FollowsWeaken(old(t.Marks()), t.Marks(), c);
    case StreamError(error, answer) =>
      SendStreamError(t, c, error, answer, []);
      Exists(t);
    case StreamClose(closing) =>
      PostAndClose(t, c, closing);
    case ParseError =>
      Close(t, c, []);
      Exists(t);
    case AccountRemoved =>
      Close(t, c, []);
      Exists(t);
  }

  /** stream_handle_close under a running parser: the closing tag goes out, the teardown waits. */
  method PostAndClose(t: Table, c: Conn, closing: seq<Byte>)
    requires t.Valid() && c in t.live && c.inParse
    modifies t.Repr()
    ensures t.Valid() && fresh(t.Repr() - old(t.Repr())) && t.history == old(t.history)
    ensures Follows(old(t.Marks()), t.Marks(), c)
    ensures t.live == old(t.live) && c in old(t.Marks()) && t.left == old(t.left)
    ensures t.Marks() == Stood(Posted(old(t.Marks()), c, closing), c, old(t.Marks()[c].flags).(teardownPending := true))
  {
    hide Table.Valid, Table.Repr, Table.Marks, Table.Seen, Follows;
    Here(t, c);
    Post(t, c, closing);
    Exists(t);
    ghost var m := t.Marks();
    Here(t, c);
    Close(t, c, []);
    Exists(t);
    FollowsWeaken(old(t.Marks()), m, c);
    FollowsTrans(old(t.Marks()), m, t.Marks(), c);
  }

  function AfterAll(script: seq<Event>, f: Flags): Flags {
    if script == [] then f else After(script[|script| - 1], AfterAll(script[..|script| - 1], f))
  }

  /** The end is pending exactly when some callback asked for it, and only logins change the address. */
  lemma {:induction false} AfterAllIs(script: seq<Event>, f: Flags)
    ensures AfterAll(script, f).inParse == f.inParse
    ensures AfterAll(script, f).teardownPending <==> f.teardownPending || Ends(script)
    ensures AfterAll(script, f).jid in Names(f.jid, script)
  {
    if script != [] {
      var n := |script| - 1;
      AfterAllIs(script[..n], f);
      assert Ends(script) <==> Ends(script[..n]) || Fatal(script[n]);
      NamesGrow(f.jid, script, n);
    }
  }

  /** From `k` on there is no login. */
  predicate NoLogin(script: seq<Event>, k: nat) {
    forall m | k <= m < |script| :: !script[m].Login?
  }

  /** The address is that of the last login, and the parser is to be reset exactly if there was one. */
  lemma {:induction false} LastLogin(script: seq<Event>, f: Flags, k: nat)
    requires k <= |script| && NoLogin(script, k) && (k == 0 || script[k - 1].Login?)
    ensures AfterAll(script, f).jid == if k == 0 then f.jid else script[k - 1].jid
    ensures AfterAll(script, f).resetPending == (f.resetPending || k > 0)
  {
    if script != [] {
      var n := |script| - 1;
      if k <= n {
        assert !script[n].Login?;
        assert forall m | k <= m < n :: script[..n][m] == script[m];
        LastLogin(script[..n], f, k);
      }
    }
  }

  lemma NamesGrow(jid: string, script: seq<Event>, k: nat)
    requires k <= |script|
    ensures Names(jid, script[..k]) <= Names(jid, script)
  {
  }

  lemma NameAt(script: seq<Event>, k: nat, f: Flags)
    requires k <= |script|
    ensures AfterAll(script[..k], f).inParse == f.inParse && AfterAll(script[..k], f).jid in Names(f.jid, script)
  {
    AfterAllIs(script[..k], f);
    NamesGrow(f.jid, script, k);
  }

  lemma BindAt(script: seq<Event>, k: nat)
    requires k < |script|
    ensures script[k].Bind? ==> Binds(script)
  {
  }

  lemma AfterNone(script: seq<Event>, f: Flags)
    requires script == []
    ensures AfterAll(script, f) == f
  {
  }

  lemma AfterNext(script: seq<Event>, k: nat, f: Flags)
    requires k < |script|
    ensures AfterAll(script[..k + 1], f) == After(script[k], AfterAll(script[..k], f))
  {
    assert script[..k + 1][..k] == script[..k];
  }

  /** One callback of a chunk that started with the table as `start` says. */
  method CallbackIn(t: Table, c: Conn, e: Event, ghost start: map<Conn, Mark>, ghost kicked: set<Conn>, ghost names: set<string>)
    returns (ghost more: set<Conn>)
    requires t.Valid() && c in t.live && c.inParse && Idle(start, c) && Follows(start, t.Marks(), c)
    requires c in t.Marks() && c.jid in names && KickedIn(start, kicked, names)
    modifies t.Repr()
    ensures t.Valid() && fresh(t.Repr() - old(t.Repr())) && t.history == old(t.history)
    ensures Follows(start, t.Marks(), c) && KickedIn(start, kicked + more, names)
    ensures t.live == old(t.live) - more && more <= old(t.live) - {c} && (more == {} || e.Bind?)
    ensures c in old(t.Marks()) && c in t.Marks() && t.Marks()[c].flags == After(e, old(t.Marks()[c].flags))
    ensures Now(t) == Outcome(old(Now(t)), c, e)
  {
    hide Table.Valid, Table.Repr, Table.Marks, Table.Seen, Follows, Idle, KickedIn, After, Fatal, Outcome, Now;
    ghost var m := t.Marks();
    Here(t, c);
    IdleKept(start, m, c);
    more := Callback(t, c, e);
    FollowsTrans(start, m, t.Marks(), c);
    MoreKicked(start, m, c, kicked, more, names);
  }

  /** Parsing a chunk: a run of callbacks. */
  method Parse(t: Table, c: Conn, script: seq<Event>) returns (ghost kicked: set<Conn>)
    requires t.Valid() && c in t.live && c.inParse && Idle(t.Marks(), c)
    modifies t.Repr()
    ensures t.Valid() && fresh(t.Repr() - old(t.Repr())) && t.history == old(t.history)
    ensures Follows(old(t.Marks()), t.Marks(), c)
    ensures t.live == old(t.live) - kicked && kicked <= old(t.live) - {c}
    ensures c in old(t.Marks()) && KickedIn(old(t.Marks()), kicked, Names(old(c.jid), script))
    ensures kicked == {} || Binds(script)
    ensures c in t.Marks() && t.Marks()[c].flags == AfterAll(script, old(t.Marks()[c].flags))
    ensures Now(t) == OutcomeAll(old(Now(t)), c, script)
  {
    hide Table.Valid, Table.Repr, Table.Marks, Table.Seen, Follows, Names, Idle, KickedIn, AfterAll, After, Fatal, Binds;
    hide Outcome, OutcomeAll;
    kicked := {};
    Here(t, c);
    FollowsSelf(t.Marks(), c);
    ghost var start := t.Marks()[c].flags;
    ghost var names := Names(c.jid, script);
    NoneKicked(t.Marks(), names);
    AfterNone(script[..0], start);
    ghost var w := Now(t);
    OutcomeNone(w, c);
    for k := 0 to |script|
      invariant t.Valid() && fresh(t.Repr() - old(t.Repr())) && t.history == old(t.history)
      invariant Follows(old(t.Marks()), t.Marks(), c)
      invariant t.live == old(t.live) - kicked && kicked <= old(t.live) - {c}
      invariant KickedIn(old(t.Marks()), kicked, names) && (kicked == {} || Binds(script))
      invariant c in t.Marks() && t.Marks()[c].flags == AfterAll(script[..k], start)
      invariant Now(t) == OutcomeAll(w, c, script[..k])
    {
      Here(t, c);
      NameAt(script, k, start);
      BindAt(script, k);
      AfterNext(script, k, start);
      OutcomeNext(w, c, script, k);
      var more := CallbackIn(t, c, script[k], old(t.Marks()), kicked, names);
      Exists(t);
      kicked := kicked + more;
    }
    assert script[..|script|] == script;
  }

  lemma OutcomeNone(w: World, c: Conn)
    requires c in w.live
    ensures OutcomeAll(w, c, []) == w
  {
  }

  lemma OutcomeNext(w: World, c: Conn, script: seq<Event>, k: nat)
    requires c in w.live && k < |script|
    ensures OutcomeAll(w, c, script[..k + 1]) == Outcome(OutcomeAll(w, c, script[..k]), c, script[k])
  {
    hide Outcome;
    assert script[..k + 1][..k] == script[..k];
  }

  /** Who was displaced, and under which address. */
  ghost predicate KickedIn(marks: map<Conn, Mark>, kicked: set<Conn>, names: set<string>) {
    forall d | d in kicked :: d in marks && marks[d].flags.jid in names
  }

  lemma NoneKicked(marks: map<Conn, Mark>, names: set<string>)
    ensures KickedIn(marks, {}, names)
  {
  }

  lemma MoreKicked(a: map<Conn, Mark>, b: map<Conn, Mark>, c: Conn, kicked: set<Conn>, more: set<Conn>, names: set<string>)
    requires Follows(a, b, c) && c in b && c !in more && KickedIn(a, kicked, names)
    requires KickedIn(b, more, {b[c].flags.jid}) && b[c].flags.jid in names
    ensures KickedIn(a, kicked + more, names)
  {
  }

  /** Feed one chunk to the parser of `c`, then do the deferred parser reset. */
  method Chunk(t: Table, c: Conn, script: seq<Event>) returns (ghost kicked: set<Conn>)
    requires t.Valid() && c in t.live && Idle(t.Marks(), null)
    modifies t.Repr()
    ensures t.Valid() && fresh(t.Repr() - old(t.Repr())) && t.history == old(t.history)
    ensures Follows(old(t.Marks()), t.Marks(), c)
    ensures t.live == old(t.live) - kicked && kicked <= old(t.live) - {c}
    ensures c in old(t.Marks()) && KickedIn(old(t.Marks()), kicked, Names(old(c.jid), script))
    ensures kicked == {} || Binds(script)
    ensures !c.inParse && !c.resetPending && (c.teardownPending <==> Ends(script))
    ensures c.jid == AfterAll(script, Flags(old(c.jid), true, false, false)).jid
    ensures Now(t) == Chunked(old(Now(t)), c, script)
  {
    hide Table.Valid, Table.Repr, Table.Marks, Table.Seen, Follows, Names, KickedIn, Binds, OutcomeAll;
    Here(t, c);
    ghost var m0 := t.Marks();
    Stand(t, c, Flags(c.jid, true, c.resetPending, c.teardownPending));
    ghost var m1 := t.Marks();
    Here(t, c);
    IdleUnder(m0, m1, c);
    kicked := Parse(t, c, script);
    Exists(t);
    AfterAllIs(script, m1[c].flags);
    KickedSame(m0, m1, c, kicked, Names(old(c.jid), script));
    Here(t, c);
    ghost var m2 := t.Marks();
    FollowsTrans(m0, m1, m2, c);
    Stand(t, c, Flags(c.jid, false, false, c.teardownPending));
    FollowsTrans(m0, m2, t.Marks(), c);
    Here(t, c);
  }

  lemma IdleUnder(a: map<Conn, Mark>, b: map<Conn, Mark>, c: Conn)
    requires Idle(a, null) && Follows(a, b, c)
    ensures Idle(b, c)
  {
  }

  lemma KickedSame(a: map<Conn, Mark>, b: map<Conn, Mark>, c: Conn, kicked: set<Conn>, names: set<string>)
    requires Follows(a, b, c) && c !in kicked && KickedIn(b, kicked, names)
    ensures KickedIn(a, kicked, names)
  {
  }

  /** A chunk has been read and is parsed; the session goes if a callback asked for it. */
  method OnChunk(t: Table, c: Conn, script: seq<Event>, last: Answer, farewell: seq<Notice>) returns (ghost kicked: set<Conn>)
    requires t.Valid() && c in t.live && Idle(t.Marks(), null)
    modifies t.Repr()
    ensures t.Valid() && fresh(t.Repr() - old(t.Repr())) && t.history == old(t.history)
    ensures Idle(t.Marks(), null) && Follows(old(t.Marks()), t.Marks(), c)
    ensures t.live == old(t.live) - kicked - (if Ends(script) then {c} else {}) && kicked <= old(t.live) - {c}
    ensures c in old(t.Marks()) && KickedIn(old(t.Marks()), kicked, Names(old(c.jid), script))
    ensures kicked == {} || Binds(script)
    ensures c in t.live ==> c.jid == AfterAll(script, Flags(old(c.jid), true, false, false)).jid
    ensures Now(t) == WhenRead(old(Now(t)), c, 1, script, last, farewell)
  {
    hide Table.Valid, Table.Repr, Table.Marks, Table.Seen, Follows, Names, KickedIn, Idle, Ends, Binds, AfterAll, Chunked, Departed;
    ghost var m0 := t.Marks();
    kicked := Chunk(t, c, script);
    Exists(t);
    ghost var m1 := t.Marks();
    Here(t, c);
    IdleAgain(m0, m1, c);
    if c.teardownPending {
      FinishOff(t, c, last, farewell);
      Exists(t);
      There(t);
      FollowsWeaken(m1, t.Marks(), c);
      IdleKept(m1, t.Marks(), c);
      IdleGone(t.Marks(), c);
      FollowsTrans(m0, m1, t.Marks(), c);
    }
  }

  /** One read, noted in the history, and what it does: end of stream, an error or a full buffer end the session, and so
      does a callback that asked for it, once the chunk is parsed; otherwise the session stays. */
  method OnReadable(t: Table, c: Conn, n: int, script: seq<Event>, last: Answer, farewell: seq<Notice>)
    returns (ghost kicked: set<Conn>)
    requires t.Valid() && c in t.live && Idle(t.Marks(), null) && n <= READ_BUF_SIZE
    modifies t.Repr()
    ensures t.Valid() && fresh(t.Repr() - old(t.Repr()))
    ensures t.history == old(t.history) + [Read(c, n, script, last, farewell)]
    ensures c in old(t.Marks()) && Now(t) == WhenRead(old(Now(t)), c, n, script, last, farewell)
    ensures Idle(t.Marks(), null) && Follows(old(t.Marks()), t.Marks(), c)
    ensures c in t.live <==> 0 < n < READ_BUF_SIZE && !Ends(script)
    ensures t.live == old(t.live) - kicked - (if 0 < n < READ_BUF_SIZE && !Ends(script) then {} else {c})
    ensures kicked <= old(t.live) - {c} && (kicked != {} ==> 0 < n < READ_BUF_SIZE && Binds(script))
    ensures KickedIn(old(t.Marks()), kicked, Names(old(c.jid), script))
    ensures c in t.live ==> c.jid == AfterAll(script, Flags(old(c.jid), true, false, false)).jid
  {
    hide Table.Valid, Table.Marks, Table.Seen, Table.Repr, Follows, Names, KickedIn, Idle, Ends, Binds, AfterAll, Departed, Chunked;
    kicked := {};
    Here(t, c);
    There(t);
    ghost var m0 := t.Marks();
    t.history := t.history + [Read(c, n, script, last, farewell)];
    if n <= 0 || n >= READ_BUF_SIZE {
      NotParsing(t, c);
      NoneKicked(m0, Names(c.jid, script));
      Teardown(t, c, farewell);
      Exists(t);
      IdleKept(m0, t.Marks(), null);
      FollowsWeaken(m0, t.Marks(), c);
    } else {
      kicked := OnChunk(t, c, script, last, farewell);
      Exists(t);
    }
  }

  lemma NotParsing(t: Table, c: Conn)
    requires t.Valid() && c in t.live && Idle(t.Marks(), null)
    ensures !c.inParse
  {
    Here(t, c);
  }

  /** When the actor is idle too, or has only the end before it, everybody is. */
  lemma IdleAgain(a: map<Conn, Mark>, b: map<Conn, Mark>, c: Conn)
    requires Idle(a, null) && Follows(a, b, c) && c in b && !b[c].flags.inParse && !b[c].flags.resetPending
    ensures Idle(b, c) && (!b[c].flags.teardownPending ==> Idle(b, null))
  {
  }

  lemma IdleGone(marks: map<Conn, Mark>, c: Conn)
    requires Idle(marks, c) && c !in marks
    ensures Idle(marks, null)
  {
  }

  /** The deferred teardown: one more flush, whatever it says, then the end. */
  method FinishOff(t: Table, c: Conn, last: Answer, farewell: seq<Notice>)
    requires t.Valid() && c in t.live && !c.inParse
    modifies t.Repr()
    ensures t.Valid() && fresh(t.Repr() - old(t.Repr())) && t.history == old(t.history)
    ensures t.live == old(t.live) - {c} && c.disconnected && c in old(t.Marks())
    ensures Now(t) == Departed(World(Offered(old(t.Marks()), c, last), old(t.left)), c, farewell)
    ensures Follows(old(t.Marks()), t.Marks(), null)
  {
    hide Table.Valid, Table.Repr, Table.Marks, Table.Seen, Follows, Departed, Handed;
    Here(t, c);
    ghost var m := t.Marks();
    var _ := Drain(t, c, last);
    Exists(t);
    HandedTells(m[c], last);
    Here(t, c);
    ghost var m1 := t.Marks();
    Teardown(t, c, farewell);
    Exists(t);
    FollowsTrans(m, m1, t.Marks(), null);
  }

  lemma NotTaken(m: map<Conn, Mark>, c: Conn, answer: Answer)
    requires c in m && !answer.Took?
    ensures Offered(m, c, answer) == m
  {
  }

  /** The socket takes output again, noted in the history; only its error, on output that was waiting, ends the session. */
  method OnWritable(t: Table, c: Conn, answer: Answer, farewell: seq<Notice>)
    requires t.Valid() && c in t.live && Idle(t.Marks(), null)
    modifies t.Repr()
    ensures t.Valid() && fresh(t.Repr() - old(t.Repr()))
    ensures t.history == old(t.history) + [Flushed(c, answer, farewell)]
    ensures c in old(t.Marks()) && Now(t) == WhenWritable(old(Now(t)), c, answer, farewell)
    ensures Idle(t.Marks(), null) && Follows(old(t.Marks()), t.Marks(), null)
    ensures t.live == if answer.Failed? && old(c.writeLen) > 0 then old(t.live) - {c} else old(t.live)
  {
    hide Table.Valid, Table.Repr, Table.Marks, Table.Seen, Follows, Idle, Departed, Handed;
    Here(t, c);
    There(t);
    ghost var m0 := t.Marks();
    t.history := t.history + [Flushed(c, answer, farewell)];
    var ok := Drain(t, c, answer);
    Exists(t);
    ghost var m1 := t.Marks();
    IdleKept(m0, m1, null);
    if !ok {
      NotTaken(m0, c, answer);
      NotParsing(t, c);
      Teardown(t, c, farewell);
      Exists(t);
      IdleKept(m1, t.Marks(), null);
      FollowsTrans(m0, m1, t.Marks(), null);
    }
  }

  /** poll fills in what it saw, slot by slot, and leaves the rest of the table alone. */
  method Poll(t: Table)
    requires t.Valid()
    modifies t.pollfds
    ensures t.Valid() && t.Repr() == old(t.Repr()) && t.live == old(t.live) && t.Marks().Keys == old(t.Marks()).Keys
    ensures forall c | c in t.Marks() :: t.Marks()[c] == old(t.Marks()[c]).(ready := t.Marks()[c].ready)
  {
    There(t);
    for i := 0 to t.nfds
      invariant forall k | 0 <= k < MAX_CLIENTS :: t.pollfds[k] == old(t.pollfds[k]).(ready := t.pollfds[k].ready)
    {
      var r: Ready := *;
      t.pollfds[i] := t.pollfds[i].(ready := r);
    }
    Polled(t);
  }

  twostate lemma Polled(t: Table)
    requires old(t.Valid()) && unchanged(t, t.sessions) && forall c | c in t.live :: unchanged(c) && unchanged(c.writeBuf)
    requires forall k | 0 <= k < t.pollfds.Length :: t.pollfds[k] == old(t.pollfds[k]).(ready := t.pollfds[k].ready)
    ensures t.Valid() && t.Repr() == old(t.Repr())
    ensures forall c | c in t.Marks() :: t.Marks()[c] == old(t.Marks()[c]).(ready := t.Marks()[c].ready)
  {
    forall i | 1 <= i < t.nfds ensures t.InSlot(i) {
      assert old(t.InSlot(i));
    }
    forall c | c in t.live ensures t.Settled(c) {
      assert old(t.Settled(c));
    }
  }

  /** Whom the loop has read, in order. */
  ghost function Readers(hs: seq<Happening>): seq<Conn> {
    if hs == [] then []
    else
      var n := |hs| - 1;
      Readers(hs[..n]) + (if hs[n].Read? then [hs[n].conn] else [])
  }

  /** Whose output the loop has offered, in order. */
  ghost function Flushers(hs: seq<Happening>): seq<Conn> {
    if hs == [] then []
    else
      var n := |hs| - 1;
      Flushers(hs[..n]) + (if hs[n].Flushed? then [hs[n].conn] else [])
  }

  /** Nothing happens to a connection but what poll reported of it. */
  ghost predicate Reported(start: map<Conn, Mark>, hs: seq<Happening>) {
    forall h | h in hs ::
      && h.conn in start
      && (h.Broke? ==> start[h.conn].ready.broken)
      && (h.Read? ==> start[h.conn].ready.readable && !start[h.conn].ready.broken)
      && (h.Flushed? ==> start[h.conn].ready.writable)
  }

  /** Slots up to `i` have been served: who is still to come has not been read, who kept a served slot was not broken, and
      was read if there was something to read. */
  ghost predicate Served(start: map<Conn, Mark>, now: map<Conn, Mark>, done: seq<Conn>, i: nat) {
    && Outlasts(start, now)
    && (forall j, k | 0 <= j < k < |done| :: done[j] != done[k])
    && (forall j | 0 <= j < |done| :: done[j] in start && start[done[j]].ready.readable)
    && (forall c | c in now && now[c].slot >= i :: c !in done)
    && (forall c | c in now && now[c].slot == start[c].slot && now[c].slot < i ::
          !start[c].ready.broken && (start[c].ready.readable ==> c in done))
  }

  lemma ServedKept(start: map<Conn, Mark>, now: map<Conn, Mark>, next: map<Conn, Mark>, done: seq<Conn>, i: nat)
    requires Served(start, now, done, i) && Outlasts(now, next)
    ensures Served(start, next, done, i)
  {
    OutlastsTrans(start, now, next);
    hide Moved;
  }

  lemma ServedOne(start: map<Conn, Mark>, now: map<Conn, Mark>, next: map<Conn, Mark>, done: seq<Conn>, i: nat, s: Conn)
    requires Served(start, now, done, i) && Outlasts(now, next)
    requires s in now && now[s].slot == i && forall d | d in now && now[d].slot == i :: d == s
    requires !now[s].ready.broken
    ensures now[s].ready.readable ==> Served(start, next, done + [s], i + 1)
    ensures !now[s].ready.readable ==> Served(start, next, done, i + 1)
  {
    OutlastsTrans(start, now, next);
    hide Moved;
    var all := if now[s].ready.readable then done + [s] else done;
    assert s !in done;
    forall c | c in next && next[c].slot == start[c].slot && next[c].slot < i + 1
      ensures !start[c].ready.broken && (start[c].ready.readable ==> c in all)
    {
      assert next[c].slot <= now[c].slot <= start[c].slot;
    }
  }

  /** Slots up to `i` have had their turn to write: nobody was offered his output twice, or on a report that said not
      writable; who is still to come has not been; and who kept a slot was, if poll said so. */
  ghost predicate Drained(start: map<Conn, Mark>, now: map<Conn, Mark>, sent: seq<Conn>, i: nat) {
    && Outlasts(start, now)
    && (forall j, k | 0 <= j < k < |sent| :: sent[j] != sent[k])
    && (forall j | 0 <= j < |sent| :: sent[j] in start && start[sent[j]].ready.writable)
    && (forall c | c in now && now[c].slot >= i :: c !in sent)
    && (forall c | c in now && now[c].slot == start[c].slot && now[c].slot < i :: start[c].ready.writable ==> c in sent)
  }

  lemma DrainedKept(start: map<Conn, Mark>, now: map<Conn, Mark>, next: map<Conn, Mark>, sent: seq<Conn>, i: nat)
    requires Drained(start, now, sent, i) && Outlasts(now, next)
    ensures Drained(start, next, sent, i)
  {
    OutlastsTrans(start, now, next);
    hide Moved;
  }

  lemma DrainedOne(start: map<Conn, Mark>, now: map<Conn, Mark>, next: map<Conn, Mark>, sent: seq<Conn>, i: nat, s: Conn)
    requires Drained(start, now, sent, i) && Outlasts(now, next)
    requires s in now && now[s].slot == i && forall d | d in now && now[d].slot == i :: d == s
    ensures now[s].ready.writable ==> Drained(start, next, sent + [s], i + 1)
    ensures !now[s].ready.writable ==> Drained(start, next, sent, i + 1)
  {
    OutlastsTrans(start, now, next);
    hide Moved;
    var all := if now[s].ready.writable then sent + [s] else sent;
    assert s !in sent;
    forall c | c in next && next[c].slot == start[c].slot && next[c].slot < i + 1
      ensures start[c].ready.writable ==> c in all
    {
      assert next[c].slot <= now[c].slot <= start[c].slot;
    }
  }

  /** A pass under way: `r` slots have had their turn to be read, `w` theirs to write. */
  ghost predicate Progress(start: map<Conn, Mark>, now: map<Conn, Mark>, news: seq<Happening>, r: nat, w: nat) {
    Served(start, now, Readers(news), r) && Drained(start, now, Flushers(news), w) && Reported(start, news)
  }

  lemma NewsNext(news: seq<Happening>, h: Happening)
    ensures Readers(news + [h]) == Readers(news) + (if h.Read? then [h.conn] else [])
    ensures Flushers(news + [h]) == Flushers(news) + (if h.Flushed? then [h.conn] else [])
  {
    assert (news + [h])[..|news|] == news;
  }

  lemma ReportedNext(start: map<Conn, Mark>, now: map<Conn, Mark>, news: seq<Happening>, h: Happening)
    requires Reported(start, news) && Outlasts(start, now) && h.conn in now
    requires h.Broke? ==> now[h.conn].ready.broken
    requires h.Read? ==> now[h.conn].ready.readable && !now[h.conn].ready.broken
    requires h.Flushed? ==> now[h.conn].ready.writable
    ensures Reported(start, news + [h])
  {
    hide Moved;
  }

  lemma ProgressBroke(start: map<Conn, Mark>, now: map<Conn, Mark>, next: map<Conn, Mark>, news: seq<Happening>, i: nat,
                      h: Happening)
    requires Progress(start, now, news, i, i) && Outlasts(now, next) && h.Broke? && h.conn in now && now[h.conn].ready.broken
    ensures Progress(start, next, news + [h], i, i)
  {
    NewsNext(news, h);
    ReportedNext(start, now, news, h);
    ServedKept(start, now, next, Readers(news), i);
    DrainedKept(start, now, next, Flushers(news), i);
    hide Served, Drained, Reported;
    assert Readers(news) + [] == Readers(news) && Flushers(news) + [] == Flushers(news);
  }

  lemma ProgressRead(start: map<Conn, Mark>, now: map<Conn, Mark>, next: map<Conn, Mark>, news: seq<Happening>, i: nat,
                     h: Happening)
    requires Progress(start, now, news, i, i) && Outlasts(now, next) && h.Read?
    requires h.conn in now && now[h.conn].slot == i && forall d | d in now && now[d].slot == i :: d == h.conn
    requires !now[h.conn].ready.broken && now[h.conn].ready.readable
    ensures Progress(start, next, news + [h], i + 1, i)
  {
    NewsNext(news, h);
    ReportedNext(start, now, news, h);
    ServedOne(start, now, next, Readers(news), i, h.conn);
    DrainedKept(start, now, next, Flushers(news), i);
    hide Served, Drained, Reported;
    assert Flushers(news) + [] == Flushers(news);
  }

  lemma ProgressUnread(start: map<Conn, Mark>, now: map<Conn, Mark>, news: seq<Happening>, i: nat, s: Conn)
    requires Progress(start, now, news, i, i)
    requires s in now && now[s].slot == i && forall d | d in now && now[d].slot == i :: d == s
    requires !now[s].ready.broken && !now[s].ready.readable
    ensures Progress(start, now, news, i + 1, i)
  {
    OutlastsSelf(now);
    ServedOne(start, now, now, Readers(news), i, s);
  }

  lemma ProgressFlushed(start: map<Conn, Mark>, now: map<Conn, Mark>, next: map<Conn, Mark>, news: seq<Happening>, i: nat,
                        h: Happening)
    requires Progress(start, now, news, i + 1, i) && Outlasts(now, next) && h.Flushed?
    requires h.conn in now && now[h.conn].slot == i && forall d | d in now && now[d].slot == i :: d == h.conn
    requires now[h.conn].ready.writable
    ensures Progress(start, next, news + [h], i + 1, i + 1)
  {
    NewsNext(news, h);
    ReportedNext(start, now, news, h);
    ServedKept(start, now, next, Readers(news), i + 1);
    DrainedOne(start, now, next, Flushers(news), i, h.conn);
    hide Served, Drained, Reported;
    assert Readers(news) + [] == Readers(news);
  }

  lemma ProgressUnflushed(start: map<Conn, Mark>, now: map<Conn, Mark>, news: seq<Happening>, i: nat, s: Conn)
    requires Progress(start, now, news, i + 1, i)
    requires s in now && now[s].slot == i && forall d | d in now && now[d].slot == i :: d == s
    requires !now[s].ready.writable
    ensures Progress(start, now, news, i + 1, i + 1)
  {
    OutlastsSelf(now);
    DrainedOne(start, now, now, Flushers(news), i, s);
  }

  /** Past the end of the table it does not matter how far the turns have come. */
  lemma ProgressEnd(start: map<Conn, Mark>, now: map<Conn, Mark>, news: seq<Happening>, r: nat, w: nat, n: nat)
    requires Progress(start, now, news, r, w) && n <= r && n <= w && forall c | c in now :: now[c].slot < n
    ensures Progress(start, now, news, n, n)
  {
    hide Outlasts, Reported;
  }

  lemma Occupant(t: Table, i: nat)
    requires t.Valid() && 1 <= i < t.nfds
    ensures i < t.sessions.Length && i < t.pollfds.Length && t.sessions[i] != null && t.sessions[i] in t.Marks()
    ensures var s := t.sessions[i] as Conn;
            s in t.live && t.Marks()[s].slot == i && t.Marks()[s].ready == t.pollfds[i].ready
            && (forall d | d in t.Marks() && t.Marks()[d].slot == i :: d == s)
  {
    assert t.InSlot(i);
    forall d | d in t.Marks() && t.Marks()[d].slot == i ensures d == t.sessions[i] {
      assert t.Settled(d);
    }
  }

  /** How much a read returns, what the parser makes of it, and what the socket says to a flush at its end: anything. */
  method Receive() returns (n: int, script: seq<Event>, last: Answer)
    ensures n <= READ_BUF_SIZE
  {
    n, script, last := *, *, *;
    if n > READ_BUF_SIZE {
      n := READ_BUF_SIZE;
    }
  }

  /** What a socket says to a write: anything. */
  method Socket() returns (answer: Answer)
  {
    answer := *;
  }

  /** What is said when a session goes: anything, to anybody. */
  method Parting() returns (farewell: seq<Notice>)
  {
    farewell := *;
  }

  /** A broken connection is torn down. */
  method Gone(t: Table, i: nat, s: Conn, ghost start: map<Conn, Mark>, ghost news: seq<Happening>) returns (ghost h: Happening)
    requires t.Valid() && Idle(t.Marks(), null) && Progress(start, t.Marks(), news, i, i)
    requires s in t.live && s in t.Marks() && t.Marks()[s].ready.broken
    modifies t.Repr()
    ensures t.Valid() && fresh(t.Repr() - old(t.Repr())) && t.history == old(t.history) + [h]
    ensures Idle(t.Marks(), null) && t.live == old(t.live) - {s} && Progress(start, t.Marks(), news + [h], i, i)
    ensures Now(t) == Effect(old(Now(t)), h)
  {
    hide Table.Valid, Table.Marks, Table.Seen, Table.Repr, Follows, Outlasts, Idle, Progress, Notified, Said, Departed;
    ghost var m := t.Marks();
    There(t);
    NotParsing(t, s);
    var farewell := Parting();
    h := Broke(s, farewell);
    t.history := t.history + [h];
    Teardown(t, s, farewell);
    Exists(t);
    IdleKept(m, t.Marks(), null);
    FollowsOutlasts(m, t.Marks(), null);
    ProgressBroke(start, m, t.Marks(), news, i, h);
  }

  /** The read of a turn. The session may go, and so may others; whoever sits in its slot then is not read. */
  method ReadTurn(t: Table, i: nat, s: Conn, ghost start: map<Conn, Mark>, ghost news: seq<Happening>) returns (ghost h: Happening)
    requires t.Valid() && Idle(t.Marks(), null) && Progress(start, t.Marks(), news, i, i)
    requires s in t.live && s in t.Marks() && t.Marks()[s].slot == i
    requires forall d | d in t.Marks() && t.Marks()[d].slot == i :: d == s
    requires t.Marks()[s].ready.readable && !t.Marks()[s].ready.broken
    modifies t.Repr()
    ensures t.Valid() && fresh(t.Repr() - old(t.Repr())) && t.history == old(t.history) + [h]
    ensures Idle(t.Marks(), null) && t.live <= old(t.live) && Progress(start, t.Marks(), news + [h], i + 1, i)
    ensures Now(t) == Effect(old(Now(t)), h)
  {
    hide Table.Valid, Table.Repr, Table.Marks, Table.Seen, Follows, Outlasts, Idle, Progress, KickedIn, Ends, Binds, Names, AfterAll;
    hide WhenRead;
    ghost var m := t.Marks();
    var n, script, last := Receive();
    var farewell := Parting();
    h := Read(s, n, script, last, farewell);
    var _ := OnReadable(t, s, n, script, last, farewell);
    Exists(t);
    FollowsOutlasts(m, t.Marks(), s);
    ProgressRead(start, m, t.Marks(), news, i, h);
  }

  method WriteTurn(t: Table, i: nat, s: Conn, ghost start: map<Conn, Mark>, ghost news: seq<Happening>) returns (ghost h: Happening)
    requires t.Valid() && Idle(t.Marks(), null) && Progress(start, t.Marks(), news, i + 1, i)
    requires s in t.live && s in t.Marks() && t.Marks()[s].slot == i
    requires forall d | d in t.Marks() && t.Marks()[d].slot == i :: d == s
    requires t.Marks()[s].ready.writable
    modifies t.Repr()
    ensures t.Valid() && fresh(t.Repr() - old(t.Repr())) && t.history == old(t.history) + [h]
    ensures Idle(t.Marks(), null) && t.live <= old(t.live) && Progress(start, t.Marks(), news + [h], i + 1, i + 1)
    ensures Now(t) == Effect(old(Now(t)), h)
  {
    hide Table.Valid, Table.Repr, Table.Marks, Table.Seen, Follows, Outlasts, Idle, Progress, WhenWritable;
    ghost var m := t.Marks();
    var answer := Socket();
    var farewell := Parting();
    h := Flushed(s, answer, farewell);
    OnWritable(t, s, answer, farewell);
    Exists(t);
    FollowsOutlasts(m, t.Marks(), null);
    ProgressFlushed(start, m, t.Marks(), news, i, h);
  }

  lemma FewerSlots(t: Table, before: set<Conn>)
    requires t.Valid() && t.live <= before
    ensures t.nfds <= |before| + 1
  {
    Fewer(t.live, before);
  }

  /** The writing half of a turn, for whoever sits in slot `i` now. */
  method WriteHalf(t: Table, i: nat, ghost start: map<Conn, Mark>, ghost news: seq<Happening>)
    returns (next: nat, ghost more: seq<Happening>)
    requires t.Valid() && Idle(t.Marks(), null) && 1 <= i < t.nfds && Progress(start, t.Marks(), news, i + 1, i)
    modifies t.Repr()
    ensures t.Valid() && fresh(t.Repr() - old(t.Repr())) && t.history == old(t.history) + more
    ensures Idle(t.Marks(), null) && Progress(start, t.Marks(), news + more, next, next)
    ensures i <= next && t.nfds - next < old(t.nfds) - i
    ensures Now(t) == EffectAll(old(Now(t)), more)
  {
    hide Table.Valid, Table.Repr, Table.Marks, Table.Seen, Follows, Outlasts, Idle, Progress, Effect, EffectAll, Now;
    There(t);
    Occupant(t, i);
    var s: Conn := t.sessions[i];
    EffectNone(Now(t));
    more := [];
    assert news + more == news && t.history + more == t.history;
    if t.pollfds[i].ready.writable {
      ghost var w := Now(t);
      ghost var h := WriteTurn(t, i, s, start, news);
      Exists(t);
      EffectOne(w, h);
      more := [h];
      There(t);
      FewerSlots(t, old(t.live));
      if t.sessions[i] == null || t.sessions[i].disconnected {
        ProgressEnd(start, t.Marks(), news + more, i + 1, i + 1, i);
        return i, more;
      }
    } else {
      ProgressUnflushed(start, t.Marks(), news, i, s);
    }
    next := i + 1;
  }

  lemma EffectNone(w: World)
    ensures EffectAll(w, []) == w
  {
  }

  /** One turn of the loop, for the slot `i`; `next` is the slot of the following turn, and `more` is what has happened. */
  method Turn(t: Table, i: nat, ghost start: map<Conn, Mark>, ghost news: seq<Happening>)
    returns (next: nat, ghost more: seq<Happening>)
    requires t.Valid() && Idle(t.Marks(), null) && 1 <= i < t.nfds && Progress(start, t.Marks(), news, i, i)
    modifies t.Repr()
    ensures t.Valid() && fresh(t.Repr() - old(t.Repr())) && t.history == old(t.history) + more
    ensures Idle(t.Marks(), null) && Progress(start, t.Marks(), news + more, next, next)
    ensures i <= next && t.nfds - next < old(t.nfds) - i
    ensures Now(t) == EffectAll(old(Now(t)), more)
  {
    hide Table.Valid, Table.Repr, Table.Marks, Table.Seen, Follows, Outlasts, Idle, Progress, Effect, EffectAll, Now;
    next := i;
    There(t);
    Occupant(t, i);
    var s: Conn := t.sessions[i];
    ghost var w := Now(t);
    if t.pollfds[i].ready.broken {
      ghost var h := Gone(t, i, s, start, news);
      Exists(t);
      EffectOne(w, h);
      more := [h];
      There(t);
      return;  // stepping back and forward again: the same slot, with its new occupant
    }
    more := [];
    EffectNone(w);
    assert news + more == news && t.history + more == t.history;
    if t.pollfds[i].ready.readable {
      ghost var h := ReadTurn(t, i, s, start, news);
      Exists(t);
      EffectOne(w, h);
      more := [h];
      There(t);
      FewerSlots(t, old(t.live));
      if t.sessions[i] == null || t.sessions[i].disconnected {
        ProgressGone(start, t.Marks(), news + more, i);
        return;
      }
    } else {
      ProgressUnread(start, t.Marks(), news, i, s);
    }
    ghost var rest: seq<Happening>;
    next, rest := WriteHalf(t, i, start, news + more);
    Exists(t);
    EffectMore(w, more, rest);
    assert (news + more) + rest == news + (more + rest);
    assert old(t.history) + more + rest == old(t.history) + (more + rest);
    more := more + rest;
  }

  /** Reading has emptied the slot: nobody sits there or behind it. */
  lemma ProgressGone(start: map<Conn, Mark>, now: map<Conn, Mark>, news: seq<Happening>, i: nat)
    requires Progress(start, now, news, i + 1, i) && forall c | c in now :: now[c].slot < i
    ensures Progress(start, now, news, i, i)
  {
    ProgressEnd(start, now, news, i + 1, i, i);
  }

  lemma OutlastsSelf(a: map<Conn, Mark>)
    ensures Outlasts(a, a)
  {
    NoneMoved(a, a);
  }

  /** One pass over the clients after a poll: what happens is noted in the history, exactly as everybody stands after it.
      It ends although slots move; nobody is read or offered his output twice, or without a report that says so; every
      broken connection is torn down, every readable one read and every writable one flushed that still sits where poll
      saw it; and the pass leaves out at most one connection for each that it removes. */
  method Pass(t: Table) returns (ghost news: seq<Happening>)
    requires t.Valid() && Idle(t.Marks(), null)
    modifies t.Repr()
    ensures t.Valid() && fresh(t.Repr() - old(t.Repr())) && Idle(t.Marks(), null)
    ensures t.history == old(t.history) + news && Now(t) == EffectAll(old(Now(t)), news)
    ensures Reported(old(t.Marks()), news)
    ensures Served(old(t.Marks()), t.Marks(), Readers(news), t.nfds)
    ensures Drained(old(t.Marks()), t.Marks(), Flushers(news), t.nfds)
    ensures |LeftOut(old(t.Marks()), t.Marks(), news)| <= |old(t.live) - t.live|
  {
    hide Table.Valid, Table.Repr, Table.Marks, Table.Seen, Follows, Idle, Served, Drained, Reported, LeftOut, EffectAll, Now;
    news := [];
    var i := 1;
    Unserved(t);
    There(t);
    EffectNone(Now(t));
    assert t.history + news == t.history;
    while i < t.nfds
      invariant t.Valid() && fresh(t.Repr() - old(t.Repr())) && Idle(t.Marks(), null)
      invariant 1 <= i && Progress(old(t.Marks()), t.Marks(), news, i, i)
      invariant t.history == old(t.history) + news && Now(t) == EffectAll(old(Now(t)), news)
      decreases t.nfds - i
    {
      ghost var more: seq<Happening>;
      i, more := Turn(t, i, old(t.Marks()), news);
      Exists(t);
      EffectMore(old(Now(t)), news, more);
      news := news + more;
    }
    There(t);
    ProgressEnd(old(t.Marks()), t.Marks(), news, i, i, t.nfds);
    FewLeftOut(old(t.Marks()), t.Marks(), news, t.nfds);
  }

  /** The connections that a pass has left out: poll saw that they are broken, or had something to read or room to write,
      and they are still there without it. */
  ghost function LeftOut(start: map<Conn, Mark>, now: map<Conn, Mark>, news: seq<Happening>): set<Conn> {
    set c | c in now && c in start
      && (start[c].ready.broken || (start[c].ready.readable && c !in Readers(news))
          || (start[c].ready.writable && c !in Flushers(news)))
  }

  lemma FewLeftOut(start: map<Conn, Mark>, now: map<Conn, Mark>, news: seq<Happening>, n: nat)
    requires Progress(start, now, news, n, n) && forall c | c in now :: now[c].slot < n
    ensures |LeftOut(start, now, news)| <= |start.Keys - now.Keys|
  {
    hide Reported, Readers, Flushers;
    Fewer(LeftOut(start, now, news), Moved(start, now));
    assert start.Keys == now.Keys + (start.Keys - now.Keys);
  }

  lemma Unserved(t: Table)
    requires t.Valid()
    ensures Progress(t.Marks(), t.Marks(), [], 1, 1)
  {
    OutlastsSelf(t.Marks());
    forall c | c in t.live ensures t.Marks()[c].slot >= 1 {
      assert t.Settled(c);
    }
  }

  /** Everybody stays as he was, and newcomers start at the end of the table with nothing said. */
  ghost predicate Joined(before: map<Conn, Mark>, after: map<Conn, Mark>, slot: nat) {
    && before.Keys <= after.Keys
    && (forall c | c in before :: after[c] == before[c])
    && (forall c | c in after && c !in before :: after[c] == Mark(slot, NOTHING, [], [], Flags("", false, false, false)))
  }

  /** The same, but for what poll reports. */
  ghost predicate Awoken(before: map<Conn, Mark>, after: map<Conn, Mark>, slot: nat) {
    && before.Keys <= after.Keys
    && (forall c | c in before :: after[c] == before[c].(ready := after[c].ready))
    && (forall c | c in after && c !in before :: after[c] == Mark(slot, NOTHING, [], [], Flags("", false, false, false)))
  }

  lemma AwokenJoined(a: map<Conn, Mark>, b: map<Conn, Mark>, c: map<Conn, Mark>, slot: nat)
    requires b.Keys == a.Keys && (forall d | d in b :: b[d] == a[d].(ready := b[d].ready)) && Joined(b, c, slot)
    ensures Awoken(a, c, slot)
  {
  }

  /** server_accept, when poll reports the listener. */
  method Arrival(t: Table, fd: int)
    requires t.Valid() && Idle(t.Marks(), null) && forall d | d in t.live :: d.fd != fd
    modifies t.Repr()
    ensures t.Valid() && fresh(t.Repr() - old(t.Repr())) && t.history == old(t.history)
    ensures Idle(t.Marks(), null) && old(t.live) <= t.live
    ensures |t.live| == if fd >= 0 && old(t.nfds) < MAX_CLIENTS then old(t.nfds) else old(t.nfds) - 1
    ensures t.left == old(t.left) && Joined(old(t.Marks()), t.Marks(), old(t.nfds))
  {
    hide Table.Valid, Table.Marks, Table.Seen, Table.Repr, Idle, Joined;
    There(t);
    JoinedNobody(t.Marks(), t.nfds);
    if fd >= 0 {
      Admit(t, fd);
      There(t);
    }
  }

  method Admit(t: Table, fd: int)
    requires t.Valid() && Idle(t.Marks(), null) && forall d | d in t.live :: d.fd != fd
    modifies t.Repr()
    ensures t.Valid() && fresh(t.Repr() - old(t.Repr())) && t.history == old(t.history) && t.left == old(t.left)
    ensures old(t.live) <= t.live && |t.live| == if old(t.nfds) < MAX_CLIENTS then |old(t.live)| + 1 else |old(t.live)|
    ensures Idle(t.Marks(), null) && Joined(old(t.Marks()), t.Marks(), old(t.nfds))
  {
    hide Table.Valid, Table.Marks, Table.Seen, Table.Repr, Idle, Joined;
    There(t);
    var c := t.Accept(fd);
    Arrived(old(t.Marks()), t.Marks(), c, old(t.nfds));
  }

  lemma Arrived(a: map<Conn, Mark>, b: map<Conn, Mark>, c: Conn?, slot: nat)
    requires Idle(a, null)
    requires c == null ==> b == a
    requires c != null ==> c !in a && b == a[c := Mark(slot, NOTHING, [], [], Flags("", false, false, false))]
    ensures Idle(b, null) && Joined(a, b, slot)
  {
  }

  lemma JoinedNobody(a: map<Conn, Mark>, slot: nat)
    ensures Joined(a, a, slot)
  {
  }

  lemma IdleNew(a: map<Conn, Mark>, b: map<Conn, Mark>, c: Conn)
    requires Idle(a, null) && c in b && b == a[c := b[c]] && b[c].flags == Flags("", false, false, false)
    ensures Idle(b, null)
  {
  }

  lemma IdlePolled(a: map<Conn, Mark>, b: map<Conn, Mark>)
    requires Idle(a, null) && a.Keys == b.Keys && forall c | c in b :: b[c] == a[c].(ready := b[c].ready)
    ensures Idle(b, null)
  {
  }

  /** Wait for events: poll, then accept at most one connection (`fd`, when not negative). */
  method Await(t: Table, fd: int)
    requires t.Valid() && Idle(t.Marks(), null) && forall d | d in t.live :: d.fd != fd
    modifies t.Repr()
    ensures t.Valid() && fresh(t.Repr() - old(t.Repr())) && t.history == old(t.history)
    ensures Idle(t.Marks(), null) && old(t.live) <= t.live
    ensures |t.live| == if fd >= 0 && old(t.nfds) < MAX_CLIENTS then old(t.nfds) else old(t.nfds) - 1
    ensures t.left == old(t.left) && Awoken(old(t.Marks()), t.Marks(), old(t.nfds))
  {
    hide Table.Valid, Table.Marks, Table.Seen, Table.Repr, Idle, Joined, Awoken;
    ghost var m := t.Marks();
    There(t);
    Poll(t);
    ghost var m1 := t.Marks();
    IdlePolled(m, m1);
    Arrival(t, fd);
    Exists(t);
    AwokenJoined(m, m1, t.Marks(), old(t.nfds));
  }

  /** One round of the server: wait for events, serve the clients. */
  method Round(t: Table, fd: int) returns (ghost start: World, ghost news: seq<Happening>)
    requires t.Valid() && Idle(t.Marks(), null) && forall d | d in t.live :: d.fd != fd
    modifies t.Repr()
    ensures t.Valid() && fresh(t.Repr() - old(t.Repr()))
    ensures Idle(t.Marks(), null)
    ensures old(t.live) <= start.live.Keys && |start.live.Keys| < MAX_CLIENTS
    ensures |start.live.Keys| == if fd >= 0 && old(t.nfds) < MAX_CLIENTS then old(t.nfds) else old(t.nfds) - 1
    ensures start.left == old(t.left) && Awoken(old(t.Marks()), start.live, old(t.nfds))
    ensures t.history == old(t.history) + news && Now(t) == EffectAll(start, news)
    ensures Reported(start.live, news) && Served(start.live, t.Marks(), Readers(news), t.nfds)
    ensures Drained(start.live, t.Marks(), Flushers(news), t.nfds)
    ensures |LeftOut(start.live, t.Marks(), news)| <= |start.live.Keys - t.live|
  {
    hide Table.Valid, Table.Repr, Table.Marks, Table.Seen, Served, Drained, Reported, LeftOut, Idle, EffectAll;
    Await(t, fd);
    Exists(t);
    There(t);
    start := Now(t);
    news := Pass(t);
    Exists(t);
  }

  /** Logging in, and nothing else. */
  lemma LoginOnly(jid: string, f: Flags)
    ensures !Ends([Login(jid)]) && !Binds([Login(jid)]) && AfterAll([Login(jid)], f).jid == jid
  {
    assert [Login(jid)][..0] == [];
  }

  lemma Places(t: Table)
    requires t.Valid()
    ensures t.Marks().Keys == t.live
    ensures forall d | d in t.live :: t.Marks()[d].slot == d.pollIndex && t.Marks()[d].flags.jid == d.jid
  {
  }

  lemma FollowsPlaces(a: map<Conn, Mark>, b: map<Conn, Mark>, c: Conn)
    requires Follows(a, b, c)
    ensures forall d | d in b :: d in a && b[d].slot <= a[d].slot && (d != c ==> b[d].flags.jid == a[d].flags.jid)
  {
  }

  method LogIn(t: Table, c: Conn, jid: string)
    requires t.Valid() && Idle(t.Marks(), null) && c in t.live
    modifies t.Repr()
    ensures t.Valid() && fresh(t.Repr() - old(t.Repr())) && Idle(t.Marks(), null)
    ensures t.live == old(t.live) && c.jid == jid
    ensures forall d | d in t.live :: d.pollIndex <= old(d.pollIndex) && (d != c ==> d.jid == old(d.jid))
  {
    hide Table.Valid, Table.Marks, Table.Seen, Table.Repr, Idle, Follows, Ends, Binds, AfterAll, Names, KickedIn;
    ghost var m := t.Marks();
    Places(t);
    LoginOnly(jid, Flags(c.jid, true, false, false));
    var _ := OnReadable(t, c, 1, [Login(jid)], Again, []);
    Exists(t);
    Places(t);
    FollowsPlaces(m, t.Marks(), c);
  }

  /** One client connects. */
  method Connect(t: Table, fd: int) returns (c: Conn)
    requires t.Valid() && Idle(t.Marks(), null) && t.nfds < MAX_CLIENTS && forall d | d in t.live :: d.fd != fd
    modifies t.Repr()
    ensures t.Valid() && fresh(t.Repr() - old(t.Repr())) && Idle(t.Marks(), null)
    ensures fresh(c) && t.live == old(t.live) + {c} && c.pollIndex == old(t.nfds) && c.fd == fd
    ensures forall d | d in old(t.live) :: d.jid == old(d.jid) && d.pollIndex == old(d.pollIndex)
  {
    hide Table.Valid, Table.Marks, Table.Seen, Table.Repr, Idle;
    There(t);
    Places(t);
    ghost var m := t.Marks();
    var conn := t.Accept(fd);
    Exists(t);
    c := conn;
    Places(t);
    IdleNew(m, t.Marks(), c);
  }

  /** A run that ends with two live sessions of one address: the second to log in sits behind the one that binds, and the
      conflict check finds only the binder itself. */
  method NobodyDisplaced(jid: string, error: seq<Byte>, farewell: seq<Notice>) returns (t: Table, a: Conn, b: Conn)
    requires jid != ""
    ensures t.Valid() && a != b && t.live == {a, b} && a.jid == jid && b.jid == jid
  {
    hide Table.Valid, Table.Marks, Table.Seen, Table.Repr, Idle, Outcome, Now, Follows, First, KickedIn;
    t := new Table(3);
    Exists(t);
    Empty(t);
    a := Connect(t, 4);
    Exists(t);
    LogIn(t, a, jid);
    Exists(t);
    There(t);
    b := Connect(t, 5);
    Exists(t);
    LogIn(t, b, jid);
    Exists(t);
    Lowest(t, a);
    IdleFor(t.Marks(), a);
    Places(t);
    var _ := Displace(t, a, error, Again, farewell);
    Places(t);
  }

  lemma Empty(t: Table)
    requires t.Valid() && t.live == {}
    ensures Idle(t.Marks(), null)
  {
  }

  lemma IdleFor(marks: map<Conn, Mark>, c: Conn)
    requires Idle(marks, null)
    ensures Idle(marks, c)
  {
  }

  lemma Lowest(t: Table, c: Conn)
    requires t.Valid() && c in t.live && c.pollIndex <= 1 && c.jid != ""
    ensures First(t.Marks(), c.jid, c)
  {
    forall d | d in t.live ensures 1 <= d.pollIndex {
      assert t.Settled(d);
    }
  }
}
