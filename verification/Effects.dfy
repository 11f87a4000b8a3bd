/** What every happening does to all connections at once, in closed form: who stays, in which slot, how he stands, what was
    written to him and what his socket took; and how those who are gone have left. */
module Effects {
  import opened Bytes
  import opened Connections
  import opened Happenings

  /** Is `c` the connection a lookup of `jid` finds? */
  ghost predicate First(m: map<Conn, Mark>, jid: string, c: Conn) {
    && jid != "" && c in m && m[c].flags.jid == jid
    && forall d | d in m && m[d].flags.jid == jid :: m[c].slot <= m[d].slot
  }

  /** What a run of notices says to `c`. */
  ghost function Said(m: map<Conn, Mark>, notices: seq<Notice>, c: Conn): seq<Byte> {
    if notices == [] then []
    else
      var n := |notices| - 1;
      Said(m, notices[..n], c) + (if First(m, notices[n].to, c) then notices[n].data else [])
  }

  /** Everybody has been told what the notices say to him, and nothing else has happened. */
  ghost function Notified(m: map<Conn, Mark>, notices: seq<Notice>): map<Conn, Mark> {
    map c | c in m :: m[c].(written := m[c].written + Said(m, notices, c))
  }

  /** Lookups depend on slots and addresses only. */
  lemma {:induction false} SaidSame(a: map<Conn, Mark>, b: map<Conn, Mark>, notices: seq<Notice>, c: Conn)
    requires a.Keys == b.Keys && forall d | d in a :: a[d].slot == b[d].slot && a[d].flags.jid == b[d].flags.jid
    ensures Said(a, notices, c) == Said(b, notices, c)
  {
    hide First;
    if notices != [] {
      var n := |notices| - 1;
      SaidSame(a, b, notices[..n], c);
      FirstSame(a, b, notices[n].to, c);
    }
  }

  lemma FirstSame(a: map<Conn, Mark>, b: map<Conn, Mark>, jid: string, c: Conn)
    requires a.Keys == b.Keys && forall d | d in a :: a[d].slot == b[d].slot && a[d].flags.jid == b[d].flags.jid
    ensures First(a, jid, c) == First(b, jid, c)
  {
  }

  lemma NotifiedNone(m: map<Conn, Mark>, notices: seq<Notice>)
    ensures Notified(m, notices[..0]) == m
  {
    assert forall c | c in m :: m[c].written + [] == m[c].written;
  }

  /** One more notice, which `target` is the first to be found for, or nobody is. */
  lemma NotifiedNext(m: map<Conn, Mark>, notices: seq<Notice>, i: nat, target: Conn?)
    requires i < |notices| && forall c :: First(m, notices[i].to, c) <==> c == target
    ensures var now := Notified(m, notices[..i]);
            Notified(m, notices[..i + 1]) ==
            if target != null && target in now
            then now[target := now[target].(written := now[target].written + notices[i].data)] else now
  {
    hide First;
    assert notices[..i + 1][..i] == notices[..i];
    forall c | c in m ensures Said(m, notices[..i + 1], c) ==
      Said(m, notices[..i], c) + (if c == target then notices[i].data else [])
    {
    }
    hide Said;
    forall c | c in m && c != target ensures Said(m, notices[..i], c) + [] == Said(m, notices[..i], c) {
    }
    forall c | c == target && c in m
      ensures (m[c].written + Said(m, notices[..i], c)) + notices[i].data ==
              m[c].written + (Said(m, notices[..i], c) + notices[i].data)
    {
    }
  }

  lemma FollowsNotified(m: map<Conn, Mark>, notices: seq<Notice>)
    ensures Follows(m, Notified(m, notices), null)
  {
    hide Said;
    assert Notified(m, notices).Keys == m.Keys;
    NoneMoved(m, Notified(m, notices));
  }

  lemma FirstUnmoved(m: map<Conn, Mark>, notices: seq<Notice>, i: nat, jid: string)
    requires i <= |notices|
    ensures forall c :: First(Notified(m, notices[..i]), jid, c) == First(m, jid, c)
  {
    hide First, Said;
    forall c ensures First(Notified(m, notices[..i]), jid, c) == First(m, jid, c) {
      FirstSame(Notified(m, notices[..i]), m, jid, c);
    }
  }

  lemma SaidIs(m: map<Conn, Mark>, notices: seq<Notice>, c: Conn)
    requires c in m
    ensures c in Notified(m, notices) && Notified(m, notices)[c].written == m[c].written + Said(m, notices, c)
  {
  }

  lemma SaidOne(m: map<Conn, Mark>, notice: Notice, d: Conn)
    ensures Said(m, [notice], d) == if First(m, notice.to, d) then notice.data else []
  {
    hide First;
    assert [notice][..0] == [];
  }

  lemma {:induction false} SaidMore(m: map<Conn, Mark>, a: seq<Notice>, b: seq<Notice>, d: Conn)
    ensures Said(m, a + b, d) == Said(m, a, d) + Said(m, b, d)
  {
    hide First;
    if b == [] {
      assert a + b == a;
    } else {
      assert (a + b)[..|a + b| - 1] == a + b[..|b| - 1];
      SaidMore(m, a, b[..|b| - 1], d);
    }
  }

  // ---- The whole table, and those who are gone ----

  datatype World = World(live: map<Conn, Mark>, left: map<Conn, Mark>)

  ghost function Posted(m: map<Conn, Mark>, c: Conn, data: seq<Byte>): map<Conn, Mark>
    requires c in m
  {
    m[c := m[c].(written := m[c].written + data)]
  }

  ghost function Offered(m: map<Conn, Mark>, c: Conn, a: Answer): map<Conn, Mark>
    requires c in m
  {
    m[c := Handed(m[c], a)]
  }

  ghost function Stood(m: map<Conn, Mark>, c: Conn, f: Flags): map<Conn, Mark>
    requires c in m
  {
    m[c := m[c].(flags := f)]
  }

  /** `c` says goodbye and leaves; the last in the table takes its slot. */
  ghost function Departed(w: World, c: Conn, farewell: seq<Notice>): World
    requires c in w.live
  {
    var m := Notified(w.live, farewell);
    World(Without(m, c), w.left[c := m[c]])
  }

  /** The connection a lookup of `jid` finds. */
  ghost function Holder(m: map<Conn, Mark>, jid: string): (r: Conn?)
    ensures r != null ==> First(m, jid, r)
    ensures r == null ==> forall d | d in m :: !First(m, jid, d)
  {
    if exists d | d in m :: First(m, jid, d) then
      var d :| d in m && First(m, jid, d);
      d
    else
      null
  }

  /** The session that has to go when `c` binds. */
  ghost function Rival(m: map<Conn, Mark>, c: Conn): (r: Conn?)
    requires c in m
    ensures r != null ==> r in m && r != c
  {
    var d := Holder(m, m[c].flags.jid);
    if d == c then null else d
  }

  /** Does this event ask for the end of the session it comes from? */
  predicate Fatal(e: Event) {
    e.StreamError? || e.StreamClose? || e.ParseError? || e.AccountRemoved?
  }

  /** What a callback leaves of its own session's standing. */
  function After(e: Event, f: Flags): Flags {
    if e.Login? then f.(jid := e.jid, resetPending := true)
    else if Fatal(e) then f.(teardownPending := true)
    else f
  }

  /** What one callback of the session `c` does to everybody. */
  ghost function Outcome(w: World, c: Conn, e: Event): (r: World)
    requires c in w.live
    ensures c in r.live
  {
    var f := After(e, w.live[c].flags);
    match e
    case Reply(data) => w.(live := Posted(w.live, c, data))
    case Deliver(notice) => w.(live := Notified(w.live, [notice]))
    case Bind(error, answer, farewell) =>
      var d := Rival(w.live, c);
      if d == null then w else Departed(w.(live := Offered(Posted(w.live, d, error), d, answer)), d, farewell)
    case StreamError(error, answer) => w.(live := Stood(Offered(Posted(w.live, c, error), c, answer), c, f))
    case StreamClose(closing) => w.(live := Stood(Posted(w.live, c, closing), c, f))
    case _ => w.(live := Stood(w.live, c, f))
  }

  ghost function OutcomeAll(w: World, c: Conn, script: seq<Event>): (r: World)
    requires c in w.live
    ensures c in r.live
  {
    if script == [] then w else Outcome(OutcomeAll(w, c, script[..|script| - 1]), c, script[|script| - 1])
  }

  /** A chunk is parsed: the callbacks run under the parser, then the deferred parser reset is done. */
  ghost function Chunked(w: World, c: Conn, script: seq<Event>): (r: World)
    requires c in w.live
    ensures c in r.live
  {
    var w1 := OutcomeAll(w.(live := Stood(w.live, c, w.live[c].flags.(inParse := true))), c, script);
    w1.(live := Stood(w1.live, c, w1.live[c].flags.(inParse := false, resetPending := false)))
  }

  /** One read: the end of the stream, an error or a full buffer end the session, and so does a callback that asked for
      it, after one more flush. */
  ghost function WhenRead(w: World, c: Conn, n: int, script: seq<Event>, last: Answer, farewell: seq<Notice>): World
    requires c in w.live
  {
    if n <= 0 || n >= READ_BUF_SIZE then Departed(w, c, farewell)
    else
      var w1 := Chunked(w, c, script);
      if w1.live[c].flags.teardownPending then Departed(w1.(live := Offered(w1.live, c, last)), c, farewell) else w1
  }

  /** One flush: the socket is offered all that waits; its error, if anything did, ends the session. */
  ghost function WhenWritable(w: World, c: Conn, answer: Answer, farewell: seq<Notice>): World
    requires c in w.live
  {
    if answer.Failed? && Waits(w.live[c]) then Departed(w, c, farewell) else w.(live := Offered(w.live, c, answer))
  }

  ghost function Effect(w: World, h: Happening): World {
    if h.conn !in w.live then w
    else
      match h
      case Broke(c, farewell) => Departed(w, c, farewell)
      case Read(c, n, script, last, farewell) => WhenRead(w, c, n, script, last, farewell)
      case Flushed(c, answer, farewell) => WhenWritable(w, c, answer, farewell)
  }

  ghost function EffectAll(w: World, hs: seq<Happening>): World {
    if hs == [] then w else Effect(EffectAll(w, hs[..|hs| - 1]), hs[|hs| - 1])
  }

  lemma {:induction false} EffectMore(w: World, a: seq<Happening>, b: seq<Happening>)
    ensures EffectAll(w, a + b) == EffectAll(EffectAll(w, a), b)
  {
    hide Effect;
    if b == [] {
      assert a + b == a;
    } else {
      assert (a + b)[..|a + b| - 1] == a + b[..|b| - 1];
      EffectMore(w, a, b[..|b| - 1]);
    }
  }

  lemma EffectOne(w: World, h: Happening)
    ensures EffectAll(w, [h]) == Effect(w, h) && EffectAll(w, []) == w
  {
    assert [h][..0] == [];
  }

  // ---- What everybody is told ----

  /** The last that is known of a connection: how it stands, or how it left. */
  ghost predicate Known(w: World, d: Conn) {
    d in w.live || d in w.left
  }

  ghost function Last(w: World, d: Conn): Mark
    requires Known(w, d)
  {
    if d in w.live then w.live[d] else w.left[d]
  }

  /** What one callback of `c` says to `d`. */
  ghost function Uttered(m: map<Conn, Mark>, c: Conn, e: Event, d: Conn): seq<Byte>
    requires c in m
  {
    match e
    case Reply(data) => if d == c then data else []
    case Deliver(notice) => if First(m, notice.to, d) then notice.data else []
    case Bind(error, _, farewell) =>
      if Rival(m, c) == null then [] else (if d == Rival(m, c) then error else []) + Said(m, farewell, d)
    case StreamError(error, _) => if d == c then error else []
    case StreamClose(closing) => if d == c then closing else []
    case _ => []
  }

  /** Does the callback offer the output of `d` to its socket? */
  ghost predicate Pushes(m: map<Conn, Mark>, c: Conn, e: Event, d: Conn)
    requires c in m
  {
    (e.StreamError? && d == c) || (e.Bind? && d == Rival(m, c))
  }

  lemma NothingMore(m: Mark)
    ensures m.written + [] == m.written
  {
  }

  /** Every connection, gone or not, has been told exactly what the callback says to it, and its socket was offered all of
      it if the session ends with an error, else nothing. */
  lemma OutcomeTells(w: World, c: Conn, e: Event, d: Conn)
    requires c in w.live && d in w.live
    ensures Known(Outcome(w, c, e), d)
    ensures var was, now := w.live[d], Last(Outcome(w, c, e), d);
            && now.written == was.written + Uttered(w.live, c, e, d)
            && (!Pushes(w.live, c, e, d) ==> now.accepted == was.accepted)
            && (Pushes(w.live, c, e, d) ==>
                  now.accepted == Handed(was.(written := was.written + e.error), e.answer).accepted)
  {
    hide First, Said, After, Handed;
    NothingMore(w.live[d]);
    match e
    case Deliver(notice) => SaidOne(w.live, notice, d);
    case Bind(error, answer, farewell) => RivalTold(w, c, error, answer, farewell, d);
    case StreamError(error, answer) => HandedTells(Posted(w.live, c, error)[c], answer);
    case _ =>
  }

  lemma HandedTells(m: Mark, a: Answer)
    ensures Handed(m, a).written == m.written && Handed(m, a).flags == m.flags && Handed(m, a).slot == m.slot
    ensures Handed(m, a).ready == m.ready
  {
  }

  lemma DepartedTells(w: World, c: Conn, farewell: seq<Notice>, d: Conn)
    requires c in w.live && d in w.live
    ensures Known(Departed(w, c, farewell), d)
    ensures Last(Departed(w, c, farewell), d).written == w.live[d].written + Said(w.live, farewell, d)
    ensures Last(Departed(w, c, farewell), d).accepted == w.live[d].accepted
    ensures d == c <==> d !in Departed(w, c, farewell).live
  {
    hide Said;
  }

  lemma RivalTold(w: World, c: Conn, error: seq<Byte>, answer: Answer, farewell: seq<Notice>, d: Conn)
    requires c in w.live && d in w.live
    ensures var e := Bind(error, answer, farewell);
            && Known(Outcome(w, c, e), d)
            && Last(Outcome(w, c, e), d).written == w.live[d].written + Uttered(w.live, c, e, d)
            && Last(Outcome(w, c, e), d).accepted ==
               if d == Rival(w.live, c) then Handed(w.live[d].(written := w.live[d].written + error), answer).accepted
               else w.live[d].accepted
  {
    hide First, Said, Handed, Departed, Known, Last, Rival;
    var r := Rival(w.live, c);
    if r == null {
      NothingToBind(w, d);
    } else {
      DisplacedTold(w, r, error, answer, farewell, d);
      assert w.live[d].written + error + Said(w.live, farewell, d) == w.live[d].written + (error + Said(w.live, farewell, d));
      assert [] + Said(w.live, farewell, d) == Said(w.live, farewell, d);
    }
  }

  lemma DisplacedTold(w: World, r: Conn, error: seq<Byte>, answer: Answer, farewell: seq<Notice>, d: Conn)
    requires r in w.live && d in w.live
    ensures var w1 := Departed(w.(live := Offered(Posted(w.live, r, error), r, answer)), r, farewell);
            && Known(w1, d)
            && Last(w1, d).written == w.live[d].written + (if d == r then error else []) + Said(w.live, farewell, d)
            && Last(w1, d).accepted ==
               if d == r then Handed(w.live[d].(written := w.live[d].written + error), answer).accepted
               else w.live[d].accepted
  {
    hide First, Said, Handed, Departed, Known, Last;
    var m := Offered(Posted(w.live, r, error), r, answer);
    HandedTells(Posted(w.live, r, error)[r], answer);
    SaidSame(w.live, m, farewell, d);
    DepartedTells(w.(live := m), r, farewell, d);
    NothingMore(w.live[d]);
  }

  lemma NothingToBind(w: World, d: Conn)
    requires d in w.live
    ensures Known(w, d) && Last(w, d) == w.live[d] && Last(w, d).written == w.live[d].written + []
  {
  }

  /** What a callback leaves of who is there: only a rival of the binding session goes, and only `c` changes its standing. */
  lemma OutcomeKeeps(w: World, c: Conn, e: Event)
    requires c in w.live
    ensures var now := Outcome(w, c, e).live;
            && now.Keys == w.live.Keys - (if e.Bind? && Rival(w.live, c) != null then {Rival(w.live, c)} else {})
            && forall d | d in now ::
                 now[d].flags == (if d == c then After(e, w.live[c].flags) else w.live[d].flags) && now[d].ready == w.live[d].ready
  {
    hide First, Said, Handed, Rival;
    match e
    case Bind(error, answer, farewell) =>
      var r := Rival(w.live, c);
      if r != null {
        HandedTells(Posted(w.live, r, error)[r], answer);
      }
    case StreamError(error, answer) => HandedTells(Posted(w.live, c, error)[c], answer);
    case _ =>
  }

  /** Nothing is said to those who are gone. */
  lemma OutcomeForgets(w: World, c: Conn, e: Event, d: Conn)
    requires c in w.live && d !in w.live && d in w.left
    ensures var r := Outcome(w, c, e); d !in r.live && d in r.left && r.left[d] == w.left[d]
  {
    hide First, Said, Handed, Rival;
  }

  /** What a run of callbacks says to `d`, while it is there. */
  ghost function UtteredAll(w: World, c: Conn, script: seq<Event>, d: Conn): seq<Byte>
    requires c in w.live
  {
    if script == [] then []
    else
      var n := |script| - 1;
      var w1 := OutcomeAll(w, c, script[..n]);
      UtteredAll(w, c, script[..n], d) + (if d in w1.live then Uttered(w1.live, c, script[n], d) else [])
  }

  lemma {:induction false} OutcomeAllTells(w: World, c: Conn, script: seq<Event>, d: Conn)
    requires c in w.live && d in w.live
    ensures Known(OutcomeAll(w, c, script), d)
    ensures Last(OutcomeAll(w, c, script), d).written == w.live[d].written + UtteredAll(w, c, script, d)
  {
    hide Outcome, Uttered;
    if script == [] {
      NothingMore(w.live[d]);
    } else {
      var n := |script| - 1;
      var w1 := OutcomeAll(w, c, script[..n]);
      OutcomeAllTells(w, c, script[..n], d);
      if d in w1.live {
        OutcomeTells(w1, c, script[n], d);
      } else {
        OutcomeForgets(w1, c, script[n], d);
      }
    }
  }

  /** The table while the parser of `c` runs. */
  ghost function Parsing(w: World, c: Conn): World
    requires c in w.live
  {
    w.(live := Stood(w.live, c, w.live[c].flags.(inParse := true)))
  }

  /** After a read everybody, gone or not, has been told what the callbacks say to him, and, if the session went, the
      farewells as far as they are for him; the socket of a session that a callback has ended was offered all of it. */
  lemma ReadTells(w: World, c: Conn, n: int, script: seq<Event>, last: Answer, farewell: seq<Notice>, d: Conn)
    requires c in w.live && d in w.live
    ensures var r := Effect(w, Read(c, n, script, last, farewell));
            var parsed := 0 < n < READ_BUF_SIZE;
            var w1 := if parsed then Chunked(w, c, script) else w;
            && Known(r, d)
            && Last(r, d).written == w.live[d].written +
               (if parsed then UtteredAll(Parsing(w, c), c, script, d) else []) +
               (if c !in r.live && d in w1.live then Said(w1.live, farewell, d) else [])
            && (c in r.live <==> parsed && !w1.live[c].flags.teardownPending)
            && (c !in r.live ==> Known(r, c) && Last(r, c).accepted ==
                                 if parsed then Handed(w1.live[c], last).accepted else w.live[c].accepted)
  {
    hide First, Said, Handed, Departed, OutcomeAll, UtteredAll;
    NothingMore(w.live[d]);
    if 0 < n < READ_BUF_SIZE {
      ChunkTells(w, c, script, d);
      var w1 := Chunked(w, c, script);
      NothingMore(Last(w1, d));
      if w1.live[c].flags.teardownPending {
        LeaveTells(w1, c, last, farewell, d);
      }
    } else {
      DepartedTells(w, c, farewell, d);
      DepartedTells(w, c, farewell, c);
    }
  }

  lemma ChunkTells(w: World, c: Conn, script: seq<Event>, d: Conn)
    requires c in w.live && d in w.live
    ensures Known(Chunked(w, c, script), d)
    ensures Last(Chunked(w, c, script), d).written == w.live[d].written + UtteredAll(Parsing(w, c), c, script, d)
  {
    hide First, Said, Handed, OutcomeAll, UtteredAll;
    OutcomeAllTells(Parsing(w, c), c, script, d);
  }

  lemma LeaveTells(w: World, c: Conn, last: Answer, farewell: seq<Notice>, d: Conn)
    requires c in w.live && Known(w, d)
    ensures var r := Departed(w.(live := Offered(w.live, c, last)), c, farewell);
            && Known(r, d) && c !in r.live
            && Last(r, d).written == Last(w, d).written + (if d in w.live then Said(w.live, farewell, d) else [])
            && Known(r, c) && Last(r, c).accepted == Handed(w.live[c], last).accepted
  {
    hide First, Said, Handed, Departed;
    var m := Offered(w.live, c, last);
    HandedTells(w.live[c], last);
    DepartedTells(w.(live := m), c, farewell, c);
    if d in w.live {
      SaidSame(w.live, m, farewell, d);
      DepartedTells(w.(live := m), c, farewell, d);
    } else {
      NothingMore(w.left[d]);
      DepartedForgets(w.(live := m), c, farewell, d);
    }
  }

  lemma DepartedForgets(w: World, c: Conn, farewell: seq<Notice>, d: Conn)
    requires c in w.live && d !in w.live && d in w.left
    ensures var r := Departed(w, c, farewell); d !in r.live && d in r.left && r.left[d] == w.left[d]
  {
    hide Said;
  }

  /** A flush moves exactly what the socket takes of the waiting output to what it has accepted, in order; on an error with
      output waiting the session goes, and everybody is told the farewells that are for him. */
  lemma FlushHands(w: World, c: Conn, answer: Answer, farewell: seq<Notice>, d: Conn)
    requires c in w.live && d in w.live && w.live[c].accepted <= w.live[c].written
    ensures var r, was := Effect(w, Flushed(c, answer, farewell)), w.live[d];
            var waiting := w.live[c].written[|w.live[c].accepted|..];
            var gone := answer.Failed? && waiting != [];
            && Known(r, d) && (d in r.live <==> !(gone && d == c))
            && Last(r, d).written == was.written + (if gone then Said(w.live, farewell, d) else [])
            && Last(r, d).accepted ==
               was.accepted + (if d == c && answer.Took? then waiting[..Clip(answer, |waiting|).n] else [])
  {
    hide First, Said, Departed;
    NothingMore(w.live[d]);
    assert w.live[d].accepted + [] == w.live[d].accepted;
    if answer.Failed? && Waits(w.live[c]) {
      DepartedTells(w, c, farewell, d);
    } else if d == c {
      HandedExactly(w.live[c], answer);
    }
  }

  /** A broken connection goes, and everybody is told the farewells that are for him. */
  lemma BrokeTells(w: World, c: Conn, farewell: seq<Notice>, d: Conn)
    requires c in w.live && d in w.live
    ensures var r := Effect(w, Broke(c, farewell));
            && Known(r, d) && (d in r.live <==> d != c)
            && Last(r, d).written == w.live[d].written + Said(w.live, farewell, d)
            && Last(r, d).accepted == w.live[d].accepted
  {
    hide Said, Departed, First;
    DepartedTells(w, c, farewell, d);
  }

  lemma HandedExactly(m: Mark, answer: Answer)
    requires m.accepted <= m.written
    ensures var waiting := m.written[|m.accepted|..];
            && Handed(m, answer).written == m.written
            && Handed(m, answer).accepted == m.accepted + (if answer.Took? then waiting[..Clip(answer, |waiting|).n] else [])
  {
    var waiting := m.written[|m.accepted|..];
    assert m.accepted + waiting == m.written;
    assert waiting[..|waiting|] == waiting;
  }
}
