/** Who has last been told what about whose availability. */
module ProtocolPresence {
  import opened Options
  import opened Jid
  import opened Contacts
  import opened Protocol
  import opened ProtocolInvariant
  import opened ProtocolLaws

  // ---- What a session has been told ----

  predicate About(x: Stanza, who: string) {
    (x.Available? || x.Unavailable?) && Bare(x.from) == who
  }

  predicate Mentions(xs: seq<Stanza>, who: string) {
    exists i | 0 <= i < |xs| :: About(xs[i], who)
  }

  /** The last presence from `who` in `xs` is an available one. */
  predicate Told(xs: seq<Stanza>, who: string) {
    xs != [] &&
    if About(xs[|xs| - 1], who) then xs[|xs| - 1].Available? else Told(xs[..|xs| - 1], who)
  }

  /** The live session of `j` was last told that `who` is available. */
  predicate Hears(st: State, j: string, who: string) {
    j in st.online && Told(st.online[j].sent, who)
  }

  lemma {:induction false} ToldConcat(xs: seq<Stanza>, ys: seq<Stanza>, who: string)
    ensures Told(xs + ys, who) == if Mentions(ys, who) then Told(ys, who) else Told(xs, who)
    ensures Told(ys, who) ==> Mentions(ys, who)
  {
    if ys == [] {
      assert xs + ys == xs;
    } else {
      var front := ys[..|ys| - 1];
      ToldConcat(xs, front, who);
      assert (xs + ys)[..|xs + ys| - 1] == xs + front;
      if Mentions(front, who) {
        var i :| 0 <= i < |front| && About(front[i], who);
        assert About(ys[i], who);
      }
      if Mentions(ys, who) && !About(ys[|ys| - 1], who) {
        var i :| 0 <= i < |ys| && About(ys[i], who);
        assert About(front[i], who);
      }
    }
  }

  lemma HearsAfterSend(st: State, j: string, xs: seq<Stanza>, y: string, who: string)
    ensures Hears(SendAll(st, j, xs), y, who) ==
            if j == y && y in st.online && Mentions(xs, who) then Told(xs, who) else Hears(st, y, who)
  {
    if j in st.online {
      ToldConcat(st.online[j].sent, xs, who);
    }
  }

  lemma Silent(xs: seq<Stanza>, who: string)
    requires forall i | 0 <= i < |xs| :: !xs[i].Available? && !xs[i].Unavailable?
    ensures !Mentions(xs, who)
  {
  }

  lemma HearsAfterPush(st: State, j: string, jid: string, y: string, who: string)
    requires j in st.online
    ensures Hears(PushItem(st, j, jid), y, who) == Hears(st, y, who)
  {
    match Get(st.online[j].roster, jid)
    case Some(it) =>
      Silent([Push(it)], who);
      HearsAfterSend(st, j, [Push(it)], y, who);
    case Nothing =>
  }

  lemma HearsAfterLoad(st: State, j: string, y: string, who: string)
    requires j in st.online
    ensures Hears(Load(st, j), y, who) == Hears(st, y, who)
  {
  }

  lemma HearsAfterSave(st: State, j: string, items: seq<Item>, y: string, who: string)
    requires j in st.online
    ensures Hears(SaveRoster(st, j, items), y, who) == Hears(st, y, who)
  {
  }

  lemma HearsAfterOwn(st: State, me: string, items: seq<Item>, b: string, y: string, who: string)
    requires me in st.online
    ensures var s1 := Load(st, me);
            Hears(PushItem(SaveRoster(s1, me, items), me, b), y, who) == Hears(st, y, who)
  {
    var s1 := Load(st, me);
    HearsAfterLoad(st, me, y, who);
    HearsAfterSave(s1, me, items, y, who);
    HearsAfterPush(SaveRoster(s1, me, items), me, b, y, who);
  }

  lemma HearsAfterEditTarget(p: Program, st: State, b: string, from: string, e: Edit, y: string, who: string)
    ensures Hears(EditTarget(p, st, b, from, e), y, who) == Hears(st, y, who)
  {
    if SeesRoster(p, st, b) {
      var s1 := Load(st, b);
      HearsAfterLoad(st, b, y, who);
      HearsAfterOwn(st, b, Edited(s1.online[b].roster, from, e), from, y, who);
    }
  }

  // ---- The broadcasts ----

  lemma AboutCopies(x: Stanza, n: nat, who: string)
    ensures Mentions(Copies(x, n), who) == (n > 0 && About(x, who))
    ensures Told(Copies(x, n), who) == (n > 0 && About(x, who) && x.Available?)
  {
    var xs := Copies(x, n);
    if n > 0 && About(x, who) {
      assert About(xs[n - 1], who);
    } else {
      ToldConcat([], xs, who);
    }
  }

  /** What the last item adds to a well-formed list, asked about a bare address. */
  lemma LastItem(items: seq<Item>, j: string)
    requires RosterOk(items) && Bare(j) == j && items != []
    ensures var front, it := items[..|items| - 1], items[|items| - 1];
            var hit := Bare(it.jid) == j;
            && RosterOk(front)
            && HasFrom(items, j) == (HasFrom(front, j) || (hit && it.subscription.HasFrom()))
            && HasTo(items, j) == (HasTo(front, j) || (hit && it.subscription.HasTo()))
            && !(HasFrom(front, j) && hit && it.subscription.HasFrom())
  {
    var n := |items| - 1;
    var front, it := items[..n], items[n];
    assert items == front + [it];
    assert ItemOk(it);
    var f := Find(front, j);
    if f >= 0 {
      FindIs(items, j, f);
    } else if it.jid == j {
      FindIs(items, j, n);
    } else {
      assert Find(items, j) < 0;
    }
  }

  /** In a well-formed list a bare address is counted once if its item lets it see us, and else not at all. */
  lemma {:induction false} FromCountIs(items: seq<Item>, j: string)
    requires RosterOk(items) && Bare(j) == j
    ensures FromCount(items, j) == if HasFrom(items, j) then 1 else 0
  {
    if items != [] {
      LastItem(items, j);
      FromCountIs(items[..|items| - 1], j);
    }
  }

  lemma HearsAfterFan(st: State, items: seq<Item>, x: Stanza, except: string, y: string, who: string)
    requires RosterOk(items) && Bare(y) == y
    ensures Hears(Fan(st, items, x, except), y, who) ==
            if y in st.online && y != except && HasFrom(items, y) && About(x, who) then x.Available?
            else Hears(st, y, who)
  {
    FromCountIs(items, y);
    var n := FromCount(items, y);
    AboutCopies(x, n, who);
    if y in st.online {
      ToldConcat(st.online[y].sent, Copies(x, n), who);
    }
  }

  /** Whose presence a session fetches. */
  predicate CanFetch(st: State, items: seq<Item>, who: string) {
    HasTo(items, who) && who in st.online && st.online[who].available
  }

  lemma GlimpseMentions(st: State, it: Item, who: string)
    requires Inv(st)
    ensures var sees := it.subscription.HasTo() && Bare(it.jid) == who && who in st.online && st.online[who].available;
            Mentions(Glimpse(st, it), who) == sees && Told(Glimpse(st, it), who) == sees
  {
    var j := Bare(it.jid);
    if j in st.online {
      assert ClientOk(st, j, st.online[j]);
      if Glimpse(st, it) != [] {
        assert About(Glimpse(st, it)[0], j);
      }
    }
  }

  lemma {:induction false} FetchedMentions(st: State, items: seq<Item>, who: string)
    requires Inv(st) && RosterOk(items) && Bare(who) == who
    ensures Mentions(Fetched(st, items), who) == CanFetch(st, items, who)
    ensures Told(Fetched(st, items), who) == CanFetch(st, items, who)
  {
    hide Inv, RosterOk, HasTo, HasFrom, Told, Mentions, Glimpse;
    NothingSaid(who);
    if items == [] {
      EmptyList(who);
    } else {
      var front, it := items[..|items| - 1], items[|items| - 1];
      LastItem(items, who);
      FetchedMentions(st, front, who);
      GlimpseMentions(st, it, who);
      ToldConcat(Fetched(st, front), Glimpse(st, it), who);
      MentionsConcat(Fetched(st, front), Glimpse(st, it), who);
    }
  }

  lemma NothingSaid(who: string)
    ensures !Mentions([], who) && !Told([], who)
  {
  }

  lemma EmptyList(jid: string)
    ensures !HasTo([], jid) && !HasFrom([], jid)
  {
  }

  lemma MentionsConcat(xs: seq<Stanza>, ys: seq<Stanza>, who: string)
    ensures Mentions(xs + ys, who) == (Mentions(xs, who) || Mentions(ys, who))
  {
    if Mentions(xs, who) {
      var i :| 0 <= i < |xs| && About(xs[i], who);
      assert About((xs + ys)[i], who);
    }
    if Mentions(ys, who) {
      var i :| 0 <= i < |ys| && About(ys[i], who);
      assert About((xs + ys)[|xs| + i], who);
    }
    if Mentions(xs + ys, who) {
      var i :| 0 <= i < |xs + ys| && About((xs + ys)[i], who);
      if i < |xs| {
        assert About(xs[i], who);
      } else {
        assert About(ys[i - |xs|], who);
      }
    }
  }

  lemma {:induction false} AsksSilent(from: string, me: string, items: seq<Item>, who: string)
    ensures !Mentions(Asks(from, me, items), who)
  {
    if items != [] {
      var front := items[..|items| - 1];
      AsksSilent(from, me, front, who);
      var last := Asks(from, me, items)[|Asks(from, me, front)|..];
      assert Asks(from, me, items) == Asks(from, me, front) + last;
      MentionsConcat(Asks(from, me, front), last, who);
    }
  }

  lemma {:induction false} PendingSilent(st: State, me: string, order: seq<string>, who: string)
    ensures !Mentions(Pending(st, me, order), who)
  {
    if order != [] {
      var front, j := order[..|order| - 1], order[|order| - 1];
      PendingSilent(st, me, front, who);
      if j != me && j in st.online && st.online[j].loaded {
        AsksSilent(j, me, st.online[j].roster, who);
        MentionsConcat(Pending(st, me, front), Asks(j, me, st.online[j].roster), who);
      } else {
        assert Pending(st, me, order) == Pending(st, me, front);
      }
    }
  }

  // ---- What a step tells whom ----

  predicate Active(st: State, x: string) {
    Key(st, x) in st.online && st.online[Key(st, x)].available
  }

  /** Going away is announced once anything was announced before. */
  predicate Announces(st: State, me: string) {
    me in st.online && (st.online[me].available || st.online[me].initialSent)
  }

  lemma HearsAfterUnavailable(st: State, me: string, x: string, y: string)
    requires Inv(st) && me in st.online && ValidName(x) && ValidName(y) && x != y
    ensures Hears(BroadcastUnavailable(st, me), Key(st, y), Key(st, x)) ==
            (Hears(st, Key(st, y), Key(st, x)) && !(me == Key(st, x) && Announces(st, me) && Lets(st, x, y)))
  {
    hide Inv, RosterOk, Fan, HasFrom, Hears, Quiet;
    KeyFacts(st, me);
    NamesAndKeys(st, x);
    NamesAndKeys(st, y);
    if Announces(st, me) {
      var note := Unavailable(FullJid(st, me));
      assert Bare(note.from) == me;
      var s1 := Load(st, me);
      var items := s1.online[me].roster;
      LoadInv(st, me);
      HearsAfterLoad(st, me, Key(st, y), Key(st, x));
      HearsAfterFan(s1, items, note, me, Key(st, y), Key(st, x));
      FanKeys(s1, items, note, me);
      HearsAfterMark(Fan(s1, items, note, me), me, Key(st, y), Key(st, x));
      NobodyHears(s1, Key(st, y), Key(st, x));
      assert About(note, Key(st, x)) <==> me == Key(st, x);
    }
  }

  lemma HearsAfterMark(st: State, me: string, y: string, who: string)
    requires me in st.online
    ensures Hears(Put(st, me, st.online[me].(available := false)), y, who) == Hears(st, y, who)
  {
  }

  lemma NobodyHears(st: State, y: string, who: string)
    ensures y !in st.online ==> !Hears(st, y, who)
  {
  }

  lemma HearsAfterLeave(st: State, me: string, x: string, y: string)
    requires Inv(st) && me in st.online && ValidName(x) && ValidName(y) && x != y
    ensures Hears(Leave(st, me), Key(st, y), Key(st, x)) ==
            (&& Hears(st, Key(st, y), Key(st, x)) && Key(st, y) != me
             && !(me == Key(st, x) && Announces(st, me) && Lets(st, x, y)))
  {
    hide Inv, BroadcastUnavailable, HasFrom;
    HearsAfterUnavailable(st, me, x, y);
  }

  /** What follows the broadcast of an available presence: `me` hears whom it may see, and pending requests say nothing. */
  lemma HearsAfterFetch(s2: State, me: string, items: seq<Item>, initial: bool, Y: string, X: string)
    requires Inv(s2) && me in s2.online && RosterOk(items) && Bare(X) == X
    ensures var s3 := SendAll(s2, me, Fetched(s2, items));
            var s4 := if me in s3.online then Put(s3, me, s3.online[me].(initialSent := true)) else s3;
            var s5 := if initial then SendAll(s4, me, Pending(s4, me, s4.order)) else s3;
            me in s3.online && Hears(s5, Y, X) == (Hears(s2, Y, X) || (Y == me && CanFetch(s2, items, X)))
  {
    hide Inv, RosterOk, Told, Mentions, Fetched, Pending, CanFetch;
    FetchedMentions(s2, items, X);
    HearsAfterSend(s2, me, Fetched(s2, items), Y, X);
    var s3 := SendAll(s2, me, Fetched(s2, items));
    var s4 := Put(s3, me, s3.online[me].(initialSent := true));
    PendingSilent(s4, me, s4.order, X);
    HearsAfterSend(s4, me, Pending(s4, me, s4.order), Y, X);
  }

  lemma HearsAfterAvailable(st: State, me: string, body: string, x: string, y: string)
    requires Inv(st) && me in st.online && ValidName(x) && ValidName(y) && x != y
    ensures Hears(BecomeAvailable(st, me, body), Key(st, y), Key(st, x)) ==
            (|| Hears(st, Key(st, y), Key(st, x))
             || (me == Key(st, x) && Key(st, y) in st.online && Lets(st, x, y))
             || (me == Key(st, y) && Sees(st, y, x) && Active(st, x)))
  {
    hide Inv, RosterOk, HasFrom, HasTo, Fan, Fetched, Pending, Announced, Told;
    var X, Y := Key(st, x), Key(st, y);
    KeyFacts(st, me);
    NamesAndKeys(st, x);
    NamesAndKeys(st, y);
    var pres := Available(FullJid(st, me), body);
    assert About(pres, me);
    AnnouncedInv(st, me, body);
    var s1 := Announced(st, me, body);
    var items := s1.online[me].roster;
    FanInv(s1, items, pres, NOBODY);
    var s2 := Fan(s1, items, pres, NOBODY);
    HearsAfterFan(s1, items, pres, NOBODY, Y, X);
    HearsAfterFetch(s2, me, items, !st.online[me].available, Y, X);
    assert SameClient(s1.online[me], s2.online[me]);
    if X in st.online {
      assert SameClient(s1.online[X], s2.online[X]);
    }
  }

  lemma HearsAfterApprove(p: Program, st: State, me: string, to: string, x: string, y: string)
    requires Inv(st) && Home(st, to) && me in st.online && ValidName(x) && ValidName(y) && x != y
    ensures Hears(Approve(p, st, me, to), Key(st, y), Key(st, x)) ==
            (|| Hears(st, Key(st, y), Key(st, x))
             || (me == Key(st, x) && Bare(to) == Key(st, y) && Key(st, y) in st.online && Active(st, x)))
  {
    hide Inv, RosterOk, ApproveOwn, EditTarget, Told, Mentions, Quiet;
    var X, Y, b := Key(st, x), Key(st, y), Bare(to);
    BareIdempotent(to);
    KeyFacts(st, me);
    ApproveOwnInv(st, me, b);
    var s1 := ApproveOwn(st, me, b);
    HearsAfterApproveOwn(st, me, b, Y, X);
    QuietOnline(st, s1);
    EditTargetInv(p, s1, b, me, GainTo);
    var s2 := EditTarget(p, s1, b, me, GainTo);
    HearsAfterEditTarget(p, s1, b, me, GainTo, Y, X);
    QuietOnline(s1, s2);
    Silent([SubscribedNote(me, b)], X);
    CurrentMentions(s2, me, [SubscribedNote(me, b)], X);
    HearsAfterSend(s2, b, Current(s2.online[me]) + [SubscribedNote(me, b)], Y, X);
  }

  lemma HearsAfterApproveOwn(st: State, me: string, b: string, y: string, who: string)
    requires me in st.online
    ensures Hears(ApproveOwn(st, me, b), y, who) == Hears(st, y, who)
  {
    HearsAfterOwn(st, me, Approved(Load(st, me).online[me].roster, b), b, y, who);
  }

  /** Sending our current presence, followed by something that is no presence. */
  lemma CurrentMentions(st: State, me: string, rest: seq<Stanza>, who: string)
    requires Inv(st) && me in st.online && !Mentions(rest, who)
    ensures var xs := Current(st.online[me]) + rest;
            Mentions(xs, who) == Told(xs, who) == (st.online[me].available && me == who)
  {
    assert ClientOk(st, me, st.online[me]);
    var cur := Current(st.online[me]);
    ToldConcat(cur, rest, who);
    MentionsConcat(cur, rest, who);
    if cur != [] {
      assert About(cur[0], me);
    }
  }

  lemma FarewellMentions(st: State, me: string, note: Stanza, who: string)
    requires Inv(st) && me in st.online && !note.Available? && !note.Unavailable?
    ensures var xs := [note] + Farewell(st, me);
            Mentions(xs, who) == (st.online[me].available && me == who) && !Told(xs, who)
  {
    KeyFacts(st, me);
    var bye := Farewell(st, me);
    Silent([note], who);
    MentionsConcat([note], bye, who);
    ToldConcat([note], bye, who);
    ToldConcat([], [note], who);
    if bye != [] {
      assert About(bye[0], me);
      assert bye[..|bye| - 1] == [];
    }
  }

  lemma HearsAfterEditOwn(st: State, me: string, b: string, e: Edit, y: string, who: string)
    requires me in st.online
    ensures Hears(EditOwn(st, me, b, e), y, who) == Hears(st, y, who)
  {
    HearsAfterLoad(st, me, y, who);
    HearsAfterOwn(st, me, Edited(Load(st, me).online[me].roster, b, e), b, y, who);
  }

  lemma OthersUntouched(st: State, me: string, b: string, e: Edit, j: string)
    requires me in st.online && j != me && j in st.online
    ensures j in EditOwn(st, me, b, e).online && EditOwn(st, me, b, e).online[j] == st.online[j]
  {
  }

  lemma HearsAfterRevoke(p: Program, st: State, me: string, to: string, own: Edit, theirs: Edit, note: Stanza,
                         x: string, y: string)
    requires Inv(st) && Home(st, to) && me in st.online && ValidName(x) && ValidName(y) && x != y
    requires !note.Available? && !note.Unavailable?
    ensures Hears(Revoke(p, st, me, to, own, theirs, note), Key(st, y), Key(st, x)) ==
            (&& Hears(st, Key(st, y), Key(st, x))
             && !(me == Key(st, x) && Bare(to) == Key(st, y) && SeesRoster(p, st, Key(st, y)) && Active(st, x)))
  {
    hide Inv, RosterOk, EditOwn, EditTarget, Told, Mentions, Quiet, Farewell;
    var X, Y, b := Key(st, x), Key(st, y), Bare(to);
    BareIdempotent(to);
    KeyFacts(st, me);
    NamesAndKeys(st, x);
    NamesAndKeys(st, y);
    EditOwnInv(st, me, b, own);
    var s1 := EditOwn(st, me, b, own);
    HearsAfterEditOwn(st, me, b, own, Y, X);
    QuietOnline(st, s1);
    EditTargetInv(p, s1, b, me, theirs);
    var s2 := EditTarget(p, s1, b, me, theirs);
    HearsAfterEditTarget(p, s1, b, me, theirs, Y, X);
    QuietOnline(s1, s2);
    FarewellMentions(s2, me, note, X);
    HearsAfterSend(s2, b, [note] + Farewell(s2, me), Y, X);
    if Y in st.online && Y != me {
      OthersUntouched(st, me, b, own, Y);
    }
  }

  // ---- No stale availability ----

  /** If `y` was last told that `x` is available, then `x` is, and still lets `y` see it. */
  predicate Fresh(st: State, x: string, y: string) {
    Hears(st, Key(st, y), Key(st, x)) ==> Active(st, x) && Lets(st, x, y)
  }

  predicate ActiveAfter(st: State, op: Op, x: string) {
    match op
    case RemoveAccount(me) => Active(st, x) && Key(st, x) != me
    case Disconnect(me) => Active(st, x) && Key(st, x) != me
    case Bind(user, _) => Active(st, x) && !(user in st.disk && user == x)
    case GoAvailable(me, _) => Active(st, x) || Key(st, x) == me
    case GoUnavailable(me) => Active(st, x) && Key(st, x) != me
    case _ => Active(st, x)
  }

  /** What the last presence from `x` sent to `y` is after a step. */
  predicate HearsAfter(p: Program, st: State, op: Op, x: string, y: string) {
    var X, Y := Key(st, x), Key(st, y);
    var gone := Announces(st, X) && Lets(st, x, y);
    match op
    case RemoveAccount(me) => Hears(st, Y, X) && Y != me && !(X == me && gone)
    case Disconnect(me) => Hears(st, Y, X) && Y != me && !(X == me && gone)
    case Bind(user, _) => Hears(st, Y, X) && !(user in st.disk && (user == y || (user == x && gone)))
    case GoAvailable(me, _) =>
      || Hears(st, Y, X)
      || (me == X && Y in st.online && Lets(st, x, y))
      || (me == Y && Sees(st, y, x) && Active(st, x))
    case GoUnavailable(me) => Hears(st, Y, X) && !(X == me && gone)
    case Subscribed(me, to) => Hears(st, Y, X) || (me == X && Bare(to) == Y && Y in st.online && Active(st, x))
    case Unsubscribe(me, to) => Hears(st, Y, X) && !(me == X && Bare(to) == Y && SeesRoster(p, st, Y) && Active(st, x))
    case Unsubscribed(me, to) => Hears(st, Y, X) && !(me == X && Bare(to) == Y && SeesRoster(p, st, Y) && Active(st, x))
    case _ => Hears(st, Y, X)
  }

  lemma HearsAfterRosterIq(p: Program, st: State, op: Op, y: string, who: string)
    requires op.Subscribe? || op.RosterGet? || op.RosterSet? || op.RosterRemove?
    requires op.me in st.online
    ensures Hears(Step(p, st, op), y, who) == Hears(st, y, who)
  {
    hide Load, SaveRoster, PushItem, SendAll, Told, Hears;
    var me := op.me;
    LoadKeys(st, me);
    var s1 := Load(st, me);
    HearsAfterLoad(st, me, y, who);
    match op
    case Subscribe(_, to) =>
      var b := Bare(to);
      HearsAfterOwn(st, me, Asked(s1.online[me].roster, b), b, y, who);
      var s2 := PushItem(SaveRoster(s1, me, Asked(s1.online[me].roster, b)), me, b);
      Silent([SubscribeNote(me, b)], who);
      HearsAfterSend(s2, b, [SubscribeNote(me, b)], y, who);
    case RosterGet(_) =>
      Silent([Result], who);
      HearsAfterSend(s1, me, [Result], y, who);
    case RosterSet(_, jid, name) =>
      Silent([ErrorReply], who);
      HearsAfterSend(s1, me, [ErrorReply], y, who);
      var items := Renamed(s1.online[me].roster, jid, NameFor(p, name));
      var s2 := SaveRoster(s1, me, items);
      HearsAfterSave(s1, me, items, y, who);
      Silent([Result], who);
      HearsAfterSend(s2, me, [Result], y, who);
      SendKeys(s2, me, [Result]);
      HearsAfterPush(SendTo(s2, me, Result), me, jid, y, who);
    case RosterRemove(_, jid) =>
      Silent([ErrorReply], who);
      HearsAfterSend(s1, me, [ErrorReply], y, who);
      HearsAfterSave(s1, me, Removed(s1.online[me].roster, jid), y, who);
      Silent([Result, PushRemoved(jid)], who);
      HearsAfterSend(SaveRoster(s1, me, Removed(s1.online[me].roster, jid)), me, [Result, PushRemoved(jid)], y, who);
    case _ =>
  }

  lemma LoadKeys(st: State, j: string)
    requires j in st.online
    ensures j in Load(st, j).online
    ensures forall items :: j in SaveRoster(Load(st, j), j, items).online
  {
  }

  lemma SendKeys(st: State, j: string, xs: seq<Stanza>)
    requires j in st.online
    ensures j in SendAll(st, j, xs).online
  {
  }

  lemma HearsStep(p: Program, st: State, op: Op, x: string, y: string)
    requires Inv(st) && HomeOp(st, op) && Accepted(p, st, op) && ValidName(x) && ValidName(y) && x != y
    ensures Hears(Step(p, st, op), Key(st, y), Key(st, x)) == HearsAfter(p, st, op, x, y)
  {
    hide Inv, Told, Leave, BecomeAvailable, BroadcastUnavailable, Approve, Revoke, Lets, Sees;
    var X, Y := Key(st, x), Key(st, y);
    NamesAndKeys(st, x);
    NamesAndKeys(st, y);
    match op
    case CreateAccount(_) =>
    case RemoveAccount(me) =>
      RemoveAccountInv(st, me);
      HearsAfterLeave(st, me, x, y);
    case Disconnect(me) => HearsAfterLeave(st, me, x, y);
    case Bind(user, resource) => HearsAfterBind(p, st, op, x, y);
    case GoAvailable(me, body) => HearsAfterAvailable(st, me, body, x, y);
    case GoUnavailable(me) => HearsAfterUnavailable(st, me, x, y);
    case Subscribed(me, to) => HearsAfterApprove(p, st, me, to, x, y);
    case Unsubscribe(me, to) =>
      HearsAfterRevoke(p, st, me, to, LoseTo, LoseFrom, UnsubscribeNote(me, Bare(to)), x, y);
    case Unsubscribed(me, to) =>
      HearsAfterRevoke(p, st, me, to, LoseFrom, LoseTo, UnsubscribedNote(me, Bare(to)), x, y);
    case _ => HearsAfterRosterIq(p, st, op, Y, X);
  }

  lemma HearsAfterBind(p: Program, st: State, op: Op, x: string, y: string)
    requires Inv(st) && op.Bind? && ValidName(x) && ValidName(y) && x != y
    ensures Hears(Step(p, st, op), Key(st, y), Key(st, x)) == HearsAfter(p, st, op, x, y)
  {
    hide Inv, Leave, Lets;
    var me := Join(op.user, st.domain);
    NamesAndKeys(st, x);
    NamesAndKeys(st, y);
    if op.user in st.disk {
      NameOf(st, op.user);
      if me in st.online {
        LeaveInv(st, me);
        HearsAfterLeave(st, me, x, y);
      }
    }
  }

  lemma NameOf(st: State, u: string)
    requires Inv(st) && u in st.disk
    ensures ValidName(u)
  {
  }

  lemma ActiveStep(p: Program, st: State, op: Op, x: string)
    requires Inv(st) && HomeOp(st, op) && Accepted(p, st, op) && ValidName(x)
    ensures Active(Step(p, st, op), x) == ActiveAfter(st, op, x)
  {
    hide Inv, RosterOk, Quiet, Step;
    var t := Step(p, st, op);
    StepInv(p, st, op);
    NamesAndKeys(st, x);
    if IsSubscription(op) {
      SubscriptionInv(p, st, op);
      QuietActive(st, t, x);
    } else if op.RosterGet? || op.RosterSet? || op.RosterRemove? {
      RosterSetInv(p, st, op);
      QuietActive(st, t, x);
    } else {
      ActiveAfterComeAndGo(p, st, op, x);
    }
  }

  lemma QuietActive(s: State, t: State, x: string)
    requires Quiet(s, t)
    ensures Active(t, x) == Active(s, x)
  {
    if Key(s, x) in s.online {
      assert SameClient(s.online[Key(s, x)], t.online[Key(s, x)]);
    }
  }

  lemma LeaveActive(st: State, me: string, x: string)
    requires me in st.online
    ensures Active(Leave(st, me), x) == (Active(st, x) && Key(st, x) != me)
    ensures Active(BroadcastUnavailable(st, me), x) == (Active(st, x) && Key(st, x) != me)
  {
  }

  lemma ActiveAfterComeAndGo(p: Program, st: State, op: Op, x: string)
    requires Inv(st) && Accepted(p, st, op) && ValidName(x)
    requires !IsSubscription(op) && !op.RosterGet? && !op.RosterSet? && !op.RosterRemove?
    ensures Active(Step(p, st, op), x) == ActiveAfter(st, op, x)
  {
    hide Inv, RosterOk, Leave, BroadcastUnavailable, BecomeAvailable, Arrive;
    NamesAndKeys(st, x);
    match op
    case CreateAccount(_) =>
    case RemoveAccount(me) =>
      RemoveAccountInv(st, me);
      LeaveActive(st, me, x);
    case Disconnect(me) => LeaveActive(st, me, x);
    case GoUnavailable(me) => LeaveActive(st, me, x);
    case Bind(user, resource) =>
      if user in st.disk {
        ActiveAfterArrival(st, user, resource, x);
      }
    case GoAvailable(me, body) => ActiveAfterAvailable(st, me, body, x);
  }

  lemma ActiveAfterAvailable(st: State, me: string, body: string, x: string)
    requires Inv(st) && me in st.online
    ensures Active(BecomeAvailable(st, me, body), x) == (Active(st, x) || Key(st, x) == me)
  {
    hide Inv, RosterOk, Fetched, Pending, Announced, FromCount, Copies;
    AnnouncedInv(st, me, body);
  }

  lemma ActiveAfterArrival(st: State, user: string, resource: string, x: string)
    requires Inv(st) && user in st.disk && ValidName(x)
    ensures Active(Arrive(st, user, resource), x) == (Active(st, x) && user != x)
  {
    hide Inv, Leave;
    NamesAndKeys(st, x);
    NameOf(st, user);
    if Join(user, st.domain) in st.online {
      LeaveActive(st, Join(user, st.domain), x);
      LeaveInv(st, Join(user, st.domain));
    }
  }

  /** The operations after which `y` keeps an outdated "available" of `x`: `y` unsubscribes, `x` forgets `y`,
      or (in C) `x` revokes while `y`'s session has not loaded its contact list. */
  predicate Strands(p: Program, st: State, op: Op, x: string, y: string) {
    var X, Y := Key(st, x), Key(st, y);
    || (op.Unsubscribe? && op.me == Y && Bare(op.to) == X)
    || (op.RosterRemove? && op.me == X && op.jid == Y)
    || (op.Unsubscribed? && op.me == X && Bare(op.to) == Y && !SeesRoster(p, st, Y))
  }

  /** A step strands exactly the pairs that had something to lose, and no others. */
  lemma FreshStep(p: Program, st: State, op: Op, x: string, y: string)
    requires Inv(st) && HomeOp(st, op) && Accepted(p, st, op) && ValidName(x) && ValidName(y) && x != y
    requires Reciprocal(st, x, y) && Fresh(st, x, y)
    ensures Fresh(Step(p, st, op), x, y) <==>
            !(Strands(p, st, op, x, y) && Hears(st, Key(st, y), Key(st, x)))
  {
    hide Inv, Step, Lets, Sees, Hears;
    HearsStep(p, st, op, x, y);
    ActiveStep(p, st, op, x);
    RelationsAfter(p, st, op, x, y);
    StepInv(p, st, op);
    NamesAndKeys(st, x);
    NamesAndKeys(st, y);
  }
}
