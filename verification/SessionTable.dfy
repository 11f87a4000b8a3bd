/** The C server's table of connections: slot 0 is the listener, the others are kept compact. */
module SessionTable {
  import opened Bytes
  import opened Connections
  import opened Happenings

  const MAX_CLIENTS := 16

  /** What poll reports and what it is asked for, per slot. */
  datatype PollFd = PollFd(fd: int, wantOut: bool, ready: Ready)

  const NOTHING := Ready(false, false, false)

  class Table {
    const pollfds: array<PollFd>
    const sessions: array<Conn?>
    var nfds: nat
    ghost var live: set<Conn>
    /** How each connection that is gone left. */
    ghost var left: map<Conn, Mark>
    /** What the loop has done, in order. */
    ghost var history: seq<Happening>

    ghost function Repr(): set<object>
      reads this`live, live
    {
      {this, pollfds, sessions} + (set c: Conn | c in live) + (set c: Conn | c in live :: c.writeBuf)
    }

    /** The live slots are exactly 1 to nfds - 1, every connection knows its slot, and POLLOUT means pending output. */
    ghost predicate Valid()
      reads this`nfds, this`live, pollfds, sessions, live, set c: Conn | c in live :: c.writeBuf
    {
      && pollfds.Length == MAX_CLIENTS && sessions.Length == MAX_CLIENTS
      && 1 <= nfds <= MAX_CLIENTS && sessions[0] == null && nfds == 1 + |live|
      && (forall i | nfds <= i < MAX_CLIENTS :: sessions[i] == null)
      && (forall i | 1 <= i < nfds :: InSlot(i))
      && (forall c | c in live :: Settled(c))
      && (forall c, d | c in live && d in live && c != d :: c.writeBuf != d.writeBuf && c.fd != d.fd)
    }

    ghost predicate InSlot(i: nat)
      requires i < sessions.Length
      reads this`live, sessions, live
    {
      var c := sessions[i];
      c != null && c in live && c.pollIndex == i
    }

    ghost predicate Settled(c: Conn)
      requires pollfds.Length == MAX_CLIENTS && sessions.Length == MAX_CLIENTS
      requires nfds <= MAX_CLIENTS
      reads this`nfds, pollfds, sessions, c, c.writeBuf
    {
      && 1 <= c.pollIndex < nfds && sessions[c.pollIndex] == c && c.Ok()
      && pollfds[c.pollIndex].fd == c.fd && (pollfds[c.pollIndex].wantOut <==> c.writeLen > 0)
    }

    ghost function Seen(c: Conn): Mark
      requires Valid() && c in live
      reads this`nfds, this`live, pollfds, sessions, live, set c: Conn | c in live :: c.writeBuf
    {
      assert Settled(c);
      Mark(c.pollIndex, pollfds[c.pollIndex].ready, c.written, c.accepted,
           Flags(c.jid, c.inParse, c.resetPending, c.teardownPending))
    }

    ghost function Marks(): map<Conn, Mark>
      requires Valid()
      reads this`nfds, this`live, pollfds, sessions, live, set c: Conn | c in live :: c.writeBuf
    {
      map c | c in live :: Seen(c)
    }

    constructor (listenFd: int)
      ensures Valid() && live == {} && nfds == 1 && left == map[] && history == [] && fresh(Repr())
    {
      var fds := new PollFd[MAX_CLIENTS](i => PollFd(-1, false, NOTHING));
      var slots := new Conn?[MAX_CLIENTS](i => null);
      pollfds, sessions, nfds, live, left, history := fds, slots, 1, {}, map[], [];
      new;
      pollfds[0] := PollFd(listenFd, false, NOTHING);
    }

    lemma Facts(c: Conn)
      requires Valid() && c in live
      ensures pollfds.Length == MAX_CLIENTS && sessions.Length == MAX_CLIENTS && nfds <= MAX_CLIENTS
      ensures Settled(c) && c in Marks() && Marks()[c] == Seen(c)
      ensures forall d | d in live && d != c :: d.writeBuf != c.writeBuf
    {
    }

    /** One connection and its poll slot have changed, nothing else, and it is well again. */
    twostate lemma OneChanged(c: Conn)
      requires old(Valid()) && c in live && live == old(live) && nfds == old(nfds) && unchanged(sessions)
      requires Settled(c) && (c.writeBuf == old(c.writeBuf) || fresh(c.writeBuf)) && c.pollIndex == old(c.pollIndex)
      requires forall d | d in live && d != c :: unchanged(d) && unchanged(d.writeBuf)
      requires forall i | 1 <= i < nfds && i != c.pollIndex :: pollfds[i] == old(pollfds[i])
      ensures Valid() && fresh(Repr() - old(Repr()))
    {
      forall i | 1 <= i < nfds ensures InSlot(i) {
        assert old(InSlot(i));
      }
      forall d | d in live ensures Settled(d) {
        assert old(Settled(d)) && old(Settled(c));
      }
      forall d, e | d in live && e in live && d != e ensures d.writeBuf != e.writeBuf && d.fd != e.fd {
        assert old(allocated(d.writeBuf)) || d == c;
      }
    }

    twostate lemma OneMarked(c: Conn)
      requires old(Valid()) && Valid() && c in live && live == old(live)
      requires forall d | d in live && d != c :: unchanged(d)
      requires c.pollIndex == old(c.pollIndex)
      requires forall i | 1 <= i < nfds && i != c.pollIndex :: pollfds[i] == old(pollfds[i])
      ensures Marks() == old(Marks())[c := Seen(c)]
    {
      hide Valid, Seen;
      OthersSeen(c);
    }

    twostate lemma OthersSeen(c: Conn)
      requires old(Valid()) && Valid() && c in live && live == old(live)
      requires forall d | d in live && d != c :: unchanged(d)
      requires forall i | 1 <= i < nfds && i != c.pollIndex :: pollfds[i] == old(pollfds[i])
      ensures forall d | d in live && d != c :: Seen(d) == old(Seen(d))
    {
      hide Conn.Ok, InSlot;
      forall d | d in live && d != c ensures Seen(d) == old(Seen(d)) {
        assert Settled(d) && Settled(c);
      }
    }

    /** Queue output and ask poll to report when the socket can take it. */
    method Write(c: Conn, data: seq<Byte>)
      requires Valid() && c in live
      modifies c, c.writeBuf, pollfds
      ensures Valid() && fresh(Repr() - old(Repr())) && live == old(live) && nfds == old(nfds)
      ensures c in old(Marks())
      ensures Marks() == old(Marks())[c := old(Seen(c)).(written := old(c.written) + data)]
    {
      hide Valid, Repr, Marks, Conn.Ok;
      Facts(c);
      if |data| == 0 {
        assert c.written + data == c.written;
        assert Marks() == Marks()[c := Seen(c)];
        return;
      }
      c.Append(data);
      pollfds[c.pollIndex] := pollfds[c.pollIndex].(wantOut := true);
      OneChanged(c);
      OneMarked(c);
    }

    /** Hand the buffer to the socket; when it is drained, stop asking for POLLOUT. Only an error of the socket, on output
        that was waiting, is reported. */
    method Flush(c: Conn, answer: Answer) returns (ok: bool)
      requires Valid() && c in live && (answer.Took? ==> answer.n <= c.writeLen)
      modifies c, c.writeBuf, pollfds
      ensures Valid() && fresh(Repr() - old(Repr())) && live == old(live) && nfds == old(nfds)
      ensures ok <==> !(answer.Failed? && old(c.writeLen) > 0)
      ensures c.accepted == old(c.accepted) + old(c.writeBuf[..if answer.Took? then answer.n else 0])
      ensures c in old(Marks()) && Marks() == old(Marks())[c := Handed(old(Seen(c)), answer)]
    {
      hide Valid, Repr, Marks, Conn.Ok;
      Facts(c);
      ok := true;
      c.Pending();
      if c.writeLen == 0 || !answer.Took? {
        ok := c.writeLen == 0 || answer.Again?;
        assert c.accepted + [] == c.accepted;
        assert Marks() == Marks()[c := Seen(c)];
        return;
      }
      c.Consume(answer.n);
      if c.writeLen == 0 {
        pollfds[c.pollIndex] := pollfds[c.pollIndex].(wantOut := false);
      }
      OneChanged(c);
      OneMarked(c);
    }

    /** A new connection takes the first free slot; a full table refuses it. */
    method Accept(fd: int) returns (c: Conn?)
      requires Valid() && forall d | d in live :: d.fd != fd
      modifies this`nfds, this`live, pollfds, sessions
      ensures Valid() && fresh(Repr() - old(Repr()))
      ensures old(nfds) == MAX_CLIENTS ==> c == null && live == old(live) && Marks() == old(Marks())
      ensures old(nfds) < MAX_CLIENTS ==>
                && c != null && fresh(c) && live == old(live) + {c} && c.fd == fd
                && Marks() == old(Marks())[c := Mark(old(nfds), NOTHING, [], [], Flags("", false, false, false))]
    {
      hide Valid, Marks, Repr, Conn.Ok;
      CountFacts();
      if nfds >= MAX_CLIENTS {
        return null;
      }
      var conn := new Conn(fd, nfds);
      Untouched();
      Enter(conn);
      RepresentedAfter(conn);
      c := conn;
    }

    lemma CountFacts()
      requires Valid()
      ensures nfds == 1 + |live| && nfds <= MAX_CLIENTS
    {
    }

    /** Allocation elsewhere does not touch the table. */
    twostate lemma Untouched()
      requires old(Valid()) && unchanged(this, pollfds, sessions)
      requires forall d | d in live :: unchanged(d) && unchanged(d.writeBuf)
      ensures Valid() && Marks() == old(Marks())
      ensures forall d | d in live :: old(allocated(d)) && old(allocated(d.writeBuf))
    {
      forall d | d in live ensures Settled(d) {
        assert old(Settled(d));
      }
      forall i | 1 <= i < nfds ensures InSlot(i) {
        assert old(InSlot(i));
      }
    }

    twostate lemma RepresentedAfter(new c: Conn)
      requires live == old(live) + {c} && fresh(c) && fresh(c.writeBuf)
      requires forall d | d in old(live) :: d.writeBuf == old(d.writeBuf)
      ensures fresh(Repr() - old(Repr()))
    {
    }

    method Enter(c: Conn)
      requires Valid() && nfds < MAX_CLIENTS && c.Ok() && c !in live && c.pollIndex == nfds && c.writeLen == 0
      requires forall d | d in live :: d.fd != c.fd && d.writeBuf != c.writeBuf
      modifies this`nfds, this`live, pollfds, sessions
      ensures Valid() && live == old(live) + {c} && nfds == old(nfds) + 1
      ensures Marks() == old(Marks())[c := Mark(old(nfds), NOTHING, c.written, c.accepted,
                                                Flags(c.jid, c.inParse, c.resetPending, c.teardownPending))]
    {
      hide Valid, Marks, Conn.Ok;
      RangeFacts();
      pollfds[nfds] := PollFd(c.fd, false, NOTHING);
      sessions[nfds] := c;
      live := live + {c};
      nfds := nfds + 1;
      EnteredValid(c);
      EnteredMarks(c);
      SeenIs(c);
    }

    lemma RangeFacts()
      requires Valid()
      ensures pollfds.Length == MAX_CLIENTS && sessions.Length == MAX_CLIENTS && nfds <= MAX_CLIENTS
    {
    }

    lemma SeenIs(c: Conn)
      requires Valid() && c in live
      ensures Seen(c) == Mark(c.pollIndex, pollfds[c.pollIndex].ready, c.written, c.accepted,
                              Flags(c.jid, c.inParse, c.resetPending, c.teardownPending))
    {
    }

    twostate lemma EnteredSeen(c: Conn)
      requires old(Valid()) && Valid() && live == old(live) + {c} && forall d | d in old(live) :: unchanged(d)
      requires forall i | 0 <= i < pollfds.Length && i != old(nfds) :: pollfds[i] == old(pollfds[i])
      ensures forall d | d in old(live) :: Seen(d) == old(Seen(d))
    {
      hide Conn.Ok, InSlot;
      forall d | d in old(live) ensures Seen(d) == old(Seen(d)) {
        assert old(Settled(d));
      }
    }

    twostate lemma EnteredMarks(c: Conn)
      requires old(Valid()) && Valid() && live == old(live) + {c} && forall d | d in old(live) :: unchanged(d)
      requires forall i | 0 <= i < pollfds.Length && i != old(nfds) :: pollfds[i] == old(pollfds[i])
      requires c !in old(live)
      ensures Marks() == old(Marks())[c := Seen(c)]
    {
      hide Valid, Seen;
      EnteredSeen(c);
    }

    twostate lemma EnteredValid(c: Conn)
      requires old(Valid()) && c !in old(live) && old(nfds) < MAX_CLIENTS && live == old(live) + {c} && nfds == old(nfds) + 1
      requires forall i | 0 <= i < sessions.Length && i != nfds - 1 :: sessions[i] == old(sessions[i])
      requires forall i | 0 <= i < pollfds.Length && i != nfds - 1 :: pollfds[i] == old(pollfds[i])
      requires sessions[nfds - 1] == c && pollfds[nfds - 1].fd == c.fd && !pollfds[nfds - 1].wantOut
      requires unchanged(c) && c.Ok() && c.pollIndex == nfds - 1 && c.writeLen == 0
      requires forall d | d in old(live) :: unchanged(d) && unchanged(d.writeBuf)
      requires forall d | d in old(live) :: d.fd != c.fd && d.writeBuf != c.writeBuf
      ensures Valid()
    {
      forall i | 1 <= i < nfds ensures InSlot(i) {
        assert i < nfds - 1 ==> old(InSlot(i));
      }
      forall d | d in live ensures Settled(d) {
        assert d != c ==> old(Settled(d));
      }
    }

    /** The first live connection of `jid`, by a scan of the table. */
    method FindByJid(jid: string) returns (c: Conn?)
      requires Valid()
      ensures c != null ==> c in live && c.jid == jid && jid != ""
      ensures c != null ==> forall d | d in live && d.jid == jid :: c.pollIndex <= d.pollIndex
      ensures c == null ==> jid == "" || forall d | d in live :: d.jid != jid
    {
      for i := 1 to nfds
        invariant jid == "" || forall k | 1 <= k < i :: sessions[k] != null && sessions[k].jid != jid
      {
        assert InSlot(i);
        if sessions[i].jid != "" {
          if sessions[i].jid == jid {
            c := sessions[i];
            forall d | d in live && d.jid == jid ensures c.pollIndex <= d.pollIndex {
              assert Settled(d);
            }
            return;
          }
        }
      }
      forall d | d in live ensures jid == "" || d.jid != jid {
        assert Settled(d);
      }
      c := null;
    }

    /** The table after the last connection has moved into the slot of `c`; only slot numbers changed. */
    twostate predicate Compacted(c: Conn)
      requires old(Valid()) && c in old(live)
      reads this, pollfds, sessions, live, set d: Conn | d in live :: d.writeBuf
    {
      var idx, last := old(c.pollIndex), old(nfds) - 1;
      && live == old(live) - {c} && nfds == last
      && (forall i | 0 <= i < sessions.Length :: sessions[i] ==
            if i == last then null else if i == idx then old(sessions[last]) else old(sessions[i]))
      && (forall i | 1 <= i < last :: pollfds[i] == if i == idx then old(pollfds[last]) else old(pollfds[i]))
      && (forall d | d in live :: Same(d) && d.pollIndex == if old(d.pollIndex) == last then idx else old(d.pollIndex))
    }

    twostate predicate Same(d: Conn)
      reads d, d.writeBuf
    {
      && d.jid == old(d.jid) && d.inParse == old(d.inParse) && d.disconnected == old(d.disconnected)
      && d.resetPending == old(d.resetPending) && d.teardownPending == old(d.teardownPending)
      && d.written == old(d.written) && d.accepted == old(d.accepted) && d.growths == old(d.growths)
      && d.peak == old(d.peak) && d.writeLen == old(d.writeLen) && d.writeBuf == old(d.writeBuf)
      && unchanged(d.writeBuf)
    }

    twostate lemma CompactedOk(d: Conn)
      requires old(d.Ok()) && Same(d)
      ensures d.Ok()
    {
    }

    twostate lemma CompactedBuffers(c: Conn)
      requires old(Valid()) && c in old(live) && Compacted(c)
      ensures forall d, e | d in live && e in live && d != e :: d.writeBuf != e.writeBuf && d.fd != e.fd
    {
      assert forall d | d in live :: Same(d);
    }

    twostate lemma CompactedSizes(c: Conn)
      requires old(Valid()) && c in old(live) && Compacted(c)
      ensures pollfds.Length == MAX_CLIENTS && sessions.Length == MAX_CLIENTS
      ensures 1 <= nfds <= MAX_CLIENTS && sessions[0] == null && nfds == 1 + |live|
      ensures forall i | nfds <= i < MAX_CLIENTS :: sessions[i] == null
    {
      assert old(Settled(c));
    }

    twostate lemma CompactedSlots(c: Conn)
      requires old(Valid()) && c in old(live) && Compacted(c)
      ensures nfds <= sessions.Length && forall i | 1 <= i < nfds :: InSlot(i)
    {
      assert old(InSlot(nfds - 1)) && old(Settled(c));
      forall i | 1 <= i < nfds ensures InSlot(i) {
        assert old(InSlot(i));
      }
    }

    twostate lemma CompactedAllSettled(c: Conn)
      requires old(Valid()) && c in old(live) && Compacted(c)
      ensures pollfds.Length == MAX_CLIENTS && sessions.Length == MAX_CLIENTS && nfds <= MAX_CLIENTS
      ensures forall d | d in live :: Settled(d)
    {
      CompactedSizes(c);
      assert old(Settled(c));
      forall d | d in live ensures Settled(d) {
        assert old(Settled(d)) && Same(d);
        CompactedOk(d);
      }
    }

    twostate lemma CompactedValid(c: Conn)
      requires old(Valid()) && c in old(live) && Compacted(c)
      ensures Valid()
    {
      hide Compacted, Settled, InSlot;
      CompactedSizes(c);
      CompactedSlots(c);
      CompactedAllSettled(c);
      CompactedBuffers(c);
    }

    twostate lemma CompactedSeen(c: Conn)
      requires old(Valid()) && Valid() && c in old(live) && Compacted(c)
      ensures forall d | d in live :: d in old(live) &&
                Seen(d) == if old(d.pollIndex) == nfds then old(Seen(d)).(slot := old(c.pollIndex)) else old(Seen(d))
    {
      hide Conn.Ok;
      assert old(Settled(c));
      forall d | d in live
        ensures Seen(d) == if old(d.pollIndex) == nfds then old(Seen(d)).(slot := old(c.pollIndex)) else old(Seen(d))
      {
        assert old(Settled(d));
        assert Settled(d) && Same(d);
      }
    }

    twostate lemma CompactedMarks(c: Conn)
      requires old(Valid()) && Valid() && c in old(live) && Compacted(c)
      ensures c in old(Marks()) && Marks() == Without(old(Marks()), c)
    {
      hide Settled, Same, Conn.Ok, InSlot, Seen;
      assert old(Marks()).Keys == old(live);
      CompactedSeen(c);
      SeenSlots();
      assert |old(Marks())| == nfds;
    }

    twostate lemma SeenSlots()
      requires old(Valid())
      ensures forall d | d in old(live) :: old(Seen(d)).slot == old(d.pollIndex)
    {
    }

    /** Swap-removal: the last connection takes the free slot. */
    method Remove(c: Conn)
      requires Valid() && c in live
      modifies this`nfds, this`live, pollfds, sessions, sessions[nfds - 1]
      ensures Valid() && live == old(live) - {c} && nfds == old(nfds) - 1
      ensures c in old(Marks()) && Marks() == Without(old(Marks()), c)
      ensures c.writeBuf == old(c.writeBuf) && forall d | d in live :: d.writeBuf == old(d.writeBuf)
      ensures c.written == old(c.written) && c.accepted == old(c.accepted)
    {
      hide Valid, Marks, Seen, Settled;
      Compact(c);
      CompactedValid(c);
      CompactedMarks(c);
    }

    method Compact(c: Conn)
      requires Valid() && c in live
      modifies this`nfds, this`live, pollfds, sessions, sessions[nfds - 1]
      ensures Compacted(c)
      ensures live == old(live) - {c} && nfds == old(nfds) - 1
      ensures c.writeBuf == old(c.writeBuf) && forall d | d in live :: d.writeBuf == old(d.writeBuf)
      ensures c.written == old(c.written) && c.accepted == old(c.accepted)
    {
      hide Conn.Ok, Marks, Seen;
      var idx, last := c.pollIndex, nfds - 1;
      assert Settled(c) && InSlot(last);
      LastOnly();
      hide Valid, Settled, InSlot;
      if idx != last {
        pollfds[idx] := pollfds[last];
        sessions[idx] := sessions[last];
        sessions[idx].pollIndex := idx;
      }
      pollfds[last] := PollFd(-1, false, NOTHING);
      sessions[last] := null;
      nfds := nfds - 1;
      live := live - {c};
    }

    lemma LastOnly()
      requires Valid() && nfds > 1
      ensures sessions[nfds - 1] != null && forall d | d in live && d.pollIndex == nfds - 1 :: d == sessions[nfds - 1]
    {
      assert InSlot(nfds - 1);
      forall d | d in live && d.pollIndex == nfds - 1 ensures d == sessions[nfds - 1] {
        assert Settled(d);
      }
    }
  }
}
