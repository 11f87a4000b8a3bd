/** One connection of the C server: its growing write buffer, and what others may see of it. */
module Connections {
  import opened Bytes

  const READ_BUF_SIZE := 8192
  const WRITE_BUF_INIT := 8192

  function Pow2(k: nat): nat {
    if k == 0 then 1 else 2 * Pow2(k - 1)
  }

  function Max(a: nat, b: nat): nat {
    if a < b then b else a
  }

  class Conn {
    const fd: int
    var disconnected: bool
    var pollIndex: nat
    var jid: string
    var inParse: bool
    var resetPending: bool
    var teardownPending: bool
    var writeBuf: array<Byte>
    var writeLen: nat
    ghost var written: seq<Byte>
    ghost var accepted: seq<Byte>
    ghost var growths: nat
    ghost var peak: nat

    /** Nothing written is lost or reordered, and the buffer is at most twice what was ever needed. */
    ghost predicate Ok()
      reads this, writeBuf
    {
      && !disconnected
      && writeLen <= writeBuf.Length
      && writeLen <= peak
      && written == accepted + writeBuf[..writeLen]
      && WRITE_BUF_INIT * Pow2(growths) <= writeBuf.Length <= Max(WRITE_BUF_INIT, 2 * peak)
    }

    constructor (fd: int, pollIndex: nat)
      ensures Ok() && fresh(writeBuf)
      ensures this.fd == fd && this.pollIndex == pollIndex && jid == "" && writeLen == 0
      ensures !inParse && !resetPending && !teardownPending
      ensures written == [] && accepted == []
    {
      this.fd, this.pollIndex, jid := fd, pollIndex, "";
      disconnected, inParse, resetPending, teardownPending := false, false, false, false;
      writeBuf := new Byte[WRITE_BUF_INIT];
      writeLen := 0;
      written, accepted, growths, peak := [], [], 0, 0;
    }

    /** Make room for `need` bytes; a full buffer at least doubles. */
    method Reserve(need: nat)
      requires Ok()
      modifies this`writeBuf, this`growths, this`peak
      ensures Ok() && (writeBuf == old(writeBuf) || fresh(writeBuf)) && need <= writeBuf.Length
      ensures writeBuf[..writeLen] == old(writeBuf[..writeLen])
      ensures peak == Max(old(peak), need)
      ensures growths == old(growths) || (growths == old(growths) + 1 && writeBuf.Length >= 2 * old(writeBuf.Length))
    {
      peak := Max(peak, need);
      if need > writeBuf.Length {
        var newCap := writeBuf.Length * 2;
        if newCap < need {
          newCap := need;
        }
        var newBuf := new Byte[newCap];
        forall i | 0 <= i < writeLen {
          newBuf[i] := writeBuf[i];
        }
        assert newBuf[..writeLen] == writeBuf[..writeLen];
        writeBuf := newBuf;
        growths := growths + 1;
      }
    }

    /** Append to the buffer. */
    method Append(data: seq<Byte>)
      requires Ok()
      modifies this, writeBuf
      ensures Ok() && (writeBuf == old(writeBuf) || fresh(writeBuf))
      ensures written == old(written) + data && accepted == old(accepted)
      ensures writeLen == old(writeLen) + |data|
      ensures peak == Max(old(peak), writeLen)
      ensures pollIndex == old(pollIndex) && jid == old(jid) && inParse == old(inParse)
      ensures resetPending == old(resetPending) && teardownPending == old(teardownPending)
    {
      var need := writeLen + |data|;
      Reserve(need);
      ghost var before := writeBuf[..writeLen];
      forall i | 0 <= i < |data| {
        writeBuf[writeLen + i] := data[i];
      }
      assert writeBuf[..need] == before + data;
      assert accepted + (before + data) == (accepted + before) + data;
      writeLen := need;
      written := written + data;
    }

    /** The socket has taken the first `n` bytes. */
    method Consume(n: nat)
      requires Ok() && n <= writeLen
      modifies this`writeLen, this`accepted, writeBuf
      ensures Ok()
      ensures accepted == old(accepted) + old(writeBuf[..n])
      ensures accepted == written[..|old(accepted)| + n]
      ensures writeLen == old(writeLen) - n
    {
      hide Pow2, Max;
      ghost var before := writeBuf[..writeLen];
      accepted := accepted + writeBuf[..n];
      if n < writeLen {
        ShiftDown(n);
      }
      writeLen := writeLen - n;
      assert before[..n] == old(writeBuf[..n]);
      Rejoined(old(accepted), before, n);
      assert accepted == written[..|accepted|];
    }

    /** What waits for the socket is what was written and not taken yet. */
    lemma Pending()
      requires Ok()
      ensures |written| == |accepted| + writeLen && accepted == written[..|accepted|]
    {
    }

    /** memmove of what is left to the front of the buffer. */
    method ShiftDown(n: nat)
      requires n <= writeLen <= writeBuf.Length
      modifies writeBuf
      ensures writeBuf[..writeLen - n] == old(writeBuf[..writeLen])[n..]
    {
      forall i | 0 <= i < writeLen - n {
        writeBuf[i] := writeBuf[n + i];
      }
    }
  }

  lemma Rejoined(a: seq<Byte>, b: seq<Byte>, n: nat)
    requires n <= |b|
    ensures (a + b[..n]) + b[n..] == a + b
  {
    assert b[..n] + b[n..] == b;
  }

  /** What a socket says to a write: how much it took, to try again later, or an error. */
  datatype Answer = Took(n: nat) | Again | Failed

  /** A socket takes no more than it is offered. */
  function Clip(a: Answer, len: nat): (r: Answer)
    ensures r.Took? ==> r.n <= len
  {
    if a.Took? && a.n > len then Took(len) else a
  }

  /** What poll reported about a socket. */
  datatype Ready = Ready(broken: bool, readable: bool, writable: bool)

  datatype Flags = Flags(jid: string, inParse: bool, resetPending: bool, teardownPending: bool)

  /** How a connection stands in the table: its slot and poll report, what was written to it and what its socket took. */
  datatype Mark = Mark(slot: nat, ready: Ready, written: seq<Byte>, accepted: seq<Byte>, flags: Flags)

  /** The socket has been offered all that waits, and has answered. */
  ghost function Handed(m: Mark, a: Answer): Mark {
    if !a.Took? then m
    else if |m.accepted| + a.n <= |m.written| then m.(accepted := m.written[..|m.accepted| + a.n])
    else m.(accepted := m.written)
  }

  /** Does output wait for the socket? */
  ghost predicate Waits(m: Mark) {
    |m.accepted| < |m.written|
  }

  /** Who sits in another slot than before. */
  ghost function Moved(before: map<Conn, Mark>, after: map<Conn, Mark>): set<Conn> {
    set c | c in after && c in before && after[c].slot != before[c].slot
  }

  /** Connections only disappear, move down (one at most for each that disappears), and accumulate output; what poll
      reported moves with them. */
  ghost predicate Outlasts(before: map<Conn, Mark>, after: map<Conn, Mark>) {
    && after.Keys <= before.Keys
    && |Moved(before, after)| + |after.Keys| <= |before.Keys|
    && forall c | c in after ::
         && after[c].slot <= before[c].slot && after[c].ready == before[c].ready
         && before[c].written <= after[c].written && before[c].accepted <= after[c].accepted
  }

  /** The same, and only `actor` changes its own standing. */
  ghost predicate Follows(before: map<Conn, Mark>, after: map<Conn, Mark>, actor: Conn?) {
    Outlasts(before, after) && forall c | c in after && c != actor :: after[c].flags == before[c].flags
  }

  lemma Fewer(a: set<Conn>, b: set<Conn>)
    requires a <= b
    ensures |a| <= |b|
  {
    assert b == a + (b - a);
  }

  lemma MovedTrans(a: map<Conn, Mark>, b: map<Conn, Mark>, c: map<Conn, Mark>)
    requires c.Keys <= b.Keys <= a.Keys
    ensures |Moved(a, c)| <= |Moved(a, b)| + |Moved(b, c)|
  {
    Fewer(Moved(a, c), Moved(a, b) + Moved(b, c));
    var both := Moved(a, b) * Moved(b, c);
    assert |Moved(a, b) + Moved(b, c)| == |Moved(a, b)| + |Moved(b, c)| - |both|;
  }

  lemma NoneMoved(a: map<Conn, Mark>, b: map<Conn, Mark>)
    requires a.Keys == b.Keys && forall c | c in a :: a[c].slot == b[c].slot
    ensures Moved(a, b) == {}
  {
  }

  lemma OutlastsTrans(a: map<Conn, Mark>, b: map<Conn, Mark>, c: map<Conn, Mark>)
    requires Outlasts(a, b) && Outlasts(b, c)
    ensures Outlasts(a, c)
  {
    hide Moved;
    MovedTrans(a, b, c);
  }

  lemma FollowsTrans(a: map<Conn, Mark>, b: map<Conn, Mark>, c: map<Conn, Mark>, actor: Conn?)
    requires Follows(a, b, actor) && Follows(b, c, actor)
    ensures Follows(a, c, actor)
  {
    OutlastsTrans(a, b, c);
  }

  lemma FollowsWeaken(a: map<Conn, Mark>, b: map<Conn, Mark>, actor: Conn?)
    requires Follows(a, b, null)
    ensures Follows(a, b, actor)
  {
  }

  lemma FollowsSelf(a: map<Conn, Mark>, actor: Conn?)
    ensures Follows(a, a, actor)
  {
    NoneMoved(a, a);
  }

  lemma FollowsOne(a: map<Conn, Mark>, c: Conn, m: Mark, actor: Conn?)
    requires c in a && m.slot == a[c].slot && m.ready == a[c].ready && a[c].written <= m.written && a[c].accepted <= m.accepted
    requires c == actor || m.flags == a[c].flags
    ensures Follows(a, a[c := m], actor)
  {
    NoneMoved(a, a[c := m]);
    assert a[c := m].Keys == a.Keys;
  }

  /** Swap-removal, seen on the table: whoever sat last takes the free slot. */
  ghost function Without(a: map<Conn, Mark>, c: Conn): map<Conn, Mark>
    requires c in a
  {
    map d | d in a && d != c :: if a[d].slot == |a| then a[d].(slot := a[c].slot) else a[d]
  }

  lemma OneMoves(a: map<Conn, Mark>, c: Conn)
    requires c in a && forall d, e | d in a && e in a && a[d].slot == a[e].slot :: d == e
    ensures |Moved(a, Without(a, c))| <= 1
  {
    var moved := Moved(a, Without(a, c));
    if moved != {} {
      var d :| d in moved;
      assert moved == {d};
    }
  }

  lemma WithoutKeeps(a: map<Conn, Mark>, c: Conn)
    requires c in a && forall d | d in a :: a[d].slot <= |a|
    ensures Without(a, c).Keys == a.Keys - {c} && |a.Keys - {c}| == |a.Keys| - 1
    ensures forall d | d in Without(a, c) ::
              && Without(a, c)[d].slot <= a[d].slot && Without(a, c)[d].ready == a[d].ready
              && Without(a, c)[d].written == a[d].written && Without(a, c)[d].accepted == a[d].accepted
              && Without(a, c)[d].flags == a[d].flags
  {
    assert Without(a, c).Keys == a.Keys - {c};
  }

  lemma FollowsWithout(a: map<Conn, Mark>, c: Conn)
    requires c in a && forall d | d in a :: a[d].slot <= |a|
    requires forall d, e | d in a && e in a && a[d].slot == a[e].slot :: d == e
    ensures Follows(a, Without(a, c), null)
  {
    OneMoves(a, c);
    WithoutKeeps(a, c);
    hide Moved, Without;
  }
}
