/** SASL PLAIN (RFC 4616 section 2): authzid NUL authcid NUL passwd, split by both servers. */
module Sasl {
  import opened Bytes
  import opened Options
  import opened Base64

  datatype Credentials = Credentials(authcid: seq<Byte>, passwd: seq<Byte>)

  predicate NoNul(s: seq<Byte>) {
    forall i | 0 <= i < |s| :: s[i] != 0
  }

  /** `message` is these three parts with a NUL between them; only the last may hold further NULs. */
  predicate Split(message: seq<Byte>, authzid: seq<Byte>, c: Credentials) {
    message == authzid + [0] + c.authcid + [0] + c.passwd && NoNul(authzid) && NoNul(c.authcid)
  }

  /** The position of the first NUL from `i` on, or the length. */
  function NulFrom(s: seq<Byte>, i: nat): (j: nat)
    requires i <= |s|
    ensures i <= j <= |s| && NoNul(s[i..j]) && (j < |s| ==> s[j] == 0)
    decreases |s| - i
  {
    if i == |s| || s[i] == 0 then i
    else
      var j := NulFrom(s, i + 1);
      assert s[i..j] == [s[i]] + s[i + 1..j];
      j
  }

  lemma {:induction false} NulFromIs(s: seq<Byte>, i: nat, j: nat)
    requires i <= j <= |s| && NoNul(s[i..j]) && (j < |s| ==> s[j] == 0)
    ensures NulFrom(s, i) == j
    decreases j - i
  {
    if i < j {
      assert s[i..j][0] == s[i];
      assert s[i..j][1..] == s[i + 1..j];
      NulFromIs(s, i + 1, j);
    }
  }

  /** There is at most one way to split a message, and the two NUL positions give it. */
  lemma SplitIs(message: seq<Byte>, authzid: seq<Byte>, c: Credentials)
    requires Split(message, authzid, c)
    ensures var i := NulFrom(message, 0);
            && i < |message| && authzid == message[..i]
            && var j := NulFrom(message, i + 1);
               j < |message| && c == Credentials(message[i + 1..j], message[j + 1..])
  {
    var i := |authzid|;
    var j := i + 1 + |c.authcid|;
    assert message[0..i] == authzid && message[i] == 0;
    NulFromIs(message, 0, i);
    assert message[i + 1..j] == c.authcid && message[j] == 0;
    NulFromIs(message, i + 1, j);
    assert message[j + 1..] == c.passwd;
  }

  lemma SplitOf(message: seq<Byte>, i: nat, j: nat)
    requires i == NulFrom(message, 0) < |message| && j == NulFrom(message, i + 1) < |message|
    ensures Split(message, message[..i], Credentials(message[i + 1..j], message[j + 1..]))
  {
    assert message[0..i] == message[..i];
  }

  /** RFC 4616: neither the name nor the password is empty. */
  ghost predicate WellFormed(message: seq<Byte>, c: Credentials) {
    c.authcid != [] && c.passwd != [] && exists authzid :: Split(message, authzid, c)
  }

  /** parseSASLPlain of the Go server: exactly the well-formed messages, and exactly their parts. */
  method ParseInGo(message: seq<Byte>) returns (r: Option<Credentials>)
    ensures forall c :: r == Some(c) <==> WellFormed(message, c)
  {
    var i := 0;
    while i < |message| && message[i] != 0
      invariant i <= |message| && NulFrom(message, 0) == NulFrom(message, i)
    {
      i := i + 1;
    }
    i := i + 1;
    if i >= |message| {
      NoSplit(message);
      return Nothing;
    }
    var j := i;
    while j < |message| && message[j] != 0
      invariant i <= j <= |message| && NulFrom(message, i) == NulFrom(message, j)
    {
      j := j + 1;
    }
    var authcid := message[i..j];
    j := j + 1;
    if j > |message| {
      NoSplit(message);
      return Nothing;
    }
    var passwd := message[j..];
    SplitOf(message, i - 1, j - 1);
    OnlySplit(message, i - 1, j - 1);
    if authcid == [] || passwd == [] {
      return Nothing;
    }
    r := Some(Credentials(authcid, passwd));
  }

  /** Without two NULs, or with nothing after the first, there is nothing to split off. */
  lemma NoSplit(message: seq<Byte>)
    requires var i := NulFrom(message, 0); i + 1 >= |message| || NulFrom(message, i + 1) >= |message|
    ensures forall authzid, c :: Split(message, authzid, c) ==> c.authcid == [] && c.passwd == []
  {
    forall authzid, c | Split(message, authzid, c) ensures c.authcid == [] && c.passwd == [] {
      SplitIs(message, authzid, c);
    }
  }

  lemma OnlySplit(message: seq<Byte>, i: nat, j: nat)
    requires i == NulFrom(message, 0) < |message| && j == NulFrom(message, i + 1) < |message|
    ensures forall authzid, c :: Split(message, authzid, c) ==> c == Credentials(message[i + 1..j], message[j + 1..])
  {
    forall authzid, c | Split(message, authzid, c) ensures c == Credentials(message[i + 1..j], message[j + 1..]) {
      SplitIs(message, authzid, c);
    }
  }

  /** What a C string at position `i` of a buffer holds. */
  function CString(buf: seq<Byte>, i: nat): seq<Byte>
    requires i <= |buf|
  {
    buf[i..NulFrom(buf, i)]
  }

  function Cut(s: seq<Byte>): seq<Byte> {
    CString(s, 0)
  }

  /** What the C splitter accepts: any split message with something after the second NUL; the password ends at its
      first NUL, and the name may be empty. */
  ghost predicate AcceptedInC(message: seq<Byte>, c: Credentials) {
    exists authzid, passwd :: passwd != [] && Split(message, authzid, Credentials(c.authcid, passwd)) && c.passwd == Cut(passwd)
  }

  /** The splitter of auth_handle_sasl, on the decode buffer and its terminator. */
  method ParseInC(buf: array<Byte>, len: nat) returns (r: Option<Credentials>)
    requires len < buf.Length
    modifies buf
    ensures forall c :: r == Some(c) <==> AcceptedInC(old(buf[..len]), c)
  {
    hide NulFrom, AcceptedInC, CString, Cut;
    if len < 3 {
      TooShort(buf[..len]);
      return Nothing;
    }
    buf[len] := 0;
    ghost var message := buf[..len];
    assert message == old(buf[..len]);
    var i := Skip(buf, 0, len);
    ghost var first := i;
    i := i + 1;
    if i >= len {
      NothingAfter(message);
      return Nothing;
    }
    var name := i;
    i := Skip(buf, name, len);
    ghost var second := i;
    i := i + 1;
    if i >= len {
      NothingAfter(message);
      return Nothing;
    }
    var authcid := ReadString(buf, name, len);
    var passwd := ReadString(buf, i, len);
    StringAt(message, buf[..], name, len);
    StringAt(message, buf[..], i, len);
    TailString(message, i);
    NameString(message, name);
    AcceptedOnly(message, first, second);
    r := Some(Credentials(authcid, passwd));
  }

  lemma NameString(message: seq<Byte>, i: nat)
    requires i <= |message|
    ensures CString(message, i) == message[i..NulFrom(message, i)]
  {
  }

  /** Advance to the next NUL of the decoded bytes, or past them. */
  method Skip(buf: array<Byte>, start: nat, len: nat) returns (i: nat)
    requires start <= len < buf.Length
    ensures i == NulFrom(buf[..len], start) <= len
  {
    i := start;
    while i < len && buf[i] != 0
      invariant start <= i <= len && NulFrom(buf[..len], start) == NulFrom(buf[..len], i)
    {
      i := i + 1;
    }
  }

  /** strcmp and friends read up to the terminator. */
  method ReadString(buf: array<Byte>, i: nat, len: nat) returns (s: seq<Byte>)
    requires i <= len < buf.Length && buf[len] == 0
    ensures s == CString(buf[..], i)
  {
    var j := i;
    while buf[j] != 0
      invariant i <= j <= len && NulFrom(buf[..], i) == NulFrom(buf[..], j)
      decreases len - j
    {
      j := j + 1;
    }
    s := buf[i..j];
  }

  lemma StringAt(message: seq<Byte>, buf: seq<Byte>, i: nat, len: nat)
    requires i <= len < |buf| && buf[len] == 0 && message == buf[..len]
    ensures CString(buf, i) == CString(message, i)
  {
    var j := NulFrom(message, i);
    assert buf[i..j] == message[i..j];
    NulFromIs(buf, i, j);
  }

  lemma TailString(message: seq<Byte>, i: nat)
    requires i <= |message|
    ensures CString(message, i) == Cut(message[i..])
  {
    var tail, j := message[i..], NulFrom(message, i);
    assert tail[0..j - i] == message[i..j];
    NulFromIs(tail, 0, j - i);
  }

  lemma TooShort(message: seq<Byte>)
    requires |message| < 3
    ensures forall c :: !AcceptedInC(message, c)
  {
  }

  lemma NothingAfter(message: seq<Byte>)
    requires var i := NulFrom(message, 0); i + 1 >= |message| || NulFrom(message, i + 1) + 1 >= |message|
    ensures forall c :: !AcceptedInC(message, c)
  {
    forall authzid, c: Credentials | Split(message, authzid, c) ensures c.passwd == [] {
      SplitIs(message, authzid, c);
    }
  }

  lemma AcceptedOnly(message: seq<Byte>, i: nat, j: nat)
    requires i == NulFrom(message, 0) < |message| && j == NulFrom(message, i + 1) && j + 1 < |message|
    ensures forall c :: AcceptedInC(message, c) <==> c == Credentials(message[i + 1..j], Cut(message[j + 1..]))
  {
    SplitOf(message, i, j);
    OnlySplit(message, i, j);
    var c0 := Credentials(message[i + 1..j], Cut(message[j + 1..]));
    assert Split(message, message[..i], Credentials(c0.authcid, message[j + 1..]));
  }

  lemma CutWhole(s: seq<Byte>)
    ensures Cut(s) == s <==> NoNul(s)
  {
    if NoNul(s) {
      assert s[0..|s|] == s;
      NulFromIs(s, 0, |s|);
    }
  }

  /** Both accept the same credentials from a message exactly when the name is there and the password has no NUL. */
  lemma SplittersAgree(message: seq<Byte>, authzid: seq<Byte>, c: Credentials)
    requires Split(message, authzid, c) && c.passwd != []
    ensures (WellFormed(message, c) && AcceptedInC(message, c)) <==> c.authcid != [] && NoNul(c.passwd)
    ensures AcceptedInC(message, Credentials(c.authcid, Cut(c.passwd)))
  {
    SplitIs(message, authzid, c);
    AcceptedOnly(message, NulFrom(message, 0), NulFrom(message, NulFrom(message, 0) + 1));
    CutWhole(c.passwd);
  }

  /** What the Go server rejects, the C server rejects too, or takes with an empty name. */
  lemma GoRejects(message: seq<Byte>, c: Credentials)
    requires forall d :: !WellFormed(message, d)
    requires AcceptedInC(message, c)
    ensures c.authcid == []
  {
    var authzid, passwd :| passwd != [] && Split(message, authzid, Credentials(c.authcid, passwd)) && c.passwd == Cut(passwd);
    assert !WellFormed(message, Credentials(c.authcid, passwd));
  }

  /** The C server from the text of an auth element to the credentials it checks. */
  method Authenticate(input: seq<Byte>) returns (r: Option<Credentials>)
    ensures forall c :: r == Some(c) <==>
              input != [] && Decodes(input) && AcceptedInC(Decoded(Clean(input)), c)
  {
    if |input| == 0 {
      return Nothing;
    }
    var decoded := new Byte[4096];
    var ok, len := Decode(input, decoded);
    if !ok {
      return Nothing;
    }
    ghost var message := decoded[..len];
    r := ParseInC(decoded, len);
  }

  /** Client to server: the credentials checked are the ones that were sent, through any noise in the base64 text. */
  lemma CredentialsArrive(authzid: seq<Byte>, c: Credentials, input: seq<Byte>)
    requires NoNul(authzid) && NoNul(c.authcid) && NoNul(c.passwd) && c.passwd != []
    requires |authzid| + |c.authcid| + |c.passwd| + 2 <= 3072
    requires Clean(input) == Encode(authzid + [0] + c.authcid + [0] + c.passwd)
    ensures input != [] && Decodes(input)
    ensures forall d :: AcceptedInC(Decoded(Clean(input)), d) <==> d == c
  {
    var message := authzid + [0] + c.authcid + [0] + c.passwd;
    DecodesExactly(message, input);
    SplitIs(message, authzid, c);
    AcceptedOnly(message, NulFrom(message, 0), NulFrom(message, NulFrom(message, 0) + 1));
    CutWhole(c.passwd);
    if input == [] {
      EncodeLength(message);
    }
  }
}
