/** The C address parser, which copies the three parts into buffers of its caller, and the Go splitter beside it. */
module JidParse {
  import opened Options
  import opened Jid
  import opened Buffers

  datatype Parts = Malformed | Parts(local: string, domain: string, resource: string)

  /** What the parser takes for the parts of an address, before they meet a buffer. It looks for the first '@' and the
      first '/' of the whole string; with the '/' in front of the '@' the domain runs to the end. */
  function Split(s: string): Parts {
    SplitAt(s, IndexOf(s, '@'), IndexOf(s, '/'))
  }

  function SplitAt(s: string, at: int, slash: int): Parts
    requires -1 <= at < |s| || at == -1
    requires -1 <= slash < |s| || slash == -1
  {
    var start := at + 1;
    if s == "" || at == 0 || slash == start || (slash < 0 && start == |s|) then Malformed
    else Parts(Before(s, at), s[start..EndFrom(s, start, slash)], Behind(s, slash))
  }

  function Before(s: string, at: int): string
    requires at < |s|
  {
    if at >= 0 then s[..at] else ""
  }

  /** Where the domain ends that starts at `start`. */
  function EndFrom(s: string, start: nat, slash: int): (end: nat)
    requires start <= |s| && slash < |s|
    ensures start <= end <= |s|
  {
    if slash >= start then slash else |s|
  }

  function Behind(s: string, slash: int): string
    requires slash < |s|
  {
    if slash >= 0 then s[slash + 1..] else ""
  }

  /** The C string in a buffer. */
  function Text(buf: seq<char>): string {
    var end := IndexOf(buf, '\0');
    if end >= 0 then buf[..end] else buf
  }

  lemma TextIs(buf: seq<char>, n: nat)
    requires n < |buf| && buf[n] == '\0' && '\0' !in buf[..n]
    ensures Text(buf) == buf[..n]
  {
    IndexOfFirst(buf, '\0', n);
  }

  lemma TextWhole(buf: seq<char>)
    requires '\0' !in buf
    ensures Text(buf) == buf
  {
  }

  lemma TextTerminated(buf: seq<char>, src: seq<char>)
    requires |src| < |buf| && buf[..|src|] == src && buf[|src|] == '\0'
    ensures Text(buf) == Text(src)
  {
    var end := IndexOf(src, '\0');
    if end >= 0 {
      assert buf[..end] == src[..end];
      TextIs(buf, end);
    } else {
      TextIs(buf, |src|);
    }
  }

  /** memcpy of `len` characters and a terminator, cropped to the buffer. */
  method CopyInto(dst: array<char>, memory: seq<char>, from: nat, len: nat)
    requires dst.Length > 0 && from + (if len < dst.Length then len else dst.Length - 1) <= |memory|
    modifies dst
    ensures Text(dst[..]) == Text(memory[from..from + if len < dst.Length then len else dst.Length - 1])
  {
    hide Text;
    var n := len;
    if n >= dst.Length {
      n := dst.Length - 1;
    }
    for i := 0 to n
      invariant dst[..i] == memory[from..from + i]
    {
      dst[i] := memory[from + i];
    }
    dst[n] := '\0';
    assert dst[..n] == memory[from..from + n];
    TextTerminated(dst[..], memory[from..from + n]);
  }

  method Clear(dst: array<char>)
    requires dst.Length > 0
    modifies dst
    ensures Text(dst[..]) == ""
  {
    dst[0] := '\0';
    TextIs(dst[..], 0);
  }

  lemma Slice(s: seq<char>, from: nat, end: nat, n: nat)
    requires from <= end <= |s| && n <= end - from
    ensures s[from..end][..n] == s[from..from + n]
  {
  }

  /** A part that lies within the string. */
  method CopyPart(dst: array<char>, memory: seq<char>, s: string, from: nat, end: nat)
    requires dst.Length > 0 && from <= end <= |s| <= |memory| && memory[..|s|] == s && '\0' !in s
    modifies dst
    ensures Text(dst[..]) == Cropped(s[from..end], dst.Length)
  {
    hide Text;
    CopyInto(dst, memory, from, end - from);
    PartText(memory, s, from, end, dst.Length);
  }

  lemma PartText(memory: seq<char>, s: string, from: nat, end: nat, size: nat)
    requires from <= end <= |s| <= |memory| && memory[..|s|] == s && '\0' !in s && size > 0
    ensures var len := end - from;
            Text(memory[from..from + if len < size then len else size - 1]) == Cropped(s[from..end], size)
  {
    hide Text;
    var len := end - from;
    var n := if len < size then len else size - 1;
    var copy := memory[from..from + n];
    forall i | 0 <= i < n ensures copy[i] == s[from + i] {
      assert memory[from + i] == memory[..|s|][from + i];
    }
    assert copy == s[from..from + n];
    Slice(s, from, end, n);
    TextWhole(copy);
  }

  /** Copying beyond the end of the string: what lies behind the terminator does not show. */
  lemma TailText(memory: seq<char>, s: string, from: nat, size: nat)
    requires from <= |s| < |memory| && memory[..|s|] == s && memory[|s|] == '\0' && '\0' !in s
    requires size > 0 && from + size - 1 <= |memory|
    ensures Text(memory[from..from + size - 1]) == Cropped(s[from..|s|], size)
  {
    hide Text;
    var copy, len := memory[from..from + size - 1], |s| - from;
    if len < |copy| {
      assert copy[len] == memory[|s|];
      forall i | 0 <= i < len ensures copy[i] == s[from + i] {
        assert memory[from + i] == memory[..|s|][from + i];
      }
      assert copy[..len] == s[from..|s|];
      TextIs(copy, len);
    } else {
      PartText(memory, s, from, |s|, size);
      assert size - 1 <= len;
      if len < size {
        assert len == size - 1;
      }
    }
  }

  /** Lengths are of type size_t. */
  const SIZES := 0x1_0000_0000_0000_0000

  /** The string `s`, terminated, with at least `size` readable characters behind its first |s|. */
  predicate InMemory(memory: seq<char>, s: string, size: nat) {
    && size > 0 && |s| + size <= |memory| < SIZES
    && memory[..|s|] == s && memory[|s|] == '\0' && '\0' !in s
  }

  /** jid_parse on a string in memory; `memory` is what can be read from its first character on. The return code is 0
      exactly when the address is not malformed. */
  method Parse(memory: seq<char>, s: string, local: array<char>, domain: array<char>, resource: array<char>) returns (rc: int)
    requires local != domain && domain != resource && local != resource
    requires local.Length > 0 && domain.Length > 0 && resource.Length > 0
    requires InMemory(memory, s, domain.Length)
    modifies local, domain, resource
    ensures rc == if Split(s).Malformed? then -1 else 0
    ensures rc == 0 ==>
              && Text(local[..]) == Cropped(Split(s).local, local.Length)
              && Text(domain[..]) == Cropped(Split(s).domain, domain.Length)
              && Text(resource[..]) == Cropped(Split(s).resource, resource.Length)
  {
    hide Text, IndexOf, SplitAt, Cropped;
    if s == "" {
      assert Split(s) == SplitAt(s, -1, -1);
      NothingThere();
      return -1;
    }
    rc := ParseAt(memory, s, IndexOf(s, '@'), IndexOf(s, '/'), local, domain, resource);
  }

  lemma NothingThere()
    ensures SplitAt("", -1, -1) == Malformed
  {
  }

  /** The rest of jid_parse, with the first '@' and the first '/' found. */
  method ParseAt(memory: seq<char>, s: string, at: int, slash: int,
                 local: array<char>, domain: array<char>, resource: array<char>)
    returns (rc: int)
    requires local != domain && domain != resource && local != resource
    requires local.Length > 0 && domain.Length > 0 && resource.Length > 0
    requires InMemory(memory, s, domain.Length) && s != "" && -1 <= at < |s| && -1 <= slash < |s|
    modifies local, domain, resource
    ensures rc == if SplitAt(s, at, slash).Malformed? then -1 else 0
    ensures rc == 0 ==>
              && Text(local[..]) == Cropped(SplitAt(s, at, slash).local, local.Length)
              && Text(domain[..]) == Cropped(SplitAt(s, at, slash).domain, domain.Length)
              && Text(resource[..]) == Cropped(SplitAt(s, at, slash).resource, resource.Length)
  {
    hide Text, Cropped, Before, Behind, EndFrom, InMemory;
    Clear(domain);
    Clear(resource);
    if at == 0 {
      return -1;
    }
    ParseName(memory, s, at, local, domain.Length);
    rc := ParseRest(memory, s, at + 1, slash, domain, resource);
  }

  /** The name in front of the first '@', if there is one. */
  method ParseName(memory: seq<char>, s: string, at: int, local: array<char>, ghost size: nat)
    requires local.Length > 0 && -1 <= at < |s| && at != 0 && InMemory(memory, s, size)
    modifies local
    ensures Text(local[..]) == Cropped(Before(s, at), local.Length)
  {
    hide Text, Cropped, Before;
    PieceFacts(s, at, -1);
    CroppedNothing(local.Length);
    Clear(local);
    if at >= 0 {
      CopyPart(local, memory, s, 0, at);
    }
  }

  lemma PieceFacts(s: string, at: int, slash: int)
    requires -1 <= at < |s| && -1 <= slash < |s|
    ensures Before(s, at) == if at >= 0 then s[0..at] else ""
    ensures Behind(s, slash) == if slash >= 0 then s[slash + 1..|s|] else ""
  {
  }

  lemma CroppedNothing(size: nat)
    requires size > 0
    ensures Cropped("", size) == ""
  {
  }

  /** The domain and resource of jid_parse, behind the '@'. */
  method ParseRest(memory: seq<char>, s: string, start: nat, slash: int, domain: array<char>, resource: array<char>)
    returns (rc: int)
    requires domain != resource && domain.Length > 0 && resource.Length > 0
    requires InMemory(memory, s, domain.Length)
    requires start <= |s| && -1 <= slash < |s| && Text(resource[..]) == ""
    modifies domain, resource
    ensures rc == if slash == start || (slash < 0 && start == |s|) then -1 else 0
    ensures rc == 0 ==>
              && Text(domain[..]) == Cropped(s[start..EndFrom(s, start, slash)], domain.Length)
              && Text(resource[..]) == Cropped(Behind(s, slash), resource.Length)
  {
    hide Text, Cropped, Behind;
    PieceFacts(s, -1, slash);
    CroppedNothing(resource.Length);
    if slash >= 0 {
      var dlen := (slash - start) % SIZES;
      if dlen == 0 {
        assert slash == start;
        return -1;
      }
      CopyDomain(memory, s, start, slash, dlen, domain);
      CopyPart(resource, memory, s, slash + 1, |s|);
    } else {
      if start == |s| {
        return -1;
      }
      CopyPart(domain, memory, s, start, |s|);
    }
    rc := 0;
  }

  /** The copy of a domain that ends at a '/'; with the '/' in front of it the length is cropped to the buffer. */
  method CopyDomain(memory: seq<char>, s: string, start: nat, slash: nat, dlen: nat, domain: array<char>)
    requires domain.Length > 0 && |s| + domain.Length <= |memory| < SIZES
    requires memory[..|s|] == s && memory[|s|] == '\0' && '\0' !in s
    requires start <= |s| && slash < |s| && slash != start && dlen == (slash - start) % SIZES
    modifies domain
    ensures Text(domain[..]) == Cropped(s[start..EndFrom(s, start, slash)], domain.Length)
  {
    hide Text, Cropped;
    if slash >= start {
      PartText(memory, s, start, slash, domain.Length);
    } else {
      assert dlen == SIZES - (start - slash) >= domain.Length;
      TailText(memory, s, start, domain.Length);
    }
    CopyInto(domain, memory, start, dlen);
  }

  // ---- Joining ----

  /** jid_full, before it meets its buffer: the slash is always there. */
  function FullInC(local: string, domain: string, resource: string): string {
    Join(local, domain) + "/" + resource
  }

  /** Splitting undoes joining; the resource may hold any further '@' or '/'. */
  lemma SplitOfFull(local: string, domain: string, resource: string)
    requires ValidName(local) && ValidDomain(domain)
    ensures Split(FullInC(local, domain, resource)) == Parts(local, domain, resource)
  {
    var full := FullInC(local, domain, resource);
    assert full[..|local|] == local;
    IndexOfFirst(full, '@', |local|);
    var k := |local| + 1 + |domain|;
    assert full[..k] == Join(local, domain) && full[k] == '/';
    IndexOfFirst(full, '/', k);
    assert full[|local| + 1..k] == domain && full[k + 1..] == resource;
  }

  /** Does a '/' stand in front of the first '@'? Then the length of the domain is computed below zero. */
  predicate SlashFirst(s: string) {
    0 <= IndexOf(s, '/') < IndexOf(s, '@')
  }

  predicate Short(p: Parts) {
    p.Parts? && |p.local| <= 255 && |p.domain| <= 255
  }

  lemma PiecesOf(s: string)
    requires Split(s).Parts? && '@' in s && '/' in s && !SlashFirst(s)
    ensures FullInC(Split(s).local, Split(s).domain, Split(s).resource) == s
  {
    hide IndexOf;
    var at, slash := IndexOf(s, '@'), IndexOf(s, '/');
    assert s[at] == '@' && s[slash] == '/';
    assert s[..slash] == s[..at] + "@" + s[at + 1..slash];
    assert s == s[..slash] + "/" + s[slash + 1..];
  }

  lemma FullLength(local: string, domain: string, resource: string)
    ensures |FullInC(local, domain, resource)| == |local| + |domain| + |resource| + 2
    ensures |Cropped(local, 256)| == if |local| <= 255 then |local| else 255
  {
  }

  lemma CroppedShorter(p: Parts)
    requires p.Parts?
    ensures |FullInC(Cropped(p.local, 256), Cropped(p.domain, 256), Cropped(p.resource, 256))| ==
            |FullInC(p.local, p.domain, p.resource)|
            <==> Short(p) && |p.resource| <= 255
  {
    FullLength(p.local, p.domain, p.resource);
    FullLength(p.domain, p.local, p.resource);
    FullLength(p.resource, p.local, p.domain);
    FullLength(Cropped(p.local, 256), Cropped(p.domain, 256), Cropped(p.resource, 256));
    hide FullInC, Cropped;
  }

  /** With a '/' in front of the '@', cropping can cut exactly what was too much: a domain of 511 characters, which the
      buffers make of its own beginning, a '/' and the beginning of the resource. */
  predicate CutsEven(p: Parts)
    requires p.Parts?
  {
    && |p.local| <= 255 && |p.domain| == 511 && |p.resource| >= 255
    && p.domain == p.domain[..255] + "/" + p.resource[..255]
  }

  /** Joining the parts as the buffers hold them gives an address with all three parts back if and only if none of them
      was cropped and no '/' stands in front of the '@', or one does and the cropping comes out even. */
  lemma FullOfSplit(s: string)
    requires Split(s).Parts? && '@' in s && '/' in s
    ensures var p := Split(s);
            FullInC(Cropped(p.local, 256), Cropped(p.domain, 256), Cropped(p.resource, 256)) == s <==>
            if SlashFirst(s) then CutsEven(p) else Short(p) && |p.resource| <= 255
  {
    var p := Split(s);
    if SlashFirst(s) {
      OverlapBack(s);
    } else {
      CroppedShorter(p);
      if Short(p) && |p.resource| <= 255 {
        PartsFit(p.local, p.domain, p.resource);
      }
      PiecesOf(s);
    }
    hide Split, SlashFirst, FullInC, Cropped;
  }

  lemma OverlapShape(s: string)
    requires Split(s).Parts? && SlashFirst(s)
    ensures var p, at := Split(s), IndexOf(s, '@');
            && s == Join(p.local, p.domain) && |p.local| == at && |p.resource| > |p.domain|
            && '@' !in p.local
  {
    hide IndexOf;
    var at, slash := IndexOf(s, '@'), IndexOf(s, '/');
    assert s[at] == '@' && s == s[..at] + "@" + s[at + 1..];
    assert s[at + 1..] == s[at + 1..|s|];
  }

  lemma OverlapBack(s: string)
    requires Split(s).Parts? && SlashFirst(s)
    ensures var p := Split(s);
            FullInC(Cropped(p.local, 256), Cropped(p.domain, 256), Cropped(p.resource, 256)) == s <==> CutsEven(p)
  {
    OverlapShape(s);
    var p := Split(s);
    hide Split, SlashFirst, IndexOf;
    if |p.local| > 255 {
      LongLocal(p.local, p.domain, p.local[..255], Cropped(p.domain, 256) + "/" + Cropped(p.resource, 256));
    } else {
      ShortLocal(p.local, p.domain, p.resource);
    }
    JoinedAgain(Cropped(p.local, 256), Cropped(p.domain, 256), Cropped(p.resource, 256));
    hide Cropped, FullInC, Join;
  }

  lemma JoinedAgain(l: string, d: string, r: string)
    ensures FullInC(l, d, r) == l + "@" + (d + "/" + r) == Join(l, d + "/" + r)
  {
  }

  lemma ShortLocal(local: string, domain: string, resource: string)
    requires |local| <= 255 && |resource| > |domain|
    ensures Join(local, Cropped(domain, 256) + "/" + Cropped(resource, 256)) == Join(local, domain) <==>
            |domain| == 511 && domain == domain[..255] + "/" + resource[..255]
  {
    SameTail(local, Cropped(domain, 256) + "/" + Cropped(resource, 256), domain);
    DomainBack(domain, resource);
    hide Join, Cropped;
  }

  lemma LongLocal(local: string, domain: string, cropped: string, rest: string)
    requires |local| > 255 && cropped == local[..255] && '@' !in local
    ensures cropped + "@" + rest != Join(local, domain)
  {
    assert (cropped + "@" + rest)[255] == '@';
    assert Join(local, domain)[255] == local[255];
  }

  lemma SameTail(local: string, a: string, b: string)
    ensures Join(local, a) == Join(local, b) <==> a == b
  {
    assert Join(local, a)[|local| + 1..] == a && Join(local, b)[|local| + 1..] == b;
  }

  lemma DomainBack(domain: string, resource: string)
    requires |resource| > |domain|
    ensures Cropped(domain, 256) + "/" + Cropped(resource, 256) == domain <==>
            |domain| == 511 && domain == domain[..255] + "/" + resource[..255]
  {
  }

  /** Parts of up to 255 characters pass through the buffers of 512, 768 and 256 characters whole. */
  lemma PartsFit(local: string, domain: string, resource: string)
    requires |local| <= 255 && |domain| <= 255 && |resource| <= 255
    ensures Cropped(Join(local, domain), 512) == Join(local, domain)
    ensures Cropped(FullInC(local, domain, resource), 768) == FullInC(local, domain, resource)
    ensures Cropped(local, 256) == local && Cropped(domain, 256) == domain && Cropped(resource, 256) == resource
  {
  }

  /** Write an address, read it back: the three parts arrive. */
  method JoinThenParse(local: string, domain: string, resource: string) returns (l: string, d: string, r: string)
    requires ValidName(local) && ValidDomain(domain)
    requires |local| <= 255 && |domain| <= 255 && |resource| <= 255
    requires '\0' !in local && '\0' !in domain && '\0' !in resource
    ensures l == local && d == domain && r == resource
  {
    hide Text, Split;
    var s := FullInC(local, domain, resource);
    var full := new char[1024];
    CopyInto(full, s, 0, |s|);
    assert s[0..|s|] == s;
    TextWhole(s);
    PartsFit(local, domain, resource);
    SplitOfFull(local, domain, resource);
    var l256, d256, r256 := new char[256], new char[256], new char[256];
    var memory := Text(full[..]) + ['\0'] + full[..256];
    assert memory[..|s|] == s;
    var _ := Parse(memory, s, l256, d256, r256);
    l, d, r := Text(l256[..]), Text(d256[..]), Text(r256[..]);
  }

  // ---- Both servers ----

  /** splitBareJID of the Go server: the resource goes first, then the cut at '@'. */
  function SplitBare(jid: string): (string, string) {
    var bare := Bare(jid);
    var at := IndexOf(bare, '@');
    if at <= 0 then ("", bare) else (bare[..at], bare[at + 1..])
  }

  /** The local user a message to `s` is for, at the server of `domain`: handle_message, with its buffers of 256. */
  function ReachedInC(s: string, domain: string): Option<string> {
    var p := Split(s);
    if p.Malformed? || Cropped(p.local, 256) == "" || Cropped(p.domain, 256) != domain then Nothing
    else Some(Cropped(p.local, 256))
  }

  function ReachedInGo(s: string, domain: string): Option<string> {
    if SplitBare(s).0 == "" || SplitBare(s).1 != domain then Nothing else Some(SplitBare(s).0)
  }

  /** What a caller can check: there is no name or no domain, or no '/' stands in front of the '@' and both parts fit. */
  predicate Plain(s: string) {
    var at, slash := IndexOf(s, '@'), IndexOf(s, '/');
    || at <= 0
    || (!SlashFirst(s) && at <= 255 && (if slash >= 0 then slash else |s|) - (at + 1) <= 255)
    || (if slash > at then slash else |s|) == at + 1
  }

  lemma NoneInPrefix(s: string, c: char, n: nat)
    requires n <= |s| && (IndexOf(s, c) < 0 || n <= IndexOf(s, c))
    ensures c !in s[..n] && IndexOf(s[..n], c) == -1
  {
    var at := IndexOf(s, c);
    if at >= 0 {
      assert s[..n] == s[..at][..n];
    }
  }

  /** The string up to the first '/', cut at its first '@', if it has one. */
  lemma BareAt(s: string)
    ensures var at, slash := IndexOf(s, '@'), IndexOf(s, '/');
            && Bare(s) == s[..if slash >= 0 then slash else |s|]
            && IndexOf(Bare(s), '@') == if SlashFirst(s) then -1 else at
  {
    hide IndexOf;
    var at, slash := IndexOf(s, '@'), IndexOf(s, '/');
    var end := if slash >= 0 then slash else |s|;
    var bare := Bare(s);
    assert bare == s[..end];
    if 0 <= at < end {
      assert bare[at] == '@';
      Slice(s, 0, end, at);
      assert s[0..end] == s[..end] && s[0..at] == s[..at];
      IndexOfFirst(bare, '@', at);
    } else {
      NoneInPrefix(s, '@', end);
    }
  }

  /** The name and the domain of an address with an '@' behind a name. */
  function Name(s: string): string
    requires IndexOf(s, '@') > 0
  {
    s[..IndexOf(s, '@')]
  }

  function Host(s: string): string
    requires IndexOf(s, '@') > 0
  {
    var at, slash := IndexOf(s, '@'), IndexOf(s, '/');
    s[at + 1..if slash > at then slash else |s|]
  }

  lemma NoName(s: string)
    requires IndexOf(s, '@') <= 0
    ensures (Split(s).Parts? ==> Split(s).local == "") && SplitBare(s).0 == ""
  {
    hide IndexOf;
    BareAt(s);
  }

  lemma NameAndHost(s: string)
    requires IndexOf(s, '@') > 0
    ensures |Name(s)| == IndexOf(s, '@') && Name(s) != ""
    ensures Split(s).Malformed? <==> Host(s) == "" && !SlashFirst(s)
    ensures Split(s).Parts? ==> Split(s).local == Name(s) && Split(s).domain == Host(s)
    ensures Plain(s) <==> Host(s) == "" || (!SlashFirst(s) && |Name(s)| <= 255 && |Host(s)| <= 255)
  {
    hide IndexOf;
    var at, slash := IndexOf(s, '@'), IndexOf(s, '/');
    assert s[at] == '@' && (slash >= 0 ==> s[slash] == '/');
    var end := if slash > at then slash else |s|;
    assert |s[at + 1..end]| == end - (at + 1);
  }

  lemma BareOfName(s: string)
    requires IndexOf(s, '@') > 0
    ensures SlashFirst(s) ==> '@' !in Bare(s) && SplitBare(s).0 == ""
    ensures !SlashFirst(s) ==> Bare(s) == Join(Name(s), Host(s)) && SplitBare(s) == (Name(s), Host(s))
    ensures !SlashFirst(s) ==> LocalPart(Bare(s)) == Name(s)
  {
    BareAt(s);
    hide IndexOf;
    var at, slash, bare := IndexOf(s, '@'), IndexOf(s, '/'), Bare(s);
    assert s[at] == '@';
    if !SlashFirst(s) {
      var end := if slash >= 0 then slash else |s|;
      assert slash != at;
      assert bare[..at] == s[..at] && bare[at + 1..] == s[at + 1..end];
      assert bare == bare[..at] + "@" + bare[at + 1..];
    }
  }

  lemma Disagree(s: string) returns (domain: string)
    requires !Plain(s)
    ensures 0 < |domain| <= 255 && ReachedInC(s, domain) != ReachedInGo(s, domain)
  {
    NameAndHost(s);
    BareOfName(s);
    hide IndexOf, Split, SplitBare, Plain, Name, Host;
    domain := Cropped(Host(s), 256);
  }

  lemma Agree(s: string, domain: string)
    requires Plain(s) && domain != ""
    ensures ReachedInC(s, domain) == ReachedInGo(s, domain)
  {
    if IndexOf(s, '@') > 0 {
      NameAndHost(s);
      BareOfName(s);
    } else {
      NoName(s);
    }
    hide IndexOf, Split, SplitBare, Plain, Name, Host;
  }

  /** A message reaches the same user through both servers, whatever their common name, if and only if its address is
      plain. */
  lemma SameTarget(s: string)
    ensures (forall domain | 0 < |domain| <= 255 :: ReachedInC(s, domain) == ReachedInGo(s, domain)) <==> Plain(s)
  {
    hide Plain, ReachedInC, ReachedInGo;
    if Plain(s) {
      forall domain | 0 < |domain| <= 255 ensures ReachedInC(s, domain) == ReachedInGo(s, domain) {
        Agree(s, domain);
      }
    } else {
      var domain := Disagree(s);
    }
  }

  /** The bare address that the C handlers rebuild from the cropped parts is Go's if and only if both parts fit and no '/'
      stands in front of the '@'. */
  lemma SameBare(s: string)
    requires Split(s).Parts? && Split(s).local != ""
    ensures Join(Cropped(Split(s).local, 256), Cropped(Split(s).domain, 256)) == Bare(s) <==>
            Short(Split(s)) && !SlashFirst(s)
    ensures !SlashFirst(s) ==> LocalPart(Bare(s)) == Split(s).local
  {
    if IndexOf(s, '@') <= 0 {
      NoName(s);
    }
    NameAndHost(s);
    BareOfName(s);
    hide IndexOf, Split, Bare, LocalPart, SlashFirst, Name, Host;
    var p := Split(s);
    var l, d := Cropped(p.local, 256), Cropped(p.domain, 256);
    assert Join(l, d)[|l|] == '@' && '@' in Join(l, d);
    assert |Join(l, d)| == |l| + 1 + |d|;
  }

  /** The domain is cut to 255 characters, so that a longer one can pass for the server's own. */
  lemma LongDomainPasses(domain: string)
    requires |domain| == 255 && '/' !in domain
    ensures ReachedInC("bob@" + domain + "x", domain) == Some("bob")
    ensures ReachedInGo("bob@" + domain + "x", domain) == Nothing
  {
    hide IndexOf;
    var s := "bob@" + domain + "x";
    assert s[..3] == "bob" && s[3] == '@';
    IndexOfFirst(s, '@', 3);
    assert '/' !in s;
    assert s[4..|s|] == domain + "x";
    NameAndHost(s);
    BareOfName(s);
    hide Split, SplitBare;
    assert (domain + "x")[..255] == domain;
  }

  /** A '/' in front of the '@' becomes part of the name. */
  lemma SlashInName()
    ensures ReachedInC("a/b@c", "c") == Some("a/b") && ReachedInGo("a/b@c", "c") == Nothing
  {
    hide IndexOf;
    var s := "a/b@c";
    assert s[..3] == "a/b" && s[..1] == "a";
    IndexOfFirst(s, '@', 3);
    IndexOfFirst(s, '/', 1);
    assert s[4..|s|] == "c";
    NameAndHost(s);
    BareOfName(s);
    hide Split, SplitBare;
  }
}
