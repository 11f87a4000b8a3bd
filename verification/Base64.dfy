/** The C server's base64 decoder, and the encoder of RFC 4648 section 4 it has to undo. */
module Base64 {
  import opened Bytes

  const PAD: Byte := 61

  const CLEAN_SIZE := 4096

  // ---- The alphabet ----

  function Symbol(v: nat): (c: Byte)
    requires v < 64
  {
    if v < 26 then 65 + v
    else if v < 52 then 97 + v - 26
    else if v < 62 then 48 + v - 52
    else if v == 62 then 43
    else 47
  }

  /** b64_table: what is not in the alphabet counts as 0. */
  function Value(c: Byte): (v: nat)
    ensures v < 64
  {
    if 65 <= c <= 90 then c - 65
    else if 97 <= c <= 122 then c - 97 + 26
    else if 48 <= c <= 57 then c - 48 + 52
    else if c == 43 then 62
    else if c == 47 then 63
    else 0
  }

  /** b64_valid: the alphabet and '='. */
  predicate Accepted(c: Byte) {
    65 <= c <= 90 || 97 <= c <= 122 || 48 <= c <= 57 || c == 43 || c == 47 || c == PAD
  }

  lemma SymbolValue(v: nat)
    requires v < 64
    ensures Value(Symbol(v)) == v && Accepted(Symbol(v)) && Symbol(v) != PAD
  {
  }

  /** Nothing but the 64 symbols and '=' is accepted. */
  lemma AcceptedIs(c: Byte)
    ensures Accepted(c) <==> c == '=' as int || exists v | 0 <= v < 64 :: Symbol(v) == c
  {
    if Accepted(c) && c != PAD {
      assert Symbol(Value(c)) == c;
    }
  }

  // ---- The encoder ----

  function Encode(data: seq<Byte>): seq<Byte> {
    if data == [] then []
    else if |data| == 1 then [Symbol(data[0] / 4), Symbol(data[0] % 4 * 16), PAD, PAD]
    else if |data| == 2 then
      [Symbol(data[0] / 4), Symbol(data[0] % 4 * 16 + data[1] / 16), Symbol(data[1] % 16 * 4), PAD]
    else
      [Symbol(data[0] / 4), Symbol(data[0] % 4 * 16 + data[1] / 16),
       Symbol(data[1] % 16 * 4 + data[2] / 64), Symbol(data[2] % 64)] + Encode(data[3..])
  }

  /** Test vectors of RFC 4648 section 10 ("f", "fo" and "foo"), and one for the last two symbols. */
  lemma Vectors()
    ensures Encode([102]) == [90, 103, 61, 61]
    ensures Encode([102, 111]) == [90, 109, 56, 61]
    ensures Encode([102, 111, 111]) == [90, 109, 57, 118]
    ensures Encode([251, 255]) == [43, 47, 56, 61]
  {
    assert [102, 111, 111][3..] == [];
  }

  // ---- The decoder ----

  /** The accepted bytes of the input, in order. */
  function Clean(input: seq<Byte>): seq<Byte> {
    if input == [] then []
    else
      var n := |input| - 1;
      if Accepted(input[n]) then Clean(input[..n]) + [input[n]] else Clean(input[..n])
  }

  /** Four symbols at a time; the fields of the 24-bit group do not overlap. */
  function Group(a: Byte, b: Byte, c: Byte, d: Byte): nat {
    Value(a) * 0x40000 + Value(b) * 0x1000 + (if c != PAD then Value(c) else 0) * 0x40 + (if d != PAD then Value(d) else 0)
  }

  function Quad(a: Byte, b: Byte, c: Byte, d: Byte): (out: seq<Byte>)
    ensures |out| <= 3
  {
    var g := Group(a, b, c, d);
    [g / 0x10000 % 0x100] + (if c != PAD then [g / 0x100 % 0x100] else []) + (if d != PAD then [g % 0x100] else [])
  }

  function Decoded(clean: seq<Byte>): (out: seq<Byte>)
    requires |clean| % 4 == 0
    ensures |out| <= |clean| / 4 * 3
  {
    if clean == [] then []
    else
      var n := |clean| - 4;
      Decoded(clean[..n]) + Quad(clean[n], clean[n + 1], clean[n + 2], clean[n + 3])
  }

  predicate Decodes(input: seq<Byte>) {
    |Clean(input)| <= CLEAN_SIZE && |Clean(input)| % 4 == 0
  }

  lemma CleanPrefix(input: seq<Byte>, i: nat)
    requires i <= |input|
    ensures |Clean(input[..i])| <= |Clean(input)|
    decreases |input| - i
  {
    if i < |input| {
      assert input[..i + 1][..i] == input[..i];
      CleanPrefix(input, i + 1);
    } else {
      assert input[..i] == input;
    }
  }

  /** base64_decode: strip, check, and write group by group into the caller's buffer. */
  method Decode(input: seq<Byte>, out: array<Byte>) returns (ok: bool, outLen: nat)
    requires out.Length >= CLEAN_SIZE / 4 * 3
    modifies out
    ensures ok <==> Decodes(input)
    ensures ok ==> outLen <= CLEAN_SIZE / 4 * 3 && out[..outLen] == Decoded(Clean(input))
    ensures !ok ==> outLen == 0
    ensures forall k | (if ok then outLen else 0) <= k < out.Length :: out[k] == old(out[k])
  {
    ok, outLen := false, 0;
    var clean := new Byte[CLEAN_SIZE];
    var clen := 0;
    for i := 0 to |input|
      invariant clen <= CLEAN_SIZE && clean[..clen] == Clean(input[..i])
      invariant out[..] == old(out[..])
    {
      assert input[..i + 1][..i] == input[..i];
      if Accepted(input[i]) {
        if clen >= CLEAN_SIZE {
          CleanPrefix(input, i + 1);
          return;
        }
        clean[clen] := input[i];
        clen := clen + 1;
      }
    }
    assert input[..|input|] == input;
    if clen % 4 != 0 {
      return;
    }
    outLen := DecodeGroups(clean, clen, out);
    ok := true;
  }

  method DecodeGroups(clean: array<Byte>, clen: nat, out: array<Byte>) returns (olen: nat)
    requires clean != out && clen <= clean.Length && clen % 4 == 0 && clen / 4 * 3 <= out.Length
    modifies out
    ensures olen <= clen / 4 * 3 && out[..olen] == Decoded(clean[..clen])
    ensures forall k | olen <= k < out.Length :: out[k] == old(out[k])
  {
    hide Group, Quad;
    olen := 0;
    var i := 0;
    while i < clen
      invariant 0 <= i <= clen && i % 4 == 0
      invariant olen <= i / 4 * 3 && out[..olen] == Decoded(clean[..i])
      invariant forall k | olen <= k < out.Length :: out[k] == old(out[k])
    {
      olen := DecodeGroup(clean[i], clean[i + 1], clean[i + 2], clean[i + 3], out, olen);
      assert clean[..i + 4][..i] == clean[..i];
      i := i + 4;
    }
  }

  method DecodeGroup(a: Byte, b: Byte, c: Byte, d: Byte, out: array<Byte>, at: nat) returns (olen: nat)
    requires at + 3 <= out.Length
    modifies out
    ensures olen == at + |Quad(a, b, c, d)| && out[..olen] == old(out[..at]) + Quad(a, b, c, d)
    ensures forall k | olen <= k < out.Length :: out[k] == old(out[k])
  {
    hide Group;
    olen := at;
    var g := Group(a, b, c, d);
    out[olen] := g / 0x10000 % 0x100;
    olen := olen + 1;
    if c != PAD {
      out[olen] := g / 0x100 % 0x100;
      olen := olen + 1;
    }
    if d != PAD {
      out[olen] := g % 0x100;
      olen := olen + 1;
    }
  }

  // ---- Decoding undoes encoding ----

  /** Six bits at a time or eight, the 24 bits are the same. */
  lemma Regrouped(x: Byte, y: Byte, z: Byte)
    ensures x / 4 * 0x40000 + (x % 4 * 16 + y / 16) * 0x1000 + (y % 16 * 4 + z / 64) * 0x40 + z % 64
            == x * 0x10000 + y * 0x100 + z
  {
    var p, q, r, s, t, u := x / 4, x % 4, y / 16, y % 16, z / 64, z % 64;
    assert x == 4 * p + q && y == 16 * r + s && z == 64 * t + u;
  }

  lemma BytesOf(x: Byte, y: Byte, z: Byte)
    ensures var g := x * 0x10000 + y * 0x100 + z;
            g / 0x10000 % 0x100 == x && g / 0x100 % 0x100 == y && g % 0x100 == z
  {
    var g := x * 0x10000 + y * 0x100 + z;
    assert g / 0x10000 == x;
    assert g / 0x100 == x * 0x100 + y;
  }

  lemma QuadOfThree(x: Byte, y: Byte, z: Byte)
    ensures Quad(Symbol(x / 4), Symbol(x % 4 * 16 + y / 16), Symbol(y % 16 * 4 + z / 64), Symbol(z % 64)) == [x, y, z]
  {
    Regrouped(x, y, z);
    QuadOf(x / 4, x % 4 * 16 + y / 16, y % 16 * 4 + z / 64, z % 64, x, y, z);
  }

  /** Symbols whose values make up the 24 bits of x, y and z decode to these bytes. */
  lemma QuadOf(a: nat, b: nat, c: nat, d: nat, x: Byte, y: Byte, z: Byte)
    requires a < 64 && b < 64 && c < 64 && d < 64
    requires a * 0x40000 + b * 0x1000 + c * 0x40 + d == x * 0x10000 + y * 0x100 + z
    ensures Quad(Symbol(a), Symbol(b), Symbol(c), Symbol(d)) == [x, y, z]
    ensures d == 0 ==> Quad(Symbol(a), Symbol(b), Symbol(c), PAD) == [x, y]
    ensures d == 0 && c == 0 ==> Quad(Symbol(a), Symbol(b), PAD, PAD) == [x]
  {
    hide Symbol, Value, Group;
    SymbolValue(a);
    SymbolValue(b);
    SymbolValue(c);
    SymbolValue(d);
    GroupOf(a, b, c, d);
    BytesOf(x, y, z);
  }

  lemma GroupOf(a: nat, b: nat, c: nat, d: nat)
    requires a < 64 && b < 64 && c < 64 && d < 64
    ensures Group(Symbol(a), Symbol(b), Symbol(c), Symbol(d)) == a * 0x40000 + b * 0x1000 + c * 0x40 + d
    ensures Group(Symbol(a), Symbol(b), Symbol(c), PAD) == a * 0x40000 + b * 0x1000 + c * 0x40
    ensures Group(Symbol(a), Symbol(b), PAD, PAD) == a * 0x40000 + b * 0x1000
  {
    hide Symbol, Value;
    SymbolValue(a);
    SymbolValue(b);
    SymbolValue(c);
    SymbolValue(d);
  }

  lemma QuadOfTwo(x: Byte, y: Byte)
    ensures Quad(Symbol(x / 4), Symbol(x % 4 * 16 + y / 16), Symbol(y % 16 * 4), PAD) == [x, y]
  {
    Regrouped(x, y, 0);
    QuadOf(x / 4, x % 4 * 16 + y / 16, y % 16 * 4, 0, x, y, 0);
  }

  lemma QuadOfOne(x: Byte)
    ensures Quad(Symbol(x / 4), Symbol(x % 4 * 16), PAD, PAD) == [x]
  {
    Regrouped(x, 0, 0);
    QuadOf(x / 4, x % 4 * 16, 0, 0, x, 0, 0);
  }

  /** Groups can be decoded front to back as well. */
  lemma {:induction false} DecodedFront(a: Byte, b: Byte, c: Byte, d: Byte, rest: seq<Byte>)
    requires |rest| % 4 == 0
    ensures Decoded([a, b, c, d] + rest) == Quad(a, b, c, d) + Decoded(rest)
  {
    hide Quad;
    var all, n := [a, b, c, d] + rest, |rest|;
    if rest == [] {
      assert all[..0] == [];
      assert Decoded(all) == Decoded([]) + Quad(a, b, c, d);
    } else {
      var init := rest[..n - 4];
      assert all[..n] == [a, b, c, d] + init;
      DecodedFront(a, b, c, d, init);
      var last := Quad(rest[n - 4], rest[n - 3], rest[n - 2], rest[n - 1]);
      assert Decoded(all) == Decoded(all[..n]) + last;
      assert Decoded(rest) == Decoded(init) + last;
    }
  }

  lemma {:induction false} EncodeLength(data: seq<Byte>)
    ensures |Encode(data)| == (|data| + 2) / 3 * 4
  {
    if |data| > 2 {
      EncodeLength(data[3..]);
    }
  }

  lemma {:induction false} DecodeOfEncode(data: seq<Byte>)
    ensures |Encode(data)| % 4 == 0 && Decoded(Encode(data)) == data
  {
    hide Symbol, Quad, Decoded;
    EncodeLength(data);
    if data == [] {
      DecodedNothing();
    } else if |data| > 2 {
      DecodeOfEncode(data[3..]);
      var e := Encode(data);
      DecodedFront(e[0], e[1], e[2], e[3], Encode(data[3..]));
      QuadOfThree(data[0], data[1], data[2]);
      assert data == [data[0], data[1], data[2]] + data[3..];
    } else if |data| == 2 {
      DecodedOne(Encode(data)[0], Encode(data)[1], Encode(data)[2], PAD);
      QuadOfTwo(data[0], data[1]);
    } else {
      DecodedOne(Encode(data)[0], Encode(data)[1], PAD, PAD);
      QuadOfOne(data[0]);
    }
  }

  lemma DecodedNothing()
    ensures Decoded([]) == []
  {
  }

  lemma DecodedOne(a: Byte, b: Byte, c: Byte, d: Byte)
    ensures Decoded([a, b, c, d]) == Quad(a, b, c, d)
  {
    DecodedFront(a, b, c, d, []);
    DecodedNothing();
    assert [a, b, c, d] + [] == [a, b, c, d];
  }

  /** Whatever foreign bytes are strewn into an encoding, it is accepted exactly up to 3072 bytes of data, and then
      decodes to that data. */
  lemma DecodesExactly(data: seq<Byte>, input: seq<Byte>)
    requires Clean(input) == Encode(data)
    ensures Decodes(input) <==> |data| <= 3072
    ensures Decodes(input) ==> Decoded(Clean(input)) == data
  {
    hide Encode, Decoded, Clean;
    EncodeLength(data);
    DecodeOfEncode(data);
  }

  /** Bytes outside the accepted set may be inserted anywhere. */
  lemma {:induction false} NoiseIsIgnored(before: seq<Byte>, noise: Byte, after: seq<Byte>)
    requires !Accepted(noise)
    ensures Clean(before + [noise] + after) == Clean(before + after)
  {
    var n := |after| - 1;
    if after == [] {
      assert before + [noise] + after == before + [noise] && before + after == before;
      assert (before + [noise])[..|before|] == before;
    } else {
      NoiseIsIgnored(before, noise, after[..n]);
      assert (before + [noise] + after)[..|before| + 1 + n] == before + [noise] + after[..n];
      assert (before + after)[..|before| + n] == before + after[..n];
    }
  }

  /** An encoding is made of accepted bytes, so stripping leaves it alone. */
  lemma {:induction false} CleanOfAccepted(clean: seq<Byte>)
    requires forall i | 0 <= i < |clean| :: Accepted(clean[i])
    ensures Clean(clean) == clean
  {
    if clean != [] {
      CleanOfAccepted(clean[..|clean| - 1]);
    }
  }

  lemma {:induction false} EncodeIsAccepted(data: seq<Byte>)
    ensures forall i | 0 <= i < |Encode(data)| :: Accepted(Encode(data)[i])
  {
    if |data| > 2 {
      EncodeIsAccepted(data[3..]);
    }
  }

  lemma RoundTrip(data: seq<Byte>)
    requires |data| <= 3072
    ensures Decodes(Encode(data)) && Decoded(Clean(Encode(data))) == data
  {
    EncodeIsAccepted(data);
    CleanOfAccepted(Encode(data));
    DecodesExactly(data, Encode(data));
  }
}
