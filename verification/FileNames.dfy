/** Names of stored messages: "%04d.xml", what a number read back from one is, and how they sort. */
module FileNames {

  predicate IsDigit(c: char) {
    '0' <= c <= '9'
  }

  predicate AllDigits(s: string) {
    forall i | 0 <= i < |s| :: IsDigit(s[i])
  }

  function Digit(d: nat): (c: char)
    requires d < 10
    ensures IsDigit(c)
  {
    '0' + d as char
  }

  function Digits(n: nat): (s: string)
    ensures AllDigits(s) && s != ""
  {
    if n < 10 then [Digit(n)] else Digits(n / 10) + [Digit(n % 10)]
  }

  /** Zeros in front up to four places. */
  function Padded(s: string): (p: string)
    requires AllDigits(s)
    ensures AllDigits(p) && |p| == if |s| < 4 then 4 else |s|
    decreases 4 - |s|
  {
    if |s| < 4 then Padded("0" + s) else s
  }

  function FileName(n: nat): string {
    Padded(Digits(n)) + ".xml"
  }

  // ---- Reading the number back ----

  function Value(s: string): nat
    requires AllDigits(s)
  {
    if s == "" then 0 else 10 * Value(s[..|s| - 1]) + (s[|s| - 1] - '0') as nat
  }

  function LeadingDigits(s: string): (n: nat)
    ensures n <= |s| && AllDigits(s[..n]) && (n < |s| ==> !IsDigit(s[n]))
  {
    if s == "" || !IsDigit(s[0]) then 0
    else
      var rest := LeadingDigits(s[1..]);
      assert s[..rest + 1] == [s[0]] + s[1..][..rest];
      rest + 1
  }

  /** atoi, and Sscanf with "%d.xml", on a name without sign or space in front. */
  function SequenceOf(name: string): nat {
    Value(name[..LeadingDigits(name)])
  }

  lemma {:induction false} ValueOfDigits(n: nat)
    ensures Value(Digits(n)) == n
  {
    if n >= 10 {
      ValueOfDigits(n / 10);
      assert Digits(n)[..|Digits(n)| - 1] == Digits(n / 10);
    }
  }

  lemma {:induction false} LeadingZero(s: string)
    requires AllDigits(s)
    ensures Value("0" + s) == Value(s)
  {
    if s == "" {
      assert ("0" + s)[..0] == "";
    } else {
      LeadingZero(s[..|s| - 1]);
      assert ("0" + s)[..|s|] == "0" + s[..|s| - 1];
    }
  }

  lemma {:induction false} ValueOfPadded(s: string)
    requires AllDigits(s)
    ensures Value(Padded(s)) == Value(s)
    decreases 4 - |s|
  {
    if |s| < 4 {
      ValueOfPadded("0" + s);
      LeadingZero(s);
    }
  }

  lemma {:induction false} DigitsThenOther(d: string, rest: string)
    requires AllDigits(d) && rest != "" && !IsDigit(rest[0])
    ensures LeadingDigits(d + rest) == |d|
  {
    if d == "" {
      assert d + rest == rest;
    } else {
      assert (d + rest)[1..] == d[1..] + rest;
      DigitsThenOther(d[1..], rest);
    }
  }

  lemma SequenceOfName(n: nat)
    ensures SequenceOf(FileName(n)) == n
  {
    var d, name := Padded(Digits(n)), FileName(n);
    DigitsThenOther(d, ".xml");
    assert name[..|d|] == d;
    ValueOfPadded(Digits(n));
    ValueOfDigits(n);
  }

  lemma NamesDiffer(m: nat, n: nat)
    ensures FileName(m) == FileName(n) <==> m == n
  {
    SequenceOfName(m);
    SequenceOfName(n);
  }

  // ---- How names sort ----

  /** Strictly before, in the order of strcmp and sort.Strings. */
  predicate Less(a: string, b: string) {
    b != "" && (a == "" || a[0] < b[0] || (a[0] == b[0] && Less(a[1..], b[1..])))
  }

  predicate Leq(a: string, b: string) {
    !Less(b, a)
  }

  lemma {:induction false} LessTrans(a: string, b: string, c: string)
    requires Less(a, b) && Less(b, c)
    ensures Less(a, c)
  {
    if a != "" && a[0] == b[0] == c[0] {
      LessTrans(a[1..], b[1..], c[1..]);
    }
  }

  lemma {:induction false} Trichotomy(a: string, b: string)
    ensures Less(a, b) || a == b || Less(b, a)
    ensures !(Less(a, b) && Less(b, a)) && !Less(a, a)
  {
    if a != "" {
      if b != "" && a[0] == b[0] {
        Trichotomy(a[1..], b[1..]);
        assert a == [a[0]] + a[1..] && b == [b[0]] + b[1..];
      }
    }
    Irreflexive(a);
  }

  lemma {:induction false} Irreflexive(a: string)
    ensures !Less(a, a)
  {
    if a != "" {
      Irreflexive(a[1..]);
    }
  }

  lemma LeqTrans(a: string, b: string, c: string)
    requires Leq(a, b) && Leq(b, c)
    ensures Leq(a, c)
  {
    Trichotomy(a, b);
    Trichotomy(b, c);
    Trichotomy(a, c);
    if Less(a, b) && Less(b, c) {
      LessTrans(a, b, c);
    }
  }

  lemma {:induction false} LessTails(a: string, b: string, s: string, t: string)
    requires |a| == |b|
    ensures Less(a + s, b + t) <==> Less(a, b) || (a == b && Less(s, t))
  {
    if a == "" {
      assert a + s == s && b + t == t;
    } else {
      assert (a + s)[1..] == a[1..] + s && (b + t)[1..] == b[1..] + t;
      assert a == [a[0]] + a[1..] && b == [b[0]] + b[1..];
      LessTails(a[1..], b[1..], s, t);
      Irreflexive(a);
    }
  }

  /** Digit strings of one length sort like the numbers they denote. */
  lemma {:induction false} LessIsNumeric(a: string, b: string)
    requires |a| == |b| && AllDigits(a) && AllDigits(b)
    ensures Less(a, b) <==> Value(a) < Value(b)
    ensures a == b <==> Value(a) == Value(b)
  {
    if a != "" {
      var n := |a| - 1;
      assert a == a[..n] + [a[n]] && b == b[..n] + [b[n]];
      LessTails(a[..n], b[..n], [a[n]], [b[n]]);
      LessIsNumeric(a[..n], b[..n]);
    }
  }

  lemma {:induction false} ShortDigits(n: nat, k: nat, bound: nat)
    requires k >= 1 && bound == Power10(k) && n < bound
    ensures |Digits(n)| <= k
  {
    if n >= 10 {
      ShortDigits(n / 10, k - 1, bound / 10);
    }
  }

  function Power10(k: nat): nat {
    if k == 0 then 1 else 10 * Power10(k - 1)
  }

  /** Up to 9999 the names sort like their numbers. */
  lemma FourPlaces(m: nat, n: nat)
    requires m <= 9999 && n <= 9999
    ensures Less(FileName(m), FileName(n)) <==> m < n
  {
    ShortDigits(m, 4, 10000);
    ShortDigits(n, 4, 10000);
    var a, b := Padded(Digits(m)), Padded(Digits(n));
    LessTails(a, b, ".xml", ".xml");
    Irreflexive(".xml");
    LessIsNumeric(a, b);
    ValueOfPadded(Digits(m));
    ValueOfPadded(Digits(n));
    ValueOfDigits(m);
    ValueOfDigits(n);
  }

  lemma FifthPlace()
    ensures FileName(10000) == "1000" + "0.xml"
  {
    assert Digits(1) == "1" && Digits(10) == "10" && Digits(100) == "100";
    assert Digits(1000) == "1000" && Digits(10000) == "10000";
  }

  /** Message 10000 sorts right after message 1000. */
  lemma TenThousandth(m: nat)
    requires m <= 9999
    ensures Less(FileName(10000), FileName(m)) <==> m > 1000
    ensures Less(FileName(m), FileName(10000)) <==> m <= 1000
  {
    FifthPlace();
    ShortDigits(m, 4, 10000);
    var d := Padded(Digits(m));
    ValueOfPadded(Digits(m));
    ValueOfDigits(m);
    LessTails("1000", d, "0.xml", ".xml");
    LessTails(d, "1000", ".xml", "0.xml");
    ThousandIs();
    LessIsNumeric("1000", d);
    LessIsNumeric(d, "1000");
  }

  lemma ThousandIs()
    ensures Value("1000") == 1000
  {
    var s := "1000";
    assert s[..3] == "100" && s[..3][..2] == "10" && s[..3][..2][..1] == "1";
    assert s[..3][..2][..1][..0] == "";
    assert Value(s[..3][..2][..1]) == 1;
    assert Value(s[..3][..2]) == 10;
    assert Value(s[..3]) == 100;
  }

  /** The names of messages 1 to k sort in the order of their numbers exactly when k is at most 9999. */
  lemma NumericExactlyToFourPlaces(k: nat)
    ensures (forall m, n | 1 <= m < n <= k :: Less(FileName(m), FileName(n))) <==> k <= 9999
  {
    if k <= 9999 {
      forall m, n | 1 <= m < n <= k ensures Less(FileName(m), FileName(n)) {
        FourPlaces(m, n);
      }
    } else {
      TenThousandth(9999);
      Trichotomy(FileName(10000), FileName(9999));
    }
  }
}
