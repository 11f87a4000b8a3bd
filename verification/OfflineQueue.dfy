/** Messages kept for users who are away: one file per message, drained in the order of the file names. */
module OfflineQueue {
  import opened FileNames
  import opened Sorting

  datatype Program = Go | C

  /** How many file names a C drain has room for. */
  const CAP := 256

  type Files = map<string, string>

  /** `listing` is what reading the directory returns: every name once, in no particular order. */
  ghost predicate Lists(listing: seq<string>, files: Files) {
    && (forall name :: name in listing <==> name in files)
    && (forall i, j | 0 <= i < j < |listing| :: listing[i] != listing[j])
  }

  function MaxSequence(listing: seq<string>): (m: nat)
    ensures forall i | 0 <= i < |listing| :: SequenceOf(listing[i]) <= m
    ensures m == 0 || exists i | 0 <= i < |listing| :: SequenceOf(listing[i]) == m
  {
    if listing == [] then 0
    else
      var n := |listing| - 1;
      var m := MaxSequence(listing[..n]);
      assert forall i | 0 <= i < n :: listing[..n][i] == listing[i];
      if SequenceOf(listing[n]) > m then SequenceOf(listing[n]) else m
  }

  predicate EndsInXml(name: string) {
    |name| >= 4 && name[|name| - 4..] == ".xml"
  }

  /** Which directory entries a drain looks at. */
  predicate Wanted(program: Program, name: string) {
    match program
    case Go => EndsInXml(name)
    case C => name != "" && name[0] != '.' && |name| >= 5 && EndsInXml(name)
  }

  /** The names a drain collects, in listing order. */
  function Taken(program: Program, listing: seq<string>): (names: seq<string>)
    ensures program.C? ==> |names| <= CAP
  {
    if listing == [] then []
    else
      var n := |listing| - 1;
      var names := Taken(program, listing[..n]);
      if Wanted(program, listing[n]) && (program.Go? || |names| < CAP) then names + [listing[n]] else names
  }

  lemma {:induction false} TakenAreListed(program: Program, listing: seq<string>)
    ensures forall i | 0 <= i < |Taken(program, listing)| ::
              Taken(program, listing)[i] in listing && Wanted(program, Taken(program, listing)[i])
  {
    hide Wanted;
    if listing != [] {
      var n := |listing| - 1;
      TakenAreListed(program, listing[..n]);
      assert listing == listing[..n] + [listing[n]];
    }
  }

  predicate Present(files: Files, names: seq<string>) {
    forall i | 0 <= i < |names| :: names[i] in files
  }

  function Contents(files: Files, names: seq<string>): seq<string>
    requires Present(files, names)
  {
    seq(|names|, i requires 0 <= i < |names| => files[names[i]])
  }

  function Deleted(files: Files, names: seq<string>): Files {
    map name | name in files && name !in names :: files[name]
  }

  lemma SortedTaken(program: Program, listing: seq<string>, files: Files)
    requires Lists(listing, files)
    ensures Present(files, Sort(Taken(program, listing)))
  {
    var taken := Taken(program, listing);
    TakenAreListed(program, listing);
    SortSorts(taken);
    forall i | 0 <= i < |Sort(taken)| ensures Sort(taken)[i] in files {
      assert Sort(taken)[i] in multiset(taken);
    }
  }

  class Spool {
    const program: Program
    var files: Files

    constructor (program: Program)
      ensures this.program == program && files == map[]
    {
      this.program, files := program, map[];
    }

    /** Store one message under the next free number. */
    method Store(listing: seq<string>, message: string)
      requires Lists(listing, files)
      modifies this
      ensures files == old(files)[FileName(MaxSequence(listing) + 1) := message]
    {
      var max := 0;
      for i := 0 to |listing|
        invariant max == MaxSequence(listing[..i])
      {
        assert listing[..i + 1][..i] == listing[..i];
        var n := SequenceOf(listing[i]);
        if n > max {
          max := n;
        }
      }
      assert listing[..|listing|] == listing;
      files := files[FileName(max + 1) := message];
    }

    /** The names to deliver; the C program stops reading the directory when its table is full. */
    method Collect(listing: seq<string>) returns (names: seq<string>)
      ensures names == Taken(program, listing)
    {
      names := [];
      var i := 0;
      while i < |listing| && (program.Go? || |names| < CAP)
        invariant 0 <= i <= |listing| && names == Taken(program, listing[..i])
      {
        if Wanted(program, listing[i]) {
          names := names + [listing[i]];
        }
        assert listing[..i + 1][..i] == listing[..i];
        i := i + 1;
      }
      assert listing[..|listing|] == listing;
      if i < |listing| {
        FullTable(listing, i);
      }
    }

    lemma FullTable(listing: seq<string>, i: nat)
      requires i <= |listing| && program.C? && |Taken(program, listing[..i])| == CAP
      ensures Taken(program, listing) == Taken(program, listing[..i])
      decreases |listing| - i
    {
      if i < |listing| {
        assert listing[..i + 1][..i] == listing[..i];
        FullTable(listing, i + 1);
      } else {
        assert listing[..i] == listing;
      }
    }

    /** Deliver in the order of the names and delete each file as it is delivered. */
    method Drain(listing: seq<string>) returns (sent: seq<string>)
      requires Lists(listing, files)
      modifies this
      ensures var names := Sort(Taken(program, listing));
              && Present(old(files), names)
              && sent == Contents(old(files), names)
              && files == Deleted(old(files), names)
    {
      hide Sort, Taken, Contents, Deleted, Present;
      var taken := Collect(listing);
      var table := new string[|taken|](i requires 0 <= i < |taken| => taken[i]);
      assert table[..] == taken;
      ExchangeSort(table);
      SortedTaken(program, listing, files);
      TakenDistinct(program, listing);
      SortDistinct(taken);
      sent := Deliver(table);
    }

    method Deliver(table: array<string>) returns (sent: seq<string>)
      requires Present(files, table[..]) && Distinct(table[..])
      modifies this
      ensures Present(old(files), table[..])
      ensures sent == Contents(old(files), table[..]) && files == Deleted(old(files), table[..])
    {
      ghost var names := table[..];
      sent := [];
      for i := 0 to table.Length
        invariant forall k | i <= k < |names| :: names[k] in files && files[names[k]] == old(files)[names[k]]
        invariant sent == Contents(old(files), names[..i]) && files == Deleted(old(files), names[..i])
      {
        var name := table[i];
        assert names[..i + 1] == names[..i] + [name];
        sent := sent + [files[name]];
        files := files - {name};
      }
      assert names[..|names|] == names;
    }
  }

  ghost predicate Distinct(names: seq<string>) {
    forall i, j | 0 <= i < j < |names| :: names[i] != names[j]
  }

  lemma {:induction false} TakenDistinct(program: Program, listing: seq<string>)
    requires Distinct(listing)
    ensures Distinct(Taken(program, listing))
  {
    if listing != [] {
      var n := |listing| - 1;
      TakenDistinct(program, listing[..n]);
      TakenAreListed(program, listing[..n]);
      forall x | x in listing[..n] ensures x != listing[n] {
        var i :| 0 <= i < n && listing[..n][i] == x;
        assert listing[i] == x;
      }
    }
  }

  lemma DistinctInit(init: seq<string>, last: string)
    ensures Distinct(init + [last]) <==> Distinct(init) && last !in init
  {
    var names := init + [last];
    if Distinct(names) {
      forall i, j | 0 <= i < j < |init| ensures init[i] != init[j] {
        assert names[i] == init[i] && names[j] == init[j];
      }
      forall i | 0 <= i < |init| ensures init[i] != last {
        assert names[i] == init[i] && names[|init|] == last;
      }
    }
  }

  lemma {:induction false} DistinctIsMultiplicityOne(names: seq<string>)
    ensures Distinct(names) <==> forall x | x in multiset(names) :: multiset(names)[x] == 1
  {
    hide Distinct;
    if names == [] {
      NothingRepeats();
    } else {
      var n := |names| - 1;
      var init, last := names[..n], names[n];
      assert names == init + [last];
      DistinctIsMultiplicityOne(init);
      DistinctInit(init, last);
      MultiplicityInit(init, last);
    }
  }

  lemma NothingRepeats()
    ensures Distinct([])
  {
  }

  lemma MultiplicityInit(init: seq<string>, last: string)
    ensures (forall x | x in multiset(init + [last]) :: multiset(init + [last])[x] == 1) <==>
            (forall x | x in multiset(init) :: multiset(init)[x] == 1) && last !in init
  {
    var a, b := multiset(init), multiset(init + [last]);
    assert b == a + multiset{last};
    assert last in init <==> last in a;
    if last in a {
      assert b[last] >= 2;
    } else {
      assert b[last] == 1;
      forall x | x in a ensures b[x] == a[x] {
      }
    }
  }

  lemma SortDistinct(names: seq<string>)
    requires Distinct(names)
    ensures Distinct(Sort(names))
  {
    SortSorts(names);
    DistinctIsMultiplicityOne(names);
    DistinctIsMultiplicityOne(Sort(names));
  }

  // ---- Other files ----

  /** What a drain delivers and deletes are files named "*.xml", in C no hidden ones; and it is all of them, unless more
      than the table holds are there. */
  lemma TakesExactly(program: Program, files: Files, listing: seq<string>, name: string)
    requires Lists(listing, files)
    ensures var wanted := |name| >= 4 && name[|name| - 4..] == ".xml" && (program.C? ==> |name| >= 5 && name[0] != '.');
            && (name in Taken(program, listing) ==> name in files && wanted)
            && (name in files && wanted && (program.Go? || |files| <= CAP) ==> name in Taken(program, listing))
            && (name in files && !wanted ==> name in Deleted(files, Sort(Taken(program, listing))))
  {
    hide Sort, Taken;
    var taken := Taken(program, listing);
    TakenAreListed(program, listing);
    SortSorts(taken);
    assert name in Sort(taken) <==> name in multiset(taken);
    AllFit(listing, files);
    if program.Go? || |files| <= CAP {
      WantedAreTaken(program, listing, name);
    }
  }

  lemma {:induction false} WantedAreTaken(program: Program, listing: seq<string>, name: string)
    requires program.Go? || |listing| <= CAP
    ensures |Taken(program, listing)| <= |listing|
    ensures name in listing && Wanted(program, name) ==> name in Taken(program, listing)
  {
    hide Wanted;
    if listing != [] {
      var n := |listing| - 1;
      WantedAreTaken(program, listing[..n], name);
      assert listing == listing[..n] + [listing[n]];
    }
  }

  lemma AllFit(listing: seq<string>, files: Files)
    requires Lists(listing, files)
    ensures |listing| == |files|
  {
    SetSize(listing);
    assert (set name | name in listing) == files.Keys;
  }

  lemma {:induction false} SetSize(names: seq<string>)
    requires Distinct(names)
    ensures |set name | name in names| == |names|
  {
    if names != [] {
      var n := |names| - 1;
      var init, last := names[..n], names[n];
      assert names == init + [last];
      DistinctInit(init, last);
      SetSize(init);
      assert (set name | name in names) == (set name | name in init) + {last};
    }
  }

  // ---- Queues ----

  /** The name of the message at position `i` of a queue: numbers start at 1. */
  function Nth(i: nat): string {
    FileName(i + 1)
  }

  /** The files hold exactly the messages of `pending`, numbered from 1. */
  ghost predicate Holds(files: Files, pending: seq<string>) {
    && (forall name <- files :: exists i | 0 <= i < |pending| :: name == Nth(i))
    && (forall i | 0 <= i < |pending| :: Nth(i) in files && files[Nth(i)] == pending[i])
  }

  function Names(k: nat): (names: seq<string>)
    ensures |names| == k && forall i | 0 <= i < k :: names[i] == Nth(i)
  {
    seq(k, i requires 0 <= i < k => Nth(i))
  }

  lemma NthDiffer(i: nat, j: nat)
    ensures SequenceOf(Nth(i)) == i + 1
    ensures Nth(i) == Nth(j) <==> i == j
  {
    SequenceOfName(i + 1);
    NamesDiffer(i + 1, j + 1);
  }

  /** The next number is free, so nothing is overwritten, and the new message is the last one. */
  lemma StoreAppends(files: Files, pending: seq<string>, listing: seq<string>, message: string)
    requires Holds(files, pending) && Lists(listing, files)
    ensures MaxSequence(listing) == |pending| && Nth(|pending|) !in files
    ensures Holds(files[Nth(|pending|) := message], pending + [message])
  {
    hide FileName, SequenceOf, Nth;
    var n := |pending|;
    MaxIs(files, pending, listing);
    forall i | 0 <= i < n ensures Nth(i) != Nth(n) {
      NthDiffer(i, n);
    }
    var now, after := files[Nth(n) := message], pending + [message];
    forall name <- now ensures exists i | 0 <= i < |after| :: name == Nth(i) {
      if name != Nth(n) {
        var i :| 0 <= i < n && name == Nth(i);
        assert 0 <= i < |after|;
      }
    }
  }

  lemma MaxIs(files: Files, pending: seq<string>, listing: seq<string>)
    requires Holds(files, pending) && Lists(listing, files)
    ensures MaxSequence(listing) == |pending|
  {
    hide FileName, SequenceOf, Nth;
    var n, m := |pending|, MaxSequence(listing);
    forall i | 0 <= i < |listing| ensures SequenceOf(listing[i]) <= n {
      assert listing[i] in files;
      var k :| 0 <= k < n && listing[i] == Nth(k);
      NthDiffer(k, k);
    }
    if n > 0 {
      assert Nth(n - 1) in files;
      var i :| 0 <= i < |listing| && listing[i] == Nth(n - 1);
      NthDiffer(n - 1, n - 1);
      assert SequenceOf(listing[i]) <= m;
    }
  }

  lemma NamesWanted(program: Program, k: nat)
    ensures Wanted(program, FileName(k))
  {
    var d := Padded(Digits(k));
    assert FileName(k)[|d|..] == ".xml" && FileName(k)[0] == d[0];
  }

  /** Everything is collected while it fits. */
  lemma {:induction false} TakesAll(program: Program, listing: seq<string>)
    requires forall i | 0 <= i < |listing| :: Wanted(program, listing[i])
    requires program.Go? || |listing| <= CAP
    ensures Taken(program, listing) == listing
  {
    hide Wanted;
    if listing != [] {
      TakesAll(program, listing[..|listing| - 1]);
    }
  }

  /** A listing names each file of the queue once, so it is a rearrangement of the names 1 to k. */
  lemma ListingOfQueue(files: Files, pending: seq<string>, listing: seq<string>)
    requires Holds(files, pending) && Lists(listing, files)
    ensures multiset(listing) == multiset(Names(|pending|)) && |listing| == |pending|
  {
    hide FileName, Nth;
    var names := Names(|pending|);
    forall i, j | 0 <= i < j < |names| ensures names[i] != names[j] {
      NthDiffer(i, j);
    }
    SameElements(files, pending, listing);
    DistinctSame(listing, names);
  }

  lemma DistinctSame(a: seq<string>, b: seq<string>)
    requires Distinct(a) && Distinct(b) && forall x :: x in a <==> x in b
    ensures multiset(a) == multiset(b) && |a| == |b|
  {
    DistinctIsMultiplicityOne(a);
    DistinctIsMultiplicityOne(b);
    forall x: string ensures multiset(a)[x] == multiset(b)[x] {
      assert x in a <==> x in b;
    }
    assert multiset(a) == multiset(b);
    assert |a| == |multiset(a)| && |b| == |multiset(b)|;
  }

  lemma SameElements(files: Files, pending: seq<string>, listing: seq<string>)
    requires Holds(files, pending) && Lists(listing, files)
    ensures forall x :: x in listing <==> x in Names(|pending|)
  {
    hide FileName, Nth;
    forall x ensures x in listing <==> x in Names(|pending|) {
      if x in Names(|pending|) {
        var i :| 0 <= i < |pending| && Names(|pending|)[i] == x;
        assert x in files;
      }
      if x in listing {
        assert x in files;
        var i :| 0 <= i < |pending| && x == Nth(i);
        assert Names(|pending|)[i] == x;
      }
    }
  }

  /** How many pending messages a drain can take in order. */
  function Limit(program: Program): nat {
    match program
    case Go => 9999
    case C => CAP
  }

  lemma NamesSorted(k: nat)
    ensures Sorted(Names(k)) <==> k <= 9999
  {
    hide FileName, Less;
    if k <= 9999 {
      forall i, j | 0 <= i < j < k ensures Leq(Names(k)[i], Names(k)[j]) {
        FourPlaces(j + 1, i + 1);
      }
    } else {
      TenThousandth(9999);
      assert Names(k)[9998] == FileName(9999) && Names(k)[9999] == FileName(10000);
    }
  }

  /** The files a drain of a queue visits, in order. */
  lemma DrainVisits(program: Program, files: Files, pending: seq<string>, listing: seq<string>)
    requires Holds(files, pending) && Lists(listing, files) && |pending| <= Limit(program)
    ensures Sort(Taken(program, listing)) == Names(|pending|)
  {
    hide Wanted;
    WantedAll(program, files, pending, listing);
    ListingOfQueue(files, pending, listing);
    TakesAll(program, listing);
    SortSorts(listing);
    NamesSorted(|pending|);
    SortedUnique(Sort(listing), Names(|pending|));
  }

  lemma WantedAll(program: Program, files: Files, pending: seq<string>, listing: seq<string>)
    requires Holds(files, pending) && Lists(listing, files)
    ensures forall i | 0 <= i < |listing| :: Wanted(program, listing[i])
  {
    hide Wanted, FileName;
    forall i | 0 <= i < |listing| ensures Wanted(program, listing[i]) {
      assert listing[i] in files;
      var k :| 0 <= k < |pending| && listing[i] == Nth(k);
      NamesWanted(program, k + 1);
    }
  }

  // ---- Whole drains ----

  /** Within the limit a drain delivers the whole queue in the order it was stored, and leaves nothing. */
  lemma DrainIsFifo(program: Program, files: Files, pending: seq<string>, listing: seq<string>)
    requires Holds(files, pending) && Lists(listing, files) && |pending| <= Limit(program)
    ensures var names := Sort(Taken(program, listing));
            Present(files, names)
            && Contents(files, names) == pending && Holds(Deleted(files, names), [])
  {
    DrainVisits(program, files, pending, listing);
    forall name | name in files ensures name in Names(|pending|) {
      var i :| 0 <= i < |pending| && name == Nth(i);
      assert Names(|pending|)[i] == name;
    }
  }

  lemma InOrderMeansAllNames(files: Files, pending: seq<string>, names: seq<string>)
    requires Holds(files, pending) && Distinct(pending)
    requires Present(files, names) && Contents(files, names) == pending
    ensures names == Names(|pending|)
  {
    hide FileName, Nth;
    assert |names| == |Contents(files, names)|;
    forall i | 0 <= i < |names| ensures names[i] == Names(|pending|)[i] {
      assert names[i] in files;
      var k :| 0 <= k < |pending| && names[i] == Nth(k);
      assert Contents(files, names)[i] == pending[k];
    }
  }

  /** The limits are exact: when the messages differ from one another, a drain is in order exactly up to the limit. */
  lemma FifoExactlyToTheLimit(program: Program, files: Files, pending: seq<string>, listing: seq<string>)
    requires Holds(files, pending) && Lists(listing, files) && Distinct(pending)
    ensures var names := Sort(Taken(program, listing));
            Present(files, names)
            && (Contents(files, names) == pending <==> |pending| <= Limit(program))
  {
    hide Wanted, FileName, Nth, Taken, Sort, Sorted, Holds, Distinct, Names, Lists;
    var names := Sort(Taken(program, listing));
    SortedTaken(program, listing, files);
    SortSorts(Taken(program, listing));
    assert |names| == |multiset(names)| == |multiset(Taken(program, listing))| == |Taken(program, listing)|;
    if |pending| <= Limit(program) {
      DrainIsFifo(program, files, pending, listing);
    } else if Contents(files, names) == pending {
      InOrderMeansAllNames(files, pending, names);
      NamesSorted(|pending|);
    }
  }

  /** A directory may well name its oldest file last. */
  function OldestLast(k: nat): seq<string>
    requires k > 0
  {
    Names(k)[1..] + [Nth(0)]
  }

  lemma OldestLastAt(k: nat)
    requires k > 0
    ensures |OldestLast(k)| == k
    ensures forall i | 0 <= i < k :: OldestLast(k)[i] == Nth(if i < k - 1 then i + 1 else 0)
  {
    hide Nth;
  }

  lemma OldestLastDistinct(k: nat)
    requires k > 0
    ensures Distinct(OldestLast(k)) && Nth(0) !in OldestLast(k)[..|OldestLast(k)| - 1]
  {
    hide Nth, OldestLast, Names;
    OldestLastAt(k);
    forall i, j | 0 <= i < j < k ensures OldestLast(k)[i] != OldestLast(k)[j] {
      NthDiffer(i + 1, if j < k - 1 then j + 1 else 0);
    }
    assert OldestLast(k)[k - 1] == Nth(0);
    assert forall i | 0 <= i < k - 1 :: OldestLast(k)[..k - 1][i] == OldestLast(k)[i];
  }

  lemma OldestLastLists(files: Files, pending: seq<string>)
    requires Holds(files, pending) && pending != []
    ensures Lists(OldestLast(|pending|), files)
  {
    hide Nth, OldestLast, Names;
    var k, listing := |pending|, OldestLast(|pending|);
    OldestLastAt(k);
    OldestLastDistinct(k);
    forall name ensures name in listing <==> name in files {
      if name in files {
        var i :| 0 <= i < k && name == Nth(i);
        assert listing[if i == 0 then k - 1 else i - 1] == name;
      }
    }
  }

  /** Past the limit a C drain may leave the oldest message behind: it depends on the order of the directory. */
  lemma FullTableSkipsTheOldest(files: Files, pending: seq<string>)
    requires Holds(files, pending) && |pending| > CAP
    ensures Lists(OldestLast(|pending|), files)
    ensures Nth(0) in files && Nth(0) !in Sort(Taken(C, OldestLast(|pending|)))
  {
    hide FileName, Nth, Wanted, Lists, Sort;
    var listing := OldestLast(|pending|);
    var n := |listing| - 1;
    OldestLastLists(files, pending);
    OldestLastDistinct(|pending|);
    WantedAll(C, files, pending, listing);
    FillsUp(listing[..n]);
    TakenAreListed(C, listing[..n]);
    SortSorts(Taken(C, listing));
    assert Nth(0) !in multiset(Taken(C, listing));
  }

  lemma {:induction false} FillsUp(listing: seq<string>)
    requires forall i | 0 <= i < |listing| :: Wanted(C, listing[i])
    ensures |Taken(C, listing)| == if |listing| < CAP then |listing| else CAP
  {
    hide Wanted;
    if listing != [] {
      FillsUp(listing[..|listing| - 1]);
    }
  }

  // ---- Whole runs ----

  datatype Op =
    | Put(listing: seq<string>, message: string)
    | Flush(listing: seq<string>)

  datatype State = State(files: Files, sent: seq<string>)

  ghost function Next(program: Program, st: State, op: Op): State {
    if !Lists(op.listing, st.files) then st
    else
      match op
      case Put(listing, message) => st.(files := st.files[FileName(MaxSequence(listing) + 1) := message])
      case Flush(listing) =>
        SortedTaken(program, listing, st.files);
        var names := Sort(Taken(program, listing));
        State(Deleted(st.files, names), st.sent + Contents(st.files, names))
  }

  ghost function Run(program: Program, ops: seq<Op>): State {
    if ops == [] then State(map[], []) else Next(program, Run(program, ops[..|ops| - 1]), ops[|ops| - 1])
  }

  /** Every directory reading returned what was in the directory. */
  ghost predicate Possible(program: Program, ops: seq<Op>) {
    forall k | 0 <= k < |ops| :: Lists(ops[k].listing, Run(program, ops[..k]).files)
  }

  function Puts(ops: seq<Op>): seq<string> {
    if ops == [] then []
    else
      var before, op := Puts(ops[..|ops| - 1]), ops[|ops| - 1];
      if op.Put? then before + [op.message] else before
  }

  /** What was stored since the last drain. */
  function Backlog(ops: seq<Op>): seq<string> {
    if ops == [] then []
    else
      var before, op := Backlog(ops[..|ops| - 1]), ops[|ops| - 1];
      if op.Put? then before + [op.message] else []
  }

  predicate Bounded(program: Program, ops: seq<Op>) {
    forall k | 0 <= k < |ops| && ops[k].Flush? :: |Backlog(ops[..k])| <= Limit(program)
  }

  lemma PutStep(program: Program, st: State, op: Op, pending: seq<string>)
    requires op.Put? && Holds(st.files, pending) && Lists(op.listing, st.files)
    ensures Holds(Next(program, st, op).files, pending + [op.message]) && Next(program, st, op).sent == st.sent
  {
    hide Holds, Lists, MaxSequence, FileName;
    StoreAppends(st.files, pending, op.listing, op.message);
  }

  lemma FlushStep(program: Program, st: State, op: Op, pending: seq<string>)
    requires op.Flush? && Holds(st.files, pending) && Lists(op.listing, st.files) && |pending| <= Limit(program)
    ensures Holds(Next(program, st, op).files, []) && Next(program, st, op).sent == st.sent + pending
  {
    hide Holds, Lists, Taken, Sort, Deleted, Contents;
    DrainIsFifo(program, st.files, pending, op.listing);
  }

  /** Over any run whose backlogs stay within the limit, every message is delivered exactly once and in the order it was
      stored, and the directory holds exactly the rest. */
  lemma {:induction false} ExactlyOnceInOrder(program: Program, ops: seq<Op>)
    requires Possible(program, ops) && Bounded(program, ops)
    ensures Holds(Run(program, ops).files, Backlog(ops))
    ensures Run(program, ops).sent + Backlog(ops) == Puts(ops)
  {
    hide Holds, Lists, Next, Limit, Possible, Bounded;
    if ops == [] {
      NothingHeld();
    } else {
      var n := |ops| - 1;
      var init, op := ops[..n], ops[n];
      BeforeLast(program, ops);
      ExactlyOnceInOrder(program, init);
      var st, pending := Run(program, init), Backlog(init);
      if op.Put? {
        PutStep(program, st, op, pending);
      } else {
        FlushStep(program, st, op, pending);
      }
    }
  }

  lemma BeforeLast(program: Program, ops: seq<Op>)
    requires ops != [] && Possible(program, ops) && Bounded(program, ops)
    ensures var init, op := ops[..|ops| - 1], ops[|ops| - 1];
            && Possible(program, init) && Bounded(program, init) && Lists(op.listing, Run(program, init).files)
            && (op.Flush? ==> |Backlog(init)| <= Limit(program))
  {
    hide Lists, Run, Backlog, Limit;
    assert forall k | 0 <= k < |ops| - 1 :: ops[..|ops| - 1][..k] == ops[..k];
  }

  lemma NothingHeld()
    ensures Holds(map[], [])
  {
  }

  // ---- Nothing is ever lost ----

  ghost function Pick(files: Files): (name: string)
    requires files != map[]
    ensures name in files
  {
    var name :| name in files;
    name
  }

  /** The messages in the directory, as a multiset. */
  ghost function Bag(files: Files): multiset<string>
    decreases |files|
  {
    if files == map[] then multiset{}
    else
      var name := Pick(files);
      Smaller(files, name);
      multiset{files[name]} + Bag(files - {name})
  }

  lemma Smaller(files: Files, name: string)
    requires name in files
    ensures |files - {name}| == |files| - 1
  {
    assert (files - {name})[name := files[name]] == files;
  }

  /** It does not matter which message is counted first. */
  lemma {:induction false} BagWithout(files: Files, name: string)
    requires name in files
    ensures Bag(files) == multiset{files[name]} + Bag(files - {name})
    decreases |files|
  {
    hide Bag;
    var first := Pick(files);
    BagIs(files);
    if first != name {
      var a, b := files - {first}, files - {name};
      Smaller(files, first);
      Smaller(files, name);
      BagWithout(a, name);
      BagWithout(b, first);
      assert a - {name} == b - {first};
    }
  }

  lemma BagIs(files: Files)
    requires files != map[]
    ensures Bag(files) == multiset{files[Pick(files)]} + Bag(files - {Pick(files)})
  {
  }

  lemma BagWith(files: Files, name: string, message: string)
    requires name !in files
    ensures Bag(files[name := message]) == Bag(files) + multiset{message}
  {
    BagWithout(files[name := message], name);
    assert files[name := message] - {name} == files;
  }

  /** The next number is free in any directory. */
  lemma NextIsFree(files: Files, listing: seq<string>)
    requires Lists(listing, files)
    ensures FileName(MaxSequence(listing) + 1) !in files
  {
    hide FileName, SequenceOf;
    var next := FileName(MaxSequence(listing) + 1);
    SequenceOfName(MaxSequence(listing) + 1);
    forall i | 0 <= i < |listing| ensures listing[i] != next {
      assert SequenceOf(listing[i]) <= MaxSequence(listing) < SequenceOf(next);
    }
    assert next !in listing;
  }

  /** What a drain sends is what it deletes. */
  lemma {:induction false} BagDrained(files: Files, names: seq<string>)
    requires Present(files, names) && Distinct(names)
    ensures Bag(files) == multiset(Contents(files, names)) + Bag(Deleted(files, names))
  {
    if names == [] {
      assert Deleted(files, names) == files;
    } else {
      hide Bag, Deleted, Contents;
      var n := |names| - 1;
      BagDrained(files, names[..n]);
      LastDeleted(files, names);
      BagWithout(Deleted(files, names[..n]), names[n]);
    }
  }

  lemma LastDeleted(files: Files, names: seq<string>)
    requires Present(files, names) && Distinct(names) && names != []
    ensures var init, last := names[..|names| - 1], names[|names| - 1];
            && Present(files, init) && last in Deleted(files, init) && Deleted(files, init)[last] == files[last]
            && Deleted(files, names) == Deleted(files, init) - {last}
            && Contents(files, names) == Contents(files, init) + [files[last]]
  {
    var init, last := names[..|names| - 1], names[|names| - 1];
    assert names == init + [last];
    forall i | 0 <= i < |init| ensures init[i] != last {
      assert names[i] != names[|names| - 1];
    }
    assert Contents(files, names) == Contents(files, init) + [files[last]];
  }

  lemma TakenOnce(program: Program, listing: seq<string>, files: Files)
    requires Lists(listing, files)
    ensures Distinct(Sort(Taken(program, listing))) && Present(files, Sort(Taken(program, listing)))
  {
    TakenDistinct(program, listing);
    SortDistinct(Taken(program, listing));
    SortedTaken(program, listing, files);
  }

  lemma StepKeepsAll(program: Program, st: State, op: Op)
    requires Lists(op.listing, st.files)
    ensures var t := Next(program, st, op);
            multiset(t.sent) + Bag(t.files) ==
            multiset(st.sent) + Bag(st.files) + (if op.Put? then multiset{op.message} else multiset{})
  {
    hide Lists, Taken, Sort, Deleted, Contents, MaxSequence, FileName, Bag;
    match op
    case Put(listing, message) =>
      NextIsFree(st.files, listing);
      BagWith(st.files, FileName(MaxSequence(listing) + 1), message);
    case Flush(listing) =>
      TakenOnce(program, listing, st.files);
      BagDrained(st.files, Sort(Taken(program, listing)));
  }

  /** Over every run, however long the backlogs grow: what was delivered and what still lies in the directory is exactly
      what was stored, each message once. Past the limits only the order is lost. */
  lemma {:induction false} NothingLost(program: Program, ops: seq<Op>)
    requires Possible(program, ops)
    ensures multiset(Run(program, ops).sent) + Bag(Run(program, ops).files) == multiset(Puts(ops))
  {
    hide Lists, Next, Bag;
    if ops == [] {
      EmptyBag();
    } else {
      var n := |ops| - 1;
      assert forall k | 0 <= k < n :: ops[..n][..k] == ops[..k];
      NothingLost(program, ops[..n]);
      assert Lists(ops[n].listing, Run(program, ops[..n]).files);
      StepKeepsAll(program, Run(program, ops[..n]), ops[n]);
    }
  }

  lemma EmptyBag()
    ensures Bag(map[]) == multiset{}
  {
  }
}
