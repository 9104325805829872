// The registry file, to which every server appends a line with its rank and address, and the clients' lookup of
// an address in it, with a cache in front.
module AddressBook {
  import opened Wrappers
  import opened Numerals

  datatype Entry = Entry(rank: int, address: string)

  // isspace in the C locale.
  predicate IsSpace(c: char)
    ensures IsSpace(c) <==> c in {' ', '\t', '\n', '\U{000B}', '\U{000C}', '\r'}
  {
    c == ' ' || '\t' <= c <= '\r'
  }

  // ---------------------------------------------------------------- the line a server writes: "%d %s\n"

  function PrintInt(n: int): string {
    if n < 0 then "-" + Decimal(-n) else Decimal(n)
  }

  function PrintLine(e: Entry): string {
    PrintInt(e.rank) + " " + e.address + "\n"
  }

  function PrintAll(entries: seq<Entry>): string {
    if entries == [] then "" else PrintLine(entries[0]) + PrintAll(entries[1..])
  }

  // ---------------------------------------------------------------- what fscanf with "%d %s" does

  function SkipSpace(s: string): (rest: string)
    ensures |rest| <= |s|
    ensures rest != "" ==> !IsSpace(rest[0])
  {
    if s != "" && IsSpace(s[0]) then SkipSpace(s[1..]) else s
  }

  // The length of the longest prefix of digits.
  function DigitSpan(s: string): (n: nat)
    ensures n <= |s| && (forall c :: c in s[..n] ==> IsDigit(c))
  {
    if s != "" && IsDigit(s[0]) then
      var n := DigitSpan(s[1..]);
      assert s[..1 + n] == [s[0]] + s[1..][..n];
      1 + n
    else 0
  }

  // The length of the longest prefix without white space.
  function WordSpan(s: string): (n: nat)
    ensures n <= |s| && (forall i :: 0 <= i < n ==> !IsSpace(s[i]))
    ensures n < |s| ==> IsSpace(s[n])
  {
    if s != "" && !IsSpace(s[0]) then
      var n := WordSpan(s[1..]);
      assert s[..1 + n] == [s[0]] + s[1..][..n];
      1 + n
    else 0
  }

  function ScanNat(s: string): (r: Option<(nat, string)>)
    ensures r.Some? ==> |r.value.1| < |s|
  {
    var n := DigitSpan(s);
    if n == 0 then None else Some((Number(s[..n]), s[n..]))
  }

  predicate Signed(s: string) {
    s != "" && (s[0] == '-' || s[0] == '+')
  }

  function ScanInt(s: string): (r: Option<(int, string)>)
    ensures r.Some? ==> |r.value.1| < |s|
  {
    var u := SkipSpace(s);
    var n := ScanNat(if Signed(u) then u[1..] else u);
    if n.None? then None
    else if Signed(u) && u[0] == '-' then Some((0 - n.value.0, n.value.1))
    else Some((n.value.0, n.value.1))
  }

  function FirstWord(s: string): (r: Option<(string, string)>)
    ensures r.Some? ==> |r.value.1| < |s| && Clean(r.value.0)
  {
    var n := WordSpan(s);
    if n == 0 then None else Some((s[..n], s[n..]))
  }

  function ScanWord(s: string): (r: Option<(string, string)>)
    ensures r.Some? ==> |r.value.1| < |s| && Clean(r.value.0)
  {
    FirstWord(SkipSpace(s))
  }

  function ScanEntry(s: string): (r: Option<(Entry, string)>)
    ensures r.Some? ==> |r.value.1| < |s|
  {
    var number := ScanInt(s);
    if number.None? then None
    else
      var word := ScanWord(number.value.1);
      if word.None? then None else Some((Entry(number.value.0, word.value.0), word.value.1))
  }

  // All entries up to the first that does not scan.
  function Scan(s: string): seq<Entry>
    decreases |s|
  {
    var e := ScanEntry(s);
    if e.None? then [] else [e.value.0] + Scan(e.value.1)
  }

  function FirstMatch(entries: seq<Entry>, rank: int): Option<string> {
    if entries == [] then None
    else if entries[0].rank == rank then Some(entries[0].address)
    else FirstMatch(entries[1..], rank)
  }

  // x is the address of the first entry with the rank.
  ghost predicate IsFirst(entries: seq<Entry>, rank: int, x: string) {
    exists i :: 0 <= i < |entries| && entries[i].rank == rank && entries[i].address == x
                && forall j :: 0 <= j < i ==> entries[j].rank != rank
  }

  lemma {:induction false} FirstMatchMeans(entries: seq<Entry>, rank: int)
    ensures forall x :: FirstMatch(entries, rank) == Some(x) <==> IsFirst(entries, rank, x)
    ensures FirstMatch(entries, rank) == None <==> forall i :: 0 <= i < |entries| ==> entries[i].rank != rank
  {
    if entries != [] {
      var first, rest := entries[0], entries[1..];
      FirstMatchMeans(rest, rank);
      forall x
        ensures IsFirst(entries, rank, x) <==> if first.rank == rank then first.address == x else IsFirst(rest, rank, x)
      {
        FirstOfCons(entries, rank, x);
      }
      assert forall x :: FirstMatch(entries, rank) == Some(x) <==> IsFirst(entries, rank, x);
      assert forall i :: 0 < i < |entries| ==> entries[i] == rest[i - 1];
      assert forall i :: 0 <= i < |rest| ==> rest[i] == entries[i + 1];
    }
  }

  lemma FirstOfCons(entries: seq<Entry>, rank: int, x: string)
    requires entries != []
    ensures IsFirst(entries, rank, x) <==>
              if entries[0].rank == rank then entries[0].address == x else IsFirst(entries[1..], rank, x)
  {
    var first, rest := entries[0], entries[1..];
    if first.rank == rank {
      if first.address == x {
        assert entries[0] == Entry(rank, x);
      }
    } else {
      if IsFirst(rest, rank, x) {
        var i :| 0 <= i < |rest| && rest[i] == Entry(rank, x) && forall j :: 0 <= j < i ==> rest[j].rank != rank;
        assert entries[i + 1] == Entry(rank, x);
        assert forall j :: 0 < j < i + 1 ==> entries[j] == rest[j - 1];
      }
      if IsFirst(entries, rank, x) {
        var i :| 0 <= i < |entries| && entries[i] == Entry(rank, x) && forall j :: 0 <= j < i ==> entries[j].rank != rank;
        assert rest[i - 1] == Entry(rank, x);
        assert forall j :: 0 <= j < i - 1 ==> rest[j] == entries[j + 1];
      }
    }
  }

  // An address that survives the trip through the file: not empty and without white space.
  predicate Clean(address: string) {
    address != "" && forall c :: c in address ==> !IsSpace(c)
  }

  // ---------------------------------------------------------------- printing and scanning

  lemma {:induction false} DigitSpanOf(digits: string, rest: string)
    requires forall c :: c in digits ==> IsDigit(c)
    requires rest != "" ==> !IsDigit(rest[0])
    ensures DigitSpan(digits + rest) == |digits|
  {
    if digits == "" {
      assert digits + rest == rest;
    } else {
      assert (digits + rest)[1..] == digits[1..] + rest;
      DigitSpanOf(digits[1..], rest);
    }
  }

  lemma {:induction false} WordSpanOf(word: string, rest: string)
    requires forall c :: c in word ==> !IsSpace(c)
    requires rest != "" ==> IsSpace(rest[0])
    ensures WordSpan(word + rest) == |word|
  {
    if word == "" {
      assert word + rest == rest;
    } else {
      assert (word + rest)[1..] == word[1..] + rest;
      WordSpanOf(word[1..], rest);
    }
  }

  lemma {:induction false} SkipSpaceOf(blanks: string, rest: string)
    requires forall c :: c in blanks ==> IsSpace(c)
    requires rest != "" ==> !IsSpace(rest[0])
    ensures SkipSpace(blanks + rest) == rest
  {
    if blanks == "" {
      assert blanks + rest == rest;
    } else {
      assert (blanks + rest)[1..] == blanks[1..] + rest;
      SkipSpaceOf(blanks[1..], rest);
    }
  }

  // The text splits into white space and the rest.
  lemma {:induction false} SkipSpaceSplits(s: string) returns (blanks: string)
    ensures s == blanks + SkipSpace(s) && forall c :: c in blanks ==> IsSpace(c)
  {
    if s != "" && IsSpace(s[0]) {
      blanks := SkipSpaceSplits(s[1..]);
      blanks := [s[0]] + blanks;
    } else {
      blanks := "";
    }
  }

  lemma {:induction false} DigitSpanEnds(s: string)
    ensures DigitSpan(s) < |s| ==> !IsDigit(s[DigitSpan(s)])
  {
    if s != "" && IsDigit(s[0]) {
      DigitSpanEnds(s[1..]);
    }
  }

  // What "%d" matches: white space, a sign or none, and all digits there are.
  predicate NumberIn(s: string, blanks: string, sign: string, digits: string, rest: string) {
    && s == blanks + (sign + (digits + rest))
    && (forall c :: c in blanks ==> IsSpace(c))
    && (sign == "" || sign == "-" || sign == "+")
    && digits != "" && (forall c :: c in digits ==> IsDigit(c))
    && (rest != "" ==> !IsDigit(rest[0]))
  }

  // What "%s" matches: white space, and all up to the next white space.
  predicate WordIn(s: string, blanks: string, word: string, rest: string) {
    && s == blanks + (word + rest)
    && (forall c :: c in blanks ==> IsSpace(c))
    && Clean(word)
    && (rest != "" ==> IsSpace(rest[0]))
  }

  function Value(sign: string, digits: string): int
    requires forall c :: c in digits ==> IsDigit(c)
  {
    if sign == "-" then 0 - Number(digits) else Number(digits)
  }

  lemma ScanIntOf(s: string, blanks: string, sign: string, digits: string, rest: string)
    requires NumberIn(s, blanks, sign, digits, rest)
    ensures ScanInt(s) == Some((Value(sign, digits), rest))
  {
    var v := digits + rest;
    assert v[0] == digits[0] && digits[0] in digits;
    SkipSpaceOf(blanks, sign + v);
    if sign == "" {
      assert sign + v == v;
    } else {
      assert (sign + v)[1..] == v;
    }
    ScanNatOf(digits, rest);
  }

  lemma ScanNatOf(digits: string, rest: string)
    requires digits != "" && forall c :: c in digits ==> IsDigit(c)
    requires rest != "" ==> !IsDigit(rest[0])
    ensures ScanNat(digits + rest) == Some((Number(digits), rest))
  {
    DigitSpanOf(digits, rest);
    assert (digits + rest)[..|digits|] == digits && (digits + rest)[|digits|..] == rest;
  }

  lemma DigitsOfScan(v: string) returns (digits: string)
    requires ScanNat(v).Some?
    ensures v == digits + ScanNat(v).value.1 && digits != "" && forall c :: c in digits ==> IsDigit(c)
    ensures ScanNat(v).value.1 != "" ==> !IsDigit(ScanNat(v).value.1[0])
  {
    digits := v[..DigitSpan(v)];
    DigitSpanEnds(v);
  }

  lemma NumberOfScan(s: string) returns (blanks: string, sign: string, digits: string)
    requires ScanInt(s).Some?
    ensures NumberIn(s, blanks, sign, digits, ScanInt(s).value.1)
  {
    var u := SkipSpace(s);
    blanks := SkipSpaceSplits(s);
    if Signed(u) {
      sign := u[..1];
      digits := DigitsOfScan(u[1..]);
      assert u == sign + u[1..];
    } else {
      sign := "";
      digits := DigitsOfScan(u);
      assert u == sign + u;
    }
  }

  lemma ScanWordOf(s: string, blanks: string, word: string, rest: string)
    requires WordIn(s, blanks, word, rest)
    ensures ScanWord(s) == Some((word, rest))
  {
    var x := word + rest;
    assert x[0] == word[0] && word[0] in word;
    SkipSpaceOf(blanks, x);
    WordSpanOf(word, rest);
    assert x[..|word|] == word && x[|word|..] == rest;
  }

  lemma FirstWordSplits(x: string)
    requires FirstWord(x).Some?
    ensures var (word, rest) := FirstWord(x).value; x == word + rest && (rest != "" ==> IsSpace(rest[0]))
  {
  }

  lemma WordOfScan(s: string) returns (blanks: string)
    requires ScanWord(s).Some?
    ensures WordIn(s, blanks, ScanWord(s).value.0, ScanWord(s).value.1)
  {
    blanks := SkipSpaceSplits(s);
    FirstWordSplits(SkipSpace(s));
  }

  // A line scans as the entry exactly when the format "%d %s" takes it apart so.
  ghost predicate EntryIn(s: string, e: Entry, rest: string) {
    exists blanks, sign, digits, gap, middle ::
      NumberIn(s, blanks, sign, digits, middle) && WordIn(middle, gap, e.address, rest) && e.rank == Value(sign, digits)
  }

  lemma ScanEntryIff(s: string, e: Entry, rest: string)
    ensures ScanEntry(s) == Some((e, rest)) <==> EntryIn(s, e, rest)
  {
    if EntryIn(s, e, rest) {
      var blanks, sign, digits, gap, middle :|
        NumberIn(s, blanks, sign, digits, middle) && WordIn(middle, gap, e.address, rest) && e.rank == Value(sign, digits);
      ScanIntOf(s, blanks, sign, digits, middle);
      ScanWordOf(middle, gap, e.address, rest);
    }
    if ScanEntry(s) == Some((e, rest)) {
      var middle := ScanInt(s).value.1;
      var blanks, sign, digits := NumberOfScan(s);
      var gap := WordOfScan(middle);
      ScanIntOf(s, blanks, sign, digits, middle);
    }
  }

  lemma ScanIntOfPrint(n: int, rest: string)
    requires rest != "" && IsSpace(rest[0])
    ensures ScanInt(PrintInt(n) + rest) == Some((n, rest))
  {
    var sign, size: nat := if n < 0 then "-" else "", if n < 0 then -n else n;
    NumberOfDecimal(size);
    assert PrintInt(n) + rest == "" + (sign + (Decimal(size) + rest));
    ScanIntOf(PrintInt(n) + rest, "", sign, Decimal(size), rest);
  }

  lemma ScanEntryOfPrint(e: Entry, more: string)
    requires Clean(e.address)
    ensures ScanEntry(PrintLine(e) + more) == Some((e, "\n" + more))
  {
    var middle := " " + (e.address + ("\n" + more));
    assert PrintLine(e) + more == PrintInt(e.rank) + middle;
    ScanIntOfPrint(e.rank, middle);
    ScanWordOf(middle, " ", e.address, "\n" + more);
  }

  lemma ScanSkipsSpace(s: string)
    ensures Scan("\n" + s) == Scan(s)
  {
    assert ("\n" + s)[1..] == s;
    assert SkipSpace("\n" + s) == SkipSpace(s);
    assert ScanInt("\n" + s) == ScanInt(s);
  }

  lemma {:induction false} ScanCleans(s: string)
    ensures forall e :: e in Scan(s) ==> Clean(e.address)
    decreases |s|
  {
    var e := ScanEntry(s);
    if e.Some? {
      ScanCleans(e.value.1);
    }
  }

  lemma ScanOfLine(e: Entry, more: string)
    requires Clean(e.address)
    ensures Scan(PrintLine(e) + more) == [e] + Scan(more)
  {
    ScanEntryOfPrint(e, more);
    ScanSkipsSpace(more);
  }

  lemma {:induction false} ScanOfPrint(entries: seq<Entry>)
    requires forall e :: e in entries ==> Clean(e.address)
    ensures Scan(PrintAll(entries)) == entries
  {
    if entries != [] {
      ScanOfLine(entries[0], PrintAll(entries[1..]));
      ScanOfPrint(entries[1..]);
      assert entries == [entries[0]] + entries[1..];
    }
  }

  // Scanning the registry recovers the list the servers wrote exactly when every address is non-empty and
  // without white space.
  lemma {:induction false} RoundTripIff(entries: seq<Entry>)
    ensures Scan(PrintAll(entries)) == entries <==> forall e :: e in entries ==> Clean(e.address)
  {
    if forall e :: e in entries ==> Clean(e.address) {
      ScanOfPrint(entries);
    }
    ScanCleans(PrintAll(entries));
  }

  // ---------------------------------------------------------------- appending

  // Complete lines only.
  predicate WholeLines(text: string) {
    text != "" ==> text[|text| - 1] == '\n'
  }

  // A proper suffix of the text.
  ghost predicate Within(rest: string, s: string) {
    |rest| <= |s| && rest == s[|s| - |rest|..]
  }

  lemma {:induction false} SkipSpaceWithin(s: string, t: string)
    ensures Within(SkipSpace(s), s)
    ensures SkipSpace(s) != "" ==> SkipSpace(s + t) == SkipSpace(s) + t
  {
    if s != "" && IsSpace(s[0]) {
      SkipSpaceWithin(s[1..], t);
      assert (s + t)[1..] == s[1..] + t;
    }
  }

  lemma {:induction false} DigitSpanStable(s: string, t: string)
    ensures DigitSpan(s) < |s| ==> DigitSpan(s + t) == DigitSpan(s)
  {
    if s != "" && IsDigit(s[0]) {
      DigitSpanStable(s[1..], t);
      assert (s + t)[1..] == s[1..] + t;
    }
  }

  lemma {:induction false} WordSpanStable(s: string, t: string)
    ensures WordSpan(s) < |s| ==> WordSpan(s + t) == WordSpan(s)
  {
    if s != "" && !IsSpace(s[0]) {
      WordSpanStable(s[1..], t);
      assert (s + t)[1..] == s[1..] + t;
    }
  }

  lemma ScanNatStable(s: string, t: string)
    requires WholeLines(s) && ScanNat(s).Some?
    ensures ScanNat(s).value.1 != "" && WholeLines(ScanNat(s).value.1)
    ensures ScanNat(s + t) == Some((ScanNat(s).value.0, ScanNat(s).value.1 + t))
  {
    var n := DigitSpan(s);
    DigitSpanStable(s, t);
    assert (s + t)[..n] == s[..n] && (s + t)[n..] == s[n..] + t;
  }

  // What scans from complete lines scans the same when more is appended.
  lemma ScanIntStable(s: string, t: string)
    requires WholeLines(s) && ScanInt(s).Some?
    ensures ScanInt(s).value.1 != "" && WholeLines(ScanInt(s).value.1)
    ensures ScanInt(s + t) == Some((ScanInt(s).value.0, ScanInt(s).value.1 + t))
  {
    SkipSpaceWithin(s, t);
    var u := SkipSpace(s);
    assert (u + t)[1..] == u[1..] + t;
    ScanNatStable(if Signed(u) then u[1..] else u, t);
  }

  lemma FirstWordStable(s: string, t: string)
    requires WholeLines(s) && FirstWord(s).Some?
    ensures WholeLines(FirstWord(s).value.1)
    ensures FirstWord(s + t) == Some((FirstWord(s).value.0, FirstWord(s).value.1 + t))
  {
    var n := WordSpan(s);
    assert IsSpace(s[|s| - 1]) && n < |s|;
    WordSpanStable(s, t);
    assert (s + t)[..n] == s[..n] && (s + t)[n..] == s[n..] + t;
  }

  lemma ScanWordStable(s: string, t: string)
    requires WholeLines(s) && ScanWord(s).Some?
    ensures WholeLines(ScanWord(s).value.1)
    ensures ScanWord(s + t) == Some((ScanWord(s).value.0, ScanWord(s).value.1 + t))
  {
    SkipSpaceWithin(s, t);
    FirstWordStable(SkipSpace(s), t);
  }

  // A rank found in complete lines is found at the same address after any append.
  lemma {:induction false} FirstMatchStable(text: string, more: string, rank: int)
    requires WholeLines(text) && FirstMatch(Scan(text), rank).Some?
    ensures FirstMatch(Scan(text + more), rank) == FirstMatch(Scan(text), rank)
    decreases |text|
  {
    ScanIntStable(text, more);
    ScanWordStable(ScanInt(text).value.1, more);
    var e := ScanEntry(text).value;
    assert Scan(text) == [e.0] + Scan(e.1);
    assert Scan(text + more) == [e.0] + Scan(e.1 + more);
    if e.0.rank != rank {
      FirstMatchStable(e.1, more, rank);
    }
  }

  // ---------------------------------------------------------------- the file and the client's cache

  // The entries of the file, none when it does not exist yet.
  function Entries(file: Option<string>): seq<Entry> {
    if file.None? then [] else Scan(file.value)
  }

  lemma KnownMeans(file: Option<string>, rank: int)
    ensures forall x :: Known(file, rank) == Some(x) <==> IsFirst(Entries(file), rank, x)
    ensures Known(file, rank) == None <==> forall i :: 0 <= i < |Entries(file)| ==> Entries(file)[i].rank != rank
  {
    FirstMatchMeans(Entries(file), rank);
  }

  // What a fresh scan of the file finds; the file may not exist yet.
  function Known(file: Option<string>, rank: int): Option<string> {
    if file.None? then None else FirstMatch(Scan(file.value), rank)
  }

  // Everything cached is what a fresh scan finds.
  ghost predicate Agrees(cache: map<int, string>, file: Option<string>) {
    forall rank :: rank in cache ==> Known(file, rank) == Some(cache[rank])
  }

  // The file after servers appended the entries.
  function Appended(file: Option<string>, entries: seq<Entry>): Option<string> {
    if entries == [] then file
    else Some((if file.None? then "" else file.value) + PrintAll(entries))
  }

  // However many servers register in the meantime, whatever their addresses, what is cached stays fresh.
  lemma CacheStaysFresh(cache: map<int, string>, file: Option<string>, entries: seq<Entry>)
    requires Agrees(cache, file) && (file.Some? ==> WholeLines(file.value))
    ensures Agrees(cache, Appended(file, entries))
  {
    forall rank | rank in cache
      ensures Known(Appended(file, entries), rank) == Some(cache[rank])
    {
      if entries != [] {
        FirstMatchStable(file.value, PrintAll(entries), rank);
      }
    }
  }

  class Registry {
    var file: Option<string>

    predicate Valid()
      reads this
    {
      file.Some? ==> WholeLines(file.value)
    }

    constructor ()
      ensures Valid() && file == None
    {
      file := None;
    }

    // Opened for appending: the file is created when missing.
    method ListAddr(rank: int, address: string)
      requires Valid()
      modifies this
      ensures Valid() && file == Appended(old(file), [Entry(rank, address)])
      ensures file == Some((if old(file).None? then "" else old(file).value) + PrintInt(rank) + " " + address + "\n")
    {
      var text := if file.None? then "" else file.value;
      var line := PrintLine(Entry(rank, address));
      assert PrintAll([Entry(rank, address)]) == line;
      assert text + line == text + PrintInt(rank) + " " + address + "\n";
      file := Some(text + line);
    }
  }

  class AddressCache {
    var addresses: map<int, string>

    constructor ()
      ensures addresses == map[]
    {
      addresses := map[];
    }

    // A lookup answers what a fresh scan would, the address of the first entry with the very rank asked for; only hits
    // are cached.
    method Lookup(registry: Registry, rank: int) returns (address: Option<string>)
      requires Agrees(addresses, registry.file)
      modifies this
      ensures address == Known(registry.file, rank)
      ensures forall x :: address == Some(x) <==> IsFirst(Entries(registry.file), rank, x)
      ensures address.Some? ==>
                exists i :: 0 <= i < |Entries(registry.file)| && Entries(registry.file)[i].rank == rank
                            && Entries(registry.file)[i].address == address.value
                            && forall j :: 0 <= j < i ==> Entries(registry.file)[j].rank != rank
      ensures address == None <==>
                forall i :: 0 <= i < |Entries(registry.file)| ==> Entries(registry.file)[i].rank != rank
      ensures Agrees(addresses, registry.file)
      ensures addresses == if address.Some? then old(addresses)[rank := address.value] else old(addresses)
    {
      if rank in addresses {
        address := Some(addresses[rank]);
      } else {
        address := TheHardWay(registry, rank);
        if address.Some? {
          addresses := addresses[rank := address.value];
        }
      }
      KnownMeans(registry.file, rank);
    }

    // Scans the file entry by entry until one has the rank.
    method TheHardWay(registry: Registry, rank: int) returns (address: Option<string>)
      ensures address == Known(registry.file, rank)
    {
      if registry.file.None? {
        return None;
      }
      var rest := registry.file.value;
      address := None;
      var scanned := ScanEntry(rest);
      while scanned.Some? && address.None?
        invariant scanned == ScanEntry(rest)
        invariant Known(registry.file, rank) == if address.Some? then address else FirstMatch(Scan(rest), rank)
        decreases |rest|
      {
        if scanned.value.0.rank == rank {
          address := Some(scanned.value.0.address);
          break;
        }
        rest := scanned.value.1;
        scanned := ScanEntry(rest);
      }
    }
  }
}
