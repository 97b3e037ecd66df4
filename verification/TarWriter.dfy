/** A reference writer of tar archives, and the extractor that undoes it
    (internal/workspace/tar.go). */
module TarWriter {
  import opened Directory
  import opened ByteText
  import opened TarFormat
  import opened TarExtraction

  // ---- Decimal -------------------------------------------------------------------

  function DecimalDigits(n: nat): (s: Bytes)
    ensures s != [] && DigitsBelow(s, 10) && (n > 0 ==> s[0] != 48)
  {
    if n < 10 then [48 + n] else DecimalDigits(n / 10) + [48 + n % 10]
  }

  lemma {:induction false} DecimalReads(n: nat)
    ensures Value(DecimalDigits(n), 10) == n
  {
    var s := DecimalDigits(n);
    if n < 10 {
      assert s[..0] == [];
    } else {
      DecimalReads(n / 10);
      assert s[..|s| - 1] == DecimalDigits(n / 10);
    }
  }

  function Power10(n: nat): (p: nat)
    ensures p > 0
  {
    if n == 0 then 1 else 10 * Power10(n - 1)
  }

  lemma {:induction false} DecimalLength(n: nat, k: nat)
    requires k > 0 && n < Power10(k) && (k == 1 || n >= Power10(k - 1))
    ensures |DecimalDigits(n)| == k
  {
    if k > 1 {
      assert Power10(k) == 10 * Power10(k - 1) && Power10(k - 1) == 10 * Power10(k - 2);
      DecimalLength(n / 10, k - 1);
    }
  }

  lemma ValueUnfolds(s: Bytes)
    requires s != [] && DigitsBelow(s, 10)
    ensures
      var rest, last := s[..|s| - 1], s[|s| - 1];
      s == rest + [last] && DigitsBelow(rest, 10) && 48 <= last < 58 && Value(s, 10) == 10 * Value(rest, 10) + (last - 48)
  {
    var rest := s[..|s| - 1];
    assert s[|s| - 1] in s && forall b :: b in rest ==> b in s;
  }

  lemma {:induction false} NumeralIsWritten(s: Bytes)
    requires s != [] && DigitsBelow(s, 10) && (|s| == 1 || s[0] != 48)
    ensures DecimalDigits(Value(s, 10)) == s && (s[0] != 48 ==> Value(s, 10) > 0)
  {
    hide Value, DigitsBelow;
    ValueUnfolds(s);
    var rest := s[..|s| - 1];
    if rest == [] {
      assert Value([], 10) == 0 by { NoDigits(); }
    } else {
      NumeralIsWritten(rest);
    }
  }

  lemma NoDigits()
    ensures Value([], 10) == 0
  {
  }

  lemma {:induction false} NumeralIsBounded(s: Bytes)
    requires DigitsBelow(s, 10)
    ensures Value(s, 10) < Power10(|s|)
  {
    hide Value, DigitsBelow;
    NoDigits();
    if s != [] {
      ValueUnfolds(s);
      NumeralIsBounded(s[..|s| - 1]);
    }
  }

  /** The length of a record is a number of up to six digits, written in decimal. */
  lemma RecordLengthIff(field: Bytes)
    ensures RecordLength(field) <==> exists n: nat :: 1 <= n < 1000000 && field == DecimalDigits(n)
  {
    assert Power10(0) == 1 && Power10(1) == 10 && Power10(2) == 100 && Power10(3) == 1000;
    assert Power10(4) == 10000 && Power10(5) == 100000 && Power10(6) == 1000000;
    if RecordLength(field) {
      NumeralIsWritten(field);
      NumeralIsBounded(field);
      PowersGrow(|field|, 6);
      assert field == DecimalDigits(Value(field, 10));
    }
    if n: nat :| 1 <= n < 1000000 && field == DecimalDigits(n) {
      DecimalLength(n, if n < 10 then 1 else if n < 100 then 2 else if n < 1000 then 3 else if n < 10000 then 4
                       else if n < 100000 then 5 else 6);
    }
  }

  lemma {:induction false} PowersGrow(k: nat, m: nat)
    requires k <= m
    ensures Power10(k) <= Power10(m)
    decreases m - k
  {
    if k < m {
      PowersGrow(k + 1, m);
      assert Power10(k + 1) == 10 * Power10(k);
    }
  }

  // ---- Path record ---------------------------------------------------------------

  /** How many digits the length of a record takes that has `m` bytes besides them. */
  function Width(m: nat): (d: nat)
    requires m < 99000
    ensures 1 <= d <= 5
  {
    if m + 1 < 10 then 1 else if m + 2 < 100 then 2 else if m + 3 < 1000 then 3 else if m + 4 < 10000 then 4 else 5
  }

  lemma WidthFits(m: nat)
    requires m < 99000
    ensures |DecimalDigits(m + Width(m))| == Width(m)
  {
    assert Power10(0) == 1 && Power10(1) == 10 && Power10(2) == 100 && Power10(3) == 1000;
    assert Power10(4) == 10000 && Power10(5) == 100000;
    DecimalLength(m + Width(m), Width(m));
  }

  function PathRecord(path: Bytes): Bytes
    requires |path| < 60000
  {
    var m := |path| + 7;
    DecimalDigits(m + Width(m)) + [SPACE] + (PATH_KEY + [EQUALS] + path) + [NEWLINE]
  }

  lemma RecordReads(path: Bytes)
    requires |path| < 60000 && ValidUtf8(path)
    ensures |PathRecord(path)| <= 65536 && PathRecord(path) != []
    ensures Records(PathRecord(path), PATH_KEY, None) == Some(Some(path))
  {
    hide Find, ValidUtf8, DecimalDigits, Value;
    var m := |path| + 7;
    var length, body, r := DecimalDigits(m + Width(m)), PATH_KEY + [EQUALS] + path, PathRecord(path);
    WidthFits(m);
    DecimalReads(m + Width(m));
    assert r == length + [SPACE] + (body + [NEWLINE]);
    assert SPACE !in length;
    FindFirst(length, SPACE, body + [NEWLINE]);
    assert r[..|length|] == length && |r| == m + Width(m);
    assert r[|length| + 1..|r| - 1] == body && r[|r| - 1] == NEWLINE;
    assert EQUALS !in PATH_KEY;
    FindFirst(PATH_KEY, EQUALS, path);
    assert body[..4] == PATH_KEY && body[5..] == path;
    assert FirstRecord(r, PATH_KEY) == Some(Record(path, |r|));
    assert r[|r|..] == [];
  }

  // ---- Members -------------------------------------------------------------------

  predicate Writable(m: Member) {
    && Safe(m.path)
    && var path := JoinSegments(m.path);
       && BACKSLASH !in path && 0 !in path && ValidUtf8(path) && |path| < 60000
       && (m.Leaf? ==> |m.content| < Power8(11) && m.mode < Power8(7))
  }

  function Content(m: Member): Bytes {
    if m.Leaf? then m.content else []
  }

  /** The name of a header whose real path stands in an extension. */
  const STUB: Bytes := [108, 111, 110, 103]

  /** What goes into the two fields for a path. */
  datatype Names = Names(prefix: Bytes, name: Bytes)

  function MemberHeader(m: Member, names: Names, filler: Bytes): Header {
    Header(names.prefix, names.name, if m.Leaf? then m.mode else 0, |Content(m)|, if m.Leaf? then REGULAR else DIRECTORY, filler)
  }

  /** The first place at or after `j` where a path can be split between the two fields. */
  function SplitAt(path: Path, j: nat): (r: Option<nat>)
    requires 0 < j <= |path|
    ensures r.Some? ==>
      0 < r.value < |path| && |JoinSegments(path[..r.value])| <= 155 && |JoinSegments(path[r.value..])| <= 100
    decreases |path| - j
  {
    if j == |path| then None
    else if |JoinSegments(path[..j])| <= 155 && |JoinSegments(path[j..])| <= 100 then Some(j)
    else SplitAt(path, j + 1)
  }

  /** How a path goes into a header, if it does. */
  function HeaderNames(path: Path): Option<Names>
    requires path != []
  {
    if |JoinSegments(path)| <= 100 then Some(Names([], JoinSegments(path)))
    else
      var at := SplitAt(path, 1);
      if at.None? then None else Some(Names(JoinSegments(path[..at.value]), JoinSegments(path[at.value..])))
  }

  lemma {:induction false} JoinSplit(path: Path, j: nat)
    requires 0 < j < |path|
    ensures JoinSegments(path) == JoinSegments(path[..j]) + [SLASH] + JoinSegments(path[j..])
  {
    if j == 1 {
      assert path[..1] == [path[0]];
    } else {
      JoinSplit(path[1..], j - 1);
      assert path[1..][..j - 1] == path[..j][1..] && path[1..][j - 1..] == path[j..];
    }
  }

  /** The two fields hold the path, and no zero is lost at their ends. */
  lemma HeaderNamesHold(m: Member)
    requires Writable(m) && HeaderNames(m.path).Some?
    ensures
      var n := HeaderNames(m.path).value;
      && JoinSegments(m.path) == (if n.prefix == [] then n.name else n.prefix + [SLASH] + n.name)
      && 0 < |n.name| <= 100 && n.name[|n.name| - 1] != 0
      && |n.prefix| <= 155 && (n.prefix != [] ==> n.prefix[|n.prefix| - 1] != 0)
  {
    var path := JoinSegments(m.path);
    PathIsPlain(m);
    if |path| > 100 {
      var j := SplitAt(m.path, 1).value;
      JoinSplit(m.path, j);
      assert forall s :: s in m.path[..j] || s in m.path[j..] ==> s in m.path;
      JoinIsPlain(m.path[..j]);
      JoinIsPlain(m.path[j..]);
      var n := HeaderNames(m.path).value;
      assert path[|n.prefix| - 1] == n.prefix[|n.prefix| - 1] && path[|path| - 1] == n.name[|n.name| - 1];
      assert path[|n.prefix| - 1] in path && path[|path| - 1] in path;
    }
  }

  function Padded(content: Bytes): (s: Bytes)
    ensures |s| == PaddedSize(|content|) && |content| <= |s| && s[..|content|] == content
  {
    content + Zeros(PaddedSize(|content|) - |content|)
  }

  /** A member whose path does not fit a header gets an extension before it. */
  function WriteMember(m: Member, filler: Bytes): Bytes
    requires Writable(m) && |filler| == 88
  {
    HeadersAreValid(m, filler);
    var path, names := JoinSegments(m.path), HeaderNames(m.path);
    if names.Some? then MemberHeader(m, names.value, filler).Write() + Padded(Content(m))
    else
      ExtensionHeader(path, filler).Write() + Padded(PathRecord(path))
      + (MemberHeader(m, Names([], STUB), filler).Write() + Padded(Content(m)))
  }

  function ExtensionHeader(path: Bytes, filler: Bytes): Header
    requires |path| < 60000
  {
    Header([], STUB, 0, |PathRecord(path)|, EXTENDED, filler)
  }

  lemma PathIsPlain(m: Member)
    requires Writable(m)
    ensures
      var path := JoinSegments(m.path);
      path != [] && path[0] != SLASH && path[|path| - 1] != SLASH && path[|path| - 1] != 0
    ensures Power8(11) > 0
  {
    JoinIsPlain(m.path);
    var path := JoinSegments(m.path);
    assert path[|path| - 1] in path;
  }

  lemma {:induction false} JoinIsPlain(path: Path)
    requires Safe(path)
    ensures
      var s := JoinSegments(path);
      s != [] && s[0] != SLASH && s[|s| - 1] != SLASH
  {
    assert path[0] in path && path[0] != [] && path[0][0] in path[0];
    if |path| > 1 {
      assert forall s :: s in path[1..] ==> s in path;
      JoinIsPlain(path[1..]);
    } else {
      assert path[0][|path[0]| - 1] in path[0];
    }
  }

  lemma PathRecordIsSmall(path: Bytes)
    requires |path| < 60000
    ensures |PathRecord(path)| <= 65536 < Power8(11)
  {
    WidthFits(|path| + 7);
    assert Power8(6) == 8 * 8 * 8 * 8 * 8 * 8 by { assert Power8(3) == 8 * 8 * 8; }
    assert Power8(11) == 32768 * Power8(6) by { assert Power8(9) == 512 * Power8(6); }
  }

  /** The members, and `end` after them. */
  function WriteBefore(members: seq<Member>, filler: Bytes, end: Bytes): Bytes
    requires (forall m :: m in members ==> Writable(m)) && |filler| == 88
  {
    if members == [] then end
    else
      assert members[0] in members;
      WriteMember(members[0], filler) + WriteBefore(members[1..], filler, end)
  }

  function WriteAll(members: seq<Member>, filler: Bytes): Bytes
    requires (forall m :: m in members ==> Writable(m)) && |filler| == 88
  {
    WriteBefore(members, filler, Zeros(2 * BLOCK))
  }

  // ---- Round trip ----------------------------------------------------------------

  /** A written header and its content read back, and leave the rest. */
  lemma ItemReads(h: Header, content: Bytes, rest: Bytes, pending: Option<Bytes>, left: nat)
    requires h.Valid() && h.size == |content| <= left
    ensures
      var d := h.Write() + Padded(content) + rest;
      && ReadItem(d, pending, left) == ReadBody(h.Write(), content, pending)
      && BLOCK + PaddedSize(|content|) <= |d| && d[BLOCK + PaddedSize(|content|)..] == rest
  {
    hide Octal, Checksum, TrimRight, Header.Write, ReadBody, Padded;
    h.ReadsBack();
    var w, d := h.Write(), h.Write() + Padded(content) + rest;
    assert d[..BLOCK] == w;
    assert d[BLOCK..BLOCK + |content|] == Padded(content)[..|content|];
    var k :| 0 <= k < BLOCK && w[k] != 0;
    assert w[k] in w;
  }

  lemma PathReads(header: Bytes, kind: Byte, override: Option<Bytes>, m: Member, names: Names)
    requires |header| == BLOCK && Writable(m)
    requires override == Some(JoinSegments(m.path))
             || (override.None? && TrimRight(header[0..100], {0}) == names.name && TrimRight(header[345..500], {0}) == names.prefix
                 && JoinSegments(m.path) == if names.prefix == [] then names.name else names.prefix + [SLASH] + names.name)
    ensures ArchivePath(header, kind, override) == Some(m.path)
  {
    hide TrimRight, ValidUtf8, Segments, JoinSegments;
    PathIsPlain(m);
    SegmentsJoin(m.path);
    assert forall s :: s in m.path ==> s !in {[], [46], [46, 46]};
  }

  lemma StubReads(header: Bytes, kind: Byte)
    requires |header| == BLOCK && TrimRight(header[0..100], {0}) == STUB && TrimRight(header[345..500], {0}) == []
    ensures ArchivePath(header, kind, None).Some?
  {
    hide TrimRight;
    SegmentsJoin([STUB]);
    assert ValidUtf8(STUB) by {
      assert STUB[1..] == [111, 110, 103] && STUB[1..][1..] == [110, 103] && STUB[1..][1..][1..] == [103];
      assert ValidUtf8([103]) && ValidUtf8([110, 103]);
    }
  }

  /** The header gives the member's path itself, or an extension before it does. */
  predicate Named(m: Member, names: Names, pending: Option<Bytes>)
    requires m.path != []
  {
    pending == Some(JoinSegments(m.path)) || (pending.None? && HeaderNames(m.path) == Some(names))
  }

  lemma BodyReads(m: Member, names: Names, filler: Bytes, pending: Option<Bytes>)
    requires Writable(m) && MemberHeader(m, names, filler).Valid() && Named(m, names, pending)
    ensures ReadBody(MemberHeader(m, names, filler).Write(), Content(m), pending) == Some(Entry(m, |Content(m)|))
  {
    hide Octal, Checksum, TrimRight, Header.Write, ArchivePath, HeaderNames, JoinSegments;
    var h := MemberHeader(m, names, filler);
    h.ReadsBack();
    if pending.None? {
      HeaderNamesHold(m);
    }
    PathReads(h.Write(), h.kind, pending, m, names);
  }

  lemma NamingReads(path: Bytes, filler: Bytes)
    requires |path| < 60000 && ValidUtf8(path) && ExtensionHeader(path, filler).Valid()
    ensures ReadBody(ExtensionHeader(path, filler).Write(), PathRecord(path), None) == Some(Naming(Some(path), |PathRecord(path)|))
  {
    hide Octal, Checksum, TrimRight, Header.Write, ArchivePath, Records, PathRecord;
    var h := ExtensionHeader(path, filler);
    h.ReadsBack();
    StubReads(h.Write(), EXTENDED);
    RecordReads(path);
  }

  /** How many entries and how much content the writer spends on a member. */
  function Entries(m: Member): nat {
    if m.path != [] && HeaderNames(m.path).Some? then 1 else 2
  }

  function Size(m: Member): nat
    requires Writable(m)
  {
    |Content(m)| + if HeaderNames(m.path).Some? then 0 else |PathRecord(JoinSegments(m.path))|
  }

  function AllEntries(members: seq<Member>): nat {
    if members == [] then 0 else Entries(members[0]) + AllEntries(members[1..])
  }

  function AllSizes(members: seq<Member>): nat
    requires forall m :: m in members ==> Writable(m)
  {
    if members == [] then 0
    else
      assert members[0] in members;
      Size(members[0]) + AllSizes(members[1..])
  }

  lemma EntryThen(d: Bytes, pending: Option<Bytes>, files: nat, left: nat, m: Member, size: nat, rest: Bytes)
    requires ReadItem(d, pending, left) == Some(Entry(m, size)) && d[BLOCK + PaddedSize(size)..] == rest && files > 0
    ensures Decode(d, pending, files, left) == Prepend([m], Decode(rest, None, files - 1, left - size))
  {
    hide ReadItem;
  }

  lemma NamingThen(d: Bytes, files: nat, left: nat, path: Bytes, size: nat, rest: Bytes)
    requires ReadItem(d, None, left) == Some(Naming(Some(path), size)) && d[BLOCK + PaddedSize(size)..] == rest && files > 0
    ensures Decode(d, None, files, left) == Decode(rest, Some(path), files - 1, left - size)
  {
    hide ReadItem;
  }

  /** A member whose path is given reads back. */
  lemma PlainMemberReads(m: Member, names: Names, filler: Bytes, pending: Option<Bytes>, rest: Bytes, files: nat, left: nat)
    requires Writable(m) && MemberHeader(m, names, filler).Valid() && files > 0 && |Content(m)| <= left
    requires Named(m, names, pending)
    ensures
      Decode(MemberHeader(m, names, filler).Write() + Padded(Content(m)) + rest, pending, files, left)
      == Prepend([m], Decode(rest, None, files - 1, left - |Content(m)|))
  {
    hide ReadItem, ReadBody, Header.Write, Padded, PaddedSize, Writable, Decode, Named;
    var h := MemberHeader(m, names, filler);
    ItemReads(h, Content(m), rest, pending, left);
    BodyReads(m, names, filler, pending);
    EntryThen(h.Write() + Padded(Content(m)) + rest, pending, files, left, m, |Content(m)|, rest);
  }

  lemma HeadersAreValid(m: Member, filler: Bytes)
    requires Writable(m) && |filler| == 88
    ensures HeaderNames(m.path).Some? ==> MemberHeader(m, HeaderNames(m.path).value, filler).Valid()
    ensures MemberHeader(m, Names([], STUB), filler).Valid()
    ensures ExtensionHeader(JoinSegments(m.path), filler).Valid()
    ensures ValidUtf8(JoinSegments(m.path)) && |JoinSegments(m.path)| < 60000
  {
    hide Power8, PathRecord, HeaderNames;
    if HeaderNames(m.path).Some? {
      HeaderNamesHold(m);
    }
    PowersArePositive();
    PathRecordIsSmall(JoinSegments(m.path));
  }

  /** One written member reads back as the next one; a path extension names exactly it. */
  lemma MemberReads(m: Member, filler: Bytes, rest: Bytes, files: nat, left: nat)
    requires Writable(m) && |filler| == 88 && Entries(m) <= files && Size(m) <= left
    ensures
      Decode(WriteMember(m, filler) + rest, None, files, left)
      == Prepend([m], Decode(rest, None, files - Entries(m), left - Size(m)))
  {
    hide ReadItem, ReadBody, Header.Write, PathRecord, Padded, PaddedSize, Power8, Decode, Header.Valid, ValidUtf8, HeaderNames;
    var path, names := JoinSegments(m.path), HeaderNames(m.path);
    HeadersAreValid(m, filler);
    if names.Some? {
      PlainMemberReads(m, names.value, filler, None, rest, files, left);
    } else {
      var x, record := ExtensionHeader(path, filler), PathRecord(path);
      var stub := Names([], STUB);
      var inner := MemberHeader(m, stub, filler).Write() + Padded(Content(m)) + rest;
      ItemReads(x, record, inner, None, left);
      NamingReads(path, filler);
      var d := x.Write() + Padded(record) + inner;
      NamingThen(d, files, left, path, |record|, inner);
      PlainMemberReads(m, stub, filler, Some(path), rest, files - 1, left - |record|);
      assert WriteMember(m, filler) + rest == d;
    }
  }

  lemma PowersArePositive()
    ensures 0 < Power8(7) && 0 < Power8(11)
  {
  }

  /** Written members are read first, in order, whatever comes after them. */
  lemma {:induction false} MembersRead(members: seq<Member>, filler: Bytes, end: Bytes, files: nat, left: nat)
    requires (forall m :: m in members ==> Writable(m)) && |filler| == 88
    requires AllEntries(members) <= files && AllSizes(members) <= left
    ensures
      Decode(WriteBefore(members, filler, end), None, files, left)
      == Prepend(members, Decode(end, None, files - AllEntries(members), left - AllSizes(members)))
  {
    hide WriteMember, Writable, ReadItem, Size, Entries, Decode;
    if members == [] {
      var last := Decode(end, None, files, left);
      assert last.Some? ==> [] + last.value == last.value;
    } else {
      var m, others := members[0], members[1..];
      assert m in members && members == [m] + others && forall o :: o in others ==> o in members;
      MembersRead(others, filler, end, files - Entries(m), left - Size(m));
      MemberReads(m, filler, WriteBefore(others, filler, end), files, left);
      var last := Decode(end, None, files - AllEntries(members), left - AllSizes(members));
      assert last.Some? ==> [m] + (others + last.value) == members + last.value;
    }
  }

  /** Whatever members are written, within the limits, the same come out, in order. */
  lemma RoundTrip(members: seq<Member>, filler: Bytes, files: nat, left: nat)
    requires (forall m :: m in members ==> Writable(m)) && |filler| == 88
    requires AllEntries(members) <= files && AllSizes(members) <= left
    ensures Decode(WriteAll(members, filler), None, files, left) == Some(members)
  {
    hide WriteMember, Writable, ReadItem, Size, Entries, WriteBefore;
    MembersRead(members, filler, Zeros(2 * BLOCK), files, left);
    EndReads(left - AllSizes(members));
    assert members + [] == members;
  }

  lemma {:induction false} SizesFit(members: seq<Member>, filler: Bytes)
    requires (forall m :: m in members ==> Writable(m)) && |filler| == 88
    ensures AllSizes(members) <= |WriteAll(members, filler)|
  {
    hide Writable, Header.Write, PathRecord, HeaderNames;
    if members != [] {
      assert members[0] in members && forall o :: o in members[1..] ==> o in members;
      SizesFit(members[1..], filler);
      HeadersAreValid(members[0], filler);
    }
  }

  /** Extraction undoes the writer: an archive of any members, in any order, can be
      extracted exactly if they are compatible with each other and with what is there, and
      then the tree has grown by exactly them. */
  method ExtractWritten(dest: Destination, members: seq<Member>, filler: Bytes, maxFiles: int, maxBytes: int) returns (ok: bool)
    requires (forall m :: m in members ==> Writable(m)) && |filler| == 88
    requires AllEntries(members) <= Limit(maxFiles, DEFAULT_MAX_FILES)
    requires |WriteAll(members, filler)| <= Limit(maxBytes, DEFAULT_MAX_BYTES)
    modifies dest
    ensures ok <==> Compatible(old(dest.tree), members)
    ensures ok ==> Extracted(old(dest.tree), dest.tree, members)
  {
    hide Writable, WriteAll, Compatible, Extracted, AllEntries, Decode;
    WrittenMembers(members, filler, maxFiles, maxBytes);
    ok := dest.Extract(WriteAll(members, filler), maxFiles, maxBytes);
  }

  lemma WrittenMembers(members: seq<Member>, filler: Bytes, maxFiles: int, maxBytes: int)
    requires (forall m :: m in members ==> Writable(m)) && |filler| == 88
    requires AllEntries(members) <= Limit(maxFiles, DEFAULT_MAX_FILES)
    requires |WriteAll(members, filler)| <= Limit(maxBytes, DEFAULT_MAX_BYTES)
    ensures Members(WriteAll(members, filler), maxFiles, maxBytes) == Some(members)
  {
    hide Writable, WriteAll, AllEntries, Decode;
    SizesFit(members, filler);
    RoundTrip(members, filler, Limit(maxFiles, DEFAULT_MAX_FILES), Limit(maxBytes, DEFAULT_MAX_BYTES));
  }

  /** Another kind of entry is refused, whatever members were written before it and
      whatever comes after it. */
  lemma OtherKindsAreRefused(members: seq<Member>, h: Header, content: Bytes, rest: Bytes, filler: Bytes, files: nat, left: nat)
    requires (forall m :: m in members ==> Writable(m)) && |filler| == 88
    requires AllEntries(members) <= files && AllSizes(members) + |content| <= left
    requires h.Valid() && h.size == |content| && h.kind !in {GLOBAL, EXTENDED, DIRECTORY, REGULAR, 0}
    ensures Decode(WriteBefore(members, filler, h.Write() + Padded(content) + rest), None, files, left) == None
  {
    hide WriteMember, Writable, Size, Entries, WriteBefore, Padded, Header.Write, ArchivePath, ReadItem;
    MembersRead(members, filler, h.Write() + Padded(content) + rest, files, left);
    ItemReads(h, content, rest, None, left - AllSizes(members));
    h.ReadsBack();
  }

  /** The kind of old archives is that of regular files. */
  lemma OldKindIsRegular(h: Header, content: Bytes, pending: Option<Bytes>)
    requires h.Valid() && h.kind == REGULAR
    ensures ReadBody(h.(kind := 0).Write(), content, pending) == ReadBody(h.Write(), content, pending)
  {
    hide Octal, Checksum, TrimRight, Header.Write;
    h.ReadsBack();
    h.(kind := 0).ReadsBack();
  }

  /** A file is executable if its owner may execute it, whoever else may. */
  lemma OwnerExecutes(mode: nat, above: nat, owner: nat, below: nat)
    requires mode == above * 512 + owner * 64 + below && owner < 8 && below < 64
    ensures Executable(mode) <==> owner in {1, 3, 5, 7}
  {
    assert mode / 64 == above * 8 + owner;
  }

  lemma EndReads(left: nat)
    ensures ReadItem(Zeros(2 * BLOCK), None, left) == Some(End)
  {
    hide Octal, Checksum;
    var z := Zeros(2 * BLOCK);
    assert forall b :: b in z[..BLOCK] ==> b in z;
  }
}
