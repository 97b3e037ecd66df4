/** The read-only operations of a review: reading, searching and listing two snapshots, and
    cutting a response to its frame (internal/codex/review_mediation.go), and the bounds
    evidence is held to (internal/codex/review_evidence.go). */
module ReviewMediation {
  import opened Directory
  import opened ByteText
  import opened Text

  const MAX_REVIEW_OUTPUT_BYTES := 49152
  const MAX_REVIEW_LIST_ENTRIES := 500
  const MAX_REVIEW_SEARCH_MATCHES := 200
  const MAX_REVIEW_SNIPPET_BYTES := 300
  const MAX_REVIEW_SCAN_BYTES := 16777216
  const MAX_PATH_BYTES := 1024

  /** A file of a snapshot; `text` says that its content is valid UTF-8. */
  datatype File = File(data: Bytes, text: bool)

  // ---- JSON budget ---------------------------------------------------------------

  /** The length of a rune in a JSON string, as the mediator counts it. */
  function JsonEncodedRuneLen(r: Rune): (n: nat)
    ensures RuneLen(r) <= n <= 6
  {
    if r in {34, 92, 10, 13, 9} then 2 else if r < 0x20 then 6 else RuneLen(r)
  }

  function Hex(n: int): Byte
    requires 0 <= n < 16
  {
    if n < 10 then 48 + n else 87 + n
  }

  /** A rune as JSON writes it in a string: escaped, by number, or as it is. */
  function JsonRune(r: Rune): Bytes {
    match r
    case 34 => [92, 34]
    case 92 => [92, 92]
    case 10 => [92, 110]
    case 13 => [92, 114]
    case 9 => [92, 116]
    case _ => if r < 0x20 then [92, 117, 48, 48, Hex(r / 16), Hex(r % 16)] else Encode(r)
  }

  function JsonText(runes: seq<Rune>): Bytes {
    if runes == [] then [] else JsonText(runes[..|runes| - 1]) + JsonRune(runes[|runes| - 1])
  }

  /** What is counted is the length of what is written. */
  lemma {:induction false} JsonLenIsWritten(runes: seq<Rune>)
    ensures JsonEncodedLen(runes) == |JsonText(runes)|
  {
    if runes != [] {
      JsonLenIsWritten(runes[..|runes| - 1]);
      assert |JsonRune(runes[|runes| - 1])| == JsonEncodedRuneLen(runes[|runes| - 1]);
    }
  }

  function JsonEncodedLen(runes: seq<Rune>): nat {
    if runes == [] then 0 else JsonEncodedLen(runes[..|runes| - 1]) + JsonEncodedRuneLen(runes[|runes| - 1])
  }

  lemma {:induction false} JsonEncodedLenSplit(a: seq<Rune>, b: seq<Rune>)
    ensures JsonEncodedLen(a + b) == JsonEncodedLen(a) + JsonEncodedLen(b)
    decreases |b|
  {
    if b == [] {
      assert a + b == a;
    } else {
      assert (a + b)[..|a + b| - 1] == a + b[..|b| - 1];
      JsonEncodedLenSplit(a, b[..|b| - 1]);
    }
  }

  lemma {:induction false} JsonEncodedLenGrows(runes: seq<Rune>, k: nat, m: nat)
    requires k <= m <= |runes|
    ensures JsonEncodedLen(runes[..k]) <= JsonEncodedLen(runes[..m])
  {
    JsonEncodedLenSplit(runes[..k], runes[k..m]);
    assert runes[..k] + runes[k..m] == runes[..m];
  }

  function Max(a: int, b: int): int {
    if a < b then b else a
  }

  /** The first `k` runes and the marker fit the budget, or the marker alone if it does not,
      and no more runes do. */
  ghost predicate LongestFit(runes: seq<Rune>, budget: nat, marker: seq<Rune>, k: nat) {
    var limit := Max(budget, JsonEncodedLen(marker));
    && k < |runes| && JsonEncodedLen(runes[..k] + marker) <= limit
    && forall m :: k < m <= |runes| ==> JsonEncodedLen(runes[..m] + marker) > limit
  }

  /** Cuts a text to a budget of encoded bytes: to the longest whole-rune prefix that
      leaves room for the marker, followed by the marker. */
  method TruncateForJSONBudget(runes: seq<Rune>, budget: nat, marker: seq<Rune>) returns (text: Bytes, cut: bool)
    ensures cut <==> JsonEncodedLen(runes) > budget
    ensures !cut ==> text == EncodeAll(runes)
    ensures cut ==> exists k: nat :: LongestFit(runes, budget, marker, k) && text == EncodeAll(runes[..k] + marker)
  {
    hide LongestFit, EncodeAll;
    if JsonEncodedLen(runes) <= budget {
      return EncodeAll(runes), false;
    }
    var available := Max(0, budget - JsonEncodedLen(marker));
    var at: nat;
    ghost var k: nat;
    at, k := LongestPrefix(runes, available);
    assert runes[..|runes|] == runes;
    CutFits(runes, budget, marker, k);
    CutIsWhole(runes, marker, k);
    text := EncodeAll(runes)[..at] + EncodeAll(marker);
    cut := true;
  }

  /** The bytes of the most runes whose encoded length is at most `available`. */
  method LongestPrefix(runes: seq<Rune>, available: nat) returns (at: nat, ghost k: nat)
    ensures k <= |runes| && at == |EncodeAll(runes[..k])| && JsonEncodedLen(runes[..k]) <= available
    ensures k < |runes| ==> JsonEncodedLen(runes[..k + 1]) > available
  {
    var used: nat, i: nat := 0, 0;
    at := 0;
    while i < |runes|
      invariant 0 <= i <= |runes| && used == JsonEncodedLen(runes[..i]) <= available && at == |EncodeAll(runes[..i])|
    {
      var add := JsonEncodedRuneLen(runes[i]);
      assert runes[..i + 1][..i] == runes[..i] && runes[..i + 1] == runes[..i] + [runes[i]];
      EncodeAllSplit(runes[..i], [runes[i]]);
      assert EncodeAll([runes[i]]) == Encode(runes[i]);
      if used + add > available {
        break;
      }
      used := used + add;
      at := at + RuneLen(runes[i]);
      i := i + 1;
    }
    k := i;
  }

  lemma CutIsWhole(runes: seq<Rune>, marker: seq<Rune>, k: nat)
    requires k <= |runes|
    ensures |EncodeAll(runes[..k])| <= |EncodeAll(runes)|
    ensures EncodeAll(runes)[..|EncodeAll(runes[..k])|] + EncodeAll(marker) == EncodeAll(runes[..k] + marker)
  {
    EncodeAllSplit(runes[..k], runes[k..]);
    assert runes == runes[..k] + runes[k..];
    EncodeAllSplit(runes[..k], marker);
  }

  lemma CutFits(runes: seq<Rune>, budget: nat, marker: seq<Rune>, k: nat)
    requires k < |runes|
    requires JsonEncodedLen(runes[..k]) <= Max(0, budget - JsonEncodedLen(marker)) < JsonEncodedLen(runes[..k + 1])
    ensures LongestFit(runes, budget, marker, k)
  {
    JsonEncodedLenSplit(runes[..k], marker);
    forall m | k < m <= |runes| ensures JsonEncodedLen(runes[..m] + marker) > Max(budget, JsonEncodedLen(marker)) {
      JsonEncodedLenSplit(runes[..m], marker);
      JsonEncodedLenGrows(runes, k + 1, m);
    }
  }

  // ---- Reading -------------------------------------------------------------------

  /** Why no more lines were shown. */
  datatype Note = AtEnd | MoreLines | BudgetAfter(lines: nat) | BudgetWithin

  datatype Reading =
    | NotFound
    | Binary
    | BeyondEnd
    | Shown(body: Bytes, note: Note)

  /** The lines with a newline after each. */
  function Terminated(lines: seq<Bytes>): Bytes {
    if lines == [] then [] else Terminated(lines[..|lines| - 1]) + lines[|lines| - 1] + [NEWLINE]
  }


  /** The window of a read: as many whole lines from `start` as were asked for and fit. */
  ghost predicate Window(lines: seq<Bytes>, start: int, count: int, r: Reading, n: nat) {
    var from := Max(start, 1) - 1;
    && r.Shown? && from + n <= |lines| && (n <= count || n == 0)
    && |Terminated(lines[from..from + n])| <= MAX_REVIEW_OUTPUT_BYTES
    && (match r.note
        case AtEnd => r.body == Terminated(lines[from..from + n]) && from + n == |lines|
        case MoreLines => r.body == Terminated(lines[from..from + n]) && from + n < |lines| && n == Max(count, 0)
        case BudgetAfter(m) =>
          && m == n > 0 && r.body == Terminated(lines[from..from + n]) && from + n < |lines| && n < count
          && |Terminated(lines[from..from + n + 1])| > MAX_REVIEW_OUTPUT_BYTES
        case BudgetWithin =>
          && n == 0 < count && from < |lines| && |lines[from]| + 1 > MAX_REVIEW_OUTPUT_BYTES
          && r.body <= lines[from] && |r.body| <= MAX_REVIEW_OUTPUT_BYTES
          && LongestWhole(lines[from], |r.body|, MAX_REVIEW_OUTPUT_BYTES))
  }

  /** Serves lines of a file. A start line is accepted exactly when the file has that many
      lines, counting the empty one after a final newline. */
  method Read(files: map<string, File>, path: string, startLine: int, lineCount: int) returns (r: Reading)
    ensures r == NotFound <==> path !in files
    ensures r == Binary <==> path in files && !files[path].text
    ensures path in files && files[path].text ==> (r == BeyondEnd <==> startLine > CountLines(files[path].data))
    ensures r.Shown? ==> exists n :: Window(Lines(files[path].data), startLine, lineCount, r, n)
  {
    if path !in files {
      return NotFound;
    }
    if !files[path].text {
      return Binary;
    }
    var data := files[path].data;
    LinesTile(data, 0);
    assert data[0..] == data;
    hide Lines, LinesFrom, NextLine, Newlines, Window, Terminated;
    var found, pos := Skip(data, startLine);
    if !found {
      return BeyondEnd;
    }
    r := Collect(data, pos, Lines(data), startLine, lineCount);
  }

  /** Steps to the start line. */
  method Skip(data: Bytes, startLine: int) returns (found: bool, pos: nat)
    ensures found <==> startLine <= |Lines(data)|
    ensures found ==>
      pos <= |data| && Max(startLine, 1) - 1 < |Lines(data)| && LinesFrom(data, pos) == Lines(data)[Max(startLine, 1) - 1..]
  {
    ghost var lines := Lines(data);
    Start(data);
    hide Lines, LinesFrom, NextLine;
    var number: nat := 1;
    pos := 0;
    while number < startLine
      invariant 1 <= number <= Max(startLine, 1) && pos <= |data| + 1 && number - 1 <= |lines|
      invariant LinesFrom(data, pos) == lines[number - 1..]
    {
      Visit(data, pos, lines, number - 1);
      if pos > |data| {
        return false, pos;
      }
      pos := NextLine(data, pos).1;
      number := number + 1;
    }
    Visit(data, pos, lines, number - 1);
    found := pos <= |data|;
  }

  lemma Start(data: Bytes)
    ensures LinesFrom(data, 0) == Lines(data)[0..]
  {
  }

  /** One step from line to line. */
  lemma Visit(data: Bytes, pos: nat, lines: seq<Bytes>, k: nat)
    requires pos <= |data| + 1 && k <= |lines| && LinesFrom(data, pos) == lines[k..]
    ensures pos > |data| <==> k == |lines|
    ensures pos <= |data| ==>
      && k < |lines| && NextLine(data, pos).0 == lines[k] && pos < NextLine(data, pos).1 <= |data| + 1
      && LinesFrom(data, NextLine(data, pos).1) == lines[k + 1..]
  {
    if pos <= |data| {
      assert lines[k..][0] == lines[k] && lines[k..][1..] == lines[k + 1..];
      assert LinesFrom(data, pos)[1..] == LinesFrom(data, NextLine(data, pos).1);
    }
  }

  lemma OneMoreLine(lines: seq<Bytes>, from: nat, n: nat)
    requires from + n < |lines|
    ensures Terminated(lines[from..from + n + 1]) == Terminated(lines[from..from + n]) + lines[from + n] + [NEWLINE]
  {
    assert lines[from..from + n + 1][..n] == lines[from..from + n];
  }

  /** Gathers the window from the start line on. */
  method Collect(data: Bytes, start: nat, ghost lines: seq<Bytes>, startLine: int, lineCount: int) returns (r: Reading)
    requires start <= |data| && Max(startLine, 1) - 1 < |lines| && LinesFrom(data, start) == lines[Max(startLine, 1) - 1..]
    ensures r.Shown? && exists n :: Window(lines, startLine, lineCount, r, n)
  {
    hide LinesFrom, NextLine, Terminated;
    ghost var from := Max(startLine, 1) - 1;
    var pos: nat, collected: nat, body: Bytes := start, 0, [];
    NoLinesYet(lines, from);
    while collected < lineCount && pos <= |data|
      invariant pos <= |data| + 1 && from + collected <= |lines| && LinesFrom(data, pos) == lines[from + collected..]
      invariant body == Terminated(lines[from..from + collected]) && |body| <= MAX_REVIEW_OUTPUT_BYTES
      invariant collected <= Max(lineCount, 0)
    {
      Visit(data, pos, lines, from + collected);
      var (line, next) := NextLine(data, pos);
      OneMoreLine(lines, from, collected);
      if |body| + |line| + 1 > MAX_REVIEW_OUTPUT_BYTES {
        if collected == 0 {
          var remaining := MAX_REVIEW_OUTPUT_BYTES - |body|;
          var cut := BoundedRunePrefixLen(line, remaining);
          r := Shown(body + line[..cut], BudgetWithin);
          assert body == [] by { NoLinesYet(lines, from); }
          assert Window(lines, startLine, lineCount, r, 0);
        } else {
          r := Shown(body, BudgetAfter(collected));
          assert Window(lines, startLine, lineCount, r, collected);
        }
        return;
      }
      body := body + line + [NEWLINE];
      collected := collected + 1;
      pos := next;
    }
    Visit(data, pos, lines, from + collected);
    r := Shown(body, if pos <= |data| then MoreLines else AtEnd);
    assert Window(lines, startLine, lineCount, r, collected);
  }

  lemma NoLinesYet(lines: seq<Bytes>, from: nat)
    requires from <= |lines|
    ensures Terminated(lines[from..from + 0]) == []
  {
  }

  // ---- Searching -----------------------------------------------------------------

  predicate HasAt(line: Bytes, needle: Bytes, i: nat) {
    i + |needle| <= |line| && line[i..i + |needle|] == needle
  }

  predicate Contains(line: Bytes, needle: Bytes) {
    exists i :: 0 <= i <= |line| && HasAt(line, needle, i)
  }

  lemma ContainsIff(line: Bytes, needle: Bytes)
    ensures Contains(line, needle) <==> exists before: Bytes, after: Bytes :: line == before + needle + after
  {
    if i :| 0 <= i <= |line| && HasAt(line, needle, i) {
      assert line == line[..i] + needle + line[i + |needle|..];
    }
    if before: Bytes, after: Bytes :| line == before + needle + after {
      assert HasAt(line, needle, |before|);
    }
  }

  /** A line that holds the query: its path, its number, and its text. */
  datatype Match = Match(path: string, number: nat, line: Bytes)

  /** The matching lines of one file from its line `k` on. */
  function LineMatches(path: string, lines: seq<Bytes>, needle: Bytes, k: nat): seq<Match>
    requires k <= |lines|
    decreases |lines| - k
  {
    if k == |lines| then []
    else (if Contains(lines[k], needle) then [Match(path, k + 1, lines[k])] else []) + LineMatches(path, lines, needle, k + 1)
  }

  predicate Searchable(f: File) {
    f.text && |f.data| <= MAX_REVIEW_SCAN_BYTES
  }

  /** The matching lines of all files small enough to scan, path by path. */
  function AllMatches(files: map<string, File>, keys: seq<string>, needle: Bytes): seq<Match>
    requires forall key :: key in keys ==> key in files
  {
    if keys == [] then []
    else
      var f := files[keys[0]];
      (if Searchable(f) then LineMatches(keys[0], Lines(f.data), needle, 0) else []) + AllMatches(files, keys[1..], needle)
  }

  function EntryLen(m: Match): nat {
    |m.path| + 1 + |Decimal(m.number)| + 2
    + (if |m.line| > MAX_REVIEW_SNIPPET_BYTES then MAX_REVIEW_SNIPPET_BYTES + 3 else |m.line|) + 1
  }

  const ELLIPSIS: Bytes := [0xE2, 0x80, 0xA6]

  function Chars(b: Bytes): string {
    seq(|b|, i requires 0 <= i < |b| => b[i] as char)
  }

  /** A match as the answer shows it. */
  function EntryText(m: Match): string {
    m.path + ":" + Decimal(m.number) + ": "
    + Chars(if |m.line| > MAX_REVIEW_SNIPPET_BYTES then m.line[..MAX_REVIEW_SNIPPET_BYTES] + ELLIPSIS else m.line) + "\n"
  }

  lemma EntryLenIsShown(m: Match)
    ensures EntryLen(m) == |EntryText(m)|
  {
  }

  /** The length of an answer. */
  function Volume(found: seq<Match>): nat {
    if found == [] then 0 else Volume(found[..|found| - 1]) + EntryLen(found[|found| - 1])
  }

  /** There is no room for one more. */
  predicate Full(found: seq<Match>, next: Match) {
    |found| + 1 > MAX_REVIEW_SEARCH_MATCHES || Volume(found) + EntryLen(next) > MAX_REVIEW_OUTPUT_BYTES
  }

  /** Searches one file's lines. `size` is the length of the answer so far. It stops only
      at a match that does not fit. */
  method SearchFile(path: string, data: Bytes, needle: Bytes, found: seq<Match>, size: nat)
    returns (matches: seq<Match>, length: nat, stopped: bool, ghost rest: seq<Match>)
    requires size == Volume(found) <= MAX_REVIEW_OUTPUT_BYTES
    ensures found + LineMatches(path, Lines(data), needle, 0) == matches + rest && (stopped <==> rest != [])
    ensures length == Volume(matches) <= MAX_REVIEW_OUTPUT_BYTES && (stopped ==> Full(matches, rest[0]))
    ensures |found| <= MAX_REVIEW_SEARCH_MATCHES ==> |matches| <= MAX_REVIEW_SEARCH_MATCHES
  {
    hide Contains, LineMatches, Lines, LinesFrom, NextLine, EntryLen;
    ghost var lines := Lines(data);
    Start(data);
    matches, length, stopped, rest := found, size, false, [];
    var number: nat, pos: nat := 1, 0;
    while pos <= |data|
      invariant pos <= |data| + 1 && 1 <= number <= |lines| + 1 && LinesFrom(data, pos) == lines[number - 1..]
      invariant found + LineMatches(path, lines, needle, 0) == matches + LineMatches(path, lines, needle, number - 1)
      invariant |found| <= MAX_REVIEW_SEARCH_MATCHES ==> |matches| <= MAX_REVIEW_SEARCH_MATCHES
      invariant !stopped && rest == [] && length == Volume(matches) <= MAX_REVIEW_OUTPUT_BYTES
      decreases |data| + 1 - pos
    {
      Visit(data, pos, lines, number - 1);
      MatchesFrom(path, lines, needle, number - 1);
      var (line, next) := NextLine(data, pos);
      if Contains(line, needle) {
        var m := Match(path, number, line);
        ghost var tail := LineMatches(path, lines, needle, number);
        if |matches| + 1 > MAX_REVIEW_SEARCH_MATCHES || length + EntryLen(m) > MAX_REVIEW_OUTPUT_BYTES {
          stopped, rest := true, [m] + tail;
          return;
        }
        assert matches + ([m] + tail) == (matches + [m]) + tail && (matches + [m])[..|matches|] == matches;
        matches := matches + [m];
        length := length + EntryLen(m);
      }
      number := number + 1;
      pos := next;
    }
    Visit(data, pos, lines, number - 1);
    MatchesFrom(path, lines, needle, number - 1);
    assert matches + [] == matches;
    assert found + LineMatches(path, lines, needle, 0) == matches + [];
  }

  lemma MatchesFrom(path: string, lines: seq<Bytes>, needle: Bytes, k: nat)
    requires k <= |lines|
    ensures k == |lines| ==> LineMatches(path, lines, needle, k) == []
    ensures k < |lines| ==>
      LineMatches(path, lines, needle, k) ==
      (if Contains(lines[k], needle) then [Match(path, k + 1, lines[k])] else []) + LineMatches(path, lines, needle, k + 1)
  {
  }

  predicate Under(dir: string, key: string) {
    dir == "" || key == dir || dir + "/" <= key
  }

  /** `keys` are the stored paths under a directory, in order. */
  ghost predicate KeysUnder(keys: seq<string>, files: map<string, File>, dir: string) {
    Sorted(keys) && forall key :: key in keys <==> key in files && Under(dir, key)
  }

  /** The bytes there are to scan. */
  function Scanned(files: map<string, File>, keys: seq<string>): nat
    requires forall key :: key in keys ==> key in files
  {
    if keys == [] then 0
    else
      var f := files[keys[|keys| - 1]];
      Scanned(files, keys[..|keys| - 1]) + if Searchable(f) then |f.data| else 0
  }

  lemma {:induction false} ScannedGrows(files: map<string, File>, keys: seq<string>, k: nat)
    requires k <= |keys| && forall key :: key in keys ==> key in files
    ensures Scanned(files, keys[..k]) <= Scanned(files, keys)
  {
    if k == |keys| {
      assert keys[..k] == keys;
    } else {
      ScannedGrows(files, keys[..|keys| - 1], k);
      assert keys[..|keys| - 1][..k] == keys[..k];
    }
  }

  ghost predicate Oversized(files: map<string, File>, keys: seq<string>)
    requires forall key :: key in keys ==> key in files
  {
    exists key :: key in keys && files[key].text && |files[key].data| > MAX_REVIEW_SCAN_BYTES
  }

  lemma KeysAreStored(keys: seq<string>, files: map<string, File>, dir: string)
    requires KeysUnder(keys, files, dir)
    ensures forall key :: key in keys ==> key in files
  {
  }

  /** Searches all text files under a directory. What is found is the beginning of all
      there is to find, up to the first match that does not fit or the first file that is
      too much to scan; the answer says so if anything was left out. */
  method Search(files: map<string, File>, keys: seq<string>, dir: string, query: Bytes)
    returns (found: seq<Match>, truncated: bool)
    requires KeysUnder(keys, files, dir)
    ensures found <= AllMatches(files, keys, query)
    ensures
      var all := AllMatches(files, keys, query);
      || found == all
      || (|found| < |all| && Full(found, all[|found|]))
      || (exists k :: 0 <= k < |keys| && Scanned(files, keys[..k + 1]) > MAX_REVIEW_SCAN_BYTES
                      && found + AllMatches(files, keys[k..], query) == all)
    ensures truncated <==>
      Oversized(files, keys) || Scanned(files, keys) > MAX_REVIEW_SCAN_BYTES || found != AllMatches(files, keys, query)
    ensures Volume(found) <= MAX_REVIEW_OUTPUT_BYTES
    ensures |found| <= MAX_REVIEW_SEARCH_MATCHES
  {
    hide LineMatches, Lines, EntryLen, Volume, Full, Scanned, Oversized, KeysUnder, AllMatches, Searchable;
    KeysAreStored(keys, files, dir);
    Nothing(files);
    found, truncated := [], false;
    var size: nat, scanned: nat := 0, 0;
    assert keys[0..] == keys && keys[..0] == [];
    for i := 0 to |keys|
      invariant found + AllMatches(files, keys[i..], query) == AllMatches(files, keys, query)
      invariant |found| <= MAX_REVIEW_SEARCH_MATCHES
      invariant truncated <==> Oversized(files, keys[..i])
      invariant size == Volume(found) <= MAX_REVIEW_OUTPUT_BYTES
      invariant scanned == Scanned(files, keys[..i]) <= MAX_REVIEW_SCAN_BYTES
    {
      ScannedOnce(files, keys, i);
      ScannedGrows(files, keys, i + 1);
      var f := files[keys[i]];
      NextFile(files, keys, query, i);
      if !f.text {
        continue;
      }
      if |f.data| > MAX_REVIEW_SCAN_BYTES {
        truncated := true;
        continue;
      }
      if scanned + |f.data| > MAX_REVIEW_SCAN_BYTES {
        truncated := true;
        return;
      }
      scanned := scanned + |f.data|;
      ghost var rest := AllMatches(files, keys[i + 1..], query);
      ghost var here := LineMatches(keys[i], Lines(f.data), query, 0);
      var more, length, stopped, left := SearchFile(keys[i], f.data, query, found, size);
      Regroup(found, here, more, left, rest);
      found, size := more, length;
      if stopped {
        StopsShort(found, left, rest);
        truncated := true;
        return;
      }
      assert left + rest == rest;
    }
    NoFile(files, keys, query);
    assert found + [] == found && keys[..|keys|] == keys;
  }

  lemma NextFile(files: map<string, File>, keys: seq<string>, needle: Bytes, i: nat)
    requires i < |keys| && forall key :: key in keys ==> key in files
    ensures
      var f := files[keys[i]];
      && (Searchable(f) <==> f.text && |f.data| <= MAX_REVIEW_SCAN_BYTES)
      && AllMatches(files, keys[i..], needle) ==
         (if Searchable(f) then LineMatches(keys[i], Lines(f.data), needle, 0) else []) + AllMatches(files, keys[i + 1..], needle)
      && (!Searchable(f) ==> AllMatches(files, keys[i..], needle) == AllMatches(files, keys[i + 1..], needle))
  {
    hide LineMatches, Lines;
    assert keys[i..][0] == keys[i] && keys[i..][1..] == keys[i + 1..];
  }

  lemma NoFile(files: map<string, File>, keys: seq<string>, needle: Bytes)
    requires forall key :: key in keys ==> key in files
    ensures AllMatches(files, keys[|keys|..], needle) == []
  {
  }

  lemma StopsShort(found: seq<Match>, left: seq<Match>, rest: seq<Match>)
    requires left != [] && Full(found, left[0])
    ensures
      var all := found + (left + rest);
      found <= all && |found| < |all| && Full(found, all[|found|])
  {
    hide Full;
    assert (found + (left + rest))[|found|] == left[0];
  }

  lemma Nothing(files: map<string, File>)
    ensures Volume([]) == 0 && Scanned(files, []) == 0 && !Oversized(files, [])
  {
  }

  /** One more file. */
  lemma ScannedOnce(files: map<string, File>, keys: seq<string>, i: nat)
    requires i < |keys| && forall key :: key in keys ==> key in files
    ensures
      var f := files[keys[i]];
      && Scanned(files, keys[..i + 1]) == Scanned(files, keys[..i]) + (if Searchable(f) then |f.data| else 0)
      && (Oversized(files, keys[..i + 1]) <==> Oversized(files, keys[..i]) || (f.text && |f.data| > MAX_REVIEW_SCAN_BYTES))
  {
    assert keys[..i + 1][..i] == keys[..i] && keys[..i + 1][i] == keys[i];
    assert forall key :: key in keys[..i + 1] <==> key in keys[..i] || key == keys[i];
  }

  lemma Regroup(a: seq<Match>, b: seq<Match>, c: seq<Match>, d: seq<Match>, e: seq<Match>)
    requires a + b == c + d
    ensures a + (b + e) == c + (d + e)
  {
    assert a + (b + e) == (a + b) + e;
    assert c + (d + e) == (c + d) + e;
  }

  lemma {:induction false} LineMatchesAre(path: string, lines: seq<Bytes>, needle: Bytes, k: nat, m: Match)
    requires k <= |lines|
    ensures m in LineMatches(path, lines, needle, k) <==>
      m.path == path && k < m.number <= |lines| && m.line == lines[m.number - 1] && Contains(m.line, needle)
    decreases |lines| - k
  {
    hide Contains;
    MatchesFrom(path, lines, needle, k);
    if k < |lines| {
      LineMatchesAre(path, lines, needle, k + 1, m);
    }
  }

  /** All there is to find are the lines, of the files under the directory that are text and
      small enough, that hold the query. */
  lemma {:induction false} AllMatchesAre(files: map<string, File>, keys: seq<string>, needle: Bytes, m: Match)
    requires forall key :: key in keys ==> key in files
    ensures m in AllMatches(files, keys, needle) <==>
      && m.path in keys && Searchable(files[m.path])
      && 1 <= m.number <= |Lines(files[m.path].data)| && m.line == Lines(files[m.path].data)[m.number - 1]
      && Contains(m.line, needle)
  {
    hide Contains, Lines, LineMatches;
    if keys != [] {
      AllMatchesAre(files, keys[1..], needle, m);
      LineMatchesAre(keys[0], Lines(files[keys[0]].data), needle, 0, m);
    }
  }

  ghost predicate Precedes(m: Match, n: Match) {
    Before(CharLess, m.path, n.path) || (m.path == n.path && m.number < n.number)
  }

  ghost predicate InOrder(matches: seq<Match>) {
    forall i, j :: 0 <= i < j < |matches| ==> Precedes(matches[i], matches[j])
  }

  lemma {:induction false} LineMatchesInOrder(path: string, lines: seq<Bytes>, needle: Bytes, k: nat)
    requires k <= |lines|
    ensures InOrder(LineMatches(path, lines, needle, k))
    decreases |lines| - k
  {
    hide Contains, Before;
    MatchesFrom(path, lines, needle, k);
    if k < |lines| {
      LineMatchesInOrder(path, lines, needle, k + 1);
      forall m | m in LineMatches(path, lines, needle, k + 1) ensures m.path == path && k + 1 < m.number {
        LineMatchesAre(path, lines, needle, k + 1, m);
      }
    }
  }

  /** What there is to find comes path by path and line by line, nothing twice. */
  lemma {:induction false} AllMatchesInOrder(files: map<string, File>, keys: seq<string>, needle: Bytes)
    requires Sorted(keys) && forall key :: key in keys ==> key in files
    ensures InOrder(AllMatches(files, keys, needle))
  {
    hide Contains, Before, LineMatches, Lines;
    if keys != [] {
      AllMatchesInOrder(files, keys[1..], needle);
      var lines := Lines(files[keys[0]].data);
      LineMatchesInOrder(keys[0], lines, needle, 0);
      forall m | m in LineMatches(keys[0], lines, needle, 0) ensures m.path == keys[0] {
        LineMatchesAre(keys[0], lines, needle, 0, m);
      }
      forall m | m in AllMatches(files, keys[1..], needle) ensures Before(CharLess, keys[0], m.path) {
        AllMatchesAre(files, keys[1..], needle, m);
      }
    }
  }

  // ---- Listing -------------------------------------------------------------------

  function Prefix(dir: string): string {
    if dir == "" then "" else dir + "/"
  }

  /** The first name below `dir` on the way to `key`, and whether more follow it. */
  function Step(dir: string, key: string): Option<Halves> {
    if Prefix(dir) <= key && key != Prefix(dir) then Some(Cut(key[|Prefix(dir)|..], '/')) else None
  }

  function Joined(dir: string, rest: string): string {
    if dir == "" then rest else dir + "/" + rest
  }

  /** A step is taken exactly to what is below the directory, and the way on from it leads
      to the path. */
  lemma StepIsBelow(dir: string, key: string)
    ensures Step(dir, key).Some? <==> exists rest :: rest != "" && key == Joined(dir, rest)
    ensures Step(dir, key).Some? ==>
      var h := Step(dir, key).value;
      '/' !in h.head && key == Joined(dir, Glue(h.head, '/', h.tail))
  {
    if Step(dir, key).Some? {
      var rest := key[|Prefix(dir)|..];
      assert key == Prefix(dir) + rest;
      GlueCut(rest, '/');
      assert rest != "" && key == Joined(dir, rest);
    }
    if rest :| rest != "" && key == Joined(dir, rest) {
      assert key == Prefix(dir) + rest;
    }
  }

  predicate LeadsTo(dir: string, key: string, name: string) {
    Step(dir, key).Some? && Step(dir, key).value.head == name
  }

  ghost predicate IsChild(files: map<string, File>, dir: string, name: string) {
    exists key :: key in files && LeadsTo(dir, key, name)
  }

  ghost predicate IsDirectory(files: map<string, File>, dir: string, name: string) {
    exists key :: key in files && LeadsTo(dir, key, name) && Step(dir, key).value.tail.Some?
  }

  /** Gathers the children of a directory from the stored paths. */
  method Children(files: map<string, File>, dir: string) returns (names: set<string>, dirs: set<string>)
    ensures forall name :: name in names <==> IsChild(files, dir, name)
    ensures forall name :: name in dirs <==> IsDirectory(files, dir, name)
  {
    hide Step;
    names, dirs := {}, {};
    var left := files.Keys;
    while left != {}
      invariant left <= files.Keys
      invariant forall name :: name in names <==> exists key :: key in files && key !in left && LeadsTo(dir, key, name)
      invariant forall name :: name in dirs <==>
        exists key :: key in files && key !in left && LeadsTo(dir, key, name) && Step(dir, key).value.tail.Some?
      decreases |left|
    {
      var key :| key in left;
      left := left - {key};
      var step := Step(dir, key);
      if step.None? {
        continue;
      }
      assert LeadsTo(dir, key, step.value.head);
      if step.value.tail.Some? {
        dirs := dirs + {step.value.head};
      }
      names := names + {step.value.head};
    }
  }

  /** No name below a directory is longer than a stored path. */
  lemma ChildIsShort(files: map<string, File>, dir: string, name: string)
    requires IsChild(files, dir, name) && forall key :: key in files ==> |key| <= MAX_PATH_BYTES
    ensures |name| <= MAX_PATH_BYTES
  {
    var key :| key in files && LeadsTo(dir, key, name);
  }

  datatype Entry = Entry(name: string, dir: bool)

  datatype Page = NoEntries | BadOffset | Entries(shown: seq<Entry>, truncated: bool)

  function EntrySize(e: Entry): nat {
    (if e.dir then 3 else 4) + 1 + |e.name| + 1
  }

  /** An entry as the page shows it. */
  function EntryShown(e: Entry): string {
    (if e.dir then "dir" else "file") + "\t" + e.name + "\n"
  }

  lemma EntrySizeIsShown(e: Entry)
    ensures EntrySize(e) == |EntryShown(e)|
  {
  }

  function PageSize(shown: seq<Entry>): nat {
    if shown == [] then 0 else PageSize(shown[..|shown| - 1]) + EntrySize(shown[|shown| - 1])
  }

  /** The children in order, each with its kind. */
  function Marked(names: seq<string>, dirs: set<string>): (entries: seq<Entry>)
    ensures |entries| == |names| && forall i :: 0 <= i < |names| ==> entries[i] == Entry(names[i], names[i] in dirs)
  {
    if names == [] then [] else [Entry(names[0], names[0] in dirs)] + Marked(names[1..], dirs)
  }

  /** The page shows the entries from the offset on, as many as count and bytes allow. */
  ghost predicate Stretch(all: seq<Entry>, offset: nat, page: Page)
    requires page.Entries?
  {
    var n := |page.shown|;
    && offset + n <= |all| && page.shown == all[offset..offset + n]
    && (page.truncated <==> offset + n < |all|)
    && n <= MAX_REVIEW_LIST_ENTRIES && PageSize(page.shown) <= MAX_REVIEW_OUTPUT_BYTES
    && (page.truncated ==>
          n == MAX_REVIEW_LIST_ENTRIES || PageSize(all[offset..offset + n + 1]) > MAX_REVIEW_OUTPUT_BYTES)
  }

  function Piece(all: seq<Entry>, from: nat, to: nat): seq<Entry>
    requires from <= to <= |all|
  {
    all[from..to]
  }

  lemma EmptyPiece(all: seq<Entry>, from: nat)
    requires from <= |all|
    ensures Piece(all, from, from) == [] && PageSize([]) == 0
  {
  }

  lemma OneMoreEntry(all: seq<Entry>, from: nat, i: nat)
    requires from <= i < |all|
    ensures Piece(all, from, i + 1) == Piece(all, from, i) + [all[i]] && |Piece(all, from, i)| == i - from
    ensures PageSize(Piece(all, from, i + 1)) == PageSize(Piece(all, from, i)) + EntrySize(all[i])
  {
    assert all[from..i + 1][..i - from] == all[from..i];
  }

  lemma IsStretch(all: seq<Entry>, from: nat, to: nat)
    requires from <= to <= |all| && to - from <= MAX_REVIEW_LIST_ENTRIES
    requires PageSize(Piece(all, from, to)) <= MAX_REVIEW_OUTPUT_BYTES
    ensures |Piece(all, from, to)| == to - from
    ensures to == |all| ==> Stretch(all, from, Entries(Piece(all, from, to), false))
    ensures to < |all| && (to - from == MAX_REVIEW_LIST_ENTRIES || PageSize(Piece(all, from, to + 1)) > MAX_REVIEW_OUTPUT_BYTES) ==>
      Stretch(all, from, Entries(Piece(all, from, to), true))
  {
  }

  /** One page of a listing: a stretch from the offset, as long as count and bytes allow. */
  method List(names: seq<string>, dirs: set<string>, offset: int) returns (page: Page)
    ensures page == NoEntries <==> names == []
    ensures page == BadOffset <==> names != [] && !(0 <= offset < |names|)
    ensures page.Entries? ==> offset >= 0 && Stretch(Marked(names, dirs), offset, page)
  {
    if |names| == 0 {
      return NoEntries;
    }
    if offset < 0 || offset >= |names| {
      return BadOffset;
    }
    hide PageSize, EntrySize, Stretch, Piece;
    ghost var all := Marked(names, dirs);
    var shown: seq<Entry>, size: nat, i: nat := [], 0, offset;
    EmptyPiece(all, offset);
    while i < |names|
      invariant offset <= i <= |names| && shown == Piece(all, offset, i) && i - offset == |shown| <= MAX_REVIEW_LIST_ENTRIES
      invariant size == PageSize(shown) <= MAX_REVIEW_OUTPUT_BYTES
    {
      var e := Entry(names[i], names[i] in dirs);
      OneMoreEntry(all, offset, i);
      IsStretch(all, offset, i);
      if |shown| >= MAX_REVIEW_LIST_ENTRIES || size + EntrySize(e) > MAX_REVIEW_OUTPUT_BYTES {
        return Entries(shown, true);
      }
      shown := shown + [e];
      size := size + EntrySize(e);
      i := i + 1;
    }
    IsStretch(all, offset, i);
    return Entries(shown, false);
  }

  /** Any single child fits a page. */
  lemma FirstFits(files: map<string, File>, dir: string, names: seq<string>, dirs: set<string>, k: nat)
    requires k < |names| && IsChild(files, dir, names[k]) && forall key :: key in files ==> |key| <= MAX_PATH_BYTES
    ensures PageSize(Marked(names, dirs)[k..k + 1]) <= MAX_REVIEW_OUTPUT_BYTES
  {
    hide IsChild;
    ChildIsShort(files, dir, names[k]);
    var e := Marked(names, dirs)[k];
    assert Marked(names, dirs)[k..k + 1] == [e];
    assert [e][..0] == [];
  }

  /** Following the advertised offsets shows every child once, in order, and comes to an
      end: a stored name always fits a page. */
  method FollowPages(files: map<string, File>, dir: string, names: seq<string>, dirs: set<string>) returns (all: seq<Entry>)
    requires Sorted(names) && forall name :: name in names <==> IsChild(files, dir, name)
    requires forall key :: key in files ==> |key| <= MAX_PATH_BYTES
    ensures all == Marked(names, dirs)
  {
    hide Before, IsChild, PageSize, Marked, Stretch, Sorted;
    all := [];
    var offset: nat := 0;
    var page := List(names, dirs, offset);
    if page == NoEntries {
      return;
    }
    ghost var entries := Marked(names, dirs);
    FirstFits(files, dir, names, dirs, 0);
    PageAdvances(entries, offset, page);
    while page.truncated
      invariant page.Entries? && offset < |names| && all == entries[..offset]
      invariant Stretch(entries, offset, page) && PageSize(entries[offset..offset + 1]) <= MAX_REVIEW_OUTPUT_BYTES
      decreases |names| - offset
    {
      PageAdvances(entries, offset, page);
      all := all + page.shown;
      offset := offset + |page.shown|;
      FirstFits(files, dir, names, dirs, offset);
      page := List(names, dirs, offset);
      PageAdvances(entries, offset, page);
    }
    PageAdvances(entries, offset, page);
    all := all + page.shown;
    assert entries[..|entries|] == entries;
  }

  lemma PageAdvances(all: seq<Entry>, offset: nat, page: Page)
    requires page.Entries? && offset < |all| && Stretch(all, offset, page)
    requires PageSize(all[offset..offset + 1]) <= MAX_REVIEW_OUTPUT_BYTES
    ensures page.shown != [] && all[..offset] + page.shown == all[..offset + |page.shown|]
    ensures page.truncated ==> offset + |page.shown| < |all|
    ensures !page.truncated ==> offset + |page.shown| == |all|
  {
  }

  // ---- Evidence ------------------------------------------------------------------

  datatype EvidenceRef = EvidenceRef(path: string, lineStart: int, lineEnd: int)

  predicate Cited(files: map<string, File>, ref: EvidenceRef) {
    ref.path in files && files[ref.path].text && ref.lineEnd <= CountLines(files[ref.path].data)
  }

  /** Evidence must cite text files of the snapshot and end within them. */
  method ValidateEvidenceRefs(files: map<string, File>, refs: seq<EvidenceRef>) returns (ok: bool)
    ensures ok <==> forall ref :: ref in refs ==> Cited(files, ref)
  {
    for i := 0 to |refs|
      invariant forall k :: 0 <= k < i ==> Cited(files, refs[k])
    {
      var ref := refs[i];
      if ref.path !in files || !files[ref.path].text || ref.lineEnd > CountLines(files[ref.path].data) {
        assert ref in refs && !Cited(files, ref);
        return false;
      }
    }
    return true;
  }

  /** A line can be cited exactly when it can be read. */
  method CitableIsReadable(files: map<string, File>, path: string, line: int, count: int) returns (citable: bool, r: Reading)
    ensures citable <==> r.Shown?
  {
    citable := ValidateEvidenceRefs(files, [EvidenceRef(path, line, line)]);
    assert EvidenceRef(path, line, line) in [EvidenceRef(path, line, line)];
    r := Read(files, path, line, count);
  }

  /** Coverage must list every planned file once and nothing else. */
  method ValidateCoverageFileSet(paths: seq<string>, planned: set<string>) returns (ok: bool)
    ensures ok <==>
      (forall path :: path in paths <==> path in planned) && (forall i, j :: 0 <= i < j < |paths| ==> paths[i] != paths[j])
  {
    var seen: set<string> := {};
    for i := 0 to |paths|
      invariant seen <= planned && forall path :: path in seen <==> path in paths[..i]
      invariant forall j, k :: 0 <= j < k < i ==> paths[j] != paths[k]
    {
      if paths[i] !in planned {
        assert paths[i] in paths;
        return false;
      }
      if paths[i] in seen {
        ghost var j :| 0 <= j < i && paths[j] == paths[i];
        return false;
      }
      seen := seen + {paths[i]};
    }
    assert paths[..|paths|] == paths;
    SameSize(seen, planned);
    if |seen| != |planned| {
      return false;
    }
    return true;
  }

  lemma SameSize(a: set<string>, b: set<string>)
    requires a <= b
    ensures |a| == |b| <==> a == b
  {
    if a != b {
      var x :| x in b && x !in a;
      Smaller(a, b - {x});
    }
  }

  lemma {:induction false} Smaller(a: set<string>, b: set<string>)
    requires a <= b
    ensures |a| <= |b|
  {
    if a != {} {
      var x :| x in a;
      Smaller(a - {x}, b - {x});
    }
  }
}
