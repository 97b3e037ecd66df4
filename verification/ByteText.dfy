/** Bytes, their lines, and UTF-8. */
module ByteText {

  type Byte = b: int | 0 <= b < 256

  type Bytes = seq<Byte>

  const NEWLINE: Byte := 10

  // ---- Lines ---------------------------------------------------------------------

  /** The first newline at or after `pos`, or the length. */
  function NewlineAt(data: Bytes, pos: nat): (i: nat)
    requires pos <= |data|
    ensures pos <= i <= |data| && (i < |data| ==> data[i] == NEWLINE)
    ensures forall k :: pos <= k < i ==> data[k] != NEWLINE
    decreases |data| - pos
  {
    if pos == |data| || data[pos] == NEWLINE then pos else NewlineAt(data, pos + 1)
  }

  /** The line at `pos`, and where the next one starts. */
  function NextLine(data: Bytes, pos: nat): (r: (Bytes, nat))
    requires pos <= |data|
    ensures pos < r.1 <= |data| + 1
  {
    var i := NewlineAt(data, pos);
    if i < |data| then (data[pos..i], i + 1) else (data[pos..], |data| + 1)
  }

  /** The lines that stepping from `pos` visits. */
  function LinesFrom(data: Bytes, pos: nat): (lines: seq<Bytes>)
    requires pos <= |data| + 1
    ensures lines == [] <==> pos == |data| + 1
    decreases |data| + 1 - pos
  {
    if pos > |data| then []
    else
      var (line, next) := NextLine(data, pos);
      [line] + LinesFrom(data, next)
  }

  function Lines(data: Bytes): seq<Bytes> {
    LinesFrom(data, 0)
  }

  function Newlines(data: Bytes): nat {
    if data == [] then 0 else (if data[0] == NEWLINE then 1 else 0) + Newlines(data[1..])
  }

  function CountLines(data: Bytes): nat {
    Newlines(data) + 1
  }

  function Join(lines: seq<Bytes>): Bytes
    requires lines != []
  {
    if |lines| == 1 then lines[0] else lines[0] + [NEWLINE] + Join(lines[1..])
  }

  lemma {:induction false} NewlinesSplit(a: Bytes, b: Bytes)
    ensures Newlines(a + b) == Newlines(a) + Newlines(b)
  {
    if a == [] {
      assert a + b == b;
    } else {
      assert (a + b)[1..] == a[1..] + b;
      NewlinesSplit(a[1..], b);
    }
  }

  lemma {:induction false} NoNewlines(a: Bytes)
    requires NEWLINE !in a
    ensures Newlines(a) == 0
  {
    if a != [] {
      NoNewlines(a[1..]);
    }
  }

  lemma CutAtNewline(data: Bytes, pos: nat, i: nat)
    requires pos <= i < |data| && data[i] == NEWLINE && NEWLINE !in data[pos..i]
    ensures data[pos..] == data[pos..i] + [NEWLINE] + data[i + 1..]
    ensures CountLines(data[pos..]) == 1 + CountLines(data[i + 1..])
  {
    var line, rest := data[pos..i], data[i + 1..];
    assert data[pos..] == line + [NEWLINE] + rest;
    NoNewlines(line);
    NewlinesSplit(line + [NEWLINE], rest);
    NewlinesSplit(line, [NEWLINE]);
    assert [NEWLINE][1..] == [];
  }

  /** Stepping from line to line visits a partition of the data: the lines put back
      together are the data, none holds a newline, and there are as many as are counted. */
  lemma {:induction false} LinesTile(data: Bytes, pos: nat)
    requires pos <= |data|
    ensures Join(LinesFrom(data, pos)) == data[pos..] && |LinesFrom(data, pos)| == CountLines(data[pos..])
    ensures forall line :: line in LinesFrom(data, pos) ==> NEWLINE !in line
    decreases |data| - pos
  {
    hide Newlines, Join, LinesFrom, CountLines;
    var i := NewlineAt(data, pos);
    LinesUnfold(data, pos);
    if i < |data| {
      CutAtNewline(data, pos, i);
      LinesTile(data, i + 1);
      JoinMore(data[pos..i], LinesFrom(data, i + 1));
    } else {
      LastLine(data[pos..]);
    }
  }

  lemma LinesUnfold(data: Bytes, pos: nat)
    requires pos <= |data|
    ensures
      var i := NewlineAt(data, pos);
      LinesFrom(data, pos) == if i < |data| then [data[pos..i]] + LinesFrom(data, i + 1) else [data[pos..]]
  {
  }

  lemma JoinMore(line: Bytes, rest: seq<Bytes>)
    requires rest != []
    ensures Join([line] + rest) == line + [NEWLINE] + Join(rest)
  {
    assert ([line] + rest)[1..] == rest;
  }

  lemma LastLine(line: Bytes)
    requires NEWLINE !in line
    ensures Join([line]) == line && CountLines(line) == 1
  {
    NoNewlines(line);
  }

  // ---- UTF-8 ---------------------------------------------------------------------

  type Rune = r: int | (0 <= r < 0xD800 || 0xE000 <= r < 0x11_0000)

  function RuneLen(r: Rune): (n: nat)
    ensures 1 <= n <= 4
  {
    if r < 0x80 then 1 else if r < 0x800 then 2 else if r < 0x1_0000 then 3 else 4
  }

  function Continuation(r: int): Byte {
    0x80 + r % 64
  }

  function Encode(r: Rune): (bytes: Bytes)
    ensures |bytes| == RuneLen(r)
    ensures RuneStart(bytes[0]) && forall k :: 1 <= k < |bytes| ==> !RuneStart(bytes[k])
  {
    if r < 0x80 then [r]
    else if r < 0x800 then [0xC0 + r / 64, Continuation(r)]
    else if r < 0x1_0000 then [0xE0 + r / 4096, Continuation(r / 64), Continuation(r)]
    else [0xF0 + r / 262144, Continuation(r / 4096), Continuation(r / 64), Continuation(r)]
  }

  /** A byte that can begin a rune. */
  predicate RuneStart(b: Byte) {
    !(0x80 <= b < 0xC0)
  }

  function EncodeAll(runes: seq<Rune>): Bytes {
    if runes == [] then [] else Encode(runes[0]) + EncodeAll(runes[1..])
  }

  lemma {:induction false} EncodeAllSplit(a: seq<Rune>, b: seq<Rune>)
    ensures EncodeAll(a + b) == EncodeAll(a) + EncodeAll(b)
  {
    if a == [] {
      assert a + b == b;
    } else {
      assert (a + b)[1..] == a[1..] + b;
      EncodeAllSplit(a[1..], b);
    }
  }

  predicate Follows(s: Bytes, low: int, high: int, count: nat)
    requires count > 0
  {
    && |s| > count && low <= s[1] <= high
    && (forall k :: 2 <= k <= count ==> 0x80 <= s[k] < 0xC0)
  }

  predicate ValidUtf8(s: Bytes) {
    if s == [] then true
    else if s[0] < 0x80 then ValidUtf8(s[1..])
    else if 0xC2 <= s[0] < 0xE0 then Follows(s, 0x80, 0xBF, 1) && ValidUtf8(s[2..])
    else if 0xE0 <= s[0] < 0xF0 then
      Follows(s, if s[0] == 0xE0 then 0xA0 else 0x80, if s[0] == 0xED then 0x9F else 0xBF, 2) && ValidUtf8(s[3..])
    else
      && 0xF0 <= s[0] < 0xF5
      && Follows(s, if s[0] == 0xF0 then 0x90 else 0x80, if s[0] == 0xF4 then 0x8F else 0xBF, 3) && ValidUtf8(s[4..])
  }

  /** Whatever follows it, an encoded rune is taken as it was encoded. */
  lemma EncodedFirst(r: Rune, rest: Bytes)
    ensures ValidUtf8(Encode(r) + rest) <==> ValidUtf8(rest)
  {
    var s, n := Encode(r) + rest, RuneLen(r);
    assert s[n..] == rest;
    assert forall k :: 0 <= k < n ==> s[k] == Encode(r)[k];
  }

  lemma Last64(q: nat, d: nat)
    requires d < 64
    ensures (q * 64 + d) / 64 == q && (q * 64 + d) % 64 == d
  {
  }

  lemma Last4096(q: nat, d: nat)
    requires d < 4096
    ensures (q * 4096 + d) / 4096 == q
  {
  }

  lemma Last262144(q: nat, d: nat)
    requires d < 262144
    ensures (q * 262144 + d) / 262144 == q
  {
  }

  /** A rune is told by its digits to the base 64. */
  lemma Digits64(a: nat, b: nat, c: nat, d: nat)
    requires b < 64 && c < 64 && d < 64
    ensures
      var r := a * 262144 + b * 4096 + c * 64 + d;
      && r / 262144 == a && r / 4096 == a * 64 + b && r / 64 == a * 4096 + b * 64 + c
      && Continuation(r) == 0x80 + d && Continuation(r / 64) == 0x80 + c && Continuation(r / 4096) == 0x80 + b
  {
    Last64(a * 4096 + b * 64 + c, d);
    Last64(a * 64 + b, c);
    Last64(a, b);
    Last4096(a * 64 + b, c * 64 + d);
    Last262144(a, b * 4096 + c * 64 + d);
  }

  /** The rune that well-formed bytes begin with. */
  lemma FirstRune(s: Bytes) returns (r: Rune)
    requires s != [] && ValidUtf8(s)
    ensures RuneLen(r) <= |s| && s[..RuneLen(r)] == Encode(r) && ValidUtf8(s[RuneLen(r)..])
  {
    hide Continuation;
    var a: int := s[0];
    if a < 0x80 {
      r := a;
    } else if a < 0xE0 {
      var b: int := s[1];
      Digits64(0, 0, a - 0xC0, b - 0x80);
      r := (a - 0xC0) * 64 + (b - 0x80);
    } else if a < 0xF0 {
      var b: int, c: int := s[1], s[2];
      Digits64(0, a - 0xE0, b - 0x80, c - 0x80);
      r := (a - 0xE0) * 4096 + (b - 0x80) * 64 + (c - 0x80);
    } else {
      var b: int, c: int, d: int := s[1], s[2], s[3];
      Digits64(a - 0xF0, b - 0x80, c - 0x80, d - 0x80);
      r := (a - 0xF0) * 262144 + (b - 0x80) * 4096 + (c - 0x80) * 64 + (d - 0x80);
    }
  }

  lemma {:induction false} EncodedIsValid(runes: seq<Rune>)
    ensures ValidUtf8(EncodeAll(runes))
  {
    hide Encode;
    if runes != [] {
      EncodedIsValid(runes[1..]);
      EncodedFirst(runes[0], EncodeAll(runes[1..]));
    }
  }

  lemma {:induction false} ValidIsEncoded(s: Bytes) returns (runes: seq<Rune>)
    requires ValidUtf8(s)
    ensures s == EncodeAll(runes)
    decreases |s|
  {
    hide ValidUtf8, Encode;
    runes := [];
    if s != [] {
      var r := FirstRune(s);
      var rest := ValidIsEncoded(s[RuneLen(r)..]);
      runes := [r] + rest;
      assert runes[1..] == rest;
    }
  }

  /** Bytes are well formed exactly if they are encoded runes. */
  lemma ValidUtf8Iff(s: Bytes)
    ensures ValidUtf8(s) <==> exists runes: seq<Rune> :: s == EncodeAll(runes)
  {
    if ValidUtf8(s) {
      var runes := ValidIsEncoded(s);
    }
    if runes: seq<Rune> :| s == EncodeAll(runes) {
      EncodedIsValid(runes);
    }
  }

  /** The places between runes are the end and the bytes that can begin one. */
  ghost predicate Boundary(runes: seq<Rune>, n: nat) {
    exists k :: 0 <= k <= |runes| && |EncodeAll(runes[..k])| == n
  }

  lemma {:induction false} BoundaryIsStart(runes: seq<Rune>, n: nat)
    requires n <= |EncodeAll(runes)|
    ensures Boundary(runes, n) <==> n == |EncodeAll(runes)| || RuneStart(EncodeAll(runes)[n])
  {
    if runes == [] {
      assert runes[..0] == [];
    } else {
      var head, rest := Encode(runes[0]), runes[1..];
      assert runes[..0] == [];
      if n >= |head| {
        BoundaryIsStart(rest, n - |head|);
        if Boundary(rest, n - |head|) {
          var k :| 0 <= k <= |rest| && |EncodeAll(rest[..k])| == n - |head|;
          assert runes[..k + 1][1..] == rest[..k] && runes[..k + 1][0] == runes[0];
          assert |EncodeAll(runes[..k + 1])| == n;
        }
        if Boundary(runes, n) {
          var k :| 0 <= k <= |runes| && |EncodeAll(runes[..k])| == n;
          assert k > 0 && runes[..k][1..] == rest[..k - 1] && runes[..k][0] == runes[0];
          assert |EncodeAll(rest[..k - 1])| == n - |head|;
        }
      } else if n > 0 {
        forall k | 0 <= k <= |runes| ensures |EncodeAll(runes[..k])| != n {
          assert k > 0 ==> runes[..k][0] == runes[0];
        }
      }
    }
  }

  /** If `data` is encoded runes, its first `cut` bytes are the longest beginning of at most
      `limit` bytes that keeps every rune whole. */
  ghost predicate LongestWhole(data: Bytes, cut: nat, limit: int) {
    forall runes :: data == EncodeAll(runes) ==>
      Boundary(runes, cut) && forall n :: cut < n <= |data| && n <= limit ==> !Boundary(runes, n)
  }

  /** The longest prefix of at most `limit` bytes that keeps every rune whole. */
  method BoundedRunePrefixLen(data: Bytes, limit: int) returns (cut: nat)
    ensures cut <= |data| && (limit >= 0 ==> cut <= limit) && (limit < 0 ==> cut == 0)
    ensures limit >= |data| ==> cut == |data|
    ensures LongestWhole(data, cut, limit)
  {
    if 0 <= limit && limit >= |data| {
      cut := |data|;
      forall runes: seq<Rune> | data == EncodeAll(runes) ensures Boundary(runes, cut) {
        BoundaryIsStart(runes, cut);
      }
      return;
    }
    cut := if limit < 0 then 0 else limit;
    while cut > 0 && RuneStart(data[cut]) == false
      invariant cut <= |data| && (limit >= 0 ==> cut <= limit) && (limit < 0 ==> cut == 0)
      invariant forall n :: cut < n <= |data| && n <= limit ==> n < |data| && !RuneStart(data[n])
    {
      cut := cut - 1;
    }
    forall runes: seq<Rune> | data == EncodeAll(runes)
      ensures Boundary(runes, cut) && forall n :: cut < n <= |data| && n <= limit ==> !Boundary(runes, n)
    {
      BoundaryIsStart(runes, cut);
      BoundaryIsStart(runes, 0);
      StartsWithRune(runes);
      forall n | cut < n <= |data| && n <= limit ensures !Boundary(runes, n) {
        BoundaryIsStart(runes, n);
      }
    }
  }

  lemma StartsWithRune(runes: seq<Rune>)
    ensures EncodeAll(runes) != [] ==> RuneStart(EncodeAll(runes)[0])
  {
  }
}
