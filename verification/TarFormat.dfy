/** Fields, paths and extension records of a tar archive (internal/workspace/tar.go): how they
    are read, and that reading undoes writing. */
module TarFormat {
  import opened Directory
  import opened ByteText

  const SPACE: Byte := 32
  const SLASH: Byte := 47
  const BLOCK := 512

  // ---- Splitting -----------------------------------------------------------------

  /** The first `c`, or the length. */
  function Find(s: Bytes, c: Byte): (i: nat)
    ensures i <= |s| && c !in s[..i] && (i < |s| ==> s[i] == c)
  {
    if s == [] || s[0] == c then 0
    else
      var i := 1 + Find(s[1..], c);
      assert s[..i] == [s[0]] + s[1..][..i - 1];
      i
  }

  datatype Halves = Halves(head: Bytes, tail: Option<Bytes>)

  /** `s` up to the first `c`, and what follows that `c`. */
  function Cut(s: Bytes, c: Byte): (h: Halves)
    ensures h.tail.Some? ==> |h.tail.value| < |s|
  {
    var i := Find(s, c);
    if i == |s| then Halves(s, None) else Halves(s[..i], Some(s[i + 1..]))
  }

  lemma FindFirst(a: Bytes, c: Byte, b: Bytes)
    requires c !in a
    ensures Find(a + [c] + b, c) == |a|
  {
    var s := a + [c] + b;
    var i := Find(s, c);
    assert s[|a|] == c && forall k :: 0 <= k < |a| ==> s[k] == a[k];
    assert forall k :: 0 <= k < i ==> s[k] in s[..i];
  }

  lemma CutFirst(a: Bytes, c: Byte, b: Bytes)
    requires c !in a
    ensures Cut(a + [c] + b, c) == Halves(a, Some(b)) && Cut(a, c) == Halves(a, None)
  {
    FindFirst(a, c, b);
    var s := a + [c] + b;
    assert s[..|a|] == a && s[|a| + 1..] == b;
  }

  function Segments(path: Bytes): (segments: seq<Bytes>)
    ensures segments != []
    decreases |path|
  {
    var h := Cut(path, SLASH);
    if h.tail.None? then [path] else [h.head] + Segments(h.tail.value)
  }

  function JoinSegments(segments: seq<Bytes>): Bytes
    requires segments != []
  {
    if |segments| == 1 then segments[0] else segments[0] + [SLASH] + JoinSegments(segments[1..])
  }

  lemma {:induction false} SegmentsJoin(segments: seq<Bytes>)
    requires segments != [] && forall s :: s in segments ==> SLASH !in s
    ensures Segments(JoinSegments(segments)) == segments
  {
    hide Find, Cut;
    var head := segments[0];
    assert head in segments;
    if |segments| == 1 {
      CutFirst(head, SLASH, []);
      assert segments == [head];
    } else {
      SegmentsJoin(segments[1..]);
      CutFirst(head, SLASH, JoinSegments(segments[1..]));
      assert segments == [head] + segments[1..];
    }
  }

  // ---- Numbers -------------------------------------------------------------------

  function TrimLeft(s: Bytes, cut: set<Byte>): Bytes {
    if s != [] && s[0] in cut then TrimLeft(s[1..], cut) else s
  }

  function TrimRight(s: Bytes, cut: set<Byte>): Bytes {
    if s != [] && s[|s| - 1] in cut then TrimRight(s[..|s| - 1], cut) else s
  }

  predicate DigitsBelow(s: Bytes, base: nat) {
    forall b :: b in s ==> 48 <= b < 48 + base
  }

  function Value(s: Bytes, base: nat): nat
    requires DigitsBelow(s, base)
  {
    if s == [] then 0
    else
      var rest, last := s[..|s| - 1], s[|s| - 1];
      assert last in s && forall b :: b in rest ==> b in s;
      base * Value(rest, base) + (last as int - 48)
  }

  function Octal(field: Bytes): Option<nat> {
    var digits := TrimLeft(TrimRight(field, {SPACE, 0}), {SPACE, 0});
    if DigitsBelow(digits, 8) then Some(Value(digits, 8)) else None
  }

  function Power8(n: nat): nat {
    if n == 0 then 1 else 8 * Power8(n - 1)
  }

  /** `n` in `width` octal digits. */
  function OctalDigits(n: nat, width: nat): (s: Bytes)
    requires n < Power8(width)
    ensures |s| == width && DigitsBelow(s, 8)
  {
    if width == 0 then [] else OctalDigits(n / 8, width - 1) + [48 + n % 8]
  }

  lemma {:induction false} OctalDigitsValue(n: nat, width: nat)
    requires n < Power8(width)
    ensures Value(OctalDigits(n, width), 8) == n
  {
    if width > 0 {
      var s := OctalDigits(n, width);
      OctalDigitsValue(n / 8, width - 1);
      assert s[..width - 1] == OctalDigits(n / 8, width - 1);
    }
  }

  /** A written field reads back. */
  lemma OctalReads(n: nat, width: nat)
    requires width > 0 && n < Power8(width)
    ensures Octal(OctalDigits(n, width) + [0]) == Some(n)
  {
    var s := OctalDigits(n, width);
    OctalDigitsValue(n, width);
    assert (s + [0])[..width] == s;
    assert s[width - 1] in s && s[0] in s;
    assert TrimRight(s, {SPACE, 0}) == s && TrimLeft(s, {SPACE, 0}) == s;
    assert TrimRight(s + [0], {SPACE, 0}) == TrimRight(s, {SPACE, 0});
  }

  function Zeros(n: nat): (z: Bytes)
    ensures |z| == n && forall b :: b in z ==> b == 0
  {
    if n == 0 then [] else Zeros(n - 1) + [0]
  }

  lemma {:induction false} TrimZeros(s: Bytes, n: nat)
    requires s == [] || s[|s| - 1] != 0
    ensures TrimRight(s + Zeros(n), {0}) == s
  {
    if n == 0 {
      assert s + Zeros(0) == s;
    } else {
      var t := s + Zeros(n);
      assert t == (s + Zeros(n - 1)) + [0] && t[..|t| - 1] == s + Zeros(n - 1);
      TrimZeros(s, n - 1);
    }
  }

  // ---- Checksum ------------------------------------------------------------------

  function Sum(s: Bytes): (n: nat)
    ensures n <= 255 * |s|
  {
    if s == [] then 0 else Sum(s[..|s| - 1]) + s[|s| - 1]
  }

  lemma {:induction false} SumSplit(a: Bytes, b: Bytes)
    ensures Sum(a + b) == Sum(a) + Sum(b)
    decreases |b|
  {
    if b == [] {
      assert a + b == a;
    } else {
      assert (a + b)[..|a + b| - 1] == a + b[..|b| - 1];
      SumSplit(a, b[..|b| - 1]);
    }
  }

  function Checksum(header: Bytes): nat
    requires |header| == BLOCK
  {
    Sum(header[..148]) + 8 * SPACE + Sum(header[156..])
  }

  method VerifyChecksum(header: Bytes) returns (ok: bool)
    requires |header| == BLOCK
    ensures ok <==> Octal(header[148..156]) == Some(Checksum(header))
  {
    var expected := Octal(header[148..156]);
    if expected.None? {
      return false;
    }
    var checksum: nat := 0;
    for index := 0 to BLOCK
      invariant checksum == Sum(header[..Smaller(index, 148)]) + Smaller(Larger(index - 148, 0), 8) * SPACE
                            + Sum(header[156..Larger(index, 156)])
    {
      if 148 <= index < 156 {
        checksum := checksum + SPACE;
      } else {
        checksum := checksum + header[index];
        if index < 148 {
          assert header[..index + 1][..index] == header[..index];
        } else {
          assert header[156..index + 1][..index - 156] == header[156..index];
        }
      }
    }
    assert header[156..BLOCK] == header[156..];
    ok := checksum == expected.value;
  }

  function Smaller(a: int, b: int): int {
    if a < b then a else b
  }

  function Larger(a: int, b: int): int {
    if a < b then b else a
  }

  // ---- Header --------------------------------------------------------------------

  const DIRECTORY: Byte := 53
  const REGULAR: Byte := 48
  const EXTENDED: Byte := 120
  const GLOBAL: Byte := 103

  /** A header as a writer lays it out; `name` and `prefix` fit their fields and `filler`
      stands for the fields between link name and prefix. */
  datatype Header = Header(prefix: Bytes, name: Bytes, mode: nat, size: nat, kind: Byte, filler: Bytes) {
    predicate Valid() {
      && 0 < |name| <= 100 && name[|name| - 1] != 0
      && |prefix| <= 155 && (prefix != [] ==> prefix[|prefix| - 1] != 0)
      && mode < Power8(7) && size < Power8(11) && |filler| == 88
    }

    function Front(): (s: Bytes)
      requires Valid()
      ensures |s| == 148
    {
      name + Zeros(100 - |name|) + (OctalDigits(mode, 7) + [0]) + Zeros(16) + (OctalDigits(size, 11) + [0]) + Zeros(12)
    }

    function Back(): (s: Bytes)
      requires Valid()
      ensures |s| == 356
    {
      [kind] + Zeros(100) + filler + (prefix + Zeros(155 - |prefix|)) + Zeros(12)
    }

    function Total(): (n: nat)
      requires Valid()
      ensures n < Power8(7)
    {
      assert Power8(7) == 8 * 8 * 8 * 8 * 8 * 8 * 8 by { assert Power8(4) == 8 * 8 * 8 * 8; }
      Sum(Front()) + 8 * SPACE + Sum(Back())
    }

    function Write(): (s: Bytes)
      requires Valid()
      ensures |s| == BLOCK
    {
      Front() + (OctalDigits(Total(), 7) + [0]) + Back()
    }

    /** Every field the extractor looks at reads back. */
    lemma ReadsBack()
      requires Valid()
      ensures
        var h := Write();
        && Octal(h[148..156]) == Some(Checksum(h)) && Octal(h[124..136]) == Some(size) && Octal(h[100..108]) == Some(mode)
        && h[156] == kind && TrimRight(h[0..100], {0}) == name && TrimRight(h[345..500], {0}) == prefix
        && (exists k :: 0 <= k < BLOCK && h[k] != 0)
    {
      hide Zeros, OctalDigits, Octal, TrimRight, Sum, Power8, Front, Back;
      var h := Write();
      assert h[..148] == Front() && h[156..] == Back();
      assert h[148..156] == OctalDigits(Total(), 7) + [0];
      OctalReads(Total(), 7);
      FrontReadsBack();
      assert h[124..136] == Front()[124..136] && h[100..108] == Front()[100..108] && h[0..100] == Front()[0..100];
      BackReadsBack();
      assert h[156] == Back()[0];
      assert h[345..500] == Back()[189..344];
      assert h[|name| - 1] == Front()[|name| - 1] == name[|name| - 1];
    }

    lemma BackReadsBack()
      requires Valid()
      ensures Back()[0] == kind && TrimRight(Back()[189..344], {0}) == prefix
    {
      hide Zeros, TrimRight;
      var f := prefix + Zeros(155 - |prefix|);
      Middle([kind] + Zeros(100) + filler, f, Zeros(12));
      assert Back()[189..344] == f;
      TrimZeros(prefix, 155 - |prefix|);
    }

    lemma FrontReadsBack()
      requires Valid()
      ensures Octal(Front()[124..136]) == Some(size) && Octal(Front()[100..108]) == Some(mode)
      ensures TrimRight(Front()[0..100], {0}) == name && Front()[|name| - 1] == name[|name| - 1]
    {
      hide OctalDigits, Octal, TrimRight, Sum, Power8, Zeros;
      var n, m, z := name + Zeros(100 - |name|), OctalDigits(mode, 7) + [0], OctalDigits(size, 11) + [0];
      Fields(n, m, Zeros(16), z, Zeros(12));
      TrimZeros(name, 100 - |name|);
      OctalReads(mode, 7);
      OctalReads(size, 11);
    }
  }

  lemma Fields(n: Bytes, m: Bytes, g: Bytes, z: Bytes, t: Bytes)
    requires |n| == 100 && |m| == 8 && |g| == 16 && |z| == 12
    ensures
      var s := n + m + g + z + t;
      s[0..100] == n && s[100..108] == m && s[124..136] == z && forall k :: 0 <= k < 100 ==> s[k] == n[k]
  {
  }

  lemma Middle(a: Bytes, b: Bytes, c: Bytes)
    ensures (a + b + c)[|a|..|a| + |b|] == b
  {
  }
}
