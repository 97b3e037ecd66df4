/** Release tags, their precedence, and the guard that refuses downgrades
    (internal/install/state.go). Precedence is section 11 of Semantic Versioning 2.0.0. */
module ReleaseVersion {

  import opened Directory
  import opened Text

  // ---- Grammar -------------------------------------------------------------------

  predicate Digit(c: char) { '0' <= c <= '9' }

  predicate Letter(c: char) { 'a' <= c <= 'z' || 'A' <= c <= 'Z' || c == '-' }

  predicate Digits(s: string) {
    s != "" && forall c :: c in s ==> Digit(c)
  }

  /** A number without leading zeros. */
  predicate Numeral(s: string) {
    Digits(s) && (s[0] == '0' ==> |s| == 1)
  }

  predicate Word(s: string) {
    s != "" && forall c :: c in s ==> Digit(c) || Letter(c)
  }

  predicate PrereleaseIdentifier(s: string) {
    Word(s) && (Digits(s) ==> Numeral(s))
  }

  /** The parts of a release tag. An empty list stands for an absent part. */
  datatype Tag = Tag(major: string, minor: string, patch: string, prerelease: seq<string>, build: seq<string>) {

    predicate Valid() {
      && Numeral(major) && Numeral(minor) && Numeral(patch)
      && (forall p :: p in prerelease ==> PrereleaseIdentifier(p))
      && (forall b :: b in build ==> Word(b))
    }

    function Core(): seq<string> {
      [major, minor, patch]
    }

    function Main(): string {
      Glue(Join(Core(), '.'), '-', Tail(prerelease))
    }

    function Render(): string {
      "v" + Glue(Main(), '+', Tail(build))
    }
  }

  /** A dotted list after a separator; an absent one is an empty list. */
  function Tail(parts: seq<string>): Option<string> {
    if parts == [] then None else Some(Join(parts, '.'))
  }

  function Parts(tail: Option<string>): seq<string> {
    if tail.None? then [] else Split(tail.value, '.')
  }

  lemma TailParts(tail: Option<string>)
    ensures Tail(Parts(tail)) == tail
  {
    if tail.Some? {
      JoinSplit(tail.value, '.');
    }
  }

  lemma PartsTail(parts: seq<string>)
    requires Without(parts, '.')
    ensures Parts(Tail(parts)) == parts
  {
    if parts != [] {
      SplitJoin(parts, '.');
    }
  }

  /** The language of the release version pattern, by its parts. */
  function Recognize(s: string): Option<Tag> {
    if s == "" || s[0] != 'v' then None
    else
      var whole := Cut(s[1..], '+');
      var main := Cut(whole.head, '-');
      var core := Split(main.head, '.');
      if |core| != 3 then None
      else
        var tag := Tag(core[0], core[1], core[2], Parts(main.tail), Parts(whole.tail));
        if tag.Valid() then Some(tag) else None
  }

  lemma RecognizedRenders(s: string)
    requires Recognize(s).Some?
    ensures Recognize(s).value.Valid() && Recognize(s).value.Render() == s
  {
    hide Split, Join, Find, Cut, Parts, Tail, Glue, Tag.Valid;
    var tag := Recognize(s).value;
    var whole := Cut(s[1..], '+');
    var main := Cut(whole.head, '-');
    JoinSplit(main.head, '.');
    assert Split(main.head, '.') == tag.Core();
    TailParts(main.tail);
    TailParts(whole.tail);
    GlueCut(whole.head, '-');
    GlueCut(s[1..], '+');
    assert s == "v" + s[1..];
  }

  lemma PartsAreClean(tag: Tag)
    requires tag.Valid()
    ensures Without(tag.Core(), '.') && Without(tag.Core(), '-') && Without(tag.Core(), '+')
    ensures Without(tag.prerelease, '.') && Without(tag.prerelease, '+')
    ensures Without(tag.build, '.')
  {
  }

  lemma PartsAreWellFormed(tag: Tag)
    requires tag.Valid()
    ensures |tag.Core()| == 3 && (forall p :: p in tag.Core() ==> Numeral(p))
    ensures forall p :: p in tag.prerelease ==> PrereleaseIdentifier(p)
  {
  }

  /** The places at which a rendered tag is cut. */
  lemma RenderedCuts(tag: Tag)
    requires tag.Valid()
    ensures tag.Render() != "" && tag.Render()[0] == 'v'
    ensures Cut(tag.Render()[1..], '+') == Halves(tag.Main(), Tail(tag.build))
    ensures Cut(tag.Main(), '-') == Halves(Join(tag.Core(), '.'), Tail(tag.prerelease))
    ensures Split(Join(tag.Core(), '.'), '.') == tag.Core()
    ensures Parts(Tail(tag.prerelease)) == tag.prerelease && Parts(Tail(tag.build)) == tag.build
  {
    PartsAreClean(tag);
    hide Split, Join, Find, Cut, Parts, Tag.Valid, Without;
    JoinWithout(tag.Core(), '.', '-');
    JoinWithout(tag.Core(), '.', '+');
    if tag.prerelease != [] {
      JoinWithout(tag.prerelease, '.', '+');
    }
    CutGlue(Join(tag.Core(), '.'), '-', Tail(tag.prerelease));
    CutGlue(tag.Main(), '+', Tail(tag.build));
    assert tag.Render()[1..] == Glue(tag.Main(), '+', Tail(tag.build));
    SplitJoin(tag.Core(), '.');
    PartsTail(tag.prerelease);
    PartsTail(tag.build);
  }

  lemma RenderedIsRecognized(tag: Tag)
    requires tag.Valid()
    ensures Recognize(tag.Render()) == Some(tag)
  {
    hide Split, Join, Find, Cut, Parts, Tail, Glue, Tag.Valid, Tag.Render, Tag.Main;
    RenderedCuts(tag);
  }

  /** Splits a tag the way precedence needs it, dropping build metadata. */
  method ParseReleaseVersion(version: string) returns (ok: bool, core: seq<string>, prerelease: seq<string>)
    ensures ok <==> Recognize(version).Some?
    ensures ok ==> core == Recognize(version).value.Core() && prerelease == Recognize(version).value.prerelease
    ensures ok ==> |core| == 3 && (forall p :: p in core ==> Numeral(p))
    ensures ok ==> forall p :: p in prerelease ==> PrereleaseIdentifier(p)
  {
    hide Recognize, Split, SplitN, Join, Find, Cut, Tail, Glue, Tag.Valid, Tag.Render, Tag.Main, Numeral, PrereleaseIdentifier;
    if Recognize(version) == None {
      return false, [], [];
    }
    RecognizedRenders(version);
    ghost var tag := Recognize(version).value;
    RenderedCuts(tag);
    PartsAreWellFormed(tag);
    var trimmed := if version != "" && version[0] == 'v' then version[1..] else version;
    var build := Cut(trimmed, '+');
    trimmed := build.head;
    var dash := Cut(trimmed, '-');
    core := SplitN(dash.head, '.', 3);
    SplitNIsSplit(dash.head, '.', 3);
    if |core| != 3 {
      return false, [], [];
    }
    prerelease := [];
    if dash.tail.Some? {
      prerelease := Split(dash.tail.value, '.');
    }
    ok := true;
  }

  // ---- Numerals ------------------------------------------------------------------

  function Power(n: nat): (p: nat)
    ensures p > 0
  {
    if n == 0 then 1 else 10 * Power(n - 1)
  }

  function DigitValue(c: char): (d: nat)
    requires Digit(c)
    ensures d <= 9
  {
    c as nat - '0' as nat
  }

  /** The number a string of decimal digits stands for. */
  function Number(s: string): nat
    requires forall c :: c in s ==> Digit(c)
  {
    if s == "" then 0
    else
      assert s[0] in s;
      DigitValue(s[0]) * Power(|s| - 1) + Number(s[1..])
  }

  lemma {:induction false} Multiples(c: nat, d: nat, p: nat)
    ensures c < d ==> c * p + p <= d * p
  {
    if c < d {
      assert d * p == (d - 1) * p + p;
      Multiples(c, d - 1, p);
    }
  }

  lemma {:induction false} NumberBound(s: string)
    requires forall c :: c in s ==> Digit(c)
    ensures Number(s) < Power(|s|)
    ensures s != "" && s[0] != '0' ==> Power(|s| - 1) <= Number(s)
  {
    if s != "" {
      assert s[0] in s;
      NumberBound(s[1..]);
      Multiples(DigitValue(s[0]), 10, Power(|s| - 1));
      Multiples(0, DigitValue(s[0]), Power(|s| - 1));
    }
  }

  lemma {:induction false} PowerGrows(m: nat, n: nat)
    requires m <= n
    ensures Power(m) <= Power(n)
  {
    if m < n {
      PowerGrows(m, n - 1);
    }
  }

  // ---- Precedence, section 11 ----------------------------------------------------

  datatype Identifier = Numeric(n: nat) | Words(s: string)

  function Meaning(s: string): Identifier {
    if Digits(s) then Numeric(Number(s)) else Words(s)
  }

  function Meanings(parts: seq<string>): (m: seq<Identifier>)
    ensures |m| == |parts| && forall i :: 0 <= i < |m| ==> m[i] == Meaning(parts[i])
  {
    if parts == [] then [] else [Meaning(parts[0])] + Meanings(parts[1..])
  }

  /** Numbers numerically, texts in ASCII order, numbers before texts. */
  ghost predicate Less(a: Identifier, b: Identifier) {
    match (a, b)
    case (Numeric(m), Numeric(n)) => m < n
    case (Numeric(_), Words(_)) => true
    case (Words(_), Numeric(_)) => false
    case (Words(s), Words(t)) => Before(CharLess, s, t)
  }

  lemma LessIsTotal()
    ensures Total(Less)
  {
    forall x, y, z | Less(x, y) && Less(y, z) ensures Less(x, z) {
      if x.Words? && y.Words? && z.Words? {
        BeforeIsTransitive(CharLess, x.s, y.s, z.s);
      }
    }
    forall x ensures !Less(x, x) {
      if x.Words? {
        BeforeIsIrreflexive(CharLess, x.s);
      }
    }
    forall x, y ensures Less(x, y) || Less(y, x) || x == y {
      if x.Words? && y.Words? {
        BeforeIsTotal(CharLess, x.s, y.s);
      }
    }
  }

  /** A release precedes another: by core version, then a pre-release precedes its
      release, then by pre-release identifiers. Build metadata has no say. */
  ghost predicate Precedes(a: Tag, b: Tag) {
    var m, n := Meanings(a.Core()), Meanings(b.Core());
    Before(Less, m, n) || (m == n && PrereleasePrecedes(a.prerelease, b.prerelease))
  }

  ghost predicate PrereleasePrecedes(a: seq<string>, b: seq<string>) {
    a != [] && (b == [] || Before(Less, Meanings(a), Meanings(b)))
  }

  predicate SameRelease(a: Tag, b: Tag) {
    a.Core() == b.Core() && a.prerelease == b.prerelease
  }

  lemma MeaningIsInjective(a: string, b: string)
    requires PrereleaseIdentifier(a) && PrereleaseIdentifier(b)
    ensures Meaning(a) == Meaning(b) <==> a == b
  {
    if Digits(a) && Digits(b) {
      NumeralOrder(a, b);
      NumeralOrder(b, a);
      BeforeIsTotal(CharLess, a, b);
    }
  }

  lemma MeaningsAreInjective(a: seq<string>, b: seq<string>)
    requires forall p :: p in a + b ==> PrereleaseIdentifier(p)
    ensures Meanings(a) == Meanings(b) <==> a == b
  {
    if Meanings(a) == Meanings(b) {
      forall i | 0 <= i < |a| ensures a[i] == b[i] {
        assert a[i] in a + b && b[i] in a + b && Meanings(a)[i] == Meanings(b)[i];
        MeaningIsInjective(a[i], b[i]);
      }
    }
  }

  // ---- Comparison ----------------------------------------------------------------

  function StringCompare(a: string, b: string): int {
    if a == b then 0
    else if a == "" then -1
    else if b == "" then 1
    else if a[0] < b[0] then -1
    else if a[0] > b[0] then 1
    else StringCompare(a[1..], b[1..])
  }

  lemma {:induction false} StringCompareOrders(a: string, b: string)
    ensures StringCompare(a, b) < 0 <==> Before(CharLess, a, b)
    ensures StringCompare(a, b) > 0 <==> Before(CharLess, b, a)
    ensures StringCompare(a, b) == 0 <==> a == b
  {
    if a == b {
      BeforeIsIrreflexive(CharLess, a);
    } else if a != "" && b != "" && a[0] == b[0] {
      StringCompareOrders(a[1..], b[1..]);
      assert a == [a[0]] + a[1..] && b == [b[0]] + b[1..];
    }
  }

  function CompareNumericIdentifier(a: string, b: string): int {
    if |a| != |b| then if |a| < |b| then -1 else 1
    else StringCompare(a, b)
  }

  /** Strings of as many digits compare like their numbers. */
  lemma {:induction false} SameLengthOrder(a: string, b: string)
    requires (forall c :: c in a ==> Digit(c)) && (forall c :: c in b ==> Digit(c)) && |a| == |b|
    ensures Before(CharLess, a, b) ==> Number(a) < Number(b)
  {
    if a != "" && Before(CharLess, a, b) {
      assert a[0] in a && b[0] in b;
      NumberBound(a[1..]);
      if a[0] == b[0] {
        SameLengthOrder(a[1..], b[1..]);
      } else {
        Multiples(DigitValue(a[0]), DigitValue(b[0]), Power(|a| - 1));
      }
    }
  }

  /** Without leading zeros, a longer numeral is a greater number, and numerals as long
      as each other compare as text. */
  lemma NumeralOrder(a: string, b: string)
    requires Numeral(a) && Numeral(b)
    ensures |a| < |b| ==> Number(a) < Number(b)
    ensures |a| == |b| ==> (Number(a) < Number(b) <==> Before(CharLess, a, b))
  {
    NumberBound(a);
    NumberBound(b);
    if |a| < |b| {
      PowerGrows(|a|, |b| - 1);
    } else if |a| == |b| {
      SameLengthOrder(a, b);
      SameLengthOrder(b, a);
      BeforeIsTotal(CharLess, a, b);
    }
  }

  lemma CompareNumericIdentifierOrders(a: string, b: string)
    requires Numeral(a) && Numeral(b)
    ensures CompareNumericIdentifier(a, b) < 0 <==> Number(a) < Number(b)
    ensures CompareNumericIdentifier(a, b) == 0 <==> Number(a) == Number(b)
    ensures CompareNumericIdentifier(a, b) == 0 <==> a == b
  {
    NumeralOrder(a, b);
    NumeralOrder(b, a);
    StringCompareOrders(a, b);
  }

  lemma NumbersCompare(a: string, b: string)
    requires Numeral(a) && Numeral(b)
    ensures CompareNumericIdentifier(a, b) < 0 <==> Less(Meaning(a), Meaning(b))
    ensures CompareNumericIdentifier(a, b) > 0 <==> Less(Meaning(b), Meaning(a))
    ensures CompareNumericIdentifier(a, b) == 0 <==> a == b
  {
    CompareNumericIdentifierOrders(a, b);
  }

  method IsNumericIdentifier(value: string) returns (numeric: bool)
    ensures numeric <==> Digits(value)
  {
    if value == "" {
      return false;
    }
    for i := 0 to |value|
      invariant forall k :: 0 <= k < i ==> Digit(value[k])
    {
      if value[i] < '0' || value[i] > '9' {
        assert value[i] in value && !Digit(value[i]);
        return false;
      }
    }
    return true;
  }

  method ComparePrereleaseIdentifier(a: string, b: string) returns (c: int)
    requires PrereleaseIdentifier(a) && PrereleaseIdentifier(b)
    ensures c < 0 <==> Less(Meaning(a), Meaning(b))
    ensures c > 0 <==> Less(Meaning(b), Meaning(a))
    ensures c == 0 <==> a == b
  {
    var aNumeric := IsNumericIdentifier(a);
    var bNumeric := IsNumericIdentifier(b);
    if aNumeric && bNumeric {
      c := CompareNumericIdentifier(a, b);
      CompareNumericIdentifierOrders(a, b);
    } else if aNumeric {
      c := -1;
    } else if bNumeric {
      c := 1;
    } else {
      c := StringCompare(a, b);
      StringCompareOrders(a, b);
    }
  }

  /** Two lists that agree before `k` are ordered by what remains. */
  lemma EqualUpTo(a: seq<string>, b: seq<string>, k: nat)
    requires k <= |a| && k <= |b| && a[..k] == b[..k]
    ensures Before(Less, Meanings(a), Meanings(b)) <==> Before(Less, Meanings(a)[k..], Meanings(b)[k..])
    ensures Before(Less, Meanings(b), Meanings(a)) <==> Before(Less, Meanings(b)[k..], Meanings(a)[k..])
    ensures Strict(Less)
  {
    LessIsTotal();
    var m, n := Meanings(a), Meanings(b);
    assert m[..k] == n[..k] by {
      forall i | 0 <= i < k ensures m[i] == n[i] {
        assert a[..k][i] == b[..k][i];
      }
    }
    BeforeSkips(Less, m, n, k);
    BeforeSkips(Less, n, m, k);
  }

  /** Two lists that first differ at `k` are ordered by their entries there. */
  lemma DifferAt(a: seq<string>, b: seq<string>, k: nat)
    requires k < |a| && k < |b| && a[..k] == b[..k]
    requires Less(Meaning(a[k]), Meaning(b[k])) || Less(Meaning(b[k]), Meaning(a[k]))
    ensures Less(Meaning(a[k]), Meaning(b[k])) <==> Before(Less, Meanings(a), Meanings(b))
    ensures Less(Meaning(b[k]), Meaning(a[k])) <==> Before(Less, Meanings(b), Meanings(a))
    ensures Meanings(a) != Meanings(b) && a != b
  {
    EqualUpTo(a, b, k);
    assert Meanings(a)[k..][0] == Meaning(a[k]) && Meanings(b)[k..][0] == Meaning(b[k]);
  }

  /** Two lists of which one is a prefix of the other are ordered by length. */
  lemma EndAt(a: seq<string>, b: seq<string>, k: nat)
    requires k <= |a| && k <= |b| && a[..k] == b[..k] && (k == |a| || k == |b|)
    ensures |a| < |b| <==> Before(Less, Meanings(a), Meanings(b))
    ensures |b| < |a| <==> Before(Less, Meanings(b), Meanings(a))
    ensures a == b <==> |a| == |b|
  {
    EqualUpTo(a, b, k);
    assert |a| == |b| ==> a == a[..k] == b[..k] == b;
  }

  method ComparePrerelease(a: seq<string>, b: seq<string>) returns (c: int)
    requires (forall p :: p in a ==> PrereleaseIdentifier(p)) && (forall p :: p in b ==> PrereleaseIdentifier(p))
    ensures c < 0 <==> PrereleasePrecedes(a, b)
    ensures c > 0 <==> PrereleasePrecedes(b, a)
    ensures c == 0 <==> a == b
  {
    if |a| == 0 && |b| == 0 {
      return 0;
    } else if |a| == 0 {
      return 1;
    } else if |b| == 0 {
      return -1;
    }
    hide Before, Less, Meaning, Meanings, PrereleaseIdentifier;
    var limit := |a|;
    if |b| < limit {
      limit := |b|;
    }
    for index := 0 to limit
      invariant a[..index] == b[..index]
    {
      c := ComparePrereleaseIdentifier(a[index], b[index]);
      if c != 0 {
        DifferAt(a, b, index);
        return;
      }
    }
    EndAt(a, b, limit);
    if |a| < |b| {
      return -1;
    } else if |a| > |b| {
      return 1;
    } else {
      return 0;
    }
  }

  method CompareReleaseVersions(a: string, b: string) returns (ok: bool, c: int)
    ensures ok <==> Recognize(a).Some? && Recognize(b).Some?
    ensures ok ==> (c < 0 <==> Precedes(Recognize(a).value, Recognize(b).value))
    ensures ok ==> (c > 0 <==> Precedes(Recognize(b).value, Recognize(a).value))
    ensures ok ==> (c == 0 <==> SameRelease(Recognize(a).value, Recognize(b).value))
  {
    hide Recognize, Before, Less, Meaning, Meanings, PrereleasePrecedes, Tag.Valid, Numeral, PrereleaseIdentifier, Number,
         CompareNumericIdentifier;
    var aOk, aCore, aPrerelease := ParseReleaseVersion(a);
    if !aOk {
      return false, 0;
    }
    var bOk, bCore, bPrerelease := ParseReleaseVersion(b);
    if !bOk {
      return false, 0;
    }
    ok := true;
    ghost var s, t := Recognize(a).value, Recognize(b).value;
    for index := 0 to |aCore|
      invariant aCore[..index] == bCore[..index]
    {
      c := CompareNumericIdentifier(aCore[index], bCore[index]);
      NumbersCompare(aCore[index], bCore[index]);
      if c != 0 {
        DifferAt(aCore, bCore, index);
        return;
      }
    }
    EndAt(aCore, bCore, 3);
    c := ComparePrerelease(aPrerelease, bPrerelease);
  }

  // ---- Order and guard -----------------------------------------------------------

  /** Precedence is a strict order that compares any two tags that are not the same
      release. */
  lemma PrecedenceIsTotal(a: Tag, b: Tag)
    requires a.Valid() && b.Valid()
    ensures Precedes(a, b) || Precedes(b, a) || SameRelease(a, b)
    ensures !(Precedes(a, b) && Precedes(b, a)) && (SameRelease(a, b) ==> !Precedes(a, b) && !Precedes(b, a))
  {
    LessIsTotal();
    BeforeIsTotal(Less, Meanings(a.Core()), Meanings(b.Core()));
    MeaningsAreInjective(a.Core(), b.Core());
    if a.prerelease != [] && b.prerelease != [] {
      BeforeIsTotal(Less, Meanings(a.prerelease), Meanings(b.prerelease));
      MeaningsAreInjective(a.prerelease, b.prerelease);
    }
    BeforeIsIrreflexive(Less, Meanings(a.Core()));
    BeforeIsIrreflexive(Less, Meanings(a.prerelease));
    if SameRelease(a, b) {
      SameReleaseRanks(a, b, b);
    }
    if Precedes(a, b) && Precedes(b, a) {
      PrecedenceIsTransitive(a, b, a);
    }
  }

  lemma PrecedenceIsTransitive(a: Tag, b: Tag, c: Tag)
    requires Precedes(a, b) && Precedes(b, c)
    ensures Precedes(a, c)
  {
    LessIsTotal();
    var l, m, n := Meanings(a.Core()), Meanings(b.Core()), Meanings(c.Core());
    if Before(Less, l, m) && Before(Less, m, n) {
      BeforeIsTransitive(Less, l, m, n);
    } else if l == m == n && c.prerelease != [] {
      BeforeIsTransitive(Less, Meanings(a.prerelease), Meanings(b.prerelease), Meanings(c.prerelease));
    }
  }

  /** A release by its version and the digest its directory is named after. */
  datatype Release = Release(version: string, archive: string)

  predicate Digest(s: string) {
    |s| == 64 && forall c :: c in s ==> Digit(c) || 'a' <= c <= 'f'
  }

  datatype Verdict = Accepted | Unsafe | Older | UnsafeDigest | ArchiveMismatch

  /** `incoming` may replace `installed`. */
  ghost predicate Accepts(installed: Release, incoming: Release) {
    && Recognize(incoming.version).Some? && Recognize(installed.version).Some?
    && var now, next := Recognize(installed.version).value, Recognize(incoming.version).value;
       Precedes(now, next) || (SameRelease(now, next) && incoming.archive == installed.archive && Digest(incoming.archive))
  }

  method ValidateReleaseOrder(installed: Release, incoming: Release) returns (verdict: Verdict)
    ensures verdict == Accepted <==> incoming.version == "" || Accepts(installed, incoming)
    ensures verdict == Older ==>
      && Recognize(incoming.version).Some? && Recognize(installed.version).Some?
      && Precedes(Recognize(incoming.version).value, Recognize(installed.version).value)
    ensures verdict == Unsafe <==>
      incoming.version != "" && !(Recognize(incoming.version).Some? && Recognize(installed.version).Some?)
  {
    hide Precedes, Recognize, SameRelease, Digest;
    if incoming.version == "" {
      return Accepted;
    }
    var ok, c := CompareReleaseVersions(incoming.version, installed.version);
    if !ok {
      return Unsafe;
    }
    RecognizedRenders(incoming.version);
    RecognizedRenders(installed.version);
    PrecedenceIsTotal(Recognize(installed.version).value, Recognize(incoming.version).value);
    SameReleaseIsSymmetric(Recognize(installed.version).value, Recognize(incoming.version).value);
    if c < 0 {
      return Older;
    }
    if c == 0 {
      if !Digest(incoming.archive) {
        return UnsafeDigest;
      }
      if incoming.archive != installed.archive {
        return ArchiveMismatch;
      }
    }
    return Accepted;
  }

  lemma SameReleaseIsSymmetric(a: Tag, b: Tag)
    ensures SameRelease(a, b) == SameRelease(b, a)
  {
  }

  /** The releases installed by a succession of guarded setups. */
  ghost predicate History(releases: seq<Release>) {
    forall i :: 0 <= i < |releases| - 1 ==> Accepts(releases[i], releases[i + 1])
  }

  /** Over any number of setups the installed release never gets older, and another
      archive comes only with a strictly newer release. */
  lemma {:induction false} NeverOlder(releases: seq<Release>, i: nat, j: nat)
    requires History(releases) && i < j < |releases|
    ensures Accepts(releases[i], releases[j])
    ensures !Precedes(Recognize(releases[j].version).value, Recognize(releases[i].version).value)
    ensures releases[i].archive != releases[j].archive ==>
              Precedes(Recognize(releases[i].version).value, Recognize(releases[j].version).value)
    decreases j
  {
    hide Precedes, Recognize;
    assert Accepts(releases[j - 1], releases[j]);
    if i < j - 1 {
      NeverOlder(releases, i, j - 1);
      AcceptsIsTransitive(releases[i], releases[j - 1], releases[j]);
    }
    RecognizedRenders(releases[i].version);
    RecognizedRenders(releases[j].version);
    PrecedenceIsTotal(Recognize(releases[i].version).value, Recognize(releases[j].version).value);
    SameReleaseIsSymmetric(Recognize(releases[i].version).value, Recognize(releases[j].version).value);
  }

  lemma AcceptsIsTransitive(a: Release, b: Release, c: Release)
    requires Accepts(a, b) && Accepts(b, c)
    ensures Accepts(a, c)
  {
    hide Recognize, Precedes;
    var r, s, t := Recognize(a.version).value, Recognize(b.version).value, Recognize(c.version).value;
    if Precedes(r, s) && Precedes(s, t) {
      PrecedenceIsTransitive(r, s, t);
    } else if Precedes(r, s) {
      SameReleaseRanks(s, t, r);
    } else if Precedes(s, t) {
      SameReleaseRanks(r, s, t);
    }
  }

  /** Precedence does not tell builds of one release apart. */
  lemma SameReleaseRanks(a: Tag, b: Tag, c: Tag)
    requires SameRelease(a, b)
    ensures Precedes(a, c) == Precedes(b, c) && Precedes(c, a) == Precedes(c, b)
  {
    assert a.Core() == b.Core() && a.prerelease == b.prerelease;
  }
}
