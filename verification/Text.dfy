/** Cutting strings at a separator and gluing them back, and their order. */
module Text {
  import opened Directory

  /** The largest integer the wire protocol knows. */
  const MAX_SAFE_INTEGER := 9007199254740991

  /** The first place of `c`, or the length. */
  function Find(s: string, c: char): (i: nat)
    ensures i <= |s| && c !in s[..i]
    ensures i < |s| ==> s[i] == c
    ensures i == |s| <==> c !in s
  {
    if s == "" then 0 else if s[0] == c then 0 else
      var i := 1 + Find(s[1..], c);
      assert s[..i] == [s[0]] + s[1..][..i - 1];
      i
  }

  datatype Halves = Halves(head: string, tail: Option<string>)

  /** `s` up to the first `c`, and what follows that `c`. */
  function Cut(s: string, c: char): (h: Halves)
    ensures h.tail.Some? ==> |h.tail.value| < |s|
  {
    var i := Find(s, c);
    if i == |s| then Halves(s, None) else Halves(s[..i], Some(s[i + 1..]))
  }

  function Glue(head: string, c: char, tail: Option<string>): string {
    if tail.None? then head else head + [c] + tail.value
  }

  lemma GlueCut(s: string, c: char)
    ensures Glue(Cut(s, c).head, c, Cut(s, c).tail) == s && c !in Cut(s, c).head
  {
  }

  lemma CutGlue(head: string, c: char, tail: Option<string>)
    requires c !in head
    ensures Cut(Glue(head, c, tail), c) == Halves(head, tail)
  {
    if tail.Some? {
      var s := head + [c] + tail.value;
      var i := Find(s, c);
      assert s[|head|] == c && s[..|head|] == head && s[|head| + 1..] == tail.value;
      assert forall k :: 0 <= k < |head| ==> s[k] == head[k];
      assert forall k :: 0 <= k < i ==> s[k] != c by {
        assert forall k :: 0 <= k < i ==> s[k] in s[..i];
      }
    }
  }

  function Split(s: string, c: char): (parts: seq<string>)
    ensures parts != []
    decreases |s|
  {
    var h := Cut(s, c);
    if h.tail.None? then [s] else [h.head] + Split(h.tail.value, c)
  }

  /** Like `Split`, but into at most `n` parts. */
  function SplitN(s: string, c: char, n: nat): (parts: seq<string>)
    requires n > 0
    ensures parts != []
  {
    var h := Cut(s, c);
    if h.tail.None? || n == 1 then [s] else [h.head] + SplitN(h.tail.value, c, n - 1)
  }

  function Join(parts: seq<string>, c: char): string
    requires parts != []
  {
    if |parts| == 1 then parts[0] else parts[0] + [c] + Join(parts[1..], c)
  }

  ghost predicate Without(parts: seq<string>, c: char) {
    forall p :: p in parts ==> c !in p
  }

  lemma {:induction false} JoinSplit(s: string, c: char)
    ensures Join(Split(s, c), c) == s && Without(Split(s, c), c)
    decreases |s|
  {
    hide Find, Cut;
    GlueCut(s, c);
    var h := Cut(s, c);
    if h.tail.Some? {
      JoinSplit(h.tail.value, c);
      assert Split(s, c)[1..] == Split(h.tail.value, c);
    }
  }

  lemma {:induction false} SplitJoin(parts: seq<string>, c: char)
    requires parts != [] && Without(parts, c)
    ensures Split(Join(parts, c), c) == parts
  {
    assert parts[0] in parts;
    if |parts| == 1 {
      assert parts == [parts[0]];
    } else {
      CutGlue(parts[0], c, Some(Join(parts[1..], c)));
      SplitJoin(parts[1..], c);
    }
  }

  lemma {:induction false} SplitNIsSplit(s: string, c: char, n: nat)
    requires 0 < n
    ensures |Split(s, c)| <= n ==> SplitN(s, c, n) == Split(s, c)
    ensures |Split(s, c)| > n ==> |SplitN(s, c, n)| == n
    decreases n
  {
    hide Find, Cut;
    var h := Cut(s, c);
    if h.tail.Some? && n > 1 {
      SplitNIsSplit(h.tail.value, c, n - 1);
    }
  }

  lemma {:induction false} JoinWithout(parts: seq<string>, c: char, d: char)
    requires parts != [] && Without(parts, d) && c != d
    ensures d !in Join(parts, c)
  {
    assert parts[0] in parts;
    if |parts| > 1 {
      JoinWithout(parts[1..], c, d);
    }
  }

  function Decimal(n: nat): string {
    if n < 10 then [(n as char) + '0'] else Decimal(n / 10) + Decimal(n % 10)
  }

  // ---- Lexicographic order -------------------------------------------------------

  /** `a` comes before `b` entry by entry; a proper prefix comes first. */
  ghost predicate Before<T(!new)>(less: (T, T) -> bool, a: seq<T>, b: seq<T>) {
    && b != []
    && (a == [] || less(a[0], b[0]) || (a[0] == b[0] && Before(less, a[1..], b[1..])))
  }

  ghost predicate Strict<T(!new)>(less: (T, T) -> bool) {
    && (forall x :: !less(x, x))
    && (forall x, y, z :: less(x, y) && less(y, z) ==> less(x, z))
  }

  ghost predicate Total<T(!new)>(less: (T, T) -> bool) {
    Strict(less) && forall x, y :: less(x, y) || less(y, x) || x == y
  }

  lemma {:induction false} BeforeIsTransitive<T(!new)>(less: (T, T) -> bool, a: seq<T>, b: seq<T>, c: seq<T>)
    requires Strict(less) && Before(less, a, b) && Before(less, b, c)
    ensures Before(less, a, c)
  {
    if a != [] && a[0] == b[0] == c[0] {
      BeforeIsTransitive(less, a[1..], b[1..], c[1..]);
    }
  }

  lemma {:induction false} BeforeIsIrreflexive<T(!new)>(less: (T, T) -> bool, a: seq<T>)
    requires Strict(less)
    ensures !Before(less, a, a)
  {
    if a != [] {
      BeforeIsIrreflexive(less, a[1..]);
    }
  }

  lemma {:induction false} BeforeIsTotal<T(!new)>(less: (T, T) -> bool, a: seq<T>, b: seq<T>)
    requires Total(less)
    ensures Before(less, a, b) || Before(less, b, a) || a == b
  {
    if a != [] && b != [] && a[0] == b[0] {
      BeforeIsTotal(less, a[1..], b[1..]);
      assert a[1..] == b[1..] ==> a == b by {
        assert a == [a[0]] + a[1..] && b == [b[0]] + b[1..];
      }
    }
  }

  /** The order of two sequences is decided at the first place they differ. */
  lemma {:induction false} BeforeSkips<T(!new)>(less: (T, T) -> bool, a: seq<T>, b: seq<T>, k: nat)
    requires Strict(less) && k <= |a| && k <= |b| && a[..k] == b[..k]
    ensures Before(less, a, b) <==> Before(less, a[k..], b[k..])
  {
    if k > 0 {
      assert a[0] == a[..k][0] == b[..k][0] == b[0];
      assert a[1..][..k - 1] == a[..k][1..] == b[..k][1..] == b[1..][..k - 1];
      BeforeSkips(less, a[1..], b[1..], k - 1);
      assert a[1..][k - 1..] == a[k..] && b[1..][k - 1..] == b[k..];
    } else {
      assert a[k..] == a && b[k..] == b;
    }
  }

  predicate CharLess(c: char, d: char) {
    c < d
  }

  ghost predicate Sorted(s: seq<string>) {
    forall i, j :: 0 <= i < j < |s| ==> Before(CharLess, s[i], s[j])
  }
}
