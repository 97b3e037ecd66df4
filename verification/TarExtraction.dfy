/** Extraction of a tar archive (internal/workspace/tar.go): what an archive decodes to, and
    what that makes of the destination. */
module TarExtraction {
  import opened Directory
  import opened ByteText
  import opened TarFormat

  const BACKSLASH: Byte := 92
  const EQUALS: Byte := 61

  // ---- Paths ---------------------------------------------------------------------

  type Path = seq<Bytes>

  /** A path that stays below the destination. */
  predicate Safe(path: Path) {
    path != [] && forall s :: s in path ==> s !in {[], [46], [46, 46]} && SLASH !in s
  }

  lemma {:induction false} SegmentsHaveNoSlash(path: Bytes)
    ensures forall s :: s in Segments(path) ==> SLASH !in s
    decreases |path|
  {
    var h := Cut(path, SLASH);
    if h.tail.Some? {
      SegmentsHaveNoSlash(h.tail.value);
    }
  }

  /** The name a header and an extension give an entry. */
  function ArchivePath(header: Bytes, kind: Byte, override: Option<Bytes>): (r: Option<Path>)
    requires |header| == BLOCK
    ensures r.Some? ==> Safe(r.value)
  {
    var name, prefix := TrimRight(header[0..100], {0}), TrimRight(header[345..500], {0});
    var given := if override.Some? then override.value else if prefix != [] then prefix + [SLASH] + name else name;
    var path := if kind == DIRECTORY && given != [] && given[|given| - 1] == SLASH then given[..|given| - 1] else given;
    if path == [] || path[0] == SLASH || BACKSLASH in path || 0 in path || !ValidUtf8(path) then None
    else
      SegmentsHaveNoSlash(path);
      var segments := Segments(path);
      if [] in segments || [46] in segments || [46, 46] in segments then None else Some(segments)
  }

  // ---- Extension records ---------------------------------------------------------

  predicate RecordLength(field: Bytes) {
    1 <= |field| <= 6 && DigitsBelow(field, 10) && field[0] != 48
  }

  datatype Record = Record(value: Bytes, length: nat)

  /** The first record of a payload, which must set `key`. */
  function FirstRecord(payload: Bytes, key: Bytes): (r: Option<Record>)
    requires payload != []
    ensures r.Some? ==> 0 < r.value.length <= |payload|
  {
    var space := Find(payload, SPACE);
    if space == |payload| || !RecordLength(payload[..space]) then None
    else
      var length := Value(payload[..space], 10);
      if length <= space + 2 || length > |payload| || payload[length - 1] != NEWLINE then None
      else
        var record := payload[space + 1..length - 1];
        var separator := Find(record, EQUALS);
        if separator == |record| || record[..separator] != key || !ValidUtf8(record[separator + 1..]) then None
        else Some(Record(record[separator + 1..], length))
  }

  /** All records of a payload: at most one, since there is one key they may set. */
  function Records(payload: Bytes, key: Bytes, seen: Option<Bytes>): Option<Option<Bytes>>
    decreases |payload|
  {
    if payload == [] then Some(seen)
    else
      var first := FirstRecord(payload, key);
      if first.None? || seen.Some? then None
      else Records(payload[first.value.length..], key, Some(first.value.value))
  }

  const PATH_KEY: Bytes := [112, 97, 116, 104]
  const COMMENT_KEY: Bytes := [99, 111, 109, 109, 101, 110, 116]

  /** The path an extension gives the next entry, if any. */
  function Extension(payload: Bytes, kind: Byte): Option<Option<Bytes>> {
    var value := Records(payload, if kind == GLOBAL then COMMENT_KEY else PATH_KEY, None);
    if value.None? then None
    else if kind == GLOBAL then Some(None)
    else if value.value.None? then None else value
  }

  /** A record of IEEE Std 1003.1: its own length, a space, `key=value`, a newline. */
  ghost predicate IsRecord(r: Bytes, key: Bytes, value: Bytes) {
    exists length ::
      && RecordLength(length) && Value(length, 10) == |r|
      && r == length + [SPACE] + (key + [EQUALS] + value) + [NEWLINE] && ValidUtf8(value)
  }

  lemma RecordIsFirst(payload: Bytes, key: Bytes, value: Bytes, length: Bytes)
    requires key != [] && EQUALS !in key && ValidUtf8(value)
    requires RecordLength(length) && Value(length, 10) == |payload|
    requires payload == length + [SPACE] + (key + [EQUALS] + value) + [NEWLINE]
    ensures FirstRecord(payload, key) == Some(Record(value, |payload|))
  {
    hide Find, Value, ValidUtf8;
    var record := key + [EQUALS] + value;
    assert payload == length + [SPACE] + (record + [NEWLINE]);
    assert SPACE !in length;
    FindFirst(length, SPACE, record + [NEWLINE]);
    assert payload[..|length|] == length && payload[|length| + 1..|payload| - 1] == record;
    FindFirst(key, EQUALS, value);
    assert record[..|key|] == key && record[|key| + 1..] == value;
  }

  lemma FirstIsRecord(payload: Bytes, key: Bytes, value: Bytes)
    requires payload != [] && FirstRecord(payload, key) == Some(Record(value, |payload|))
    ensures IsRecord(payload, key, value)
  {
    hide Find, Value, ValidUtf8;
    var space := Find(payload, SPACE);
    var length, record := payload[..space], payload[space + 1..|payload| - 1];
    var separator := Find(record, EQUALS);
    CutAt(payload, space);
    CutAt(record, separator);
    var rest := payload[space + 1..];
    CutAt(rest, |rest| - 1);
    assert rest[..|rest| - 1] == record && rest[|rest|..] == [];
    assert payload == length + [SPACE] + (record + [NEWLINE]);
    assert payload == length + [SPACE] + record + [NEWLINE];
  }

  lemma CutAt(s: Bytes, i: nat)
    requires i < |s|
    ensures s == s[..i] + [s[i]] + s[i + 1..]
  {
  }

  lemma WholeIsRecord(payload: Bytes, key: Bytes, value: Bytes)
    requires key != [] && EQUALS !in key
    ensures IsRecord(payload, key, value) ==> payload != []
    ensures payload != [] ==>
      (FirstRecord(payload, key) == Some(Record(value, |payload|)) <==> IsRecord(payload, key, value))
  {
    hide Find, Value, ValidUtf8, FirstRecord;
    if IsRecord(payload, key, value) {
      var length :| RecordLength(length) && Value(length, 10) == |payload|
                    && payload == length + [SPACE] + (key + [EQUALS] + value) + [NEWLINE] && ValidUtf8(value);
      assert payload[|payload| - 1] == NEWLINE;
      RecordIsFirst(payload, key, value, length);
    } else if payload != [] && FirstRecord(payload, key) == Some(Record(value, |payload|)) {
      FirstIsRecord(payload, key, value);
    }
  }

  /** The records of a payload are one record, or none. */
  lemma RecordsAreOne(payload: Bytes, key: Bytes, value: Bytes)
    requires key != [] && EQUALS !in key
    ensures Records(payload, key, None) == Some(Some(value)) <==> IsRecord(payload, key, value)
    ensures Records(payload, key, None) == Some(None) <==> payload == []
  {
    hide FirstRecord, IsRecord;
    WholeIsRecord(payload, key, value);
    if payload != [] {
      var first := FirstRecord(payload, key);
      if first.Some? {
        if first.value.length == |payload| {
          assert payload[|payload|..] == [];
        } else {
          assert payload[first.value.length..] != [];
        }
      }
    }
  }

  /** Reads the records of an extension. */
  method PaxAttributes(payload: Bytes, kind: Byte) returns (r: Option<Option<Bytes>>)
    ensures r == Extension(payload, kind)
    ensures kind != GLOBAL ==> forall path :: r == Some(Some(path)) <==> IsRecord(payload, PATH_KEY, path)
    ensures kind != GLOBAL ==> r != Some(None)
    ensures kind == GLOBAL ==> r in {None, Some(None)}
    ensures kind == GLOBAL ==> (r == Some(None) <==> payload == [] || exists comment :: IsRecord(payload, COMMENT_KEY, comment))
  {
    hide FirstRecord, IsRecord;
    forall value
      ensures Records(payload, PATH_KEY, None) == Some(Some(value)) <==> IsRecord(payload, PATH_KEY, value)
      ensures Records(payload, COMMENT_KEY, None) == Some(Some(value)) <==> IsRecord(payload, COMMENT_KEY, value)
    {
      RecordsAreOne(payload, PATH_KEY, value);
      RecordsAreOne(payload, COMMENT_KEY, value);
    }
    RecordsAreOne(payload, COMMENT_KEY, []);
    var key := if kind == GLOBAL then COMMENT_KEY else PATH_KEY;
    var offset: nat, value: Option<Bytes> := 0, None;
    assert payload[0..] == payload;
    while offset < |payload|
      invariant offset <= |payload|
      invariant Records(payload[offset..], key, value) == Records(payload, key, None)
    {
      var record := FirstRecord(payload[offset..], key);
      if record.None? || value.Some? {
        return None;
      }
      assert payload[offset..][record.value.length..] == payload[offset + record.value.length..];
      offset := offset + record.value.length;
      value := Some(record.value.value);
    }
    if kind == GLOBAL {
      return Some(None);
    }
    return if value.None? then None else Some(value);
  }

  // ---- Entries -------------------------------------------------------------------

  datatype Member = Folder(path: Path) | Leaf(path: Path, content: Bytes, mode: nat)

  /** What one header amounts to: the end of the archive, a path for the next entry, or an
      entry; `size` is what its content counts. */
  datatype Item = End | Naming(path: Option<Bytes>, size: nat) | Entry(member: Member, size: nat)

  function PaddedSize(size: nat): nat {
    (size + BLOCK - 1) / BLOCK * BLOCK
  }

  predicate AllZero(block: Bytes) {
    forall b :: b in block ==> b == 0
  }

  /** Reads the item at the front of `d` when `pending` names the next entry and `left`
      bytes of content are allowed. */
  function ReadItem(d: Bytes, pending: Option<Bytes>, left: nat): (r: Option<Item>)
    ensures r.Some? && !r.value.End? ==> BLOCK + PaddedSize(r.value.size) <= |d| && r.value.size <= left
    ensures r.Some? && r.value.Entry? ==> Safe(r.value.member.path)
  {
    if |d| < BLOCK then None
    else
      var header := d[..BLOCK];
      if AllZero(header) then if pending.Some? then None else Some(End)
      else if Octal(header[148..156]) != Some(Checksum(header)) then None
      else
        var size := Octal(header[124..136]);
        if size.None? || size.value > left || BLOCK + PaddedSize(size.value) > |d| then None
        else ReadBody(header, d[BLOCK..BLOCK + size.value], pending)
  }

  function ReadBody(header: Bytes, content: Bytes, pending: Option<Bytes>): (r: Option<Item>)
    requires |header| == BLOCK
    ensures r.Some? ==> !r.value.End? && r.value.size == |content|
    ensures r.Some? && r.value.Entry? ==> Safe(r.value.member.path)
  {
    var kind := header[156];
    if kind == GLOBAL || kind == EXTENDED then
      if pending.Some? || |content| > 65536 || ArchivePath(header, kind, None).None? then None
      else
        var path := Extension(content, kind);
        if path.None? then None else Some(Naming(path.value, |content|))
    else
      var path := ArchivePath(header, kind, pending);
      if path.None? then None
      else if kind == DIRECTORY then Some(Entry(Folder(path.value), |content|))
      else if kind == 0 || kind == REGULAR then
        var mode := Octal(header[100..108]);
        if mode.None? then None else Some(Entry(Leaf(path.value, content, mode.value), |content|))
      else None
  }

  /** The members of an archive, if it is one and stays within `files` entries and `left`
      bytes of content. */
  function Decode(d: Bytes, pending: Option<Bytes>, files: nat, left: nat): Option<seq<Member>>
    decreases |d|
  {
    var item := ReadItem(d, pending, left);
    if item.None? then None
    else if item.value.End? then Some([])
    else if files == 0 then None
    else
      var tail := d[BLOCK + PaddedSize(item.value.size)..];
      match item.value
      case Naming(path, size) => Decode(tail, path, files - 1, left - size)
      case Entry(member, size) =>
        var others := Decode(tail, None, files - 1, left - size);
        if others.None? then None else Some([member] + others.value)
  }

  /** Whatever the bytes, an archive's members stay below the destination and within both
      limits. */
  lemma {:induction false} DecodeIsSafe(d: Bytes, pending: Option<Bytes>, files: nat, left: nat)
    requires Decode(d, pending, files, left).Some?
    ensures
      var members := Decode(d, pending, files, left).value;
      |members| <= files && ContentSize(members) <= left && forall m :: m in members ==> Safe(m.path)
    decreases |d|
  {
    hide ReadItem;
    var item := ReadItem(d, pending, left);
    if !item.value.End? {
      var tail := d[BLOCK + PaddedSize(item.value.size)..];
      match item.value
      case Naming(path, size) => DecodeIsSafe(tail, path, files - 1, left - size);
      case Entry(member, size) => {
        DecodeIsSafe(tail, None, files - 1, left - size);
        EntrySize(d, pending, left);
      }
    }
  }

  function ContentSize(members: seq<Member>): nat {
    if members == [] then 0 else (if members[0].Leaf? then |members[0].content| else 0) + ContentSize(members[1..])
  }

  lemma EntrySize(d: Bytes, pending: Option<Bytes>, left: nat)
    requires ReadItem(d, pending, left).Some? && ReadItem(d, pending, left).value.Entry?
    ensures
      var e := ReadItem(d, pending, left).value;
      e.member.Leaf? ==> |e.member.content| == e.size
  {
  }

  // ---- Tree ----------------------------------------------------------------------

  datatype Node = Dir | File(content: Bytes, executable: bool)

  type Tree = map<Path, Node>

  /** The directory and those above it exist. */
  function MakeDirectory(tree: Tree, path: Path): (r: Option<Tree>)
    ensures r.Some? ==> forall p :: p in tree ==> p in r.value && r.value[p] == tree[p]
    decreases |path|
  {
    if path == [] then Some(tree)
    else
      var above := MakeDirectory(tree, path[..|path| - 1]);
      if above.None? then None
      else if path in above.value then if above.value[path].Dir? then above else None
      else Some(above.value[path := Dir])
  }

  predicate Executable(mode: nat) {
    mode / 64 % 2 == 1
  }

  function Place(tree: Tree, m: Member): (r: Option<Tree>)
    requires m.path != []
    ensures r.Some? ==> forall p :: p in tree ==> p in r.value && r.value[p] == tree[p]
  {
    match m
    case Folder(path) => MakeDirectory(tree, path)
    case Leaf(path, content, mode) =>
      var above := MakeDirectory(tree, path[..|path| - 1]);
      if above.None? || path in above.value then None else Some(above.value[path := File(content, Executable(mode))])
  }

  function Build(tree: Tree, members: seq<Member>): (r: Option<Tree>)
    requires forall m :: m in members ==> m.path != []
    ensures r.Some? ==> forall p :: p in tree ==> p in r.value && r.value[p] == tree[p]
  {
    if members == [] then Some(tree)
    else
      var before := Build(tree, members[..|members| - 1]);
      assert members[|members| - 1] in members;
      if before.None? then None else Place(before.value, members[|members| - 1])
  }

  predicate Above(p: Path, path: Path) {
    p != [] && p <= path
  }

  lemma AboveOrEqual(path: Path)
    requires path != []
    ensures forall p :: Above(p, path) <==> Above(p, path[..|path| - 1]) || p == path
  {
  }

  /** Only directories above `path`, and it, are new. */
  lemma {:induction false} DirectoriesMade(tree: Tree, path: Path)
    ensures MakeDirectory(tree, path).Some? <==> forall p :: p in tree && Above(p, path) ==> tree[p] == Dir
    ensures MakeDirectory(tree, path).Some? ==>
      var t := MakeDirectory(tree, path).value;
      && (forall p :: p in t <==> p in tree || Above(p, path))
      && (forall p :: p in t ==> t[p] == if p in tree then tree[p] else Dir)
    decreases |path|
  {
    if path != [] {
      AboveOrEqual(path);
      DirectoriesMade(tree, path[..|path| - 1]);
    }
  }

  /** What a member is in the tree. */
  function NodeOf(m: Member): Node {
    if m.Folder? then Dir else File(m.content, Executable(m.mode))
  }

  /** A member needs its path and the directories above it. */
  predicate Needs(m: Member, p: Path) {
    Above(p, m.path)
  }

  /** What a member needs is free, or a directory it can share. */
  ghost predicate Placeable(tree: Tree, m: Member) {
    forall p :: p in tree && Needs(m, p) ==> tree[p] == Dir && !(m.Leaf? && p == m.path)
  }

  lemma PlaceIsExact(tree: Tree, m: Member)
    requires m.path != []
    ensures Place(tree, m).Some? <==> Placeable(tree, m)
    ensures Place(tree, m).Some? ==>
      var t := Place(tree, m).value;
      && (forall p :: p in t <==> p in tree || Needs(m, p))
      && (forall p :: p in t ==> t[p] == if p in tree then tree[p] else if p == m.path then NodeOf(m) else Dir)
  {
    hide MakeDirectory;
    AboveOrEqual(m.path);
    DirectoriesMade(tree, if m.Folder? then m.path else m.path[..|m.path| - 1]);
  }

  /** The members fit into the tree, and no file is, or stands above, another member. */
  ghost predicate Compatible(tree: Tree, members: seq<Member>) {
    && (forall m :: m in members ==> Placeable(tree, m))
    && forall i, j :: 0 <= i < |members| && 0 <= j < |members| && i != j && members[i].Leaf? ==>
         !(members[i].path <= members[j].path)
  }

  ghost predicate Needed(members: seq<Member>, p: Path) {
    exists m :: m in members && Needs(m, p)
  }

  /** The tree has grown by exactly the members and the directories above them. */
  ghost predicate Extracted(was: Tree, now: Tree, members: seq<Member>) {
    && (forall p :: p in now <==> p in was || Needed(members, p))
    && (forall p :: p in was ==> p in now && now[p] == was[p])
    && (forall m :: m in members ==> m.path in now && now[m.path] == NodeOf(m))
    && (forall p :: p in now && p !in was && now[p] != Dir ==> exists m :: m in members && m.Leaf? && m.path == p)
  }

  /** What is extracted is determined. */
  lemma ExtractedIsUnique(was: Tree, a: Tree, b: Tree, members: seq<Member>)
    requires Extracted(was, a, members) && Extracted(was, b, members)
    ensures a == b
  {
    forall p | p in a ensures p in b && a[p] == b[p] {
      assert p in was || Needed(members, p);
    }
    forall p | p in b ensures p in a {
      assert p in was || Needed(members, p);
    }
  }

  lemma NeededGrows(others: seq<Member>, m: Member, p: Path)
    ensures Needed(others + [m], p) <==> Needed(others, p) || Needs(m, p)
  {
    if Needs(m, p) {
      assert m in others + [m];
    }
    if o :| o in others && Needs(o, p) {
      assert o in others + [m];
    }
  }

  lemma PlaceKeepsExact(was: Tree, before: Tree, others: seq<Member>, m: Member)
    requires Extracted(was, before, others) && m.path != [] && Place(before, m).Some?
    ensures Extracted(was, Place(before, m).value, others + [m])
  {
    hide Place, Needed;
    PlaceIsExact(before, m);
    var t := Place(before, m).value;
    forall p ensures p in t <==> p in was || Needed(others + [m], p) {
      NeededGrows(others, m, p);
    }
    forall p | p in t && p !in was && t[p] != Dir ensures exists o :: o in others + [m] && o.Leaf? && o.path == p {
      if p in before {
        var o :| o in others && o.Leaf? && o.path == p;
        assert o in others + [m];
      } else {
        assert m in others + [m];
      }
    }
    assert t[m.path] == NodeOf(m);
  }

  lemma Conflicting(tree: Tree, others: seq<Member>, m: Member, o: Member)
    requires o in others && ((o.Leaf? && o.path <= m.path) || (m.Leaf? && m.path <= o.path))
    ensures !Compatible(tree, others + [m])
  {
    var all := others + [m];
    var i :| 0 <= i < |others| && others[i] == o;
    assert all[i] == o && all[|others|] == m;
  }

  lemma CompatibleIsPlaceable(was: Tree, before: Tree, others: seq<Member>, m: Member, p: Path)
    requires Extracted(was, before, others) && Compatible(was, others + [m])
    requires p in before && Needs(m, p)
    ensures before[p] == Dir && !(m.Leaf? && p == m.path)
  {
    hide Compatible;
    assert m in others + [m] && Placeable(was, m) by {
      assert (others + [m])[|others|] == m;
      CompatibleFits(was, others + [m], m);
    }
    if p !in was {
      if before[p] != Dir {
        var o :| o in others && o.Leaf? && o.path == p;
        Conflicting(was, others, m, o);
      } else if m.Leaf? && p == m.path {
        var o :| o in others && Needs(o, p);
        Conflicting(was, others, m, o);
      }
    }
  }

  lemma CompatibleFits(tree: Tree, members: seq<Member>, m: Member)
    requires Compatible(tree, members) && m in members
    ensures Placeable(tree, m)
  {
  }

  lemma PlaceableIsFree(was: Tree, before: Tree, others: seq<Member>, m: Member, o: Member)
    requires Extracted(was, before, others) && Placeable(before, m) && m.path != [] && o in others && o.path != []
    ensures !(m.Leaf? && m.path <= o.path) && !(o.Leaf? && o.path <= m.path)
  {
    if m.path <= o.path {
      assert Needs(o, m.path) && Needed(others, m.path) && Needs(m, m.path);
    }
    if o.path <= m.path {
      assert Needs(m, o.path) && o.path in before;
    }
  }

  lemma PlaceableIsCompatible(was: Tree, before: Tree, others: seq<Member>, m: Member)
    requires Extracted(was, before, others) && m.path != [] && (forall o :: o in others ==> o.path != [])
    requires Compatible(was, others) && Placeable(before, m)
    ensures Compatible(was, others + [m])
  {
    var all := others + [m];
    assert all[|others|] == m && forall i :: 0 <= i < |others| ==> all[i] == others[i] && all[i] in others;
    forall o | o in others ensures !(m.Leaf? && m.path <= o.path) && !(o.Leaf? && o.path <= m.path) {
      PlaceableIsFree(was, before, others, m, o);
    }
    assert Placeable(was, m) by {
      forall p | p in was && Needs(m, p) ensures was[p] == Dir && !(m.Leaf? && p == m.path) {
        assert p in before;
      }
    }
  }

  lemma CompatibleGrows(was: Tree, before: Tree, others: seq<Member>, m: Member)
    requires Extracted(was, before, others) && m.path != [] && (forall o :: o in others ==> o.path != [])
    requires Compatible(was, others)
    ensures Compatible(was, others + [m]) <==> Placeable(before, m)
  {
    hide Extracted, Compatible, Needs;
    if Compatible(was, others + [m]) {
      forall p | p in before && Needs(m, p) ensures before[p] == Dir && !(m.Leaf? && p == m.path) {
        CompatibleIsPlaceable(was, before, others, m, p);
      }
    } else if Placeable(before, m) {
      PlaceableIsCompatible(was, before, others, m);
    }
  }

  lemma CompatibleShrinks(was: Tree, others: seq<Member>, m: Member)
    requires Compatible(was, others + [m])
    ensures Compatible(was, others)
  {
    var all := others + [m];
    assert forall i :: 0 <= i < |others| ==> all[i] == others[i];
    assert forall o :: o in others ==> o in all;
  }

  /** Members can be placed exactly if they are compatible, and then the tree has grown by
      exactly them. */
  lemma {:induction false} BuildIsExact(was: Tree, members: seq<Member>)
    requires forall m :: m in members ==> m.path != []
    ensures Build(was, members).Some? <==> Compatible(was, members)
    ensures Build(was, members).Some? ==> Extracted(was, Build(was, members).value, members)
    decreases |members|
  {
    hide Place, Extracted, Compatible, Placeable;
    if members == [] {
      NothingIsExact(was);
    } else {
      var m, others := members[|members| - 1], members[..|members| - 1];
      assert m in members && members == others + [m];
      BuildIsExact(was, others);
      if Build(was, others).Some? {
        var before := Build(was, others).value;
        PlaceIsExact(before, m);
        CompatibleGrows(was, before, others, m);
        if Place(before, m).Some? {
          PlaceKeepsExact(was, before, others, m);
        }
      } else if Compatible(was, members) {
        CompatibleShrinks(was, others, m);
      }
    }
  }

  lemma NothingIsExact(was: Tree)
    ensures Compatible(was, []) && Extracted(was, was, [])
  {
  }

  // ---- Extraction ----------------------------------------------------------------

  /** Reads the item at the front of `d`. */
  method ReadNext(d: Bytes, pending: Option<Bytes>, left: nat) returns (item: Option<Item>)
    ensures item == ReadItem(d, pending, left)
  {
    hide ArchivePath, Octal, Checksum, Records;
    if |d| < BLOCK {
      return None;
    }
    var header := d[..BLOCK];
    if AllZero(header) {
      return if pending.Some? then None else Some(End);
    }
    var verified := VerifyChecksum(header);
    if !verified {
      return None;
    }
    var size := Octal(header[124..136]);
    if size.None? || size.value > left || BLOCK + PaddedSize(size.value) > |d| {
      return None;
    }
    var content := d[BLOCK..BLOCK + size.value];
    var kind := header[156];
    if kind == GLOBAL || kind == EXTENDED {
      if pending.Some? || |content| > 65536 || ArchivePath(header, kind, None).None? {
        return None;
      }
      var path := PaxAttributes(content, kind);
      return if path.None? then None else Some(Naming(path.value, |content|));
    }
    item := ReadBody(header, content, pending);
  }

  const DEFAULT_MAX_FILES := 20000
  const DEFAULT_MAX_BYTES := 134217728

  function Limit(given: int, otherwise: nat): nat {
    if given <= 0 then otherwise else given
  }

  function Prepend(done: seq<Member>, others: Option<seq<Member>>): Option<seq<Member>> {
    if others.None? then None else Some(done + others.value)
  }

  lemma {:induction false} BuildStops(tree: Tree, done: seq<Member>, others: seq<Member>)
    requires forall m :: m in done + others ==> m.path != []
    requires Build(tree, done + others).Some?
    ensures (forall m :: m in done ==> m in done + others) && Build(tree, done).Some?
    decreases |others|
  {
    assert forall m :: m in done ==> m in done + others;
    if others == [] {
      assert done + others == done;
    } else {
      assert (done + others)[..|done + others| - 1] == done + others[..|others| - 1];
      BuildStops(tree, done, others[..|others| - 1]);
    }
  }

  lemma NothingDone(whole: Option<seq<Member>>, tree: Tree)
    ensures whole == Prepend([], whole) && Build(tree, []) == Some(tree)
  {
    assert whole.Some? ==> [] + whole.value == whole.value;
  }

  /** What one more item makes of what is still to be decoded. */
  lemma DecodeNext(done: seq<Member>, d: Bytes, pending: Option<Bytes>, files: nat, left: nat)
    ensures
      var item, all := ReadItem(d, pending, left), Prepend(done, Decode(d, pending, files, left));
      if item.None? then all.None?
      else if item.value.End? then all == Some(done)
      else if files == 0 then all.None?
      else
        var tail := d[BLOCK + PaddedSize(item.value.size)..];
        all == match item.value
               case Naming(path, size) => Prepend(done, Decode(tail, path, files - 1, left - size))
               case Entry(m, size) => Prepend(done + [m], Decode(tail, None, files - 1, left - size))
  {
    hide ReadItem;
    var item := ReadItem(d, pending, left);
    assert done + [] == done;
    if item.Some? && item.value.Entry? && files > 0 {
      var others := Decode(d[BLOCK + PaddedSize(item.value.size)..], None, files - 1, left - item.value.size);
      if others.Some? {
        assert done + ([item.value.member] + others.value) == (done + [item.value.member]) + others.value;
      }
    }
  }

  lemma PlacingFails(tree: Tree, done: seq<Member>, whole: Option<seq<Member>>, others: Option<seq<Member>>)
    requires whole == Prepend(done, others)
    requires whole.Some? ==> forall m :: m in whole.value ==> m.path != []
    requires (forall m :: m in done ==> m.path != []) && Build(tree, done).None?
    ensures whole.Some? ==> Build(tree, whole.value).None?
  {
    if whole.Some? && Build(tree, whole.value).Some? {
      BuildStops(tree, done, others.value);
    }
  }

  /** The members of an archive within the limits asked for, or the usual ones. */
  function Members(archive: Bytes, maxFiles: int, maxBytes: int): (r: Option<seq<Member>>)
    ensures r.Some? ==> forall m :: m in r.value ==> m.path != []
  {
    var files, bytes := Limit(maxFiles, DEFAULT_MAX_FILES), Limit(maxBytes, DEFAULT_MAX_BYTES);
    if |archive| > bytes then None
    else
      var members := Decode(archive, None, files, bytes);
      if members.Some? then
        DecodeIsSafe(archive, None, files, bytes);
        members
      else None
  }

  /** What is there was there and is unchanged, or is below the destination. */
  ghost predicate OnlySafe(was: Tree, now: Tree) {
    forall p :: p in now ==> (p in was && now[p] == was[p]) || Safe(p)
  }

  lemma OnlySafeSoFar(tree: Tree)
    ensures OnlySafe(tree, tree)
  {
  }

  class Destination {
    var tree: Tree

    /** Extracts an archive that is not compressed. It succeeds exactly when the archive
        decodes within the limits and its members are compatible with what is there, and
        then the tree has grown by exactly them; whatever the bytes, nothing is created but
        below the destination. */
    method Extract(archive: Bytes, maxFiles: int, maxBytes: int) returns (ok: bool)
      modifies this
      ensures
        var members := Members(archive, maxFiles, maxBytes);
        ok <==> members.Some? && Compatible(old(tree), members.value)
      ensures ok ==> Extracted(old(tree), tree, Members(archive, maxFiles, maxBytes).value)
      ensures OnlySafe(old(tree), tree)
    {
      hide ReadItem, Place, Safe, Decode, Prepend, Build, OnlySafe, Compatible, Extracted;
      OnlySafeSoFar(tree);
      ghost var whole := Members(archive, maxFiles, maxBytes);
      if whole.Some? {
        BuildIsExact(tree, whole.value);
      }
      var files: nat, left: nat := Limit(maxFiles, DEFAULT_MAX_FILES), Limit(maxBytes, DEFAULT_MAX_BYTES);
      if |archive| > left {
        return false;
      }
      var offset: nat, pending: Option<Bytes> := 0, None;
      ghost var done: seq<Member> := [];
      assert archive[0..] == archive;
      NothingDone(whole, tree);
      while true
        invariant offset <= |archive| && (forall m :: m in done ==> m.path != [])
        invariant whole == Prepend(done, Decode(archive[offset..], pending, files, left))
        invariant Build(old(tree), done) == Some(tree)
        invariant OnlySafe(old(tree), tree)
        decreases |archive| - offset
      {
        var rest := archive[offset..];
        DecodeNext(done, rest, pending, files, left);
        var item := ReadNext(rest, pending, left);
        if item.None? {
          return false;
        }
        if item.value.End? {
          return true;
        }
        if files == 0 {
          return false;
        }
        var next := offset + BLOCK + PaddedSize(item.value.size);
        assert rest[BLOCK + PaddedSize(item.value.size)..] == archive[next..];
        match item.value {
          case Naming(path, _) =>
            pending := path;
          case Entry(member, _) =>
            MemberIsSafe(rest, pending, left);
            var placed := Place(tree, member);
            PlacedNext(old(tree), done, member, tree);
            if placed.None? {
              PlacingFails(old(tree), done + [member], whole, Decode(archive[next..], None, files - 1, left - item.value.size));
              return false;
            }
            PlaceIsSafe(old(tree), tree, member);
            tree := placed.value;
            pending := None;
            done := done + [member];
        }
        files, left := files - 1, left - item.value.size;
        offset := next;
      }
    }
  }

  lemma MemberIsSafe(d: Bytes, pending: Option<Bytes>, left: nat)
    requires ReadItem(d, pending, left).Some? && ReadItem(d, pending, left).value.Entry?
    ensures Safe(ReadItem(d, pending, left).value.member.path) && ReadItem(d, pending, left).value.member.path != []
  {
  }

  lemma PlacedNext(tree: Tree, done: seq<Member>, m: Member, now: Tree)
    requires (forall d :: d in done ==> d.path != []) && m.path != [] && Build(tree, done) == Some(now)
    ensures Build(tree, done + [m]) == Place(now, m)
  {
    assert (done + [m])[..|done|] == done;
  }

  lemma PlaceIsSafe(was: Tree, tree: Tree, m: Member)
    requires Safe(m.path) && m.path != [] && Place(tree, m).Some? && OnlySafe(was, tree)
    ensures OnlySafe(was, Place(tree, m).value)
  {
    PlaceIsExact(tree, m);
    forall p | p in Place(tree, m).value && p !in tree ensures Safe(p) {
      assert p <= m.path && forall s :: s in p ==> s in m.path;
    }
  }
}
