/** Joint replacement of the three or seven live configuration files of a runner
    installation, guarded by an undo journal (internal/install/state.go). */
module Activation {
  import opened Directory

  datatype Name = ProfileToken | ExecutionToken | Run | Connect | Probe | Disconnect | ConfigJson

  datatype Entry = Live(name: Name) | Backup(name: Name) | Pending(name: Name) | Journal

  type Bytes = string

  /** `Torn` is a file whose contents were cut short. */
  datatype File = Data(bytes: Bytes) | Record(version: int, files: map<Name, bool>) | Torn

  type Fs = Image<Entry, File>
  type Root = Disk<Entry, File>

  datatype Outcome = Activated | Preserved | Committed | Indeterminate | Killed

  const ACTIVATION_ORDER := [ProfileToken, ExecutionToken, ConfigJson]

  const LAUNCHER_NAMES := [Run, Connect, Probe, Disconnect]

  function ActivationNames(withLaunchers: bool): seq<Name> {
    if withLaunchers then [ProfileToken, ExecutionToken] + LAUNCHER_NAMES + [ConfigJson] else ACTIVATION_ORDER
  }

  function Names(names: seq<Name>): set<Name> {
    set n | n in names
  }

  /** A set of live files, as contents by name. */
  type Installation = map<Name, Bytes>

  function Slot(live: Installation, n: Name): Option<File> {
    if n in live then Some(Data(live[n])) else None
  }

  ghost predicate Holds(fs: Fs, live: Installation) {
    forall n :: fs.See(Live(n)) == Slot(live, n)
  }

  /** A power failure leaves exactly `live`. */
  ghost predicate Certain(fs: Fs, live: Installation) {
    forall n :: fs.May(Live(n)) == {Slot(live, n)}
  }

  /** `live` is installed, no journal exists, and a power failure changes neither. */
  ghost predicate Settled(fs: Fs, live: Installation) {
    fs.May(Journal) == {None} && Certain(fs, live)
  }

  /** One activation: the files it replaces and the live sets on its two sides. */
  datatype Plan = Plan(names: seq<Name>, before: Installation, values: Installation) {
    ghost predicate Valid() {
      && (exists withLaunchers :: names == ActivationNames(withLaunchers))
      && forall n :: n in names ==> n in values
    }

    function After(): Installation {
      before + map n | n in names && n in values :: values[n]
    }

    function Undo(): Option<File> {
      Some(Record(1, map n | n in names :: n in before))
    }
  }

  /** A power failure leaves one whole side of the plan. */
  ghost predicate OneSided(fs: Fs, plan: Plan) {
    && (Certain(fs, plan.before) || Certain(fs, plan.After()))
    && (Some(Torn) in fs.May(Journal) ==> Certain(fs, plan.before))
  }

  /** What every step of an activation and of its recoveries keeps: a mixed live set
      implies that the undo journal is there, and stays there in a power failure. */
  ghost predicate Atomic(fs: Fs, plan: Plan) {
    && plan.Valid()
    && fs.May(Journal) <= {None, Some(Torn), plan.Undo()}
    && (forall n :: fs.May(Live(n)) <= {Slot(plan.before, n), Slot(plan.After(), n)})
    && (plan.Undo() in fs.May(Journal) ==>
          forall n :: n in plan.names && n in plan.before ==>
            fs.May(Backup(n)) <= {Slot(plan.before, n), None})
    && (fs.May(Journal) != {plan.Undo()} ==> OneSided(fs, plan))
    && (fs.May(Journal) != {plan.Undo()} && fs.See(Journal) != None ==> Certain(fs, plan.before))
  }

  /** Nothing but scratch entries differs. */
  ghost predicate ScratchOnly(fs: Fs, fs': Fs) {
    && fs'.See(Journal) == fs.See(Journal) && fs'.May(Journal) == fs.May(Journal)
    && forall n :: fs'.See(Live(n)) == fs.See(Live(n)) && fs'.May(Live(n)) == fs.May(Live(n))
  }

  /** No live file changed, and none may hold more than it might before. */
  ghost predicate LiveKept(fs: Fs, fs': Fs) {
    forall n :: fs'.See(Live(n)) == fs.See(Live(n)) && fs'.May(Live(n)) <= fs.May(Live(n))
  }

  ghost predicate BackupsOnlyLost(fs: Fs, fs': Fs) {
    forall n :: fs'.May(Backup(n)) <= fs.May(Backup(n)) + {None}
  }

  ghost predicate NoScratch(fs: Fs, names: seq<Name>) {
    forall n :: n in names ==> fs.See(Backup(n)) == None && fs.See(Pending(n)) == None
  }

  /** Nothing but removals of files other than live ones waits for a sync. */
  ghost predicate OnlyRemovals(fs: Fs) {
    forall op :: op in fs.unsynced ==> op.Drop? && !op.entry.Live?
  }

  /** An operation of an activation that has not yet synced anything: it saves a live file,
      possibly tearing the backup, stages one, or removes scratch. */
  predicate StagingOp(op: Op<Entry, File>, live: Installation, names: seq<Name>, tears: bool) {
    match op
    case Put(Backup(n), f) => n in names && n in live && (f == Data(live[n]) || (tears && f == Torn))
    case Put(Pending(_), _) => true
    case Drop(e) => e.Backup? || e.Pending?
    case _ => false
  }

  /** Nothing but such operations came since `fs`. */
  ghost predicate Staged(fs: Fs, fs': Fs, live: Installation, names: seq<Name>, tears: bool) {
    && fs'.durable == fs.durable && fs.unsynced <= fs'.unsynced
    && forall op :: op in fs'.unsynced[|fs.unsynced|..] ==> StagingOp(op, live, names, tears)
  }

  lemma StagedThen(fs: Fs, fs': Fs, op: Op<Entry, File>, live: Installation, names: seq<Name>, tears: bool)
    requires Staged(fs, fs', live, names, tears) && StagingOp(op, live, names, tears)
    ensures Staged(fs, fs'.Then(op), live, names, tears)
  {
    assert fs'.Then(op).unsynced[|fs.unsynced|..] == fs'.unsynced[|fs.unsynced|..] + [op];
  }

  lemma StagedComposes(a: Fs, b: Fs, c: Fs, live: Installation, names: seq<Name>)
    requires Staged(a, b, live, names, true) && Staged(b, c, live, names, true)
    ensures Staged(a, c, live, names, true)
  {
    assert c.unsynced[|a.unsynced|..] == b.unsynced[|a.unsynced|..] + c.unsynced[|b.unsynced|..];
  }

  /** What staging may leave at `e`. */
  ghost function Staging(e: Entry, live: Installation, names: seq<Name>, tears: bool): set<Option<File>> {
    if !e.Backup? then {}
    else if !(e.name in names && e.name in live) then {None}
    else if tears then {None, Some(Torn), Slot(live, e.name)}
    else {None, Slot(live, e.name)}
  }

  lemma StagedOnce(fs: Fs, op: Op<Entry, File>, live: Installation, names: seq<Name>, tears: bool, e: Entry)
    requires StagingOp(op, live, names, tears) && !e.Pending?
    ensures fs.May(e) <= fs.Then(op).May(e) <= fs.May(e) + Staging(e, live, names, tears)
    ensures !e.Backup? ==> fs.Then(op).See(e) == fs.See(e)
  {
    hide Image.Visible, Image.May;
    fs.ThenSees(op);
  }

  /** No live file and no journal changes while files are staged. */
  lemma {:induction false} StagedMay(fs: Fs, fs': Fs, live: Installation, names: seq<Name>, tears: bool, e: Entry)
    requires Staged(fs, fs', live, names, tears) && !e.Pending?
    ensures fs.May(e) <= fs'.May(e)
    ensures fs'.May(e) <= fs.May(e) + Staging(e, live, names, tears)
    ensures !e.Backup? ==> fs'.See(e) == fs.See(e)
    decreases |fs'.unsynced|
  {
    hide Image.Visible, Image.May, Image.See, Staging, StagingOp;
    if fs'.unsynced == fs.unsynced {
      assert fs' == fs;
    } else {
      var before, op := fs'.Before(), fs'.Last();
      assert fs'.unsynced[|fs.unsynced|..] == before.unsynced[|fs.unsynced|..] + [op];
      StagedMay(fs, before, live, names, tears, e);
      assert op in fs'.unsynced[|fs.unsynced|..];
      assert fs' == before.Then(op);
      StagedOnce(before, op, live, names, tears, e);
    }
  }

  lemma CertainKept(fs: Fs, fs': Fs, live: Installation)
    requires LiveKept(fs, fs') && Certain(fs, live)
    ensures Certain(fs', live)
  {
    hide Image.Visible, Image.May, Image.See;
    forall n ensures fs'.May(Live(n)) == {Slot(live, n)} {
      assert fs'.See(Live(n)) in fs'.May(Live(n));
    }
  }

  /** Withdrawing the journal, or losing scratch files, keeps a one-sided directory atomic. */
  lemma WithdrawalIsAtomic(fs: Fs, fs': Fs, plan: Plan)
    requires Atomic(fs, plan) && OneSided(fs, plan)
    requires LiveKept(fs, fs') && fs'.May(Journal) <= fs.May(Journal) + {None}
    requires fs'.May(Journal) == {None} || BackupsOnlyLost(fs, fs')
    requires fs'.See(Journal) != None ==>
               fs'.See(Journal) == fs.See(Journal) && fs'.May(Journal) == fs.May(Journal)
    ensures Atomic(fs', plan) && OneSided(fs', plan)
  {
    hide Image.Visible, Image.May, Image.See;
    if Certain(fs, plan.before) {
      CertainKept(fs, fs', plan.before);
    } else {
      CertainKept(fs, fs', plan.After());
    }
  }

  /** Reads a private file. Torn or foreign contents are refused or come back as
      whatever bytes are left. */
  method ReadActivated(dir: Root, e: Entry) returns (r: Step, contents: Option<Bytes>)
    modifies dir`faults
    ensures r != Died
    ensures r == Done ==> (contents == None <==> dir.fs.See(e) == None)
    ensures r == Done && dir.fs.See(e).Some? && dir.fs.See(e).value.Data? ==> contents == Some(dir.fs.See(e).value.bytes)
    ensures r == Failed && (dir.fs.See(e).Some? ==> dir.fs.See(e).value.Data?) ==> dir.faults > old(dir.faults)
    ensures r == Done ==> dir.faults == old(dir.faults)
    ensures dir.faults >= old(dir.faults)
  {
    hide Image.Visible, Image.May, Image.See;
    var file;
    r, file := dir.Read(e);
    if r != Done {
      return r, None;
    }
    match file
    case None => contents := None;
    case Some(Data(bytes)) => contents := Some(bytes);
    case Some(_) =>
      var bytes: Bytes := *;
      contents := Some(bytes);
      r :| r != Died;
  }

  method RemovePair(dir: Root, n: Name, stopAtFailure: bool) returns (r: Step)
    modifies dir`fs, dir`faults
    ensures ScratchOnly(old(dir.fs), dir.fs)
    ensures forall e :: dir.fs.May(e) <= old(dir.fs.May(e)) + {None}
    ensures forall e :: dir.fs.See(e) == old(dir.fs.See(e)) || dir.fs.See(e) == None
    ensures r == Done ==> NoScratch(dir.fs, [n])
    ensures r == Done <==> dir.faults == old(dir.faults)
    ensures dir.faults >= old(dir.faults)
    ensures dir.fs.durable == old(dir.fs).durable && (old(OnlyRemovals(dir.fs)) ==> OnlyRemovals(dir.fs))
    ensures Staged(old(dir.fs), dir.fs, map[], [], true)
  {
    hide Image.Visible, Image.May, Image.See;
    ghost var entry := dir.fs;
    StagedThen(entry, entry, Drop(Backup(n)), map[], [], true);
    r := dir.Remove(Backup(n));
    if r == Died || (r == Failed && stopAtFailure) {
      return;
    }
    StagedThen(entry, dir.fs, Drop(Pending(n)), map[], [], true);
    var second := dir.Remove(Pending(n));
    if second != Done {
      r := second;
    }
  }

  method RemoveScratch(dir: Root, names: seq<Name>, stopAtFailure: bool) returns (r: Step)
    modifies dir`fs, dir`faults
    ensures ScratchOnly(old(dir.fs), dir.fs)
    ensures forall e :: dir.fs.May(e) <= old(dir.fs.May(e)) + {None}
    ensures r == Done ==> NoScratch(dir.fs, names)
    ensures r == Done <==> dir.faults == old(dir.faults)
    ensures dir.faults >= old(dir.faults)
    ensures dir.fs.durable == old(dir.fs).durable && (old(OnlyRemovals(dir.fs)) ==> OnlyRemovals(dir.fs))
    ensures Staged(old(dir.fs), dir.fs, map[], [], true)
  {
    hide Image.Visible, Image.May, Image.See;
    r := Done;
    for i := 0 to |names|
      invariant ScratchOnly(old(dir.fs), dir.fs) && Staged(old(dir.fs), dir.fs, map[], [], true)
      invariant r != Died
      invariant forall e :: dir.fs.May(e) <= old(dir.fs.May(e)) + {None}
      invariant forall e :: dir.fs.See(e) == old(dir.fs.See(e)) || dir.fs.See(e) == None
      invariant r == Done ==> NoScratch(dir.fs, names[..i])
      invariant dir.fs.durable == old(dir.fs).durable && (old(OnlyRemovals(dir.fs)) ==> OnlyRemovals(dir.fs))
      invariant r == Done <==> dir.faults == old(dir.faults)
      invariant dir.faults >= old(dir.faults)
    {
      ghost var before := dir.fs;
      var pair := RemovePair(dir, names[i], stopAtFailure);
      StagedComposes(old(dir.fs), before, dir.fs, map[], []);
      if pair == Died || (pair == Failed && stopAtFailure) {
        return pair;
      }
      if pair == Failed {
        r := Failed;
      }
    }
  }

  /** Drops the journal, which is the commit point, then the scratch files. */
  method FinishActivation(dir: Root, names: seq<Name>) returns (committed: bool, r: Step)
    modifies dir`fs, dir`faults
    ensures LiveKept(old(dir.fs), dir.fs) && dir.fs.May(Journal) <= old(dir.fs.May(Journal)) + {None}
    ensures !committed && r == Failed ==> old(dir.fs.May(Journal)) <= dir.fs.May(Journal)
    ensures !committed && r == Failed ==> dir.fs in {old(dir.fs), old(dir.fs).Then(Drop(Journal))}
    ensures committed || BackupsOnlyLost(old(dir.fs), dir.fs)
    ensures committed ==> dir.fs.May(Journal) == {None} && forall n :: dir.fs.May(Live(n)) == {dir.fs.See(Live(n))}
    ensures dir.fs.See(Journal) != None ==>
              dir.fs.See(Journal) == old(dir.fs.See(Journal)) && dir.fs.May(Journal) == old(dir.fs.May(Journal))
    ensures r == Done ==> committed && dir.fs.unsynced == [] && NoScratch(dir.fs, names)
    ensures r == Done <==> dir.faults == old(dir.faults)
    ensures dir.faults >= old(dir.faults)
    ensures dir.fs.durable == old(dir.fs).durable || Journal !in dir.fs.durable
    ensures old(OnlyRemovals(dir.fs)) ==> OnlyRemovals(dir.fs)
  {
    hide Image.Visible, Image.May, Image.See;
    r := dir.Remove(Journal);
    if r == Done {
      r := dir.Sync();
    }
    if r != Done {
      return false, r;
    }
    r := RemoveScratch(dir, names, true);
    if r == Done {
      r := dir.Sync();
    }
    return true, r;
  }

  method PreparationError(dir: Root) returns (r: Outcome)
    modifies dir`fs, dir`faults
    ensures r in {Preserved, Indeterminate, Killed}
    ensures dir.fs.See(Journal) == old(dir.fs.See(Journal)) && dir.fs.May(Journal) <= old(dir.fs.May(Journal))
    ensures LiveKept(old(dir.fs), dir.fs) && BackupsOnlyLost(old(dir.fs), dir.fs)
    ensures r == Preserved ==> dir.fs.unsynced == [] && NoScratch(dir.fs, ActivationNames(true))
    ensures r == Preserved <==> dir.faults == old(dir.faults)
    ensures dir.faults >= old(dir.faults)
    ensures Staged(old(dir.fs), dir.fs, map[], [], true) || forall e :: dir.fs.May(e) == {dir.fs.See(e)}
  {
    hide Image.Visible, Image.May, Image.See;
    var step := RemoveScratch(dir, ActivationNames(true), false);
    if step == Done {
      step := dir.Sync();
    }
    return match step case Done => Preserved case Failed => Indeterminate case Died => Killed;
  }

  /** Withdraws a journal whose write failed. */
  method AbortJournal(dir: Root) returns (r: Outcome)
    modifies dir`fs, dir`faults
    ensures r in {Preserved, Indeterminate, Killed}
    ensures dir.fs.May(Journal) <= old(dir.fs.May(Journal)) + {None}
    ensures dir.fs.See(Journal) != None ==>
              dir.fs.See(Journal) == old(dir.fs.See(Journal)) && dir.fs.May(Journal) <= old(dir.fs.May(Journal))
    ensures LiveKept(old(dir.fs), dir.fs) && BackupsOnlyLost(old(dir.fs), dir.fs)
    ensures dir.fs.May(Journal) <= {None} || forall n :: dir.fs.May(Backup(n)) <= old(dir.fs.May(Backup(n)))
    ensures r == Preserved ==>
      dir.fs.See(Journal) == None && dir.fs.unsynced == [] && NoScratch(dir.fs, ActivationNames(true))
    ensures r == Preserved <==> dir.faults == old(dir.faults)
    ensures dir.faults >= old(dir.faults)
  {
    hide Image.Visible, Image.May, Image.See;
    var step := dir.Remove(Journal);
    if step == Done {
      step := dir.Sync();
    }
    if step != Done {
      return if step == Died then Killed else Indeterminate;
    }
    r := PreparationError(dir);
  }

  predicate IsData(file: Option<File>) {
    file.Some? && file.value.Data?
  }

  ghost predicate Legible(file: Option<File>) {
    file.Some? ==> file.value.Data?
  }

  /** What undoing puts back for `n`, by the journal's word that it existed. */
  ghost function Undone(fs: Fs, n: Name, existed: bool): Option<File> {
    if existed then fs.See(Backup(n)) else None
  }

  ghost predicate Untouched(fs: Fs, fs': Fs, e: Entry) {
    fs'.See(e) == fs.See(e) && fs'.May(e) == fs.May(e)
  }

  /** `n` is as before, or on its way to what undoing puts back. A missing backup
      keeps it as before. */
  ghost predicate MayBeUndone(fs: Fs, fs': Fs, n: Name, existed: bool) {
    || Untouched(fs, fs', Live(n))
    || (existed && !Legible(fs.See(Backup(n))))
    || ((existed ==> fs.See(Backup(n)) != None) && (
          && fs'.See(Live(n)) in {fs.See(Live(n)), Undone(fs, n, existed)}
          && fs'.May(Live(n)) <= fs.May(Live(n)) + {Undone(fs, n, existed)}))
  }

  /** Only live files in `done`, and scratch, may differ; the former by being undone. */
  ghost predicate Undoing(fs: Fs, fs': Fs, files: map<Name, bool>, done: set<Name>) {
    && Untouched(fs, fs', Journal)
    && (forall n :: Untouched(fs, fs', Backup(n)))
    && (forall n :: if n in done && n in files then MayBeUndone(fs, fs', n, files[n]) else Untouched(fs, fs', Live(n)))
  }

  lemma UndoingComposes(a: Fs, b: Fs, c: Fs, files: map<Name, bool>, done: set<Name>, n: Name)
    requires n in files && n !in done
    requires Undoing(a, b, files, done) && Undoing(b, c, map[n := files[n]], {n})
    ensures Undoing(a, c, files, done + {n})
  {
    hide Image.Visible, Image.May, Image.See;
    forall x ensures if x in done + {n} && x in files then MayBeUndone(a, c, x, files[x]) else Untouched(a, c, Live(x)) {
      assert Untouched(a, b, Backup(x)) && Untouched(b, c, Backup(x));
      if x == n {
        assert Untouched(a, b, Live(n)) && MayBeUndone(b, c, n, files[n]);
      } else {
        assert Untouched(b, c, Live(x));
      }
    }
    forall x ensures Untouched(a, c, Backup(x)) {
      assert Untouched(a, b, Backup(x)) && Untouched(b, c, Backup(x));
    }
  }

  lemma UndoingGrows(fs: Fs, fs': Fs, files: map<Name, bool>, done: set<Name>, more: set<Name>)
    requires Undoing(fs, fs', files, done) && done <= more
    ensures Undoing(fs, fs', files, more)
  {
  }

  /** Puts `bytes` at `n` through its scratch entry. */
  method PutBack(dir: Root, n: Name, bytes: Bytes) returns (r: Step)
    modifies dir`fs, dir`faults
    ensures forall e :: e != Live(n) && e != Pending(n) ==>
              dir.fs.See(e) == old(dir.fs.See(e)) && dir.fs.May(e) == old(dir.fs.May(e))
    ensures dir.fs.See(Live(n)) in {old(dir.fs.See(Live(n))), Some(Data(bytes))}
    ensures dir.fs.May(Live(n)) <= old(dir.fs.May(Live(n))) + {Some(Data(bytes))}
    ensures r == Done ==> dir.fs.See(Live(n)) == Some(Data(bytes))
    ensures r != Done ==> dir.faults > old(dir.faults)
    ensures dir.faults >= old(dir.faults)
  {
    hide Image.Visible, Image.May, Image.See;
    r := dir.Remove(Pending(n)); // its failure is ignored
    if r == Died {
      return;
    }
    r := dir.Write(Pending(n), Data(bytes), Torn);
    if r == Done {
      r := dir.Rename(Pending(n), Live(n));
    }
  }

  method UndoOne(dir: Root, n: Name, existed: bool) returns (r: Step)
    modifies dir`fs, dir`faults
    ensures Undoing(old(dir.fs), dir.fs, map[n := existed], {n})
    ensures r == Done && existed ==> old(dir.fs.See(Backup(n))) != None && IsData(dir.fs.See(Live(n)))
    ensures r == Done && (existed ==> Legible(old(dir.fs.See(Backup(n))))) ==>
              dir.fs.See(Live(n)) == old(Undone(dir.fs, n, existed))
    ensures r != Done && (existed ==> old(dir.fs.See(Backup(n))).Some? && old(dir.fs.See(Backup(n))).value.Data?) ==>
              dir.faults > old(dir.faults)
    ensures dir.faults >= old(dir.faults)
  {
    hide Image.Visible, Image.May, Image.See;
    if existed {
      var saved;
      r, saved := ReadActivated(dir, Backup(n));
      if r != Done || saved == None {
        return Failed;
      }
      r := PutBack(dir, n, saved.value);
    } else {
      r := dir.Remove(Live(n));
    }
  }

  /** Which names a journal of `count` entries is taken to cover. */
  function JournalNames(count: nat): seq<Name> {
    ActivationNames(count == |ActivationNames(true)|)
  }

  /** The files a journal speaks of, if it is one of the two known kinds. */
  function DecodeJournal(file: File): Option<map<Name, bool>> {
    match file
    case Record(version, files) =>
      if version == 1 && (|files| == |ACTIVATION_ORDER| || |files| == |ActivationNames(true)|) then Some(files) else None
    case _ => None
  }

  /** A journal that `Recover` can carry out in full. */
  ghost predicate Undoable(fs: Fs) {
    && fs.See(Journal).Some?
    && DecodeJournal(fs.See(Journal).value).Some?
    && var files := DecodeJournal(fs.See(Journal).value).value;
    && forall n :: n in JournalNames(|files|) ==>
         && n in files
         && (files[n] ==> fs.See(Backup(n)).Some? && fs.See(Backup(n)).value.Data?)
  }

  lemma {:induction false} NamesAreDistinct(withLaunchers: bool)
    ensures forall i, j :: 0 <= i < j < |ActivationNames(withLaunchers)| ==>
              ActivationNames(withLaunchers)[i] != ActivationNames(withLaunchers)[j]
  {
    assert ActivationNames(true) == [ProfileToken, ExecutionToken, Run, Connect, Probe, Disconnect, ConfigJson];
  }

  /** The restoring loop of a recovery. */
  method UndoAll(dir: Root, names: seq<Name>, files: map<Name, bool>) returns (r: Step)
    requires forall i, j :: 0 <= i < j < |names| ==> names[i] != names[j]
    modifies dir`fs, dir`faults
    ensures Undoing(old(dir.fs), dir.fs, files, Names(names))
    ensures r == Done ==> forall n :: n in names ==> n in files
    ensures r == Done ==> forall n :: n in names && files[n] ==>
              old(dir.fs.See(Backup(n))) != None && IsData(dir.fs.See(Live(n)))
    ensures r == Done ==> forall n :: n in names && (files[n] ==> Legible(old(dir.fs.See(Backup(n))))) ==>
              dir.fs.See(Live(n)) == Undone(old(dir.fs), n, files[n])
    ensures (forall n :: n in names ==> n in files && (files[n] ==>
               old(dir.fs.See(Backup(n))).Some? && old(dir.fs.See(Backup(n))).value.Data?)) ==>
              r == Done || dir.faults > old(dir.faults)
    ensures dir.faults >= old(dir.faults)
  {
    hide Image.Visible, Image.May, Image.See;
    ghost var entry := dir.fs;
    for i := 0 to |names|
      invariant Undoing(entry, dir.fs, files, Names(names[..i]))
      invariant forall n :: n in names[..i] ==> n in files
      invariant forall n :: n in names[..i] && files[n] ==> entry.See(Backup(n)) != None && IsData(dir.fs.See(Live(n)))
      invariant forall n :: n in names[..i] && (files[n] ==> Legible(entry.See(Backup(n)))) ==>
                  dir.fs.See(Live(n)) == Undone(entry, n, files[n])
      invariant dir.faults >= old(dir.faults)
    {
      var n := names[i];
      UndoingGrows(entry, dir.fs, files, Names(names[..i]), Names(names));
      if n !in files {
        return Failed;
      }
      ghost var before := dir.fs;
      assert n !in names[..i];
      r := UndoOne(dir, n, files[n]);
      UndoingComposes(entry, before, dir.fs, files, Names(names[..i]), n);
      assert Names(names[..i]) + {n} == Names(names[..i + 1]);
      UndoingGrows(entry, dir.fs, files, Names(names[..i + 1]), Names(names));
      if r != Done {
        return;
      }
      forall x | x in names[..i + 1] && (files[x] ==> Legible(entry.See(Backup(x))))
        ensures dir.fs.See(Live(x)) == Undone(entry, x, files[x])
      {
        assert Untouched(entry, before, Backup(x)) && (x != n ==> Untouched(before, dir.fs, Live(x)));
      }
      forall x | x in names[..i + 1] && files[x]
        ensures entry.See(Backup(x)) != None && IsData(dir.fs.See(Live(x)))
      {
        assert Untouched(entry, before, Backup(x)) && (x != n ==> Untouched(before, dir.fs, Live(x)));
      }
    }
    r := Done;
    assert names[..|names|] == names;
  }

  lemma UndoingIsAtomic(fs: Fs, fs': Fs, plan: Plan)
    requires Atomic(fs, plan) && fs.See(Journal) == plan.Undo()
    requires Undoing(fs, fs', plan.Undo().value.files, Names(plan.names))
    ensures Atomic(fs', plan)
  {
    hide Image.Visible, Image.May, Image.See;
    var files := plan.Undo().value.files;
    assert Untouched(fs, fs', Journal);
    forall n
      ensures fs'.May(Live(n)) <= fs.May(Live(n)) + {Slot(plan.before, n)}
      ensures fs'.May(Backup(n)) == fs.May(Backup(n))
    {
      assert Untouched(fs, fs', Backup(n));
      if n in plan.names {
        assert files[n] <==> n in plan.before;
        assert fs.See(Backup(n)) in fs.May(Backup(n));
      }
    }
    if fs.May(Journal) != {plan.Undo()} {
      forall n ensures fs'.May(Live(n)) == {Slot(plan.before, n)} {
        assert fs'.See(Live(n)) in fs'.May(Live(n));
      }
    }
  }

  lemma {:induction false} DistinctCount(names: seq<Name>)
    requires forall i, j :: 0 <= i < j < |names| ==> names[i] != names[j]
    ensures |Names(names)| == |names|
  {
    if names != [] {
      var last := |names| - 1;
      DistinctCount(names[..last]);
      assert Names(names) == Names(names[..last]) + {names[last]};
    }
  }

  lemma JournalNamesOf(plan: Plan)
    requires plan.Valid()
    ensures |plan.Undo().value.files| == |plan.names| && (|plan.names| == |ACTIVATION_ORDER| || |plan.names| == |ActivationNames(true)|)
    ensures JournalNames(|plan.names|) == plan.names
  {
    var files := plan.Undo().value.files;
    var withLaunchers :| plan.names == ActivationNames(withLaunchers);
    NamesAreDistinct(withLaunchers);
    DistinctCount(plan.names);
    assert files.Keys == Names(plan.names);
  }

  /** A recovery by a journal of `files` may leave `live` at `n`. */
  ghost predicate ComesBack(fs: Fs, files: map<Name, bool>, n: Name, live: Installation) {
    if n !in JournalNames(|files|) then fs.See(Live(n)) == Slot(live, n)
    else
      && n in files
      && if !files[n] then n !in live
         else fs.See(Backup(n)) != None && n in live && (IsData(fs.See(Backup(n))) ==> fs.See(Backup(n)) == Slot(live, n))
  }

  /** `live` may be what a recovery of `fs` that returns nil leaves. A torn backup is put back
      as whatever bytes are left of it. */
  ghost predicate RecoversTo(fs: Fs, live: Installation) {
    if fs.See(Journal) == None then Holds(fs, live)
    else
      && DecodeJournal(fs.See(Journal).value).Some?
      && var files := DecodeJournal(fs.See(Journal).value).value;
      && forall n :: ComesBack(fs, files, n, live)
  }

  /** `live` is in place and no journal is in sight, though one may still be on disk with its
      backups because its removal was never synced. */
  ghost predicate AtEnd(fs: Fs, plan: Plan, live: Installation) {
    && plan.Valid() && Certain(fs, live)
    && fs.See(Journal) == None && OnlyRemovals(fs)
    && (Journal in fs.durable ==> DurablyJournalled(fs, plan))
  }

  lemma {:induction false} RemovalsOnlyLose(fs: Fs, e: Entry)
    requires OnlyRemovals(fs)
    ensures fs.May(e) <= {Lookup(fs.durable, e), None}
    decreases |fs.unsynced|
  {
    if fs.unsynced != [] {
      assert fs.Last() in fs.unsynced;
      assert forall op :: op in fs.Before().unsynced ==> op in fs.unsynced;
      RemovalsOnlyLose(fs.Before(), e);
    }
  }

  lemma OursIsDecoded(fs: Fs, plan: Plan)
    requires Atomic(fs, plan) && fs.See(Journal).Some? && DecodeJournal(fs.See(Journal).value).Some?
    ensures fs.See(Journal) == plan.Undo()
    ensures DecodeJournal(fs.See(Journal).value).value == plan.Undo().value.files
    ensures JournalNames(|plan.Undo().value.files|) == plan.names
  {
    hide Image.Visible, Image.May, Image.See;
    assert fs.See(Journal) in fs.May(Journal);
    JournalNamesOf(plan);
  }

  /** Every file that a journal of `files` covers is back to what `fs` records. */
  ghost predicate Restored(fs: Fs, fs': Fs, files: map<Name, bool>) {
    && (forall n :: n in JournalNames(|files|) ==> n in files)
    && (forall n :: n in JournalNames(|files|) && files[n] ==> fs.See(Backup(n)) != None && IsData(fs'.See(Live(n))))
    && (forall n :: n in JournalNames(|files|) && (files[n] ==> Legible(fs.See(Backup(n)))) ==>
          fs'.See(Live(n)) == Undone(fs, n, files[n]))
    && (forall n :: n !in JournalNames(|files|) ==> fs'.See(Live(n)) == fs.See(Live(n)))
  }

  /** The journal that undoes `plan` is durable, with every backup that it needs. */
  ghost predicate DurablyJournalled(fs: Fs, plan: Plan) {
    && Lookup(fs.durable, Journal) == plan.Undo()
    && forall n :: n in plan.names && n in plan.before ==> Lookup(fs.durable, Backup(n)) == Slot(plan.before, n)
  }

  /** Puts the live files back and makes that durable, while the journal stays. */
  method Restore(dir: Root, files: map<Name, bool>, ghost plan: Plan) returns (r: Step)
    requires dir.fs.See(Journal).Some? && DecodeJournal(dir.fs.See(Journal).value) == Some(files)
    modifies dir`fs, dir`faults
    ensures old(Atomic(dir.fs, plan)) ==> Atomic(dir.fs, plan)
    ensures dir.fs.See(Journal) == old(dir.fs.See(Journal))
    ensures r == Done ==> Restored(old(dir.fs), dir.fs, files)
    ensures r == Done ==> dir.fs.unsynced == [] && forall n :: dir.fs.May(Live(n)) == {dir.fs.See(Live(n))}
    ensures r == Done && old(Atomic(dir.fs, plan)) ==> Certain(dir.fs, plan.before) && DurablyJournalled(dir.fs, plan)
    ensures old(Undoable(dir.fs)) ==> r == Done || dir.faults > old(dir.faults)
    ensures dir.faults >= old(dir.faults)
  {
    hide Image.Visible, Image.May, Image.See, Undoing, Atomic, Certain, DurablyJournalled, DecodeJournal;
    ghost var entry, ours := dir.fs, Atomic(dir.fs, plan);
    var names := JournalNames(|files|);
    NamesAreDistinct(|files| == |ActivationNames(true)|);
    r := UndoAll(dir, names, files);
    ghost var undone := dir.fs;
    UndoingKeeps(entry, undone, files, names);
    if ours {
      OursIsDecoded(entry, plan);
      UndoingIsAtomic(entry, undone, plan);
    }
    if r != Done {
      return;
    }
    r := dir.Sync();
    if ours {
      SyncIsAtomic(undone, dir.fs, plan);
    }
    if r == Done && ours {
      RestoredIsSettling(entry, dir.fs, plan, files);
    }
  }

  lemma RestoredIsSettling(entry: Fs, fs: Fs, plan: Plan, files: map<Name, bool>)
    requires Atomic(entry, plan) && Restored(entry, fs, files)
    requires entry.See(Journal).Some? && DecodeJournal(entry.See(Journal).value) == Some(files)
    requires fs.See(Journal) == entry.See(Journal) && forall n :: fs.See(Backup(n)) == entry.See(Backup(n))
    requires forall e :: Lookup(fs.durable, e) == fs.See(e)
    requires forall n :: fs.May(Live(n)) == {fs.See(Live(n))}
    ensures Certain(fs, plan.before) && DurablyJournalled(fs, plan)
  {
    hide Image.Visible, Image.May, Image.See, Atomic;
    OursIsDecoded(entry, plan);
    AtomicSees(entry, plan);
    RestoredIsCertain(entry, fs, plan);
  }

  /** The part of a recovery that follows decoding a valid journal. */
  method RollBack(dir: Root, files: map<Name, bool>, ghost plan: Plan) returns (r: Step)
    requires dir.fs.See(Journal).Some? && DecodeJournal(dir.fs.See(Journal).value) == Some(files)
    modifies dir`fs, dir`faults
    ensures old(Atomic(dir.fs, plan)) ==> Atomic(dir.fs, plan)
    ensures r == Done && old(Atomic(dir.fs, plan)) ==> Settled(dir.fs, plan.before) && Holds(dir.fs, plan.before)
    ensures r == Done ==> dir.fs.See(Journal) == None && dir.fs.unsynced == []
    ensures r == Done ==> forall live :: Holds(dir.fs, live) ==> RecoversTo(old(dir.fs), live)
    ensures old(Atomic(dir.fs, plan)) && dir.fs.See(Journal) == None ==> AtEnd(dir.fs, plan, plan.before)
    ensures old(Undoable(dir.fs)) ==> r == Done || dir.faults > old(dir.faults)
    ensures dir.faults >= old(dir.faults)
  {
    hide Image.Visible, Image.May, Image.See, AtEnd, RecoversTo, Restored, Undoable, DurablyJournalled;
    ghost var entry, ours := dir.fs, Atomic(dir.fs, plan);
    r := Restore(dir, files, plan);
    if r != Done {
      return;
    }
    ghost var synced := dir.fs;
    var committed;
    committed, r := FinishActivation(dir, JournalNames(|files|));
    if ours {
      WithdrawalIsAtomic(synced, dir.fs, plan);
      CertainKept(synced, dir.fs, plan.before);
      CertainHolds(dir.fs, plan.before);
      if dir.fs.See(Journal) == None {
        WithdrawnIsAtEnd(synced, dir.fs, plan, plan.before);
      }
    }
    if r == Done {
      forall live | Holds(dir.fs, live) ensures RecoversTo(entry, live) {
        LiveIsRecovered(entry, synced, dir.fs, files, live);
      }
    }
  }

  lemma UndoingKeeps(fs: Fs, fs': Fs, files: map<Name, bool>, names: seq<Name>)
    requires Undoing(fs, fs', files, Names(names))
    ensures fs'.See(Journal) == fs.See(Journal) && forall n :: fs'.See(Backup(n)) == fs.See(Backup(n))
    ensures forall n :: n !in names ==> fs'.See(Live(n)) == fs.See(Live(n))
  {
    hide Image.Visible, Image.May, Image.See;
    forall n ensures fs'.See(Backup(n)) == fs.See(Backup(n)) && (n !in names ==> fs'.See(Live(n)) == fs.See(Live(n))) {
      assert Untouched(fs, fs', Backup(n)) && (n !in names ==> Untouched(fs, fs', Live(n)));
    }
  }

  /** Once a journal was synced with its backups, it may be on disk until its removal is. */
  lemma WithdrawnIsAtEnd(synced: Fs, fs: Fs, plan: Plan, live: Installation)
    requires plan.Valid() && DurablyJournalled(synced, plan)
    requires OnlyRemovals(fs) && Certain(fs, live) && fs.See(Journal) == None
    requires fs.durable == synced.durable || Journal !in fs.durable
    ensures AtEnd(fs, plan, live)
  {
  }

  lemma LiveIsRecovered(entry: Fs, restored: Fs, fs: Fs, files: map<Name, bool>, live: Installation)
    requires entry.See(Journal).Some? && DecodeJournal(entry.See(Journal).value) == Some(files)
    requires Restored(entry, restored, files) && Holds(fs, live)
    requires forall n :: fs.See(Live(n)) == restored.See(Live(n))
    ensures RecoversTo(entry, live)
  {
    hide Image.Visible, Image.May, Image.See;
    forall n ensures fs.See(Live(n)) == Slot(live, n) {
    }
  }

  lemma RestoredIsCertain(fs: Fs, fs': Fs, plan: Plan)
    requires forall n :: fs'.May(Live(n)) == {fs'.See(Live(n))}
    requires forall n :: n in plan.names && n in plan.before ==> fs.See(Backup(n)) == Slot(plan.before, n)
    requires forall n :: n !in plan.names ==> fs.See(Live(n)) == Slot(plan.before, n)
    requires forall n :: n in plan.names && (n in plan.before ==> Legible(fs.See(Backup(n)))) ==>
               fs'.See(Live(n)) == Undone(fs, n, n in plan.before)
    requires forall n :: n !in plan.names ==> fs'.See(Live(n)) == fs.See(Live(n))
    ensures Certain(fs', plan.before)
  {
  }

  lemma AtomicSees(fs: Fs, plan: Plan)
    requires Atomic(fs, plan)
    ensures forall n :: n !in plan.names ==> fs.See(Live(n)) == Slot(plan.before, n)
    ensures fs.See(Journal) == plan.Undo() ==> forall n :: n in plan.names && n in plan.before ==>
              fs.See(Backup(n)) in {Slot(plan.before, n), None}
  {
    hide Image.Visible, Image.May, Image.See;
    forall n | n !in plan.names ensures fs.See(Live(n)) == Slot(plan.before, n) {
      ElsewhereTheSame(plan, n);
      assert fs.See(Live(n)) in fs.May(Live(n));
    }
    if fs.See(Journal) == plan.Undo() {
      assert fs.See(Journal) in fs.May(Journal);
      forall n | n in plan.names && n in plan.before ensures fs.See(Backup(n)) in {Slot(plan.before, n), None} {
        assert fs.See(Backup(n)) in fs.May(Backup(n));
      }
    }
  }

  lemma ElsewhereTheSame(plan: Plan, n: Name)
    requires n !in plan.names
    ensures Slot(plan.After(), n) == Slot(plan.before, n)
  {
  }

  /** A recovery without a journal in sight. */
  method DropScratch(dir: Root, ghost plan: Plan) returns (r: Step)
    modifies dir`fs, dir`faults
    ensures old(Atomic(dir.fs, plan)) ==> Atomic(dir.fs, plan)
    ensures old(Atomic(dir.fs, plan) && dir.fs.See(Journal) == None) ==>
      Holds(dir.fs, plan.before) || Holds(dir.fs, plan.After())
    ensures forall live :: old(AtEnd(dir.fs, plan, live)) ==> AtEnd(dir.fs, plan, live)
    ensures ScratchOnly(old(dir.fs), dir.fs)
    ensures r == Done ==> NoScratch(dir.fs, ActivationNames(true))
    ensures r == Done <==> dir.faults == old(dir.faults)
    ensures dir.faults >= old(dir.faults)
  {
    hide Image.Visible, Image.May, Image.See;
    ghost var entry := dir.fs;
    r := RemoveScratch(dir, ActivationNames(true), false);
    if Atomic(entry, plan) {
      ScratchIsFree(entry, dir.fs, plan);
      if entry.See(Journal) == None {
        SettledLive(dir.fs, plan);
      }
    }
  }

  /** Rolls an interrupted activation back, or only drops scratch files when no journal
      is in sight. */
  method Recover(dir: Root, ghost plan: Plan) returns (r: Step)
    modifies dir`fs, dir`faults
    ensures old(Atomic(dir.fs, plan)) ==> Atomic(dir.fs, plan)
    ensures r == Done && old(Atomic(dir.fs, plan)) ==> Holds(dir.fs, plan.before) || Holds(dir.fs, plan.After())
    ensures r == Done && old(Atomic(dir.fs, plan) && dir.fs.See(Journal) != None) ==> Settled(dir.fs, plan.before)
    ensures r == Done ==> dir.fs.See(Journal) == None
    ensures r == Done && old(dir.fs.See(Journal)) != None ==> dir.fs.unsynced == []
    ensures r == Done ==> forall live :: Holds(dir.fs, live) ==> RecoversTo(old(dir.fs), live)
    ensures old(Atomic(dir.fs, plan) && dir.fs.See(Journal) != None) && dir.fs.See(Journal) == None ==>
              AtEnd(dir.fs, plan, plan.before)
    ensures forall live :: old(AtEnd(dir.fs, plan, live)) ==> AtEnd(dir.fs, plan, live)
    ensures old(dir.fs.See(Journal)) == None ==> ScratchOnly(old(dir.fs), dir.fs)
    ensures r == Done && old(dir.fs.See(Journal)) == None ==> NoScratch(dir.fs, ActivationNames(true))
    ensures old(dir.fs.See(Journal) == None || Undoable(dir.fs)) ==> r == Done || dir.faults > old(dir.faults)
    ensures dir.faults >= old(dir.faults)
  {
    hide Image.Visible, Image.May, Image.See;
    ghost var entry := dir.fs;
    var journal;
    r, journal := dir.Read(Journal);
    if r != Done {
      return;
    }
    if journal == None {
      r := DropScratch(dir, plan);
      return;
    }
    var decoded := DecodeJournal(journal.value);
    if decoded == None {
      return Failed;
    }
    r := RollBack(dir, decoded.value, plan);
  }

  lemma CertainHolds(fs: Fs, live: Installation)
    requires Certain(fs, live)
    ensures Holds(fs, live)
  {
    hide Image.Visible, Image.May, Image.See;
    forall n ensures fs.See(Live(n)) == Slot(live, n) {
      assert fs.See(Live(n)) in fs.May(Live(n));
    }
  }

  lemma SettledLive(fs: Fs, plan: Plan)
    requires Atomic(fs, plan) && fs.See(Journal) == None
    ensures Holds(fs, plan.before) || Holds(fs, plan.After())
  {
    hide Image.Visible, Image.May, Image.See;
    assert fs.See(Journal) in fs.May(Journal);
    if Certain(fs, plan.before) {
      CertainHolds(fs, plan.before);
    } else {
      CertainHolds(fs, plan.After());
    }
  }

  lemma ScratchIsFree(fs: Fs, fs': Fs, plan: Plan)
    requires Atomic(fs, plan) && ScratchOnly(fs, fs')
    requires BackupsOnlyLost(fs, fs')
    ensures Atomic(fs', plan)
  {
  }

  lemma SyncIsAtomic(fs: Fs, fs': Fs, plan: Plan)
    requires Atomic(fs, plan)
    requires forall e :: fs'.See(e) == fs.See(e) && fs'.May(e) <= fs.May(e)
    ensures Atomic(fs', plan)
  {
    hide Image.Visible, Image.May, Image.See;
    assert fs'.See(Journal) in fs'.May(Journal);
    if Certain(fs, plan.before) {
      CertainKept(fs, fs', plan.before);
    }
    if Certain(fs, plan.After()) {
      CertainKept(fs, fs', plan.After());
    }
  }

  /** The operations by which a preparation without faults extends the directory. */
  function PreparationOps(live: Installation, names: seq<Name>, values: Installation): seq<Op<Entry, File>> {
    if names == [] then []
    else
      var n := names[|names| - 1];
      PreparationOps(live, names[..|names| - 1], values)
      + (if n in live then [Put(Backup(n), Data(live[n]))] else [])
      + (if n in values then [Put(Pending(n), Data(values[n]))] else [])
  }

  ghost predicate Prepared(fs: Fs, live: Installation, names: seq<Name>, values: Installation) {
    && (forall n :: n in names && n in live ==> fs.See(Backup(n)) == Slot(live, n))
    && (forall n :: n in names ==> fs.See(Pending(n)) == Slot(values, n))
  }

  ghost predicate LiveAndJournalUntouched(fs: Fs, fs': Fs) {
    Untouched(fs, fs', Journal) && forall n :: Untouched(fs, fs', Live(n))
  }

  ghost function WithBackup(fs: Fs, live: Installation, n: Name): Fs {
    if n in live then fs.Then(Put(Backup(n), Data(live[n]))) else fs
  }

  /** Saves and stages one file. */
  method PrepareOne(dir: Root, n: Name, value: Bytes, ghost live: Installation) returns (r: Step, existed: bool)
    modifies dir`fs, dir`faults
    ensures LiveAndJournalUntouched(old(dir.fs), dir.fs)
    ensures forall e :: e != Backup(n) && e != Pending(n) ==> Untouched(old(dir.fs), dir.fs, e)
    ensures r == Done && old(Holds(dir.fs, live)) ==>
              && existed == (n in live)
              && dir.fs.See(Pending(n)) == Some(Data(value))
              && (existed ==> dir.fs.See(Backup(n)) == Slot(live, n))
              && dir.fs == WithBackup(old(dir.fs), live, n).Then(Put(Pending(n), Data(value)))
    ensures old(Holds(dir.fs, live)) ==> Staged(old(dir.fs), dir.fs, live, [n], true)
    ensures old(Holds(dir.fs, live) && NoScratch(dir.fs, [n])) && r != Done ==> dir.faults > old(dir.faults)
    ensures r == Done ==> dir.faults == old(dir.faults)
    ensures dir.faults >= old(dir.faults)
  {
    hide Image.Visible, Image.May, Image.See;
    ghost var entry, ours := dir.fs, Holds(dir.fs, live);
    var saved;
    r, saved := ReadActivated(dir, Live(n));
    existed := saved.Some?;
    if r != Done {
      return;
    }
    if existed {
      r := dir.Write(Backup(n), Data(saved.value), Torn);
      if ours {
        WritingStages(entry, entry, dir.fs, Backup(n), Data(saved.value), live, [n]);
      }
      if r != Done {
        return;
      }
    }
    ghost var backed := dir.fs;
    r := dir.Write(Pending(n), Data(value), Torn);
    if ours {
      WritingStages(entry, backed, dir.fs, Pending(n), Data(value), live, [n]);
    }
  }

  lemma WritingStages(entry: Fs, fs: Fs, fs': Fs, e: Entry, file: File, live: Installation, names: seq<Name>)
    requires Staged(entry, fs, live, names, true)
    requires StagingOp(Put(e, file), live, names, true) && StagingOp(Put(e, Torn), live, names, true)
    requires fs' in {fs, fs.Then(Put(e, file)), fs.Then(Put(e, Torn)), fs.Then(Put(e, Torn)).Then(Put(e, file))}
    ensures Staged(entry, fs', live, names, true)
  {
    StagedThen(entry, fs, Put(e, Torn), live, names, true);
    StagedThen(entry, fs, Put(e, file), live, names, true);
    StagedThen(entry, fs.Then(Put(e, Torn)), Put(e, file), live, names, true);
  }

  /** The preparation loop. The journal record it builds says which files existed. */
  method Prepare(dir: Root, names: seq<Name>, values: Installation, ghost live: Installation)
    returns (r: Step, files: map<Name, bool>)
    requires forall n :: n in names ==> n in values
    requires forall i, j :: 0 <= i < j < |names| ==> names[i] != names[j]
    modifies dir`fs, dir`faults
    ensures r != Done || files.Keys == Names(names)
    ensures LiveAndJournalUntouched(old(dir.fs), dir.fs)
    ensures r == Done && old(Holds(dir.fs, live)) ==>
              && files == (map n | n in names :: n in live)
              && Prepared(dir.fs, live, names, values)
              && dir.fs == Image(old(dir.fs).durable, old(dir.fs).unsynced + PreparationOps(live, names, values))
    ensures old(Holds(dir.fs, live)) ==> Staged(old(dir.fs), dir.fs, live, names, true)
    ensures old(Holds(dir.fs, live) && NoScratch(dir.fs, names)) && r != Done ==> dir.faults > old(dir.faults)
    ensures r == Done ==> dir.faults == old(dir.faults)
    ensures dir.faults >= old(dir.faults)
  {
    hide Image.Visible, Image.May, Image.See, Staged;
    ghost var entry := dir.fs;
    files := map[];
    NothingStaged(entry, live, names);
    for i := 0 to |names|
      invariant files.Keys == Names(names[..i])
      invariant LiveAndJournalUntouched(entry, dir.fs)
      invariant forall n :: n in names[i..] ==> Untouched(entry, dir.fs, Backup(n)) && Untouched(entry, dir.fs, Pending(n))
      invariant Holds(entry, live) ==> PreparedUpTo(entry, dir.fs, live, names[..i], values, files)
      invariant Holds(entry, live) ==> Staged(entry, dir.fs, live, names, true)
      invariant dir.faults == old(dir.faults)
    {
      var n := names[i];
      ghost var before := dir.fs;
      if Holds(entry, live) {
        StillHolds(entry, before, live);
      }
      var existed;
      r, existed := PrepareOne(dir, n, values[n], live);
      RestUntouched(entry, before, dir.fs, names, i);
      if Holds(entry, live) {
        StagedOneMore(entry, before, dir.fs, live, names, n);
      }
      if r != Done {
        return;
      }
      if Holds(entry, live) {
        PreparedStep(entry, before, dir.fs, live, names, i, values, files);
      }
      files := files[n := existed];
      assert names[..i + 1] == names[..i] + [n];
    }
    r := Done;
    assert names[..|names|] == names;
  }

  lemma NothingStaged(fs: Fs, live: Installation, names: seq<Name>)
    ensures Staged(fs, fs, live, names, true)
  {
  }

  lemma StagedOneMore(entry: Fs, fs: Fs, fs': Fs, live: Installation, names: seq<Name>, n: Name)
    requires Staged(entry, fs, live, names, true) && Staged(fs, fs', live, [n], true) && n in names
    ensures Staged(entry, fs', live, names, true)
  {
    assert Staged(fs, fs', live, names, true) by {
      forall op | op in fs'.unsynced[|fs.unsynced|..] ensures StagingOp(op, live, names, true) {
        assert StagingOp(op, live, [n], true);
      }
    }
    StagedComposes(entry, fs, fs', live, names);
  }

  /** The preparation loop after the names in `names`. */
  ghost predicate PreparedUpTo(entry: Fs, fs: Fs, live: Installation, names: seq<Name>, values: Installation, files: map<Name, bool>) {
    && files == (map n | n in names :: n in live)
    && Prepared(fs, live, names, values)
    && fs.durable == entry.durable
    && fs.unsynced == entry.unsynced + PreparationOps(live, names, values)
  }

  lemma RestUntouched(entry: Fs, fs: Fs, fs': Fs, names: seq<Name>, i: nat)
    requires i < |names| && forall i, j :: 0 <= i < j < |names| ==> names[i] != names[j]
    requires forall n :: n in names[i..] ==> Untouched(entry, fs, Backup(n)) && Untouched(entry, fs, Pending(n))
    requires forall e :: e != Backup(names[i]) && e != Pending(names[i]) ==> Untouched(fs, fs', e)
    ensures Untouched(entry, fs, Backup(names[i])) && Untouched(entry, fs, Pending(names[i]))
    ensures forall n :: n in names[i + 1..] ==> Untouched(entry, fs', Backup(n)) && Untouched(entry, fs', Pending(n))
  {
    hide Image.Visible, Image.May, Image.See;
    assert names[i..] == [names[i]] + names[i + 1..];
    forall n | n in names[i + 1..] ensures Untouched(entry, fs', Backup(n)) && Untouched(entry, fs', Pending(n)) {
      assert n in names[i..] && n != names[i];
      assert Untouched(fs, fs', Backup(n)) && Untouched(fs, fs', Pending(n));
    }
  }

  lemma PreparedStep(entry: Fs, fs: Fs, fs': Fs, live: Installation, names: seq<Name>, i: nat, values: Installation, files: map<Name, bool>)
    requires i < |names| && (forall i, j :: 0 <= i < j < |names| ==> names[i] != names[j]) && names[i] in values
    requires PreparedUpTo(entry, fs, live, names[..i], values, files)
    requires forall e :: e != Backup(names[i]) && e != Pending(names[i]) ==> Untouched(fs, fs', e)
    requires fs'.See(Pending(names[i])) == Slot(values, names[i])
    requires names[i] in live ==> fs'.See(Backup(names[i])) == Slot(live, names[i])
    requires fs' == WithBackup(fs, live, names[i]).Then(Put(Pending(names[i]), Data(values[names[i]])))
    ensures PreparedUpTo(entry, fs', live, names[..i + 1], values, files[names[i] := names[i] in live])
  {
    hide Image.Visible, Image.May, Image.See;
    PreparedGrows(fs, fs', live, names, i, values);
    OpsStep(entry.unsynced, live, names, i, values);
    FilesStep(live, names, i);
  }

  lemma PreparedGrows(fs: Fs, fs': Fs, live: Installation, names: seq<Name>, i: nat, values: Installation)
    requires i < |names| && (forall i, j :: 0 <= i < j < |names| ==> names[i] != names[j])
    requires Prepared(fs, live, names[..i], values)
    requires forall e :: e != Backup(names[i]) && e != Pending(names[i]) ==> Untouched(fs, fs', e)
    requires fs'.See(Pending(names[i])) == Slot(values, names[i])
    requires names[i] in live ==> fs'.See(Backup(names[i])) == Slot(live, names[i])
    ensures Prepared(fs', live, names[..i + 1], values)
  {
    hide Image.Visible, Image.May, Image.See;
    forall x | x in names[..i + 1]
      ensures fs'.See(Pending(x)) == Slot(values, x)
      ensures x in live ==> fs'.See(Backup(x)) == Slot(live, x)
    {
      if x != names[i] {
        assert x in names[..i];
        assert Untouched(fs, fs', Pending(x)) && Untouched(fs, fs', Backup(x));
      }
    }
  }

  lemma OpsStep(ops: seq<Op<Entry, File>>, live: Installation, names: seq<Name>, i: nat, values: Installation)
    requires i < |names| && names[i] in values
    ensures ops + PreparationOps(live, names[..i + 1], values) ==
            ops + PreparationOps(live, names[..i], values)
            + (if names[i] in live then [Put(Backup(names[i]), Data(live[names[i]]))] else [])
            + [Put(Pending(names[i]), Data(values[names[i]]))]
  {
    assert names[..i + 1][..i] == names[..i];
  }

  lemma FilesStep(live: Installation, names: seq<Name>, i: nat)
    requires i < |names|
    ensures (map n | n in names[..i] :: n in live)[names[i] := names[i] in live] == map n | n in names[..i + 1] :: n in live
  {
    assert names[..i + 1] == names[..i] + [names[i]];
  }

  lemma StillHolds(fs: Fs, fs': Fs, live: Installation)
    requires Holds(fs, live) && LiveAndJournalUntouched(fs, fs')
    ensures Holds(fs', live)
  {
    hide Image.Visible, Image.May, Image.See;
    forall n ensures fs'.See(Live(n)) == Slot(live, n) {
      assert Untouched(fs, fs', Live(n));
    }
  }

  /** No journal yet, and the old files are the only ones a failure can leave. */
  ghost predicate Preparing(fs: Fs, plan: Plan) {
    plan.Valid() && Settled(fs, plan.before)
  }

  /** The old files and no journal are what the running system sees. */
  ghost predicate Begun(fs: Fs, plan: Plan) {
    plan.Valid() && Holds(fs, plan.before) && fs.See(Journal) == None
  }

  lemma BegunIsPreparing(fs: Fs, plan: Plan)
    requires Begun(fs, plan) && forall e :: fs.May(e) == {fs.See(e)}
    ensures Preparing(fs, plan)
  {
    hide Image.Visible, Image.May, Image.See;
  }

  /** Since `fs`, only staging went on, or what was found then is settled by now. */
  ghost predicate StagedOrSettled(fs: Fs, fs': Fs, plan: Plan) {
    Begun(fs', plan) && (Staged(fs, fs', plan.before, plan.names, true) || Preparing(fs', plan))
  }

  lemma StagingGoesOn(entry: Fs, fs: Fs, fs': Fs, plan: Plan)
    requires StagedOrSettled(entry, fs, plan)
    requires Staged(fs, fs', map[], [], true) || (forall e :: fs'.May(e) == {fs'.See(e)})
    requires LiveKept(fs, fs') && fs'.See(Journal) == fs.See(Journal) && fs'.May(Journal) <= fs.May(Journal)
    ensures StagedOrSettled(entry, fs', plan)
  {
    hide Image.Visible, Image.May, Image.See;
    assert Begun(fs', plan);
    if Preparing(fs, plan) {
      PreparingKept(fs, fs', plan);
    } else if Staged(fs, fs', map[], [], true) {
      assert forall op :: StagingOp(op, map[], [], true) ==> StagingOp(op, plan.before, plan.names, true);
      StagedComposes(entry, fs, fs', plan.before, plan.names);
    } else {
      BegunIsPreparing(fs', plan);
    }
  }

  /** Everything an undo needs is durable. */
  ghost predicate Backed(fs: Fs, plan: Plan) {
    forall n :: n in plan.names && n in plan.before ==> fs.May(Backup(n)) <= {Slot(plan.before, n), None}
  }

  /** The journal's write has been tried, the old files are still the only ones. */
  ghost predicate Journaling(fs: Fs, plan: Plan) {
    && plan.Valid() && Certain(fs, plan.before) && Backed(fs, plan)
    && fs.May(Journal) <= {None, Some(Torn), plan.Undo()}
  }

  /** The journal is durable, so live files may be of either side. */
  ghost predicate Renaming(fs: Fs, plan: Plan) {
    && plan.Valid() && Backed(fs, plan)
    && fs.May(Journal) == {plan.Undo()} && Saved(fs, plan)
    && forall n :: fs.May(Live(n)) <= {Slot(plan.before, n), Slot(plan.After(), n)}
  }

  ghost predicate Saved(fs: Fs, plan: Plan) {
    forall n :: n in plan.names && n in plan.before ==> fs.See(Backup(n)) == Slot(plan.before, n)
  }

  lemma RenamingIsUndoable(fs: Fs, plan: Plan)
    requires Renaming(fs, plan)
    ensures Undoable(fs)
  {
    hide Image.Visible, Image.May, Image.See;
    assert fs.See(Journal) in fs.May(Journal);
    JournalNamesOf(plan);
  }

  /** The first `k` names have their new files in sight, the others are staged. */
  ghost predicate Renamed(fs: Fs, plan: Plan, k: nat)
    requires k <= |plan.names|
  {
    && (forall n :: n in plan.names[..k] ==> fs.See(Live(n)) == Slot(plan.values, n))
    && (forall n :: n in plan.names[k..] ==> fs.See(Pending(n)) == Slot(plan.values, n))
  }

  lemma StagesAreAtomic(fs: Fs, plan: Plan)
    ensures Preparing(fs, plan) ==> Atomic(fs, plan)
    ensures Journaling(fs, plan) ==> Atomic(fs, plan)
    ensures Renaming(fs, plan) ==> Atomic(fs, plan)
  {
    hide Image.Visible, Image.May, Image.See;
    assert Certain(fs, plan.before) ==> OneSided(fs, plan);
  }

  lemma NewFile(plan: Plan, n: Name)
    requires plan.Valid() && n in plan.names
    ensures Slot(plan.After(), n) == Slot(plan.values, n) != None
  {
  }

  lemma RenamingStep(fs: Fs, fs': Fs, plan: Plan, n: Name)
    requires Renaming(fs, plan) && n in plan.names && fs.See(Pending(n)) == Slot(plan.values, n)
    requires forall e :: e != Live(n) && e != Pending(n) ==> Untouched(fs, fs', e)
    requires fs'.May(Live(n)) <= fs.May(Live(n)) + {fs.See(Pending(n))}
    ensures Renaming(fs', plan)
  {
    hide Image.Visible, Image.May, Image.See;
    NewFile(plan, n);
    assert Untouched(fs, fs', Journal);
    forall x ensures fs'.May(Live(x)) <= {Slot(plan.before, x), Slot(plan.After(), x)} {
      if x != n {
        assert Untouched(fs, fs', Live(x));
      }
    }
    forall x | x in plan.names && x in plan.before
      ensures fs'.May(Backup(x)) <= {Slot(plan.before, x), None}
      ensures fs'.See(Backup(x)) == Slot(plan.before, x)
    {
      assert Untouched(fs, fs', Backup(x));
    }
  }

  lemma RenamedStep(fs: Fs, fs': Fs, plan: Plan, i: nat)
    requires i < |plan.names| && Renamed(fs, plan, i)
    requires forall i, j :: 0 <= i < j < |plan.names| ==> plan.names[i] != plan.names[j]
    requires forall e :: e != Live(plan.names[i]) && e != Pending(plan.names[i]) ==> Untouched(fs, fs', e)
    requires fs'.See(Live(plan.names[i])) == fs.See(Pending(plan.names[i]))
    ensures Renamed(fs', plan, i + 1)
  {
    hide Image.Visible, Image.May, Image.See;
    var n := plan.names[i];
    assert n in plan.names[i..];
    forall x | x in plan.names[..i + 1] ensures fs'.See(Live(x)) == Slot(plan.values, x) {
      if x != n {
        assert x in plan.names[..i];
        assert Untouched(fs, fs', Live(x));
      }
    }
    forall x | x in plan.names[i + 1..] ensures fs'.See(Pending(x)) == Slot(plan.values, x) {
      assert x in plan.names[i..] && x != n;
      assert Untouched(fs, fs', Pending(x));
    }
  }

  /** One step of the commit loop. */
  method InstallOne(dir: Root, names: seq<Name>, i: nat, ghost plan: Plan) returns (r: Step)
    requires names == plan.names && i < |names|
    requires forall i, j :: 0 <= i < j < |names| ==> names[i] != names[j]
    modifies dir`fs, dir`faults
    ensures old(Renaming(dir.fs, plan)) && old(Renamed(dir.fs, plan, i)) ==> Renaming(dir.fs, plan)
    ensures old(Renaming(dir.fs, plan)) && old(Renamed(dir.fs, plan, i)) && r == Done ==> Renamed(dir.fs, plan, i + 1)
    ensures r == Done ==> dir.faults == old(dir.faults)
    ensures old(Renaming(dir.fs, plan)) && old(Renamed(dir.fs, plan, i)) && r != Done ==> dir.faults > old(dir.faults)
    ensures dir.faults >= old(dir.faults)
  {
    hide Image.Visible, Image.May, Image.See;
    ghost var before := dir.fs;
    assert names[i] in names[i..];
    r := dir.Rename(Pending(names[i]), Live(names[i]));
    assert forall e :: e != Live(names[i]) && e != Pending(names[i]) ==> Untouched(before, dir.fs, e);
    if Renaming(before, plan) && Renamed(before, plan, i) {
      RenamingStep(before, dir.fs, plan, names[i]);
      if r == Done {
        RenamedStep(before, dir.fs, plan, i);
      }
    }
  }

  /** The commit loop: staged files become live. */
  method InstallPending(dir: Root, names: seq<Name>, ghost plan: Plan) returns (r: Step)
    requires names == plan.names
    requires forall i, j :: 0 <= i < j < |names| ==> names[i] != names[j]
    modifies dir`fs, dir`faults
    ensures old(Renaming(dir.fs, plan)) && old(Renamed(dir.fs, plan, 0)) ==> Renaming(dir.fs, plan)
    ensures old(Renaming(dir.fs, plan)) && old(Renamed(dir.fs, plan, 0)) && r == Done ==> Renamed(dir.fs, plan, |names|)
    ensures r == Done ==> dir.faults == old(dir.faults)
    ensures old(Renaming(dir.fs, plan)) && old(Renamed(dir.fs, plan, 0)) && r != Done ==> dir.faults > old(dir.faults)
    ensures dir.faults >= old(dir.faults)
  {
    hide Image.Visible, Image.May, Image.See;
    ghost var ours := Renaming(dir.fs, plan) && Renamed(dir.fs, plan, 0);
    for i := 0 to |names|
      invariant ours ==> Renaming(dir.fs, plan) && Renamed(dir.fs, plan, i)
      invariant dir.faults == old(dir.faults)
    {
      r := InstallOne(dir, names, i, plan);
      if r != Done {
        return;
      }
    }
    r := Done;
  }

  /** What an outcome tag tells the operator. */
  ghost predicate Truthful(r: Outcome, fs: Fs, plan: Plan) {
    match r
    case Activated => Settled(fs, plan.After()) && fs.unsynced == [] && NoScratch(fs, plan.names)
    case Committed => Settled(fs, plan.After())
    case Preserved => Settled(fs, plan.before) && fs.unsynced == []
    case Indeterminate => true
    case Killed => true
  }

  lemma JournalingKept(fs: Fs, fs': Fs, plan: Plan)
    requires Journaling(fs, plan)
    requires LiveKept(fs, fs') && BackupsOnlyLost(fs, fs')
    requires fs'.May(Journal) <= fs.May(Journal) + {None}
    ensures Journaling(fs', plan)
    ensures fs'.unsynced == [] && fs'.See(Journal) == None ==> Preparing(fs', plan)
  {
    CertainKept(fs, fs', plan.before);
    forall n | n in plan.names && n in plan.before ensures fs'.May(Backup(n)) <= {Slot(plan.before, n), None} {
      assert fs'.May(Backup(n)) <= fs.May(Backup(n)) + {None};
    }
  }

  lemma PreparingKept(fs: Fs, fs': Fs, plan: Plan)
    requires Preparing(fs, plan)
    requires LiveKept(fs, fs') && fs'.May(Journal) <= fs.May(Journal)
    ensures Preparing(fs', plan)
  {
    hide Image.Visible, Image.May, Image.See;
    CertainKept(fs, fs', plan.before);
    assert fs'.See(Journal) in fs'.May(Journal);
  }

  /** The preparation loop and the sync that makes it durable. */
  method PrepareDurably(dir: Root, names: seq<Name>, values: Installation, ghost plan: Plan) returns (r: Step, files: map<Name, bool>)
    requires plan.Valid() && names == plan.names && values == plan.values
    modifies dir`fs, dir`faults
    ensures old(Preparing(dir.fs, plan)) ==> Preparing(dir.fs, plan)
    ensures old(Begun(dir.fs, plan)) ==> StagedOrSettled(old(dir.fs), dir.fs, plan)
    ensures old(Begun(dir.fs, plan)) && r == Done ==>
              Preparing(dir.fs, plan) && Backed(dir.fs, plan) && Saved(dir.fs, plan) && Renamed(dir.fs, plan, 0) && Some(Record(1, files)) == plan.Undo()
    ensures old(Preparing(dir.fs, plan) && NoScratch(dir.fs, names)) && r != Done ==> dir.faults > old(dir.faults)
    ensures r == Done ==> old(dir.faults) == dir.faults
    ensures dir.faults >= old(dir.faults)
  {
    hide Image.Visible, Image.May, Image.See, Staged, Atomic, OneSided, PreparationOps;
    ghost var entry, ours := dir.fs, Preparing(dir.fs, plan);
    var withLaunchers :| names == ActivationNames(withLaunchers);
    NamesAreDistinct(withLaunchers);
    r, files := Prepare(dir, names, values, plan.before);
    ghost var prepared := dir.fs;
    if r == Done {
      r := dir.Sync();
    }
    if ours {
      PreparingKept(entry, prepared, plan);
      PreparingKept(prepared, dir.fs, plan);
      CertainHolds(dir.fs, plan.before);
    }
    if Begun(entry, plan) {
      StillHolds(entry, prepared, plan.before);
      if dir.fs != prepared {
        BegunIsPreparing(dir.fs, plan);
      }
    }
  }

  lemma UnsyncedDecides(fs: Fs)
    requires fs.unsynced == []
    ensures forall e :: fs.May(e) == {fs.See(e)}
  {
  }

  /** Saves and stages the files. `None` says that they are durable. */
  method StageFiles(dir: Root, names: seq<Name>, values: Installation, ghost plan: Plan)
    returns (failure: Option<Outcome>, files: map<Name, bool>)
    requires plan.Valid() && names == plan.names && values == plan.values
    modifies dir`fs, dir`faults
    ensures old(Preparing(dir.fs, plan)) ==> Preparing(dir.fs, plan)
    ensures old(Begun(dir.fs, plan)) ==> StagedOrSettled(old(dir.fs), dir.fs, plan)
    ensures old(Begun(dir.fs, plan)) && failure == Some(Preserved) ==> Preparing(dir.fs, plan)
    ensures old(Begun(dir.fs, plan)) && failure == None ==>
              Preparing(dir.fs, plan) && Backed(dir.fs, plan) && Saved(dir.fs, plan) && Renamed(dir.fs, plan, 0) && Some(Record(1, files)) == plan.Undo()
    ensures failure.Some? ==> failure.value in {Preserved, Indeterminate, Killed}
    ensures failure == Some(Preserved) ==> dir.fs.unsynced == []
    ensures old(Preparing(dir.fs, plan) && NoScratch(dir.fs, names)) && failure.Some? ==>
              dir.faults > old(dir.faults) + (if failure == Some(Indeterminate) then 1 else 0)
    ensures failure == None ==> old(dir.faults) == dir.faults
    ensures dir.faults >= old(dir.faults)
  {
    hide Image.Visible, Image.May, Image.See, Settled, Backed, Saved, Renamed, Plan.Undo, Staged, Begun;
    ghost var entry := dir.fs;
    var step;
    step, files := PrepareDurably(dir, names, values, plan);
    ghost var reached := dir.fs;
    match step
    case Done => failure := None;
    case Died => failure := Some(Killed);
    case Failed =>
      var outcome := PreparationError(dir);
      failure := Some(outcome);
      if Preparing(entry, plan) {
        PreparingKept(reached, dir.fs, plan);
      }
      if Begun(entry, plan) {
        StagingGoesOn(entry, reached, dir.fs, plan);
        if outcome == Preserved {
          UnsyncedDecides(dir.fs);
          BegunIsPreparing(dir.fs, plan);
        }
      }
  }

  /** Writes and syncs the journal. `None` says that the commit loop may start. */
  method StageJournal(dir: Root, files: map<Name, bool>, ghost plan: Plan) returns (failure: Option<Outcome>)
    modifies dir`fs, dir`faults
    ensures old(Preparing(dir.fs, plan) && Backed(dir.fs, plan)) && Some(Record(1, files)) == plan.Undo() ==>
              && Journaling(dir.fs, plan)
              && (failure == None && old(Saved(dir.fs, plan)) ==> Renaming(dir.fs, plan))
              && (failure == Some(Preserved) ==> Preparing(dir.fs, plan))
    ensures failure == None ==> forall n :: dir.fs.See(Pending(n)) == old(dir.fs.See(Pending(n)))
    ensures failure == None && old(Saved(dir.fs, plan)) ==> Saved(dir.fs, plan)
    ensures failure == Some(Preserved) ==> dir.fs.unsynced == []
    ensures failure.Some? ==> failure.value in {Preserved, Indeterminate, Killed}
    ensures old(dir.fs.See(Journal)) == None && failure == Some(Indeterminate) && dir.faults <= old(dir.faults) + 1 ==>
              Some(Record(1, files)) in dir.fs.May(Journal) && dir.fs.See(Journal) != None
    ensures old(dir.fs.See(Journal)) == None ==> (failure == None <==> dir.faults == old(dir.faults))
    ensures failure == None ==> dir.faults == old(dir.faults)
    ensures dir.faults >= old(dir.faults)
  {
    hide Image.Visible, Image.May, Image.See;
    ghost var entry := dir.fs;
    var step := dir.Write(Journal, Record(1, files), Torn);
    ghost var written := dir.fs;
    assert LiveKept(entry, written) && BackupsOnlyLost(entry, written);
    if step == Failed {
      var outcome := AbortJournal(dir);
      failure := Some(outcome);
    } else if step == Died {
      failure := Some(Killed);
    } else {
      step := dir.Sync();
      failure := match step case Done => None case Failed => Some(Indeterminate) case Died => Some(Killed);
    }
    if Preparing(entry, plan) && Backed(entry, plan) && Some(Record(1, files)) == plan.Undo() {
      CertainKept(entry, written, plan.before);
      assert Journaling(written, plan);
      JournalingKept(written, dir.fs, plan);
    }
  }

  lemma AllRenamed(fs: Fs, plan: Plan)
    requires Renaming(fs, plan) && Renamed(fs, plan, |plan.names|)
    requires forall n :: fs.May(Live(n)) == {fs.See(Live(n))}
    ensures Certain(fs, plan.After()) && OneSided(fs, plan)
  {
    hide Image.Visible, Image.May, Image.See;
    assert plan.names[..|plan.names|] == plan.names;
    forall n ensures fs.See(Live(n)) == Slot(plan.After(), n) {
      if n in plan.names {
        NewFile(plan, n);
      } else {
        ElsewhereTheSame(plan, n);
        assert fs.See(Live(n)) in fs.May(Live(n));
      }
    }
  }

  /** From the last rename to the end of an activation. */
  method Conclude(dir: Root, names: seq<Name>, ghost plan: Plan) returns (r: Outcome)
    requires names == plan.names
    modifies dir`fs, dir`faults
    ensures old(Renaming(dir.fs, plan)) && old(Renamed(dir.fs, plan, |names|)) ==>
      Atomic(dir.fs, plan) && Truthful(r, dir.fs, plan)
    ensures old(Renaming(dir.fs, plan)) && old(Renamed(dir.fs, plan, |names|)) && r == Indeterminate ==>
              plan.Undo() in dir.fs.May(Journal)
    ensures old(Renaming(dir.fs, plan)) && old(Renamed(dir.fs, plan, |names|)) && dir.fs.See(Journal) == None ==>
              AtEnd(dir.fs, plan, plan.After())
    ensures r in {Activated, Committed, Indeterminate, Killed}
    ensures r == Activated <==> dir.faults == old(dir.faults)
    ensures dir.faults >= old(dir.faults)
  {
    hide Image.Visible, Image.May, Image.See;
    ghost var entry, ours := dir.fs, Renaming(dir.fs, plan) && Renamed(dir.fs, plan, |names|);
    StagesAreAtomic(entry, plan);
    var step := dir.Sync();
    ghost var synced := dir.fs;
    if ours {
      SyncedRenaming(entry, synced, plan);
      StagesAreAtomic(synced, plan);
      assert synced.See(Journal) in synced.May(Journal);
    }
    if step != Done {
      return if step == Died then Killed else Indeterminate;
    }
    if ours {
      AllRenamed(synced, plan);
      assert OnlyRemovals(synced) && Lookup(synced.durable, Journal) == plan.Undo();
    }
    var committed;
    committed, step := FinishActivation(dir, names);
    if ours {
      WithdrawalIsAtomic(synced, dir.fs, plan);
      CertainKept(synced, dir.fs, plan.After());
    }
    return match step
      case Done => Activated
      case Failed => if committed then Committed else Indeterminate
      case Died => Killed;
  }

  /** Undoes a commit loop that failed. */
  method Retreat(dir: Root, ghost plan: Plan) returns (r: Outcome)
    modifies dir`fs, dir`faults
    ensures old(Renaming(dir.fs, plan)) ==> Atomic(dir.fs, plan) && Truthful(r, dir.fs, plan)
    ensures old(Renaming(dir.fs, plan)) && dir.faults == old(dir.faults) ==> r == Preserved
    ensures r in {Preserved, Indeterminate, Killed}
    ensures dir.faults >= old(dir.faults)
  {
    hide Image.Visible, Image.May, Image.See;
    ghost var entry := dir.fs;
    if Renaming(entry, plan) {
      StagesAreAtomic(entry, plan);
      RenamingIsUndoable(entry, plan);
      assert entry.See(Journal) in entry.May(Journal);
    }
    var step := Recover(dir, plan);
    return match step case Done => Preserved case Failed => Indeterminate case Died => Killed;
  }

  /** From the durable journal to the end of an activation. */
  method Commit(dir: Root, names: seq<Name>, ghost plan: Plan) returns (r: Outcome)
    requires names == plan.names
    requires forall i, j :: 0 <= i < j < |names| ==> names[i] != names[j]
    modifies dir`fs, dir`faults
    ensures old(Renaming(dir.fs, plan)) && old(Renamed(dir.fs, plan, 0)) ==>
      Atomic(dir.fs, plan) && Truthful(r, dir.fs, plan)
    ensures old(Renaming(dir.fs, plan)) && old(Renamed(dir.fs, plan, 0)) && r == Indeterminate ==>
              plan.Undo() in dir.fs.May(Journal) || dir.faults > old(dir.faults) + 1
    ensures old(Renaming(dir.fs, plan)) && old(Renamed(dir.fs, plan, 0)) && r == Indeterminate
            && dir.faults <= old(dir.faults) + 1 && dir.fs.See(Journal) == None ==>
              AtEnd(dir.fs, plan, plan.After()) && Journal in dir.fs.durable
    ensures r == Activated ==> dir.faults == old(dir.faults)
    ensures old(Renaming(dir.fs, plan)) && old(Renamed(dir.fs, plan, 0)) && r != Activated ==>
      dir.faults > old(dir.faults)
    ensures dir.faults >= old(dir.faults)
  {
    hide Image.Visible, Image.May, Image.See;
    var step := InstallPending(dir, names, plan);
    match step
    case Done =>
      r := Conclude(dir, names, plan);
      if AtEnd(dir.fs, plan, plan.After()) {
        RemovalsOnlyLose(dir.fs, Journal);
      }
    case Failed => r := Retreat(dir, plan);
    case Died =>
      StagesAreAtomic(dir.fs, plan);
      r := Killed;
  }

  lemma SyncedRenaming(fs: Fs, fs': Fs, plan: Plan)
    requires Renaming(fs, plan) && Renamed(fs, plan, |plan.names|)
    requires forall e :: fs'.See(e) == fs.See(e) && fs'.May(e) <= fs.May(e)
    ensures Renaming(fs', plan) && Renamed(fs', plan, |plan.names|)
  {
    hide Image.Visible, Image.May, Image.See;
    assert fs'.See(Journal) in fs'.May(Journal);
    forall n | n in plan.names && n in plan.before ensures fs'.May(Backup(n)) <= {Slot(plan.before, n), None} {
      assert fs'.May(Backup(n)) <= fs.May(Backup(n));
    }
  }

  /** Replaces the files in `names` by `values`, all or none. `plan.before` is what was
      installed, durably and without a journal, when the activation began. */
  method ActivateLocked(dir: Root, names: seq<Name>, values: Installation, ghost plan: Plan) returns (r: Outcome)
    requires plan.Valid() && names == plan.names && values == plan.values
    modifies dir`fs, dir`faults
    ensures old(Begun(dir.fs, plan)) ==> Truthful(r, dir.fs, plan)
    ensures old(Begun(dir.fs, plan)) ==> Atomic(dir.fs, plan) || Staged(old(dir.fs), dir.fs, plan.before, names, true)
    ensures old(Settled(dir.fs, plan.before)) ==> Atomic(dir.fs, plan) && Truthful(r, dir.fs, plan)
    ensures old(Settled(dir.fs, plan.before) && NoScratch(dir.fs, names)) && r == Indeterminate
            && dir.faults <= old(dir.faults) + 1 && dir.fs.See(Journal) == None ==>
              AtEnd(dir.fs, plan, plan.After()) && Journal in dir.fs.durable
    ensures old(Settled(dir.fs, plan.before) && NoScratch(dir.fs, names)) && dir.faults == old(dir.faults) ==>
      r == Activated
    ensures r == Activated ==> dir.faults == old(dir.faults)
    ensures old(Settled(dir.fs, plan.before) && NoScratch(dir.fs, names)) && r == Indeterminate && dir.faults <= old(dir.faults) + 1 ==>
              plan.Undo() in dir.fs.May(Journal)
  {
    hide Image.Visible, Image.May, Image.See;
    var withLaunchers :| names == ActivationNames(withLaunchers);
    NamesAreDistinct(withLaunchers);
    var failure, files := StageFiles(dir, names, values, plan);
    ghost var staged := dir.fs;
    StagesAreAtomic(staged, plan);
    if failure.Some? {
      return failure.value;
    }
    failure := StageJournal(dir, files, plan);
    StagesAreAtomic(dir.fs, plan);
    if failure.Some? {
      return failure.value;
    }
    r := Commit(dir, names, plan);
  }
}
