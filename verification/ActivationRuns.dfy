/** Whole runs of the configuration activation: power failures and kills anywhere,
    any number of recoveries, and what a second activation may start from. */
module ActivationRuns {
  import opened Directory
  import opened Activation

  function Restarted(fs: Fs, keep: seq<bool>): Fs
    requires |keep| == |fs.unsynced|
  {
    Image(fs.Survivor(keep), [])
  }

  /** Whatever a power failure keeps, the directory stays atomic, and a settled one settled. */
  lemma PowerFailureIsAtomic(fs: Fs, keep: seq<bool>, plan: Plan)
    requires |keep| == |fs.unsynced|
    ensures Atomic(fs, plan) ==> Atomic(Restarted(fs, keep), plan)
    ensures forall live :: Settled(fs, live) ==> Settled(Restarted(fs, keep), live)
  {
    var after := Restarted(fs, keep);
    forall e ensures after.See(e) in fs.May(e) && after.May(e) == {after.See(e)} {
      fs.SurvivorIsPossible(keep, e);
    }
    FailureIsAtomic(fs, after, plan);
  }

  lemma FailureIsAtomic(fs: Fs, fs': Fs, plan: Plan)
    requires forall e :: fs'.See(e) in fs.May(e) && fs'.May(e) == {fs'.See(e)}
    ensures Atomic(fs, plan) ==> Atomic(fs', plan)
    ensures forall live :: Settled(fs, live) ==> Settled(fs', live)
  {
    hide Image.Visible, Image.May, Image.See;
    if Certain(fs, plan.before) {
      assert Certain(fs', plan.before);
    }
    if Certain(fs, plan.After()) {
      assert Certain(fs', plan.After());
    }
  }

  lemma RecoveryKeepsSettled(fs: Fs, fs': Fs, live: Installation)
    requires Settled(fs, live) && ScratchOnly(fs, fs')
    ensures Settled(fs', live) && Holds(fs', live)
  {
    hide Image.Visible, Image.May, Image.See;
    CertainHolds(fs', live);
  }

  // ---- Runs ----------------------------------------------------------------------

  /** One recovery, possibly after a power failure. */
  method RestartAndRecover(dir: Root, ghost plan: Plan, ghost live: Installation) returns (r: Step)
    modifies dir`fs, dir`faults
    ensures old(Atomic(dir.fs, plan)) ==> Atomic(dir.fs, plan)
    ensures r == Done ==> dir.fs.See(Journal) == None
    ensures old(Atomic(dir.fs, plan)) && r == Done ==> Holds(dir.fs, plan.before) || Holds(dir.fs, plan.After())
    ensures old(Settled(dir.fs, live)) ==> Settled(dir.fs, live) && Holds(dir.fs, live)
  {
    hide Image.Visible, Image.May, Image.See;
    ghost var entry := dir.fs;
    if * {
      var keep := dir.Reboot();
      PowerFailureIsAtomic(entry, keep, plan);
    }
    ghost var started := dir.fs;
    if Settled(started, live) {
      assert started.See(Journal) in started.May(Journal);
    }
    r := Recover(dir, plan);
    if Settled(started, live) {
      RecoveryKeepsSettled(started, dir.fs, live);
    }
  }

  /** No journal that could come back says that one of the files in `names` existed. */
  ghost predicate Harmless(fs: Fs, names: seq<Name>) {
    forall j, n :: j in fs.May(Journal) && j.Some? && j.value.Record? && n in names && n in j.value.files ==>
      !j.value.files[n]
  }

  /** An activation may start here: `live` is in place, no journal is in sight, and one that
      could come back is that of `stale` and harmless. */
  ghost predicate Ready(fs: Fs, names: seq<Name>, live: Installation, stale: Plan) {
    && Holds(fs, live) && fs.See(Journal) == None
    && (Settled(fs, live) || (Atomic(fs, stale) && Certain(fs, live) && Harmless(fs, names)))
  }

  /** Staging touches no backup that a harmless journal needs. */
  lemma StagingKeepsAtomic(fs: Fs, fs': Fs, plan: Plan, live: Installation, names: seq<Name>)
    requires Atomic(fs, plan) && fs.See(Journal) == None && Certain(fs, live) && Harmless(fs, names)
    requires Staged(fs, fs', live, names, true)
    ensures Atomic(fs', plan) && fs'.See(Journal) == None && Certain(fs', live)
  {
    hide Image.Visible, Image.May, Image.See, Staged;
    StagedMay(fs, fs', live, names, true, Journal);
    forall n ensures fs'.May(Live(n)) == fs.May(Live(n)) && fs'.May(Backup(n)) <= fs.May(Backup(n)) + Staging(Backup(n), live, names, true) {
      StagedMay(fs, fs', live, names, true, Live(n));
      StagedMay(fs, fs', live, names, true, Backup(n));
    }
    if plan.Undo() in fs.May(Journal) {
      forall n | n in plan.names && n in plan.before ensures n !in names {
        assert plan.Undo().value.files[n];
      }
    }
  }

  /** An activation, cut short anywhere, then any number of recoveries cut short anywhere,
      with or without power failures before each. A final recovery that returns nil finds
      one side of the activation, or of the one whose journal came back. If the activation
      reported a definite outcome, that is what is found. */
  method ActivateAndRecover(dir: Root, names: seq<Name>, values: Installation, attempts: nat, ghost plan: Plan, ghost stale: Plan)
    returns (outcome: Outcome, r: Step, ghost last: Plan)
    requires plan.Valid() && names == plan.names && values == plan.values
    modifies dir`fs, dir`faults
    ensures last in {plan, stale} && (old(Settled(dir.fs, plan.before)) ==> last == plan)
    ensures old(Ready(dir.fs, names, plan.before, stale)) ==> Atomic(dir.fs, last)
    ensures r == Done ==> dir.fs.See(Journal) == None
    ensures old(Ready(dir.fs, names, plan.before, stale)) && r == Done ==>
      Holds(dir.fs, last.before) || Holds(dir.fs, last.After())
    ensures old(Begun(dir.fs, plan)) && outcome in {Activated, Committed} ==> Holds(dir.fs, plan.After())
    ensures old(Begun(dir.fs, plan)) && outcome == Preserved ==> Holds(dir.fs, plan.before)
  {
    hide Image.Visible, Image.May, Image.See, Staged;
    ghost var entry := dir.fs;
    outcome := ActivateLocked(dir, names, values, plan);
    last := if Settled(entry, plan.before) || Atomic(dir.fs, plan) then plan else stale;
    if Ready(entry, names, plan.before, stale) && last == stale && !Atomic(dir.fs, plan) {
      StagingKeepsAtomic(entry, dir.fs, stale, plan.before, names);
    }
    ghost var reported := if outcome == Preserved then plan.before else plan.After();
    ghost var definite := Begun(entry, plan) && outcome in {Activated, Committed, Preserved};
    for k := 0 to attempts
      invariant Ready(entry, names, plan.before, stale) ==> Atomic(dir.fs, last)
      invariant definite ==> Settled(dir.fs, reported)
    {
      var ignored := RestartAndRecover(dir, last, reported);
    }
    r := RestartAndRecover(dir, last, reported);
  }

  datatype Setup = Setup(withLaunchers: bool, values: Installation) {
    function Names(): seq<Name> {
      ActivationNames(withLaunchers)
    }

    ghost predicate Valid() {
      forall n :: n in Names() ==> n in values
    }

    function Over(live: Installation): Installation {
      Plan(Names(), live, values).After()
    }
  }

  /** The set at `i` is an earlier one with the files of one setup replaced. */
  ghost predicate Descends(history: seq<Installation>, setups: seq<Setup>, i: nat)
    requires 1 <= i < |history| <= |setups| + 1
  {
    exists j :: 0 <= j < i && history[i] == setups[i - 1].Over(history[j])
  }

  ghost predicate Lineage(history: seq<Installation>, setups: seq<Setup>) {
    && 1 <= |history| <= |setups| + 1
    && forall i :: 1 <= i < |history| ==> Descends(history, setups, i)
  }

  lemma LineageGrows(history: seq<Installation>, setups: seq<Setup>, j: nat, next: Installation)
    requires Lineage(history, setups) && |history| <= |setups| && j < |history|
    requires next == setups[|history| - 1].Over(history[j])
    ensures Lineage(history + [next], setups)
  {
    hide Setup.Over;
    var longer := history + [next];
    forall i | 1 <= i < |longer| ensures Descends(longer, setups, i) {
      if i < |history| {
        assert Descends(history, setups, i);
        var k :| 0 <= k < i && history[i] == setups[i - 1].Over(history[k]);
        assert longer[i] == setups[i - 1].Over(longer[k]);
      } else {
        assert longer[i] == setups[i - 1].Over(longer[j]);
      }
    }
  }

  lemma NextIsReady(fs: Fs, plan: Plan, live: Installation, names: seq<Name>)
    requires Atomic(fs, plan) && fs.See(Journal) == None && Harmless(fs, names)
    requires Holds(fs, live)
    ensures Ready(fs, names, live, plan)
  {
    hide Image.Visible, Image.May, Image.See;
    assert fs.See(Journal) in fs.May(Journal);
    var side := if Certain(fs, plan.before) then plan.before else plan.After();
    forall n ensures fs.May(Live(n)) == {Slot(live, n)} {
      assert fs.See(Live(n)) in fs.May(Live(n)) && fs.May(Live(n)) == {Slot(side, n)};
    }
  }

  /** Each setup started where no journal that could come back concerns its files. */
  ghost predicate AllHarmless(starts: seq<Fs>, setups: seq<Setup>) {
    forall i :: 0 <= i < |starts| <= |setups| ==> Harmless(starts[i], setups[i].Names())
  }

  lemma NoStarts(setups: seq<Setup>)
    ensures AllHarmless([], setups)
  {
  }

  lemma OneMoreStart(starts: seq<Fs>, fs: Fs, setups: seq<Setup>)
    requires |starts| < |setups|
    ensures AllHarmless(starts + [fs], setups) <==> AllHarmless(starts, setups) && Harmless(fs, setups[|starts|].Names())
  {
    hide Image.Visible, Image.May, Image.See, Harmless;
    var more := starts + [fs];
    assert more[|starts|] == fs && forall i :: 0 <= i < |starts| ==> more[i] == starts[i];
  }

  /** Any number of setups, each cut short anywhere and recovered. `starts` is the
      directory as each setup found it. If none of them found a journal that could come
      back and concerns its files, every recovery that returns nil finds one of the sets
      installed so far, whole. */
  method RunSetups(dir: Root, setups: seq<Setup>, attempts: nat, ghost first: Installation)
    returns (r: Step, ghost history: seq<Installation>, ghost starts: seq<Fs>)
    requires Settled(dir.fs, first) && forall s :: s in setups ==> s.Valid()
    modifies dir`fs, dir`faults
    ensures Lineage(history, setups) && history[0] == first
    ensures r == Done ==> |history| == |setups| + 1
    ensures [old(dir.fs)] <= starts + [dir.fs] && |starts| + 1 == |history|
    ensures r == Done && AllHarmless(starts, setups) ==> exists i :: 0 <= i < |history| && Holds(dir.fs, history[i])
  {
    hide Image.Visible, Image.May, Image.See, Harmless, AllHarmless, Atomic;
    r, history, starts := Done, [first], [];
    ghost var current, clean, stale, a, b := 0, true, Plan([], first, first), 0, 0;
    CertainHolds(dir.fs, first);
    assert dir.fs.See(Journal) in dir.fs.May(Journal);
    NoStarts(setups);
    for k := 0 to |setups|
      invariant r == Done && |history| == k + 1 == |starts| + 1 && Lineage(history, setups) && history[0] == first
      invariant [old(dir.fs)] <= starts + [dir.fs]
      invariant clean <==> AllHarmless(starts, setups)
      invariant 0 <= current < |history| && 0 <= a < |history| && 0 <= b < |history|
      invariant stale.before == history[a] && stale.After() == history[b]
      invariant clean ==> Holds(dir.fs, history[current]) && dir.fs.See(Journal) == None
      invariant clean ==> Settled(dir.fs, history[current]) || Atomic(dir.fs, stale)
    {
      assert setups[k] in setups;
      var s := setups[k];
      clean := clean && Harmless(dir.fs, s.Names());
      OneMoreStart(starts, dir.fs, setups);
      starts := starts + [dir.fs];
      ghost var plan := Plan(s.Names(), history[current], s.values);
      if clean && Atomic(dir.fs, stale) {
        NextIsReady(dir.fs, stale, history[current], s.Names());
      }
      var outcome;
      ghost var last;
      outcome, r, last := ActivateAndRecover(dir, s.Names(), s.values, attempts, plan, stale);
      LineageGrows(history, setups, current, s.Over(history[current]));
      history := history + [s.Over(history[current])];
      if r != Done {
        return;
      }
      if last == plan {
        stale, a, b := plan, current, k + 1;
      }
      current := if Holds(dir.fs, stale.before) then a else b;
    }
  }

  // ---- When the next activation is safe ------------------------------------------

  /** The state in which the journal's removal went through and its sync failed. */
  lemma UnsyncedRemovalIsAtEnd(fs: Fs, plan: Plan)
    requires Renaming(fs, plan) && Renamed(fs, plan, |plan.names|) && fs.unsynced == []
    ensures
      var left := fs.Then(Drop(Journal));
      AtEnd(left, plan, plan.After()) && Journal in left.durable
  {
    UnsyncedDecides(fs);
    AllRenamed(fs, plan);
    fs.ThenSees(Drop(Journal));
    var left := fs.Then(Drop(Journal));
    assert fs.See(Journal) in fs.May(Journal);
    forall n ensures left.May(Live(n)) == fs.May(Live(n)) && Lookup(fs.durable, Backup(n)) == fs.See(Backup(n)) {
    }
  }

  /** After any power failure, a recovery that returns nil leaves one side of `plan`. */
  ghost predicate NeverMixes(fs: Fs, plan: Plan) {
    forall keep: seq<bool>, live: Installation | |keep| == |fs.unsynced| && RecoversTo(Restarted(fs, keep), live) ::
      live == plan.before || live == plan.After()
  }

  lemma SlotsDecide(a: Installation, b: Installation)
    requires forall n :: Slot(a, n) == Slot(b, n)
    ensures a == b
  {
    forall n ensures n in a <==> n in b {
      assert Slot(a, n) == Slot(b, n);
    }
    forall n | n in a ensures a[n] == b[n] {
      assert Slot(a, n) == Slot(b, n);
    }
  }

  lemma HoldsDecides(fs: Fs, a: Installation, b: Installation)
    requires Holds(fs, a) && Holds(fs, b)
    ensures a == b
  {
    forall n ensures Slot(a, n) == Slot(b, n) {
      assert fs.See(Live(n)) == Slot(a, n);
    }
    SlotsDecide(a, b);
  }

  lemma AtomicNeverMixes(fs: Fs, plan: Plan)
    requires Atomic(fs, plan)
    ensures NeverMixes(fs, plan)
  {
    forall keep: seq<bool>, live: Installation | |keep| == |fs.unsynced| && RecoversTo(Restarted(fs, keep), live)
      ensures live == plan.before || live == plan.After()
    {
      PowerFailureIsAtomic(fs, keep, plan);
      AtomicRecovers(Restarted(fs, keep), plan, live);
    }
  }

  lemma AtomicRecovers(image: Fs, plan: Plan, live: Installation)
    requires Atomic(image, plan) && RecoversTo(image, live)
    ensures live == plan.before || live == plan.After()
  {
    hide Image.Visible, Image.May, Image.See;
    if image.See(Journal) == None {
      SettledLive(image, plan);
      HoldsDecides(image, live, if Holds(image, plan.before) then plan.before else plan.After());
    } else {
      OursIsDecoded(image, plan);
      AtomicSees(image, plan);
      forall n ensures Slot(live, n) == Slot(plan.before, n) {
        assert ComesBack(image, plan.Undo().value.files, n, live);
        if n !in plan.names {
          ElsewhereTheSame(plan, n);
        }
      }
      SlotsDecide(live, plan.before);
    }
  }

  /** A next activation may start while an old journal may come back: a power failure at
      any exit keeps recoveries whole if and only if that journal is harmless. */
  lemma NextActivationIsWholeIff(fs: Fs, plan: Plan, live: Installation, names: seq<Name>, values: Installation)
    requires AtEnd(fs, plan, live) && live in {plan.before, plan.After()}
    requires forall n :: n in names ==> n in values
    ensures (forall after :: Staged(fs, after, live, names, true) ==> NeverMixes(after, plan)) <==> Harmless(fs, names)
  {
    RemovalsOnlyLose(fs, Journal);
    if Harmless(fs, names) {
      AtEndIsAtomic(fs, plan, live);
      forall after | Staged(fs, after, live, names, true) ensures NeverMixes(after, plan) {
        StagingKeepsAtomic(fs, after, plan, live, names);
        AtomicNeverMixes(after, plan);
      }
    } else {
      var j, n :| j in fs.May(Journal) && j.Some? && j.value.Record? && n in names && n in j.value.files && j.value.files[n];
      var i :| 0 <= i < |names| && names[i] == n;
      var keep, torn := TornBackupMixes(fs, plan, live, names, values, i);
      var after := With(fs, live, names[..i], values).Then(Put(Backup(n), Torn));
      assert RecoversTo(Restarted(after, keep), torn);
      assert !NeverMixes(after, plan);
    }
  }

  /** So every exit of an activation that starts beside a harmless journal is whole. */
  method ActivateNext(dir: Root, names: seq<Name>, values: Installation, ghost plan: Plan, ghost stale: Plan) returns (r: Outcome)
    requires plan.Valid() && names == plan.names && values == plan.values
    requires AtEnd(dir.fs, stale, plan.before) && plan.before in {stale.before, stale.After()} && Harmless(dir.fs, names)
    modifies dir`fs, dir`faults
    ensures Truthful(r, dir.fs, plan)
    ensures NeverMixes(dir.fs, plan) || NeverMixes(dir.fs, stale)
  {
    hide Image.Visible, Image.May, Image.See, Staged, NeverMixes, OnlyRemovals, Harmless;
    ghost var entry := dir.fs;
    CertainHolds(entry, plan.before);
    AtEndIsAtomic(entry, stale, plan.before);
    r := ActivateLocked(dir, names, values, plan);
    if Atomic(dir.fs, plan) {
      AtomicNeverMixes(dir.fs, plan);
    } else {
      StagingKeepsAtomic(entry, dir.fs, stale, plan.before, names);
      AtomicNeverMixes(dir.fs, stale);
    }
  }

  lemma AtEndIsAtomic(fs: Fs, plan: Plan, live: Installation)
    requires AtEnd(fs, plan, live) && live in {plan.before, plan.After()}
    ensures Atomic(fs, plan)
  {
    hide Image.Visible, Image.May, Image.See;
    RemovalsOnlyLose(fs, Journal);
    assert fs.See(Journal) in fs.May(Journal);
    forall n ensures fs.May(Backup(n)) <= {Lookup(fs.durable, Backup(n)), None} {
      RemovalsOnlyLose(fs, Backup(n));
    }
  }

  /** The directory once an activation that found `live` has staged `names`. */
  function With(fs: Fs, live: Installation, names: seq<Name>, values: Installation): Fs {
    fs.(unsynced := fs.unsynced + PreparationOps(live, names, values))
  }

  lemma {:induction false} PreparationIsStaging(live: Installation, all: seq<Name>, i: nat, values: Installation, op: Op<Entry, File>)
    requires i <= |all| && op in PreparationOps(live, all[..i], values)
    ensures StagingOp(op, live, all, false)
  {
    if i > 0 {
      var n := all[i - 1];
      assert all[..i][..i - 1] == all[..i - 1];
      if op in PreparationOps(live, all[..i - 1], values) {
        PreparationIsStaging(live, all, i - 1, values, op);
      }
    }
  }

  lemma WithIsStaged(fs: Fs, live: Installation, names: seq<Name>, i: nat, values: Installation)
    requires i <= |names|
    ensures Staged(fs, With(fs, live, names[..i], values), live, names, false)
    ensures Staged(fs, With(fs, live, names[..i], values), live, names, true)
  {
    forall op | op in PreparationOps(live, names[..i], values)
      ensures StagingOp(op, live, names, false) && StagingOp(op, live, names, true)
    {
      PreparationIsStaging(live, names, i, values, op);
    }
    assert With(fs, live, names[..i], values).unsynced[|fs.unsynced|..] == PreparationOps(live, names[..i], values);
  }

  /** Preparing the names before `all[i]` leaves its backup as it was. */
  lemma {:induction false} BackupIsLeft(fs: Fs, live: Installation, all: seq<Name>, i: nat, values: Installation, n: Name)
    requires i <= |all| && n !in all[..i]
    ensures With(fs, live, all[..i], values).See(Backup(n)) == fs.See(Backup(n))
    decreases i
  {
    hide Image.Visible, Image.May, Image.See;
    if i == 0 {
      assert fs.unsynced + [] == fs.unsynced;
      assert With(fs, live, all[..0], values) == fs;
    } else {
      var m, before := all[i - 1], With(fs, live, all[..i - 1], values);
      assert all[..i][..i - 1] == all[..i - 1] && m in all[..i] && forall x :: x in all[..i - 1] ==> x in all[..i];
      BackupIsLeft(fs, live, all, i - 1, values, n);
      var saved := if m in live then before.Then(Put(Backup(m), Data(live[m]))) else before;
      var staged := if m in values then saved.Then(Put(Pending(m), Data(values[m]))) else saved;
      assert With(fs, live, all[..i], values).unsynced == staged.unsynced;
      if m in live {
        PutLeaves(before, Backup(m), Data(live[m]), Backup(n));
      }
      if m in values {
        PutLeaves(saved, Pending(m), Data(values[m]), Backup(n));
      }
    }
  }

  lemma PutLeaves(fs: Fs, e: Entry, file: File, other: Entry)
    requires e != other
    ensures fs.Then(Put(e, file)).See(other) == fs.See(other)
  {
    fs.ThenSees(Put(e, file));
  }

  function Only(j: nat, length: nat): seq<bool> {
    seq(length, i => i == j)
  }

  lemma {:induction false} OnlyOneSurvives(fs: Fs, j: nat)
    ensures fs.Survivor(Only(j, |fs.unsynced|)) == if j < |fs.unsynced| then Effect(fs.unsynced[j], fs.durable) else fs.durable
    decreases |fs.unsynced|
  {
    if fs.unsynced != [] {
      var n := |fs.unsynced| - 1;
      assert Only(j, |fs.unsynced|)[..n] == Only(j, n);
      OnlyOneSurvives(fs.Before(), j);
    }
  }

  /** With its backups but for that of `n`, the old journal takes every other file back. */
  lemma OneBackupDecides(fs: Fs, image: Fs, plan: Plan, live: Installation, n: Name, file: File, after: Installation)
    requires AtEnd(fs, plan, live) && live in {plan.before, plan.After()} && Journal in fs.durable
    requires image == Image(fs.durable[Backup(n) := file], []) && n in plan.names && n in plan.before
    requires n in after && (file.Data? ==> Some(file) == Slot(after, n))
    requires forall x :: x != n ==> Slot(after, x) == Slot(plan.before, x)
    ensures RecoversTo(image, after)
  {
    hide Image.Visible, Image.May, Image.See, OnlyRemovals, RecoversTo;
    DurableIsSeen(image, Journal);
    forall x
      ensures image.See(Live(x)) == Slot(live, x)
      ensures x in plan.names && x in plan.before ==>
        image.See(Backup(x)) == if x == n then Some(file) else Slot(plan.before, x)
    {
      DurableIsSeen(image, Live(x));
      DurableIsSeen(image, Backup(x));
      fs.DurableIsPossible(Live(x));
    }
    TakenBack(image, plan, live, n, file, after);
  }

  lemma TakenBack(image: Fs, plan: Plan, live: Installation, n: Name, file: File, after: Installation)
    requires plan.Valid() && image.See(Journal) == plan.Undo() && live in {plan.before, plan.After()}
    requires forall x :: image.See(Live(x)) == Slot(live, x)
    requires forall x :: x in plan.names && x in plan.before ==>
               image.See(Backup(x)) == if x == n then Some(file) else Slot(plan.before, x)
    requires n in plan.names && n in plan.before && n in after && (file.Data? ==> Some(file) == Slot(after, n))
    requires forall x :: x != n ==> Slot(after, x) == Slot(plan.before, x)
    ensures RecoversTo(image, after)
  {
    hide Image.Visible, Image.May, Image.See, Slot;
    JournalNamesOf(plan);
    var files := plan.Undo().value.files;
    assert DecodeJournal(image.See(Journal).value) == Some(files);
    forall x ensures ComesBack(image, files, x, after) {
      if x !in plan.names {
        ElsewhereTheSame(plan, x);
      } else if x != n {
        AsBefore(plan, x, after);
      }
    }
  }

  lemma AsBefore(plan: Plan, x: Name, after: Installation)
    requires Slot(after, x) == Slot(plan.before, x)
    ensures (x in after <==> x in plan.before) && (x in plan.before ==> Slot(plan.before, x) != None)
  {
  }

  lemma DurableIsSeen(fs: Fs, e: Entry)
    requires fs.unsynced == []
    ensures fs.See(e) == Lookup(fs.durable, e)
  {
  }

  /** The backup of a file is torn while it is saved, and the old journal comes back with
      it: a recovery puts back whatever is left. Where no scratch was left over, the backup
      can be created at that point. */
  lemma TornBackupMixes(fs: Fs, plan: Plan, live: Installation, names: seq<Name>, values: Installation, i: nat)
    returns (keep: seq<bool>, torn: Installation)
    requires AtEnd(fs, plan, live) && live in {plan.before, plan.After()} && Journal in fs.durable
    requires i < |names| && names[i] in plan.names && names[i] in plan.before && names[i] in plan.values
    ensures
      var after := With(fs, live, names[..i], values).Then(Put(Backup(names[i]), Torn));
      && Staged(fs, after, live, names, true) && |keep| == |after.unsynced|
      && RecoversTo(Restarted(after, keep), torn) && torn != plan.before && torn != plan.After()
    ensures NoScratch(fs, names) && names[i] !in names[..i] ==>
      With(fs, live, names[..i], values).See(Backup(names[i])) == None
  {
    hide Image.Visible, Image.May, Image.See, AtEnd, Staged, RecoversTo;
    var n := names[i];
    var staged := With(fs, live, names[..i], values);
    if n !in names[..i] {
      BackupIsLeft(fs, live, names, i, values, n);
    }
    WithIsStaged(fs, live, names, i, values);
    StagedThen(fs, staged, Put(Backup(n), Torn), live, names, true);
    var after := staged.Then(Put(Backup(n), Torn));
    keep := Only(|staged.unsynced|, |after.unsynced|);
    OnlyOneSurvives(after, |staged.unsynced|);
    var left := plan.before[n] + plan.After()[n] + "x";
    torn := plan.before[n := left];
    assert |left| > |plan.before[n]| && |left| > |plan.After()[n]| && torn[n] == left;
    OneBackupDecides(fs, Restarted(after, keep), plan, live, n, Torn, torn);
  }

  // ---- The same while no backup tears --------------------------------------------

  ghost predicate Differs(plan: Plan, n: Name) {
    n in plan.names && Slot(plan.before, n) != Slot(plan.After(), n)
  }

  /** A new backup of one file may meet the old state of another. */
  ghost predicate Mixable(plan: Plan, names: seq<Name>) {
    exists n, m :: n != m && Differs(plan, n) && Differs(plan, m) && n in names && n in plan.before
  }

  lemma {:induction false} BackupIsStaged(live: Installation, names: seq<Name>, values: Installation, n: Name) returns (j: nat)
    requires n in names && n in live
    ensures j < |PreparationOps(live, names, values)|
    ensures PreparationOps(live, names, values)[j] == Put(Backup(n), Data(live[n]))
  {
    var last, rest := names[|names| - 1], names[..|names| - 1];
    if last == n {
      j := |PreparationOps(live, rest, values)|;
    } else {
      assert n in rest;
      j := BackupIsStaged(live, rest, values, n);
    }
  }

  /** The failure that mixes: the old journal comes back, and of all the unsynced work
      only the new backup of `n` survives. */
  lemma StaleJournalMixes(fs: Fs, plan: Plan, names: seq<Name>, values: Installation, n: Name, m: Name)
    returns (keep: seq<bool>, mixed: Installation)
    requires AtEnd(fs, plan, plan.After()) && Journal in fs.durable
    requires n != m && Differs(plan, n) && Differs(plan, m) && n in names && n in plan.before
    ensures |keep| == |With(fs, plan.After(), names, values).unsynced|
    ensures RecoversTo(Restarted(With(fs, plan.After(), names, values), keep), mixed)
    ensures Slot(mixed, n) == Slot(plan.After(), n) != Slot(plan.before, n)
    ensures Slot(mixed, m) == Slot(plan.before, m) != Slot(plan.After(), m)
  {
    var staged := With(fs, plan.After(), names, values);
    var j := BackupIsStaged(plan.After(), names, values, n);
    j := j + |fs.unsynced|;
    keep := Only(j, |staged.unsynced|);
    OnlyOneSurvives(staged, j);
    mixed := plan.before[n := plan.After()[n]];
    OneBackupDecides(fs, Restarted(staged, keep), plan, plan.After(), n, Data(plan.After()[n]), mixed);
  }

  /** What a power failure leaves of an exit at which no backup is torn. */
  lemma UntornImage(fs: Fs, after: Fs, keep: seq<bool>, plan: Plan, live: Installation, names: seq<Name>)
    requires Atomic(fs, plan) && Certain(fs, live) && Staged(fs, after, live, names, false) && |keep| == |after.unsynced|
    ensures
      var image := Restarted(after, keep);
      && image.See(Journal) in fs.May(Journal)
      && (forall n :: image.See(Live(n)) == Slot(live, n))
      && (forall n :: image.See(Backup(n)) in fs.May(Backup(n)) + Staging(Backup(n), live, names, false))
  {
    forall e: Entry | !e.Pending? ensures Restarted(after, keep).See(e) in fs.May(e) + Staging(e, live, names, false) {
      after.SurvivorIsPossible(keep, e);
      StagedMay(fs, after, live, names, false, e);
    }
  }

  lemma UntornBackup(fs: Fs, image: Fs, plan: Plan, live: Installation, names: seq<Name>, n: Name)
    requires Atomic(fs, plan) && image.See(Journal) in fs.May(Journal) && image.See(Journal) !in {None, Some(Torn)}
    requires image.See(Backup(n)) in fs.May(Backup(n)) + Staging(Backup(n), live, names, false)
    ensures image.See(Journal) == plan.Undo() && plan.Valid()
    ensures n in plan.names && n in plan.before ==>
      image.See(Backup(n)) in {Slot(plan.before, n), None} || (n in names && image.See(Backup(n)) == Slot(live, n))
  {
    hide Image.Visible, Image.May, Image.See, Certain, OneSided;
  }

  /** What a recovery of such an image leaves, file by file. */
  lemma UntornRecovers(fs: Fs, image: Fs, plan: Plan, live: Installation, names: seq<Name>, after: Installation, n: Name)
    requires Atomic(fs, plan) && image.See(Journal) in fs.May(Journal) && image.See(Journal) != None
    requires live in {plan.before, plan.After()}
    requires image.See(Live(n)) == Slot(live, n)
    requires image.See(Backup(n)) in fs.May(Backup(n)) + Staging(Backup(n), live, names, false)
    requires RecoversTo(image, after)
    ensures Slot(after, n) == Slot(plan.before, n) || (n in names && n in plan.names && n in plan.before && Slot(after, n) == Slot(live, n))
  {
    hide Image.Visible, Image.May, Image.See, Atomic, Staging;
    assert DecodeJournal(image.See(Journal).value).Some?;
    UntornBackup(fs, image, plan, live, names, n);
    JournalNamesOf(plan);
    assert DecodeJournal(image.See(Journal).value) == Some(plan.Undo().value.files);
    assert ComesBack(image, plan.Undo().value.files, n, after);
    if n !in plan.names {
      ElsewhereTheSame(plan, n);
    }
  }

  /** After a rollback the next activation is whole at every exit at which no backup is
      torn, whatever comes back. */
  lemma NextAfterRollbackIsWhole(fs: Fs, plan: Plan, names: seq<Name>)
    requires Atomic(fs, plan) && Certain(fs, plan.before)
    ensures forall after :: Staged(fs, after, plan.before, names, false) ==> NeverMixes(after, plan)
  {
    forall after, keep: seq<bool>, live: Installation
      | Staged(fs, after, plan.before, names, false) && |keep| == |after.unsynced| && RecoversTo(Restarted(after, keep), live)
      ensures live == plan.before
    {
      var image := Restarted(after, keep);
      UntornImage(fs, after, keep, plan, plan.before, names);
      forall n ensures Slot(live, n) == Slot(plan.before, n) {
        if image.See(Journal) == None {
          assert Holds(image, live);
        } else {
          UntornRecovers(fs, image, plan, plan.before, names, live, n);
        }
      }
      SlotsDecide(live, plan.before);
    }
  }

  /** After a commit it is so if and only if the two sides of the old plan cannot be told
      apart by one new backup, or the old journal cannot come back. */
  lemma UntornNextIsWholeIff(fs: Fs, plan: Plan, names: seq<Name>)
    requires AtEnd(fs, plan, plan.After())
    ensures (forall after :: Staged(fs, after, plan.After(), names, false) ==> NeverMixes(after, plan)) <==>
            !(Journal in fs.durable && Mixable(plan, names))
  {
    if Journal in fs.durable && Mixable(plan, names) {
      var n, m :| n != m && Differs(plan, n) && Differs(plan, m) && n in names && n in plan.before;
      var keep, mixed := StaleJournalMixes(fs, plan, names, plan.values, n, m);
      WithIsStaged(fs, plan.After(), names, |names|, plan.values);
      assert names[..|names|] == names;
      assert !NeverMixes(With(fs, plan.After(), names, plan.values), plan);
    } else {
      AtEndIsAtomic(fs, plan, plan.After());
      forall after, keep: seq<bool>, live: Installation
        | Staged(fs, after, plan.After(), names, false) && |keep| == |after.unsynced| && RecoversTo(Restarted(after, keep), live)
        ensures live == plan.before || live == plan.After()
      {
        UntornImage(fs, after, keep, plan, plan.After(), names);
        UnmixableRecovers(fs, Restarted(after, keep), plan, names, live);
      }
    }
  }

  lemma UnmixableRecovers(fs: Fs, image: Fs, plan: Plan, names: seq<Name>, live: Installation)
    requires AtEnd(fs, plan, plan.After()) && Atomic(fs, plan) && !(Journal in fs.durable && Mixable(plan, names))
    requires image.See(Journal) in fs.May(Journal)
    requires forall n :: image.See(Live(n)) == Slot(plan.After(), n)
    requires forall n :: image.See(Backup(n)) in fs.May(Backup(n)) + Staging(Backup(n), plan.After(), names, false)
    requires RecoversTo(image, live)
    ensures live == plan.before || live == plan.After()
  {
    hide Image.Visible, Image.May, Image.See;
    if image.See(Journal) == None {
      HoldsDecides(image, live, plan.After());
      return;
    }
    RemovalsOnlyLose(fs, Journal);
    forall n
      ensures Slot(live, n) == Slot(plan.before, n) ||
              (n in names && n in plan.names && n in plan.before && Slot(live, n) == Slot(plan.After(), n))
    {
      UntornRecovers(fs, image, plan, plan.After(), names, live, n);
    }
    if n :| Slot(live, n) != Slot(plan.before, n) {
      forall x ensures Slot(live, x) == Slot(plan.After(), x) {
        if x != n && x in plan.names {
          assert !Differs(plan, x);
        } else if x != n {
          ElsewhereTheSame(plan, x);
        }
      }
      SlotsDecide(live, plan.After());
    } else {
      SlotsDecide(live, plan.before);
    }
  }
}
