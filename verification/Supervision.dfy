/** Claiming, running, cleaning up and recovering attempts
    (internal/supervisor/supervisor.go). */
module Supervision {
  import opened Directory
  import opened Daemon
  import opened SandboxDocker
  import opened AttemptJournal
  import opened CreateProtocol
  import opened LeaseGuard
  import WatchdogPhase

  // ---- One claim -----------------------------------------------------------------

  /** A create under a reserved name leaves the attempt tracked. */
  lemma CreateIsTracked(fs: Folder, v: Slot, w: Slot, claim: Claim, state: State, p: WatchdogPhase.ParentState,
                        c: Container, dispatched: bool)
    requires v.Well() && Consistent(fs, v, claim, state, p) && Reserved(fs, v) && state.sandboxID == v.name
    requires Untouched(if dispatched then v.(pending := v.pending + [c]) else v, w)
    requires p.inFlight && !p.unknown && Untried(p, v)
    ensures Consistent(fs, w, claim, state, p)
    ensures w.holder.Some? ==> w.pending == []
    ensures !dispatched ==> w.Empty()
  {
    OneCreate(p, v, w, c, dispatched);
    assert w.name == v.name;
  }

  /** The container is one that the claim's create asked for. */
  ghost predicate OfClaim(w: Slot, id: Id, claim: Claim, image: string) {
    claim.Valid() && id in w.used && w.used[id] == claim.Sandbox(image)
  }

  /** The claim's own sandbox was started. */
  ghost predicate Ran(w: Slot, claim: Claim, image: string) {
    exists id :: id in w.started && OfClaim(w, id, claim, image)
  }

  /** Every id the daemon gave out is whole. */
  ghost predicate WholeIds(w: Slot) {
    forall id :: id in w.used ==> FullId(id)
  }

  lemma StillOfClaim(v: Slot, w: Slot, id: Id, claim: Claim, image: string)
    requires Drifted(v, w) && OfClaim(v, id, claim, image)
    ensures OfClaim(w, id, claim, image)
    ensures id in v.started ==> Ran(w, claim, image)
    ensures WholeIds(w) ==> WholeIds(v)
  {
  }

  /** Sends the create and promotes the container it answers with. */
  method PlaceSandbox(g: Guard, image: string, ready: bool) returns (r: Step)
    requires g.Valid() && g.docker.slot.Empty() && g.lease.reported == {} && g.creationPending
    requires g.lease.createInFlight && !g.lease.phaseUnknown
    requires Reserved(g.store.disk.fs, g.docker.slot) && g.state.sandboxID == g.docker.slot.name
    modifies g`state, g`heartbeats, g`troubles, g`creationPending, g`reservationPending, g.context, g.store.disk,
             g.docker, g.lease,
             g.lease.child
    ensures g.Valid()
    ensures r == Done ==> !g.creationPending && !g.reservationPending && g.state.sandboxID != ""
    ensures r == Done ==> !g.lease.createInFlight && !g.lease.phaseUnknown
    ensures r == Done ==>
      OfClaim(g.docker.slot, g.state.sandboxID, g.claim, image) && g.docker.troubles == old(g.docker.troubles)
    ensures r == Failed ==> g.Hindered(old(g.Suffered())) || !ready || !WholeIds(g.docker.slot)
    ensures g.Suffered().Grown(old(g.Suffered())) && (old(g.lease.closed) ==> g.lease.closed)
    ensures old(g.lease.child.status) != WatchdogPhase.Watching ==> g.lease.child.status == old(g.lease.child.status)
  {
    hide Consistent, WatchdogPhase.Agree, Slot.Well, Reserved, Untouched, Drifted, OwnsContainer;
    ghost var v := g.docker.slot;
    ClaimFits(g.store.disk.fs, v, g.claim, g.state, g.lease.State());
    var creation := SandboxDocker.Create(g.docker, g.claim, image, ready);
    CreationIsTracked(g.store.disk.fs, v, g.docker.slot, g.claim, image, g.state, g.lease.State(), creation);
    if creation == CreateUncertain {
      return Failed;
    }
    if creation == CreateRefused {
      r := g.FinishWithoutCreate();
      return;
    }
    ghost var w := g.docker.slot;
    WatchdogPhase.AgreementMeans(g.lease.State(), g.lease.child.State(), g.lease.child.input, g.lease.child.output);
    r := g.Interlude();
    StillThere(w, g.docker.slot, creation.id);
    DriftsAnyway(w, g.docker.slot);
    StillOfClaim(w, g.docker.slot, creation.id, g.claim, image);
    if r == Died {
      return;
    }
    r := g.Created(creation.id);
  }

  lemma DriftsAnyway(v: Slot, w: Slot)
    requires Untouched(v, w)
    ensures Drifted(v, w) && w.started == v.started
  {
  }

  lemma ClaimFits(fs: Folder, w: Slot, claim: Claim, state: State, p: WatchdogPhase.ParentState)
    requires Consistent(fs, w, claim, state, p)
    ensures claim.Valid() && w.name == SandboxName(claim.attempt, claim.fence) && state.claim == claim
    ensures state.sandboxID == "" ==> w.Empty()
    ensures state.sandboxID !in {"", w.name} ==> state.sandboxID in w.used && Watched(w, true, Some(state.sandboxID))
    ensures w.name != ""
  {
  }

  lemma StillThere(v: Slot, w: Slot, id: Id)
    requires Untouched(v, w) && v.pending == [] && v.Has(id) && id in v.used
    ensures w.pending == [] && id in w.used && (w.holder.Some? ==> w.Has(id))
  {
    NobodyNewComes(v, w);
  }

  lemma CreationIsTracked(fs: Folder, v: Slot, w: Slot, claim: Claim, image: string, state: State,
                          p: WatchdogPhase.ParentState, creation: Creation)
    requires v.Well() && Consistent(fs, v, claim, state, p) && Reserved(fs, v) && state.sandboxID == v.name
    requires p.inFlight && !p.unknown && Untried(p, v)
    requires creation == CreateRefused ==> Untouched(v, w)
    requires creation == CreateUncertain ==> Untouched(v, w) || Untouched(Asked(v, claim, image), w)
    requires creation.Created? ==> Untouched(Asked(v, claim, image), w) && w.Has(creation.id)
    ensures Consistent(fs, w, claim, state, p)
    ensures creation == CreateRefused ==> w.Empty()
    ensures creation.Created? ==> w.pending == []
  {
    hide Consistent, Reserved, Slot.Well, Untouched;
    ClaimFits(fs, v, claim, state, p);
    var c := claim.Sandbox(image);
    if Untouched(v, w) {
      CreateIsTracked(fs, v, w, claim, state, p, c, false);
      if creation.Created? {
        CreateIsTracked(fs, v, w, claim, state, p, c, true);
      }
    } else {
      CreateIsTracked(fs, v, w, claim, state, p, c, true);
    }
  }

  /** Reserves the name, arms the watchdog and announces the create; on failure the name is
      taken back. */
  method Announce(g: Guard) returns (r: Step)
    requires g.Valid() && g.docker.slot.Empty() && g.lease.reported == {}
    requires !g.creationPending && !g.reservationPending && !g.armed
    modifies g`state, g`heartbeats, g`troubles, g`armed, g`creationPending, g`reservationPending, g.context,
             g.store.disk, g.docker`slot,
             g.lease, g.lease.child
    ensures g.Valid() && (r == Done ==> g.docker.slot.Empty() && g.lease.reported == {} && g.creationPending)
    ensures r == Done ==> g.armed && g.lease.createInFlight && !g.lease.phaseUnknown
    ensures r == Done ==> Reserved(g.store.disk.fs, g.docker.slot) && g.state.sandboxID == g.docker.slot.name
    ensures r == Failed ==> g.Hindered(old(g.Suffered())) || old(g.lease.createFinished)
    ensures r == Failed && (g.creationPending || g.reservationPending) ==>
      g.Obstructed(old(g.Suffered())) || old(g.lease.createFinished)
    ensures g.Suffered().Grown(old(g.Suffered())) && (old(g.lease.closed) ==> g.lease.closed)
    ensures old(g.lease.child.status) != WatchdogPhase.Watching ==> g.lease.child.status == old(g.lease.child.status)
  {
    hide Consistent, WatchdogPhase.Agree, Slot.Well, Reserved, Untouched, Drifted, Slot.Empty;
    r := g.Reserve();
    if r == Failed {
      r := g.FinishWithoutCreate();
      return;
    }
    if r == Died {
      return;
    }
    ghost var v := g.docker.slot;
    r := g.Interlude();
    StaysEmpty(v, g.docker.slot);
    if r == Died {
      return;
    }
    r := g.CreateStarted();
    if r == Failed {
      r := g.FinishWithoutCreate();
      return;
    }
    v := g.docker.slot;
    r := g.Interlude();
    StaysEmpty(v, g.docker.slot);
  }

  lemma StaysEmpty(v: Slot, w: Slot)
    requires Untouched(v, w)
    ensures v.Empty() ==> w.Empty()
  {
    NobodyNewComes(v, w);
  }

  /** Starts the container and waits for it to exit. */
  method StartAndWait(g: Guard, ghost image: string) returns (r: Step)
    requires g.Valid() && !g.creationPending && !g.reservationPending && g.state.sandboxID != ""
    modifies g`state, g`heartbeats, g`troubles, g.context, g.store.disk, g.docker, g.lease`closed, g.lease`told,
             g.lease`troubles,
             g.lease.child
    ensures g.Valid()
    ensures r == Done ==>
      g.state.sandboxID in g.docker.slot.started && !g.context.dead && g.docker.troubles == old(g.docker.troubles)
    ensures old(OfClaim(g.docker.slot, g.state.sandboxID, g.claim, image)) ==>
      OfClaim(g.docker.slot, g.state.sandboxID, g.claim, image)
    ensures r == Failed ==> g.Hindered(old(g.Suffered()))
    ensures g.state.sandboxID == old(g.state.sandboxID) && g.Suffered().Grown(old(g.Suffered()))
    ensures WholeIds(g.docker.slot) ==> old(WholeIds(g.docker.slot))
    ensures (old(g.lease.closed) ==> g.lease.closed)
    ensures old(g.lease.child.status) != WatchdogPhase.Watching ==> g.lease.child.status == old(g.lease.child.status)
  {
    hide Consistent, WatchdogPhase.Agree, Slot.Well, Reserved, Untouched, Drifted;
    if g.context.dead {
      return Failed;
    }
    ghost var v := g.docker.slot;
    DriftIsReflexive(v);
    ClaimFits(g.store.disk.fs, v, g.claim, g.state, g.lease.State());
    var started := g.docker.Start(g.state.sandboxID, v);
    TimePassed(g.store.disk.fs, v, g.docker.slot, g.claim, g.state, g.lease.State());
    ghost var sent := g.docker.slot;
    DriftKeeps(v, sent, g.state.sandboxID, g.claim, image);
    if !started {
      return Failed;
    }
    r := g.Interlude();
    DriftsAnyway(sent, g.docker.slot);
    DriftKeeps(sent, g.docker.slot, g.state.sandboxID, g.claim, image);
    if r == Done && g.context.dead {
      return Failed;
    }
  }

  lemma DriftKeeps(v: Slot, w: Slot, id: Id, claim: Claim, image: string)
    requires Drifted(v, w)
    ensures OfClaim(v, id, claim, image) ==> OfClaim(w, id, claim, image)
    ensures WholeIds(w) ==> WholeIds(v)
  {
  }

  /** Runs the sandbox of an announced create and delivers its result. */
  method RunSandbox(g: Guard, image: string, ready: bool) returns (r: Step)
    requires g.Valid() && g.docker.slot.Empty() && g.lease.reported == {} && g.creationPending
    requires g.lease.createInFlight && !g.lease.phaseUnknown
    requires Reserved(g.store.disk.fs, g.docker.slot) && g.state.sandboxID == g.docker.slot.name
    modifies g`state, g`heartbeats, g`troubles, g`finished, g`creationPending, g`reservationPending, g.context,
             g.store.disk,
             g.docker, g.lease, g.lease.child
    ensures g.Valid()
    ensures if r == Done then g.finished && !g.creationPending && !g.reservationPending else g.finished == old(g.finished)
    ensures r == Done ==> !g.lease.createInFlight && !g.lease.phaseUnknown
    ensures g.Suffered().Grown(old(g.Suffered()))
    ensures r == Done ==>
      OfClaim(g.docker.slot, g.state.sandboxID, g.claim, image) && g.state.sandboxID in g.docker.slot.started
    ensures r == Done ==> g.docker.troubles == old(g.docker.troubles)
    ensures r == Failed ==> g.Hindered(old(g.Suffered())) || !ready || !WholeIds(g.docker.slot)
  {
    hide Consistent, WatchdogPhase.Agree, Slot.Well, Reserved, Untouched, Drifted, Slot.Empty, OfClaim, WholeIds;
    r := PlaceSandbox(g, image, ready);
    if r != Done {
      return;
    }
    r := StartAndWait(g, image);
    if r != Done {
      return;
    }
    var delivered := g.Complete();
    return if delivered then Done else Failed;
  }

  /** Runs a claim up to its accepted result. */
  method RunClaim(g: Guard, image: string, ready: bool) returns (r: Step)
    requires g.Valid() && g.docker.slot.Empty() && g.lease.reported == {}
    requires !g.creationPending && !g.reservationPending && !g.armed && g.state.sandboxID == ""
    modifies g, g.context, g.store.disk, g.docker, g.lease, g.lease.child
    ensures g.Valid()
    ensures if r == Done then g.finished && g.armed && !g.creationPending && !g.reservationPending else g.finished == old(g.finished)
    ensures r == Done ==> !g.lease.createInFlight && !g.lease.phaseUnknown
    ensures g.Suffered().Grown(old(g.Suffered()))
    ensures r == Done ==>
      OfClaim(g.docker.slot, g.state.sandboxID, g.claim, image) && g.state.sandboxID in g.docker.slot.started
    ensures r == Done ==> g.docker.troubles == old(g.docker.troubles)
    ensures old(g.context.dead) || !ready ==> r != Done && !g.armed && g.state.sandboxID == ""
    ensures r == Failed ==>
      g.Hindered(old(g.Suffered())) || !ready || !WholeIds(g.docker.slot) || old(g.lease.createFinished)
  {
    hide Consistent, WatchdogPhase.Agree, Slot.Well, Reserved, Untouched, Drifted, Slot.Empty, OfClaim, WholeIds;
    ghost var v := g.docker.slot;
    r := g.Interlude();
    StaysEmpty(v, g.docker.slot);
    if r == Died {
      return;
    }
    if g.context.dead || !ready {
      // The workspace could not be prepared.
      return Failed;
    }
    r := Announce(g);
    if r != Done {
      return;
    }
    r := RunSandbox(g, image, ready);
  }

  // ---- Cleanup -------------------------------------------------------------------

  /** What holds of the journal and one name between runs. */
  ghost predicate Kept(fs: Folder, w: Slot) {
    w.Well() && w.name != "" && Intact(fs) && Tracked(fs, w)
  }

  lemma ConsistentIsKept(fs: Folder, w: Slot, claim: Claim, state: State, p: WatchdogPhase.ParentState)
    requires Consistent(fs, w, claim, state, p) && w.Well()
    ensures Kept(fs, w)
  {
  }

  /** An empty name is kept whatever the journal says, as long as it never lies about a
      container. */
  lemma ClearedIsKept(before: Folder, after: Folder, w: Slot)
    requires Kept(before, w) && w.Empty() && Perhaps(before, after, None) && (Intact(before) ==> Intact(after))
    ensures Kept(after, w)
  {
  }

  lemma KeptStays(fs: Folder, v: Slot, w: Slot)
    requires Kept(fs, v) && Drifted(v, w)
    ensures Kept(fs, w)
  {
    StillTracked(fs, v, w);
  }

  /** Removes the attempt's container, disarms the watchdog, and clears the journal only
      when all of that and the acknowledgement were confirmed. */
  method Cleanup(g: Guard) returns (r: Step)
    requires g.Valid() && !g.creationPending && !g.reservationPending
    modifies g`troubles, g.store.disk, g.docker, g.lease, g.lease.child
    ensures Kept(g.store.disk.fs, g.docker.slot) && g.docker.slot.name == old(g.docker.slot.name)
    ensures OnlyFresh(g.store.disk.fs, g.docker.slot.name)
    ensures r == Done ==> g.docker.slot.Empty() && g.store.disk.fs.See(Journal) == None
    ensures r == Done && g.armed ==>
      g.lease.closed && (g.lease.child.status == WatchdogPhase.Disarmed || g.lease.child.status.Cleaning?)
    ensures g.state.sandboxID == "" ==> g.docker.slot == old(g.docker.slot)
    ensures Drifted(old(g.docker.slot), g.docker.slot)
    ensures g.Suffered().Grown(old(g.Suffered())) && (old(g.lease.closed) ==> g.lease.closed)
    ensures r == Failed ==>
      || !g.Suffered().NoneSince(old(g.Suffered())) || old(g.lease.closed) || g.lease.child.status == WatchdogPhase.Broken
      || Stubborn(g.docker.slot, OfAttempt) || old(g.lease.createInFlight || g.lease.phaseUnknown)
  {
    hide Consistent, WatchdogPhase.Agree, Slot.Well, Kept, Drifted, Watched, Slot.Empty, OrdersOwned;
    ghost var v := g.docker.slot;
    ClaimFits(g.store.disk.fs, v, g.claim, g.state, g.lease.State());
    ConsistentIsKept(g.store.disk.fs, v, g.claim, g.state, g.lease.State());
    ConsistentIsAbout(g.store.disk.fs, v, g.claim, g.state, g.lease.State());
    DriftIsReflexive(v);
    if g.state.sandboxID != "" {
      var reconciled := Reconcile(g.docker, ById(g.state.sandboxID));
      KeptStays(g.store.disk.fs, v, g.docker.slot);
      SameNameStays(v, g.docker.slot);
      if reconciled != Reconciled {
        return Failed;
      }
    }
    if g.armed {
      var disarmed := g.lease.Disarm();
      if !disarmed {
        return Failed;
      }
    }
    if * {
      // The workspace or the acknowledgement failed.
      g.troubles := g.troubles + 1;
      return Failed;
    }
    ghost var before := g.store.disk.fs;
    KeptIsSound(before, g.docker.slot);
    r := g.store.Clear();
    ClearedIsKept(before, g.store.disk.fs, g.docker.slot);
    ClearedIsAbout(before, g.store.disk.fs, g.docker.slot.name);
  }

  lemma KeptIsSound(fs: Folder, w: Slot)
    requires Kept(fs, w)
    ensures Intact(fs)
  {
  }

  lemma ConsistentIsAbout(fs: Folder, w: Slot, claim: Claim, state: State, p: WatchdogPhase.ParentState)
    requires Consistent(fs, w, claim, state, p)
    ensures OnlyFresh(fs, w.name)
  {
  }

  lemma ClearedIsAbout(before: Folder, after: Folder, name: string)
    requires OnlyFresh(before, name) && Perhaps(before, after, None)
    ensures OnlyFresh(after, name)
  {
  }

  lemma SameNameStays(v: Slot, w: Slot)
    requires Drifted(v, w)
    ensures w.name == v.name
  {
  }

  // ---- Recovery ------------------------------------------------------------------

  const REFUSED_STOPPED_SETTLE_THRESHOLD := 3

  /** The control plane's answer to a stopped acknowledgement; `Conflict` is a 409. */
  datatype Acknowledgement = NotSent | Accepted | Conflict | OtherError

  predicate LegacyContainerID(id: string) {
    12 <= |id| <= 64 && forall c :: c in id ==> '0' <= c <= '9' || 'a' <= c <= 'f'
  }

  /** No crash leaves a journal of this name that counts more refusals than there were. */
  ghost predicate Counted(fs: Folder, name: string, refusals: int) {
    forall v :: v in fs.May(Journal) && About(v, name) ==> v.value.state.refusedStoppedCount <= refusals
  }

  /** Removes the container a journal names, if it names one. */
  method RemoveJournalled(docker: Docker, state: State, ghost fs: Folder) returns (ok: bool)
    requires Kept(fs, docker.slot) && Names(state, docker.slot.name) && Tracks(Some(Whole(state)), docker.slot)
    modifies docker
    ensures Kept(fs, docker.slot) && docker.slot.name == old(docker.slot.name)
    ensures ok ==> docker.slot.Empty()
    ensures state.sandboxID == docker.slot.name ==> !ok
    ensures state.sandboxID == "" ==> ok && docker.slot == old(docker.slot)
  {
    ghost var v := docker.slot;
    if state.sandboxID == "" {
      return true;
    }
    if state.sandboxID == docker.slot.name || !LegacyContainerID(state.sandboxID) {
      return false;
    }
    var reconciled := Reconcile(docker, ById(state.sandboxID));
    KeptStays(fs, v, docker.slot);
    ok := reconciled == Reconciled;
  }

  /** Recovers a journalled attempt. Only an accepted acknowledgement or a third conflict
      clears its journal; only a conflict counts. */
  method Recover(store: Store, docker: Docker, state: State, ghost refusals: int)
    returns (r: Step, answer: Acknowledgement)
    requires Kept(store.disk.fs, docker.slot) && Names(state, docker.slot.name)
    requires store.disk.fs.See(Journal) == Some(Whole(state)) && Counted(store.disk.fs, docker.slot.name, refusals)
    modifies store.disk, docker
    ensures Kept(store.disk.fs, docker.slot) && docker.slot.name == old(docker.slot.name)
    ensures Counted(store.disk.fs, docker.slot.name, if answer == Conflict then refusals + 1 else refusals)
    ensures answer != Conflict ==> Perhaps(old(store.disk.fs), store.disk.fs, None)
    ensures answer in {NotSent, OtherError} ==> store.disk.fs == old(store.disk.fs) && r != Done
    ensures answer == Conflict && state.refusedStoppedCount + 1 < REFUSED_STOPPED_SETTLE_THRESHOLD ==>
      r != Done
      && Perhaps(old(store.disk.fs), store.disk.fs,
                 Some(Whole(state.(refusedStoppedCount := state.refusedStoppedCount + 1))))
    ensures store.disk.faults >= old(store.disk.faults)
    ensures store.disk.faults == old(store.disk.faults) && answer == Accepted ==> r == Done
    ensures store.disk.faults == old(store.disk.faults) && answer == Conflict ==>
      if state.refusedStoppedCount + 1 < REFUSED_STOPPED_SETTLE_THRESHOLD then
        Certainly(store.disk.fs, Some(Whole(state.(refusedStoppedCount := state.refusedStoppedCount + 1))))
      else r == Done
    ensures r == Done ==> docker.slot.Empty() && store.disk.fs.See(Journal) == None
    ensures r == Done && answer == Conflict ==> refusals + 1 >= REFUSED_STOPPED_SETTLE_THRESHOLD
    ensures forall v :: v in store.disk.fs.May(Journal) ==>
      v in old(store.disk.fs.May(Journal)) || v.None? || About(v, docker.slot.name)
  {
    hide Kept, Tracks, Slot.Empty, Image.See, Image.May;
    r, answer := Failed, NotSent;
    SeenIsTracked(store.disk.fs, docker.slot);
    KeptIsIntact(store.disk.fs, docker.slot, state);
    var removed := RemoveJournalled(docker, state, store.disk.fs);
    if !removed {
      return;
    }
    if * {
      // The workspace could not be removed.
      return;
    }
    answer := *;
    if answer == OtherError || answer == NotSent {
      return;
    }
    ghost var before := store.disk.fs;
    if answer == Conflict {
      var next := state.(refusedStoppedCount := state.refusedStoppedCount + 1);
      SeenIsCounted(before, docker.slot.name, refusals, state);
      if next.refusedStoppedCount < REFUSED_STOPPED_SETTLE_THRESHOLD {
        r := store.Save(next);
        CountedUp(before, store.disk.fs, docker.slot, refusals, state, next);
        if r == Done {
          r := Failed;
        }
        return;
      }
    }
    r := store.Clear();
    ClearedIsKept(before, store.disk.fs, docker.slot);
  }

  /** Launches of the runner one after another, until one clears the journal. When nothing
      goes wrong with the disk, the third conflict does. */
  method Relaunch(store: Store, docker: Docker, state: State, launches: nat) returns (conflicts: nat, cleared: bool)
    requires Kept(store.disk.fs, docker.slot) && Names(state, docker.slot.name) && state.refusedStoppedCount == 0
    requires store.disk.fs.See(Journal) == Some(Whole(state)) && Counted(store.disk.fs, docker.slot.name, 0)
    modifies store.disk, docker
    ensures cleared ==> docker.slot.Empty() && store.disk.fs.See(Journal) == None
    ensures store.disk.faults == old(store.disk.faults) ==> conflicts <= REFUSED_STOPPED_SETTLE_THRESHOLD
    ensures store.disk.faults == old(store.disk.faults) && conflicts == REFUSED_STOPPED_SETTLE_THRESHOLD ==> cleared
  {
    hide Kept, Counted, Slot.Empty, Image.See, Image.May, Perhaps;
    conflicts, cleared := 0, false;
    var left := launches;
    while left > 0 && !cleared
      invariant Kept(store.disk.fs, docker.slot) && docker.slot.name == old(docker.slot.name)
      invariant Counted(store.disk.fs, docker.slot.name, conflicts) && store.disk.faults >= old(store.disk.faults)
      invariant cleared ==> docker.slot.Empty() && store.disk.fs.See(Journal) == None
      invariant store.disk.faults == old(store.disk.faults) ==>
        if cleared then conflicts <= REFUSED_STOPPED_SETTLE_THRESHOLD
        else
          && conflicts < REFUSED_STOPPED_SETTLE_THRESHOLD
          && store.disk.fs.See(Journal) == Some(Whole(state.(refusedStoppedCount := conflicts)))
      decreases left
    {
      left := left - 1;
      var r, loaded := store.Load();
      if r != Done || loaded == None || !Names(loaded.value, docker.slot.name) {
        return;
      }
      var answer;
      r, answer := Recover(store, docker, loaded.value, conflicts);
      cleared := r == Done;
      if answer == Conflict {
        conflicts := conflicts + 1;
      }
    }
  }

  lemma KeptIsIntact(fs: Folder, w: Slot, state: State)
    requires Kept(fs, w) && fs.See(Journal) == Some(Whole(state))
    ensures Intact(fs) && state.Valid()
  {
    assert fs.See(Journal) in fs.May(Journal);
  }

  lemma SeenIsTracked(fs: Folder, w: Slot)
    requires Kept(fs, w)
    ensures Tracks(fs.See(Journal), w)
  {
  }

  lemma SeenIsCounted(fs: Folder, name: string, refusals: int, state: State)
    requires Counted(fs, name, refusals) && fs.See(Journal) == Some(Whole(state)) && Names(state, name)
    ensures state.refusedStoppedCount <= refusals
  {
    assert fs.See(Journal) in fs.May(Journal) && About(fs.See(Journal), name);
  }

  lemma CountedUp(before: Folder, after: Folder, w: Slot, refusals: int, state: State, next: State)
    requires Kept(before, w) && w.Empty() && Counted(before, w.name, refusals) && before.See(Journal) == Some(Whole(state))
    requires next == state.(refusedStoppedCount := next.refusedStoppedCount) && next.refusedStoppedCount <= refusals + 1
    requires Perhaps(before, after, Some(Whole(next))) && (Intact(before) ==> Intact(after))
    ensures Kept(after, w) && Counted(after, w.name, refusals + 1)
  {
    SeenIsTracked(before, w);
  }

  // ---- Supervisor ----------------------------------------------------------------

  /** Runs a claim under its guard, and cleans up after it unless the create is left
      uncertain. */
  method RunGuarded(g: Guard, image: string, ready: bool) returns (r: Step)
    requires g.Valid() && g.docker.slot.Empty() && g.lease.reported == {}
    requires !g.creationPending && !g.reservationPending && !g.armed && !g.finished && g.state.sandboxID == ""
    modifies g, g.context, g.store.disk, g.docker, g.lease, g.lease.child
    ensures Kept(g.store.disk.fs, g.docker.slot) && g.docker.slot.name == old(g.docker.slot.name)
    ensures OnlyFresh(g.store.disk.fs, g.docker.slot.name)
    ensures r == Done ==> g.finished && g.docker.slot.Empty() && g.store.disk.fs.See(Journal) == None
    ensures r == Done ==>
      Ran(g.docker.slot, g.claim, image) && (g.lease.child.status == WatchdogPhase.Disarmed || g.lease.child.status.Cleaning?)
    ensures old(g.context.dead) ==> r != Done && g.docker.slot == old(g.docker.slot)
    ensures r == Failed && g.finished ==>
      || !g.Suffered().NoneSince(old(g.Suffered())) || g.lease.closed || g.lease.child.status == WatchdogPhase.Broken
      || Stubborn(g.docker.slot, OfAttempt)
    ensures g.context.dead
  {
    hide Consistent, WatchdogPhase.Agree, Slot.Well, Kept, OnlyFresh;
    ClaimFits(g.store.disk.fs, g.docker.slot, g.claim, g.state, g.lease.State());
    var renewed;
    ghost var granted;
    renewed, granted := g.Renew();
    var result := renewed;
    if renewed == Done {
      result := RunClaim(g, image, ready);
    }
    g.context.Cancel();
    ConsistentIsKept(g.store.disk.fs, g.docker.slot, g.claim, g.state, g.lease.State());
    ConsistentIsAbout(g.store.disk.fs, g.docker.slot, g.claim, g.state, g.lease.State());
    ClaimFits(g.store.disk.fs, g.docker.slot, g.claim, g.state, g.lease.State());
    if result == Died || g.creationPending || g.reservationPending {
      return if result == Died then Died else Failed;
    }
    ghost var ran := g.docker.slot;
    r := Cleanup(g);
    if result == Done {
      StillOfClaim(ran, g.docker.slot, g.state.sandboxID, g.claim, image);
    }
    if r == Done {
      r := result;
    }
  }

  /** Runs a claim that was just journalled. Without any lease left it is only cleaned up. */
  method RunJournalled(store: Store, slot: Slot, state: State, now: int, image: string, ready: bool)
    returns (r: Step, w: Slot)
    requires Names(state, slot.name) && Kept(store.disk.fs, slot) && slot.Empty()
    requires state.sandboxID == "" && state.refusedStoppedCount == 0
    requires Certainly(store.disk.fs, Some(Whole(state)))
    modifies store.disk
    ensures Kept(store.disk.fs, w) && w.name == slot.name && OnlyFresh(store.disk.fs, w.name)
    ensures r == Done ==> w.Empty() && store.disk.fs.See(Journal) == None && Ran(w, state.claim, image)
    ensures state.lease <= now ==> r != Done && w == slot
  {
    hide Kept, OnlyFresh, Consistent, Slot.Well, Certainly;
    var lease := new WatchdogPhase.Lease();
    var docker := new Docker.Resume(slot);
    FreshGuard(store.disk.fs, slot, state.claim, state, lease.State());
    var remaining := Min(state.lease - now, LEASE_DURATION);
    var context := new Context(now, if remaining <= 0 then 1 else remaining, state.deadline);
    if remaining <= 0 {
      context.Cancel();
    }
    var g := new Guard(state.claim, store, docker, lease, context, state);
    r := RunGuarded(g, image, ready);
    w := docker.slot;
  }

  /** What a run does to the journal leaves every other name kept. */
  lemma OthersAreKept(before: Folder, after: Folder, w: Slot, name: string, refusals: int)
    requires Kept(before, w) && Counted(before, w.name, refusals) && w.name != name && Intact(after)
    requires w.Empty()
    requires forall v :: v in after.May(Journal) ==> v in before.May(Journal) || v.None? || About(v, name)
    ensures Kept(after, w) && Counted(after, w.name, refusals)
  {
  }

  /** An attempt for which something is or may come under its name is the one that every
      journal a crash can leave tells of, with the name or the container. */
  lemma NoOrphan(fs: Folder, w: Slot)
    requires Kept(fs, w) && !w.Empty()
    ensures forall v :: v in fs.May(Journal) ==> About(v, w.name) && v.value.state.sandboxID != ""
    ensures About(fs.See(Journal), w.name)
  {
    assert fs.See(Journal) in fs.May(Journal);
  }

  /** The supervisor process. `slots` are the sandbox names there ever were; `refusals`
      counts the 409s each attempt's recovery got. */
  class Supervisor {
    const store: Store
    var blocked: bool
    var slots: map<string, Slot>
    ghost var refusals: map<string, nat>

    constructor (store: Store)
      requires store.disk.fs == Image(map[], [])
      ensures this.store == store && Valid() && !blocked && slots == map[]
    {
      this.store, blocked, slots, refusals := store, false, map[], map[];
    }

    ghost predicate Valid()
      reads this, store.disk
    {
      AllKept(store.disk.fs, slots, refusals)
    }

    /** Recovers a journalled attempt before any new work. */
    method Reconcile() returns (r: Step)
      requires Valid()
      modifies this`slots, this`refusals, store.disk
      ensures Valid()
      ensures r == Done ==> store.disk.fs.See(Journal) == None
    {
      hide Kept, Counted, Image.See, Image.May;
      var loaded;
      r, loaded := store.Load();
      if r != Done || loaded == None {
        return;
      }
      var state := loaded.value;
      JournalIsKnown(store.disk.fs, slots, refusals, state);
      var name := SandboxName(state.claim.attempt, state.claim.fence);
      ghost var before := store.disk.fs;
      var docker := new Docker.Resume(slots[name]);
      var answer;
      r, answer := Recover(store, docker, state, refusals[name]);
      ghost var count := if answer == Conflict then refusals[name] + 1 else refusals[name];
      OthersAreEmpty(before, slots, refusals, name);
      RunKeepsAll(before, store.disk.fs, slots, refusals, name, docker.slot, count);
      slots := slots[name := docker.slot];
      refusals := refusals[name := count];
    }

    /** Journals a claim and runs it. No journal and nothing under any name is left of
        older attempts when a new one starts. */
    method Attempt(claim: Claim, expiry: int, now: int, deadline: int, image: string, ready: bool)
      returns (r: Step, ghost saved: bool)
      requires Valid() && claim.Valid() && store.disk.fs.See(Journal) == None
      modifies this`slots, this`refusals, this`blocked, store.disk
      ensures Valid()
      ensures slots.Keys == old(slots).Keys + {SandboxName(claim.attempt, claim.fence)}
      ensures r == Done ==> store.disk.fs.See(Journal) == None && slots[SandboxName(claim.attempt, claim.fence)].Empty()
      ensures r == Done ==> saved && Ran(slots[SandboxName(claim.attempt, claim.fence)], claim, image)
      ensures blocked == (old(blocked) || !saved)
      ensures saved && expiry <= now ==> r != Done
    {
      hide Kept, Counted, Image.See, Image.May, OnlyFresh, Consistent, AllKept, Slot.Well;
      var name := SandboxName(claim.attempt, claim.fence);
      OthersAreEmpty(store.disk.fs, slots, refusals, name);
      NewName(store.disk.fs, slots, refusals, name);
      if name !in slots {
        slots := slots[name := Slot(name, None, [], {}, {}, map[])];
        refusals := refusals[name := 0];
      }
      var state := State(claim, "", expiry, deadline, 0);
      ghost var before := store.disk.fs;
      r := store.Save(state);
      saved := r == Done;
      ClaimIsKept(before, store.disk.fs, slots, refusals, name, state);
      if r != Done {
        blocked := true;
        return;
      }
      ghost var journalled := store.disk.fs;
      var w;
      r, w := RunJournalled(store, slots[name], state, now, image, ready);
      FreshIsAbout(store.disk.fs, name, refusals[name]);
      RunKeepsAll(journalled, store.disk.fs, slots, refusals, name, w, refusals[name]);
      slots := slots[name := w];
      refusals := refusals[name := refusals[name]];
    }
  }

  /** One call of the supervisor's main loop. */
  method RunOnce(s: Supervisor, image: string, ready: bool) returns (r: Step, ghost claimed: Option<Claim>)
    requires s.Valid()
    modifies s`slots, s`refusals, s`blocked, s.store.disk
    ensures s.Valid()
    ensures r == Done ==> s.store.disk.fs.See(Journal) == None && !s.blocked
    ensures claimed.Some? && !claimed.value.Valid() ==> s.blocked && r != Done
    ensures claimed.Some? && r == Done ==>
      var name := SandboxName(claimed.value.attempt, claimed.value.fence);
      claimed.value.fence >= 0 && name in s.slots && s.slots[name].Empty() && Ran(s.slots[name], claimed.value, image)
    ensures old(s.blocked) ==> r == Failed && s.slots == old(s.slots) && s.store.disk.fs == old(s.store.disk.fs)
  {
    claimed := None;
    if s.blocked {
      return Failed, claimed;
    }
    r := s.Reconcile();
    if r != Done {
      return;
    }
    if * {
      // The workspaces are not writable, or the server gave no answer.
      return Failed, claimed;
    }
    if * {
      // No work.
      return Done, claimed;
    }
    var run: string, attempt: string, fence: int, expiry: int, now: int, deadline: int := *, *, *, *, *, *;
    var claim := Claim(run, attempt, fence);
    claimed := Some(claim);
    if !claim.Valid() {
      s.blocked := true;
      return Failed, claimed;
    }
    ghost var saved;
    r, saved := s.Attempt(claim, expiry, now, deadline, image, ready);
  }

  /** What the world does on its own: anything under way at a daemon, or the watchdog of
      any attempt cleaning up. */
  method Environment(s: Supervisor, patience: nat)
    requires s.Valid()
    modifies s`slots
    ensures s.Valid()
  {
    hide Kept, Counted, Watched, OrdersOwned, Drifted;
    var name: string := *;
    if name in s.slots {
      ghost var v := s.slots[name];
      KeptIsWell(s.store.disk.fs, v);
      DriftIsReflexive(v);
      var docker := new Docker.Resume(s.slots[name]);
      if * {
        docker.Drift(v);
      } else {
        var inFlight: bool, id: string := *, *;
        var outcome, landed := CleanUpSandbox(docker, inFlight, Confirmed(id), OfAttempt, patience);
      }
      KeptStays(s.store.disk.fs, v, docker.slot);
      SameNameStays(v, docker.slot);
      s.slots := s.slots[name := docker.slot];
    }
  }

  lemma KeptIsWell(fs: Folder, w: Slot)
    requires Kept(fs, w)
    ensures w.Well()
  {
  }

  lemma RebootKeepsAll(before: Folder, after: Folder, slots: map<string, Slot>, refusals: map<string, nat>)
    requires AllKept(before, slots, refusals) && after.May(Journal) <= before.May(Journal)
    ensures AllKept(after, slots, refusals)
  {
  }

  /** Any number of rounds of the supervisor, of restarts after it was killed, of power
      failures and of whatever daemon and watchdogs do in between: at every point an
      attempt whose container exists or may still come is named by every journal that a
      crash at that point can leave. */
  method Serve(s: Supervisor, image: string, rounds: nat)
    requires s.Valid()
    modifies s`slots, s`refusals, s`blocked, s.store.disk
    ensures s.Valid()
    ensures forall n :: n in s.slots && !s.slots[n].Empty() ==>
      forall v :: v in s.store.disk.fs.May(Journal) ==> About(v, n) && v.value.state.sandboxID != ""
  {
    hide Kept, Counted;
    var left := rounds;
    while left > 0
      invariant s.Valid()
    {
      left := left - 1;
      if {
        case true =>
          var ready: bool := *;
          ghost var claimed;
          var r;
          r, claimed := RunOnce(s, image, ready);
        case true =>
          Environment(s, rounds);
        case true =>
          s.blocked := false;
        case true =>
          ghost var before := s.store.disk.fs;
          var keep := s.store.disk.Reboot();
          RebootIsPossible(before, s.store.disk.fs);
          RebootKeepsAll(before, s.store.disk.fs, s.slots, s.refusals);
          s.blocked := false;
      }
    }
    forall n | n in s.slots && !s.slots[n].Empty()
      ensures forall v :: v in s.store.disk.fs.May(Journal) ==> About(v, n) && v.value.state.sandboxID != ""
    {
      NoOrphan(s.store.disk.fs, s.slots[n]);
    }
  }

  lemma RebootIsPossible(before: Folder, after: Folder)
    requires after.See(Journal) in before.May(Journal) && after.May(Journal) == {after.See(Journal)}
    ensures after.May(Journal) <= before.May(Journal)
  {
  }

  lemma JournalIsKnown(fs: Folder, slots: map<string, Slot>, refusals: map<string, nat>, state: State)
    requires AllKept(fs, slots, refusals) && fs.See(Journal) == Some(Whole(state))
    ensures state.claim.Valid()
    ensures
      var name := SandboxName(state.claim.attempt, state.claim.fence);
      && name in slots && name in refusals && slots[name].name == name && Kept(fs, slots[name])
      && Counted(fs, name, refusals[name])
  {
    assert fs.See(Journal) in fs.May(Journal);
  }

  /** While the journal is absent or tells of `name`, nothing is under any other name. */
  lemma OthersAreEmpty(fs: Folder, slots: map<string, Slot>, refusals: map<string, nat>, name: string)
    requires AllKept(fs, slots, refusals) && (fs.See(Journal).None? || About(fs.See(Journal), name))
    ensures forall n :: n in slots && n != name ==> slots[n].Empty()
    ensures fs.See(Journal).None? && name in slots ==> slots[name].Empty()
  {
    forall n | n in slots && !slots[n].Empty() ensures About(fs.See(Journal), n) {
      NoOrphan(fs, slots[n]);
    }
  }

  lemma RunKeepsAll(before: Folder, after: Folder, slots: map<string, Slot>, refusals: map<string, nat>, name: string,
                    w: Slot, count: nat)
    requires AllKept(before, slots, refusals) && name in slots
    requires Kept(after, w) && w.name == name && Counted(after, name, count)
    requires forall n :: n in slots && n != name ==> slots[n].Empty()
    requires forall v :: v in after.May(Journal) ==> v in before.May(Journal) || v.None? || About(v, name)
    ensures AllKept(after, slots[name := w], refusals[name := count])
  {
    hide Tracked, Tracks;
    forall n | n in slots && n != name ensures Kept(after, slots[n]) && Counted(after, n, refusals[n]) {
      OthersAreKept(before, after, slots[n], name, refusals[n]);
    }
  }

  lemma NewName(fs: Folder, slots: map<string, Slot>, refusals: map<string, nat>, name: string)
    requires AllKept(fs, slots, refusals) && name != ""
    ensures name !in slots ==> AllKept(fs, slots[name := Slot(name, None, [], {}, {}, map[])], refusals[name := 0])
  {
    if name !in slots {
      forall v | v in fs.May(Journal) ensures !About(v, name) {
      }
    }
  }

  lemma ClaimIsKept(before: Folder, after: Folder, slots: map<string, Slot>, refusals: map<string, nat>, name: string,
                    state: State)
    requires AllKept(before, slots, refusals) && name in slots && Names(state, name)
    requires state.sandboxID == "" && state.refusedStoppedCount == 0
    requires forall n :: n in slots ==> slots[n].Empty()
    requires Perhaps(before, after, Some(Whole(state))) && (Intact(before) ==> Intact(after))
    ensures AllKept(after, slots, refusals)
  {
    forall n | n in slots ensures Kept(after, slots[n]) && Counted(after, n, refusals[n]) {
      assert Tracks(Some(Whole(state)), slots[n]);
    }
  }

  lemma FreshGuard(fs: Folder, w: Slot, claim: Claim, state: State, p: WatchdogPhase.ParentState)
    requires claim.Valid() && w.name == SandboxName(claim.attempt, claim.fence) && Kept(fs, w) && w.Empty()
    requires state.claim == claim && state.sandboxID == "" && state.refusedStoppedCount == 0
    requires Certainly(fs, Some(Whole(state)))
    ensures Consistent(fs, w, claim, state, p) && w.Well()
  {
  }

  lemma FreshIsAbout(fs: Folder, name: string, refusals: nat)
    requires OnlyFresh(fs, name)
    ensures Counted(fs, name, refusals)
    ensures forall v :: v in fs.May(Journal) ==> v.None? || About(v, name)
  {
  }

  ghost predicate AllKept(fs: Folder, slots: map<string, Slot>, refusals: map<string, nat>) {
    && Intact(fs)
    && (forall n :: n in slots ==> n in refusals && slots[n].name == n && Kept(fs, slots[n]) && Counted(fs, n, refusals[n]))
    && (forall v :: v in fs.May(Journal) && v.Some? ==>
          v.value.Whole? && SandboxName(v.value.state.claim.attempt, v.value.state.claim.fence) in slots)
  }
}
