/** The credential container of a profile operation and the tombstone that fences its name
    (internal/profile/runtime.go). */
module ProfileRuntime {
  import opened Directory
  import opened Daemon
  import opened Text
  import WatchdogPhase
  import opened SandboxDocker
  import opened CreateProtocol

  // ---- Ownership -----------------------------------------------------------------

  predicate ImageId(s: string) {
    "sha256:" <= s && |s| == 71 && forall i :: 7 <= i < 71 ==> '0' <= s[i] <= '9' || 'a' <= s[i] <= 'f'
  }

  /** An absolute path in its shortest form. */
  predicate CleanAbsolute(path: string) {
    path == "/"
    || (var parts := Split(path, '/');
        |parts| > 1 && parts[0] == "" && forall i :: 0 < i < |parts| ==> parts[i] !in {"", ".", ".."})
  }

  function Binds(mounts: seq<Mount>): nat {
    if mounts == [] then 0 else (if mounts[0].bind then 1 else 0) + Binds(mounts[1..])
  }

  predicate HasProfileHomeMount(c: Container) {
    Binds(c.mounts) == 1
    && forall m :: m in c.mounts && m.bind ==> m.destination == "/profile" && CleanAbsolute(m.source)
  }

  predicate HasExpectedHomeMount(c: Container, home: string) {
    Binds(c.mounts) == 1 && forall m :: m in c.mounts && m.bind ==> m.source == home && m.destination == "/profile"
  }

  predicate OwnsName(c: Container, name: string) {
    c.name == name && c.labels.Profile? && c.labels.sandbox == name
  }

  predicate OwnsReservation(c: Container, name: string) {
    OwnsName(c, name) && c.labels.reservation && !c.running && c.mounts == []
  }

  predicate OwnsRuntimeContainer(c: Container, name: string) {
    OwnsName(c, name) && ImageId(c.image) && HasProfileHomeMount(c)
  }

  function CredentialContainer(name: string, image: string, home: string): Container {
    Container(name, image, Profile(name, false), [Mount(true, home, "/profile")], false)
  }

  function Reservation(name: string, image: string): Container {
    Container(name, image, Profile(name, true), [], false)
  }

  /** No tombstone was ever ordered to start or to go. */
  ghost predicate Honest(w: Slot) {
    forall i :: i in w.started + w.doomed ==> i in w.used && !Tombstone(w.used[i])
  }

  /** The tombstone stands. */
  ghost predicate Closed(w: Slot) {
    w.holder.Some? && Tombstone(w.holder.value.container) && Honest(w)
  }

  lemma ClosedIsFenced(w: Slot)
    requires w.Well() && Closed(w)
    ensures Fenced(w)
  {
  }

  lemma ClosedStays(v: Slot, w: Slot)
    requires v.Well() && Untouched(v, w)
    ensures Closed(v) ==> Closed(w)
    ensures Honest(v) ==> Honest(w)
  {
    if Closed(v) {
      ClosedIsFenced(v);
      FenceHolds(v, w);
    }
  }

  lemma OneMoreOrder(v: Slot, w: Slot, id: Id)
    requires Drifted(v, w) && Honest(v) && id in v.used && !Tombstone(v.used[id])
    requires w.started + w.doomed <= v.started + v.doomed + {id}
    ensures Honest(w)
  {
  }

  ghost predicate AllTombstones(w: Slot) {
    forall c :: c in w.pending ==> Tombstone(c)
  }

  /** No create for a credential container is unaccounted for. */
  ghost predicate Settled(w: Slot) {
    Honest(w) && (Closed(w) || AllTombstones(w))
  }

  /** Nothing but a tombstone is or can come under the name. */
  ghost predicate Barred(w: Slot) {
    Honest(w) && (Closed(w) || (AllTombstones(w) && w.holder.None?))
  }

  lemma BarredStays(v: Slot, w: Slot)
    requires v.Well() && Untouched(v, w)
    ensures Barred(v) ==> Barred(w)
    ensures Settled(v) ==> Settled(w)
    ensures Barred(w) && w.holder.Some? ==> Tombstone(w.holder.value.container)
  {
    ClosedStays(v, w);
  }

  // ---- Stop ----------------------------------------------------------------------

  datatype Stopping = Gone | StopFailed | StopUncertain

  /** The container is there, and runs or is no credential container. */
  ghost predicate Obstinate(w: Slot, id: Id) {
    w.Has(id) && (w.holder.value.container.running || !OwnsRuntimeContainer(w.holder.value.container, w.name))
  }

  lemma ImageIsFixed(w: Slot, id: Id, image: string)
    requires w.Well() && w.Has(id) && id in w.used && w.used[id].image == image
    ensures w.holder.value.container.image == image
  {
  }

  /** A container that lost the name does not have it again. */
  ghost predicate NoneBack(v: Slot, w: Slot) {
    forall id :: id in v.used ==> id in w.used && (w.Has(id) ==> v.Has(id))
  }

  /** Nor does the one that had it. */
  ghost predicate AllGone(v: Slot, w: Slot) {
    forall id :: id in v.used ==> id in w.used && !w.Has(id)
  }

  lemma NoneComesBack(u: Slot, v: Slot, w: Slot)
    requires Drifted(u, v) && Drifted(v, w)
    ensures NoneBack(u, w)
    ensures v.holder.None? || !w.Has(v.holder.value.id) ==> AllGone(u, w)
  {
  }

  /** Stops a running credential container and checks that it is still the one found. */
  method Halted(docker: Docker, tenant: Tenant, ghost since: Slot) returns (gone: bool, ok: bool)
    requires docker.slot.Well() && since.Well() && Drifted(since, docker.slot)
    modifies docker
    ensures docker.slot.Well() && Drifted(since, docker.slot) && Remembers(old(docker.slot), docker.slot, tenant.id)
    ensures docker.slot.name == old(docker.slot.name)
    ensures docker.slot.started == old(docker.slot.started) && docker.slot.doomed == old(docker.slot.doomed)
    ensures gone ==> !docker.slot.Has(tenant.id)
    ensures ok && !gone && old(tenant.id in docker.slot.used) ==>
      !tenant.container.running || (docker.slot.Has(tenant.id) && !docker.slot.holder.value.container.running)
    ensures !ok && old(tenant.id in docker.slot.used && docker.slot.used[tenant.id].image == tenant.container.image) ==>
      docker.troubles > old(docker.troubles) || Obstinate(docker.slot, tenant.id)
    ensures docker.troubles >= old(docker.troubles)
  {
    hide Drifted, Slot.Well, OwnsRuntimeContainer;
    ghost var known := tenant.id in docker.slot.used && docker.slot.used[tenant.id].image == tenant.container.image;
    if !tenant.container.running {
      return false, true;
    }
    var stopped := docker.Halt(tenant.id, since);
    var current := docker.Inspect(ById(tenant.id), since);
    if current.Absent? {
      return true, true;
    }
    if known && current.Found? {
      ImageIsFixed(docker.slot, tenant.id, tenant.container.image);
    }
    if current.Unknown? || !OwnsRuntimeContainer(current.tenant.container, docker.slot.name)
       || current.tenant.container.image != tenant.container.image {
      return false, false;
    }
    if current.tenant.container.running {
      var killed := docker.Halt(tenant.id, since);
      current := docker.Inspect(ById(tenant.id), since);
      if current.Absent? {
        return true, true;
      }
      if known && current.Found? {
        ImageIsFixed(docker.slot, tenant.id, tenant.container.image);
      }
      if current.Unknown? || !OwnsRuntimeContainer(current.tenant.container, docker.slot.name)
         || current.tenant.container.image != tenant.container.image || current.tenant.container.running {
        return false, false;
      }
    }
    return false, true;
  }

  /** Removes the credential container under the name. A tombstone is refused and stays.
      Absence proves nothing while a create may be on its way. */
  method Stop(docker: Docker, createMayBeInFlight: bool, ghost since: Slot) returns (r: Stopping)
    requires docker.slot.Well() && since.Well() && Drifted(since, docker.slot)
    modifies docker
    ensures docker.slot.Well() && Drifted(since, docker.slot) && docker.slot.name == old(docker.slot.name)
    ensures old(Honest(docker.slot)) ==> Honest(docker.slot)
    ensures old(Closed(docker.slot)) ==> Closed(docker.slot) && r == StopFailed
    ensures r == StopUncertain ==> createMayBeInFlight
    ensures r == Gone && old(docker.slot.pending) == [] ==> docker.slot.Empty()
    ensures NoMore(old(docker.slot), docker.slot)
    ensures old(Settled(docker.slot)) ==> Settled(docker.slot)
    ensures r == Gone && old(Settled(docker.slot)) ==> Barred(docker.slot)
    ensures r == Gone && createMayBeInFlight && old(docker.slot.Load()) <= 1 ==> docker.slot.Empty()
    ensures r == Gone ==> AllGone(old(docker.slot), docker.slot)
    ensures NoneBack(old(docker.slot), docker.slot)
    ensures r == StopFailed ==>
      || docker.troubles > old(docker.troubles)
      || (docker.slot.holder.Some? && Obstinate(docker.slot, docker.slot.holder.value.id))
    ensures docker.troubles >= old(docker.troubles)
  {
    hide Drifted, Slot.Well, OwnsRuntimeContainer, Honest;
    ghost var entry := docker.slot;
    var answer := docker.Inspect(ByName, since);
    ghost var seen := docker.slot;
    NothingOrdered(entry, seen);
    DriftIsReflexive(seen);
    NoneComesBack(entry, seen, seen);
    if answer.Absent? {
      return if createMayBeInFlight then StopUncertain else Gone;
    }
    if answer.Unknown? || !OwnsRuntimeContainer(answer.tenant.container, docker.slot.name) {
      MountedIsNoTombstone(seen);
      return StopFailed;
    }
    var tenant := answer.tenant;
    MountedIsNoTombstone(seen);
    HolderIsUsed(seen);
    var gone, stopped := Halted(docker, tenant, seen);
    NoneComesBack(entry, seen, docker.slot);
    if gone || !stopped {
      OrderedAway(since, seen, docker.slot, tenant.id);
      return if gone then Gone else StopFailed;
    }
    var removed := docker.Remove(tenant.id, seen);
    if !removed {
      var after := docker.Inspect(ById(tenant.id), seen);
      if !after.Absent? {
        NoneComesBack(entry, seen, docker.slot);
        OrderedAway(since, seen, docker.slot, tenant.id);
        return StopFailed;
      }
    }
    ghost var before := docker.slot;
    var confirmed := docker.Inspect(ById(tenant.id), seen);
    GoneForGood(before, docker.slot, tenant.id);
    NoneComesBack(entry, seen, docker.slot);
    OrderedAway(since, seen, docker.slot, tenant.id);
    return if confirmed.Absent? then Gone else StopFailed;
  }

  lemma NothingOrdered(v: Slot, w: Slot)
    requires v.Well() && Untouched(v, w)
    ensures w.Load() <= v.Load() && (v.pending == [] ==> w.pending == [])
    ensures Honest(v) ==> Honest(w)
    ensures Closed(v) ==> Closed(w)
    ensures NoMore(v, w)
    ensures Settled(v) ==> Settled(w)
    ensures Settled(v) && w.holder.None? ==> Barred(w)
  {
    NobodyNewComes(v, w);
    ClosedStays(v, w);
  }

  lemma OrderedAway(since: Slot, v: Slot, w: Slot, id: Id)
    requires since.Well() && Drifted(since, v) && Drifted(v, w) && v.Has(id) && id in v.used && !Tombstone(v.used[id])
    requires w.started == v.started && v.doomed <= w.doomed <= v.doomed + {id}
    ensures Drifted(since, w)
    ensures Honest(v) ==> Honest(w)
    ensures v.pending == [] && !w.Has(id) ==> w.Empty()
    ensures v.Load() <= 1 && !w.Has(id) ==> w.Empty()
    ensures NoMore(v, w)
    ensures Settled(v) && w.Well() && !w.Has(id) ==> Barred(w)
  {
    DriftIsTransitive(since, v, w);
    NobodyNewComes(v, w);
    if Honest(v) {
      OneMoreOrder(v, w, id);
    }
  }

  lemma MountedIsNoTombstone(w: Slot)
    requires w.Well()
    ensures w.holder.Some? && OwnsRuntimeContainer(w.holder.value.container, w.name) ==>
      !Tombstone(w.holder.value.container) && !Tombstone(w.used[w.holder.value.id])
  {
  }

  // ---- ReconcileCreate -----------------------------------------------------------

  datatype Trial = Reserved | Unclear | Again

  /** The container that holds the name can be removed. */
  ghost predicate Replaceable(w: Slot) {
    w.holder.Some? && OwnsRuntimeContainer(w.holder.value.container, w.name)
  }

  /** One attempt to put a tombstone under the name. A credential container in its way is
      removed for the next. */
  method TryReservation(docker: Docker, image: string) returns (r: Trial)
    requires docker.slot.Well() && ImageId(image)
    modifies docker
    ensures docker.slot.Well() && docker.slot.name == old(docker.slot.name)
    ensures old(Honest(docker.slot)) ==> Honest(docker.slot)
    ensures old(Closed(docker.slot)) ==> Closed(docker.slot)
    ensures old(Settled(docker.slot)) ==> Settled(docker.slot)
    ensures r == Reserved && old(Honest(docker.slot)) ==> Closed(docker.slot)
    ensures old(docker.slot.Empty() || Closed(docker.slot)) ==> r == Reserved || docker.troubles > old(docker.troubles)
    ensures NoneBack(old(docker.slot), docker.slot) && (r == Again ==> AllGone(old(docker.slot), docker.slot))
    ensures old(Replaceable(docker.slot)) ==>
      var id := old(docker.slot).holder.value.id;
      r == Reserved || docker.troubles > old(docker.troubles) || !docker.slot.Has(id) || Obstinate(docker.slot, id)
    ensures docker.troubles >= old(docker.troubles)
  {
    hide Drifted, Slot.Well, OwnsRuntimeContainer, Honest;
    ghost var before := docker.slot;
    var dispatched, reply := docker.Create(Reservation(docker.slot.name, image));
    AnotherCreate(before, docker.slot, Reservation(before.name, image), dispatched);
    ghost var asked := if dispatched then before.(pending := before.pending + [Reservation(before.name, image)]) else before;
    ghost var tried := docker.slot;
    DriftIsReflexive(tried);
    if reply.Some? {
      var answer := docker.Inspect(ById(reply.value), tried);
      NothingOrdered(tried, docker.slot);
      DriftIsTransitive(asked, tried, docker.slot);
      Displaced(before, asked, docker.slot);
      ReservationStands(before, tried, docker.slot, reply.value, Reservation(before.name, image));
      return if answer.Found? && OwnsReservation(answer.tenant.container, docker.slot.name) then Reserved else Unclear;
    }
    var answer := docker.Inspect(ByName, tried);
    NothingOrdered(tried, docker.slot);
    ghost var seen := docker.slot;
    DriftIsTransitive(asked, tried, seen);
    Displaced(before, asked, seen);
    if answer.Absent? {
      return if dispatched then Unclear else Again;
    }
    if answer.Unknown? {
      return Unclear;
    }
    if OwnsReservation(answer.tenant.container, docker.slot.name) {
      return Reserved;
    }
    if !OwnsRuntimeContainer(answer.tenant.container, docker.slot.name) {
      return Unclear;
    }
    DriftIsReflexive(seen);
    var stopping := Stop(docker, false, seen);
    return if stopping == Gone then Again else Unclear;
  }

  /** Drift and one create leave a credential container as it is, or without the name. */
  lemma Displaced(v: Slot, asked: Slot, w: Slot)
    requires asked == v.(pending := asked.pending) && Drifted(asked, w) && v.Well() && w.Well()
    ensures NoneBack(v, w) && (w.holder.None? ==> AllGone(v, w))
    ensures Replaceable(v) && w.Has(v.holder.value.id) ==> Replaceable(w)
  {
  }

  /** Puts a tombstone under the name, removing a credential container that holds it. Only
      nil says that the name is closed. `patience` is how long the context lasts. */
  method ReconcileCreate(docker: Docker, image: string, patience: nat) returns (ok: bool)
    requires docker.slot.Well()
    modifies docker
    ensures docker.slot.Well() && docker.slot.name == old(docker.slot.name)
    ensures old(Honest(docker.slot)) ==> Honest(docker.slot)
    ensures old(Closed(docker.slot)) ==> Closed(docker.slot)
    ensures ok && old(Honest(docker.slot)) ==> Closed(docker.slot)
    ensures old(Settled(docker.slot)) ==> Settled(docker.slot)
    ensures old(docker.slot.Empty() || Closed(docker.slot)) && ImageId(image) && patience > 0 ==>
      ok || docker.troubles > old(docker.troubles)
    ensures old(Replaceable(docker.slot)) && ImageId(image) && patience > 0 ==>
      var id := old(docker.slot).holder.value.id;
      ok || docker.troubles > old(docker.troubles) || !docker.slot.Has(id) || Obstinate(docker.slot, id)
    ensures docker.troubles >= old(docker.troubles)
  {
    hide Drifted, Slot.Well, OwnsRuntimeContainer, Honest;
    ghost var entry := docker.slot;
    DriftIsReflexive(entry);
    var existing := docker.Inspect(ByName, entry);
    NothingOrdered(entry, docker.slot);
    Displaced(entry, entry, docker.slot);
    if entry.holder.Some? {
      HolderIsUsed(entry);
    }
    if existing.Found? && OwnsReservation(existing.tenant.container, docker.slot.name) {
      return true;
    }
    if existing.Unknown? || !ImageId(image) {
      return false;
    }
    var left := patience;
    while left > 0
      invariant docker.slot.Well() && docker.slot.name == entry.name
      invariant Honest(entry) ==> Honest(docker.slot)
      invariant Closed(entry) ==> Closed(docker.slot)
      invariant Settled(entry) ==> Settled(docker.slot)
      invariant docker.troubles >= old(docker.troubles) && NoneBack(entry, docker.slot)
      invariant entry.Empty() && docker.troubles == old(docker.troubles) ==> left == patience && docker.slot.Empty()
      invariant Closed(entry) ==> docker.troubles > old(docker.troubles)
      invariant if left < patience then AllGone(entry, docker.slot)
                else Replaceable(entry) && docker.slot.Has(entry.holder.value.id) ==> Replaceable(docker.slot)
    {
      left := left - 1;
      var trial := TryReservation(docker, image);
      if trial == Reserved {
        return true;
      }
      if trial == Unclear {
        return false;
      }
    }
    return false;
  }

  /** A tombstone that has just come stays. */
  lemma ReservationStands(before: Slot, v: Slot, w: Slot, id: Id, c: Container)
    requires before.Well() && c.name == before.name && Untouched(before.(pending := before.pending + [c]), v)
    requires id !in before.used && v.Has(id) && id in v.used && v.used[id] == c
    requires Untouched(v, w) && w.Well() && Tombstone(c)
    ensures w.Has(id) && OwnsReservation(w.holder.value.container, w.name)
  {
    NewIsSafe(before, v, w, id);
    assert id !in before.started + before.doomed;
  }

  /** A create that meets a closed name changes nothing. */
  lemma AnotherCreate(v: Slot, w: Slot, c: Container, dispatched: bool)
    requires v.Well() && w.Well() && c.name == v.name && !c.running
    requires Untouched(if dispatched then v.(pending := v.pending + [c]) else v, w)
    ensures Honest(v) ==> Honest(w)
    ensures Closed(v) ==> Closed(w)
    ensures Settled(v) && Tombstone(c) ==> Settled(w)
    ensures w.name == v.name && (if dispatched then v.(pending := v.pending + [c]) else v).Well()
  {
    var u := if dispatched then v.(pending := v.pending + [c]) else v;
    assert u.Well();
    ClosedStays(u, w);
  }

  // ---- Start ---------------------------------------------------------------------

  datatype Placement = Placed(id: Id) | PlaceRefused | PlaceUncertain | PlacerDied

  /** Announces a create to the watchdog and sends it. A create that was never sent is
      reported as finished without a container. */
  method Place(docker: Docker, lease: WatchdogPhase.Lease, c: Container) returns (r: Placement)
    requires docker.slot.Well() && lease.Valid() && c.name == docker.slot.name && !c.running
    modifies docker, lease, lease.child
    ensures docker.slot.Well() && lease.Valid() && docker.slot.name == old(docker.slot.name)
    ensures old(Honest(docker.slot)) ==> Honest(docker.slot)
    ensures old(Untried(lease.State(), docker.slot)) ==> Guarded(lease.State(), docker.slot)
    ensures r == PlaceRefused ==> docker.slot.Load() <= old(docker.slot.Load())
    ensures r.Placed? ==> docker.slot.Has(r.id) && docker.slot.used[r.id] == c
    ensures r.Placed? && old(Untried(lease.State(), docker.slot)) ==> docker.slot.pending == [] && lease.reported == {}
    ensures r.Placed? || r == PlaceRefused ==> NoMore(old(docker.slot), docker.slot)
    ensures r in {PlaceRefused, PlaceUncertain} ==>
      || docker.troubles > old(docker.troubles) || old(docker.slot.holder.Some? || docker.slot.pending != [])
      || lease.Cut(old(lease.troubles), old(lease.closed)) || old(lease.createFinished)
    ensures docker.troubles >= old(docker.troubles) && lease.troubles >= old(lease.troubles)
    ensures lease.closed && !old(lease.closed) ==> lease.troubles > old(lease.troubles)
    ensures r.Placed? ==> r.id !in old(docker.slot.used)
    ensures r.Placed? ==>
      !old(lease.createFinished) && lease.createInFlight && !lease.createFinished && !lease.phaseUnknown
  {
    hide Drifted, Slot.Well, WatchdogPhase.Agree, Honest;
    if * {
      // A checkpoint or the home failed just before the request.
      docker.troubles := docker.troubles + 1;
      return PlaceRefused;
    }
    var announced := lease.CreateStarted();
    if * {
      return PlacerDied;
    }
    if !announced {
      var finished := lease.CreateFinished("");
      return if finished then PlaceRefused else PlaceUncertain;
    }
    ghost var entry := docker.slot;
    var dispatched, reply := docker.Create(c);
    OneCreate(lease.State(), entry, docker.slot, c, dispatched);
    AnotherCreate(entry, docker.slot, c, dispatched);
    if * {
      return PlacerDied;
    }
    if reply.None? {
      if dispatched {
        return PlaceUncertain;
      }
      var finished := lease.CreateFinished("");
      return if finished then PlaceRefused else PlaceUncertain;
    }
    return Placed(reply.value);
  }

  datatype Launch = LaunchRefused | LaunchUncertain | LaunchFailed | Launched | LauncherDied

  /** The operation's own container runs under the name with the home mounted. */
  predicate Running(w: Slot, home: string) {
    && w.holder.Some? && w.holder.value.container.running
    && OwnsName(w.holder.value.container, w.name) && HasExpectedHomeMount(w.holder.value.container, home)
  }

  /** A credential container of the operation, with the home mounted, was started. */
  ghost predicate Served(w: Slot, image: string, home: string) {
    ImageId(image) && exists id :: id in w.started && id in w.used && w.used[id] == CredentialContainer(w.name, image, home)
  }

  lemma ServedStays(v: Slot, w: Slot, image: string, home: string)
    requires Drifted(v, w) && Served(v, image, home)
    ensures Served(w, image, home)
  {
  }

  /** The container is not there, does not run, or was created otherwise than expected. */
  ghost predicate Idle(w: Slot, id: Id, c: Container, home: string) {
    !w.Has(id) || !w.holder.value.container.running || !OwnsName(c, w.name) || !HasExpectedHomeMount(c, home)
  }

  lemma FoundIsAsCreated(w: Slot, id: Id, c: Container, home: string)
    requires w.Well() && id in w.used && w.used[id] == c
    ensures w.Has(id) ==>
      && OwnsName(w.holder.value.container, w.name) == OwnsName(c, w.name) && w.holder.value.container.image == c.image
      && HasExpectedHomeMount(w.holder.value.container, home) == HasExpectedHomeMount(c, home)
  {
  }

  /** Starts a verified container and checks that it runs. */
  method StartContainer(docker: Docker, ghost p: WatchdogPhase.ParentState, id: Id, c: Container, home: string)
    returns (r: Launch)
    requires docker.slot.Well() && id in docker.slot.used && docker.slot.used[id] == c
    modifies docker
    ensures docker.slot.Well() && docker.slot.name == old(docker.slot.name)
    ensures old(Honest(docker.slot)) && !Tombstone(c) ==> Honest(docker.slot)
    ensures old(Guarded(p, docker.slot)) ==> Guarded(p, docker.slot)
    ensures NoMore(old(docker.slot), docker.slot)
    ensures r == Launched ==> Running(docker.slot, home)
    ensures r == Launched || r == LaunchFailed
    ensures r == LaunchFailed ==> docker.troubles > old(docker.troubles) || Idle(docker.slot, id, c, home)
    ensures id in docker.slot.used && docker.slot.used[id] == c && (r == Launched ==> id in docker.slot.started)
    ensures docker.troubles >= old(docker.troubles)
  {
    hide Drifted, Slot.Well, Guarded, Honest, HasExpectedHomeMount, OwnsName;
    ghost var seen := docker.slot;
    DriftIsReflexive(seen);
    var started := docker.Start(id, seen);
    ghost var rising := docker.slot;
    if !Tombstone(c) && Honest(seen) {
      OneMoreOrder(seen, rising, id);
    }
    if Guarded(p, seen) {
      StillGuarded(p, seen, rising);
    }
    assert NoMore(seen, rising);
    if !started {
      return LaunchFailed;
    }
    DriftIsReflexive(rising);
    var answer := docker.Inspect(ById(id), rising);
    Calm(p, rising, docker.slot);
    FoundIsAsCreated(docker.slot, id, c, home);
    if !answer.Found? || !OwnsName(answer.tenant.container, docker.slot.name) || answer.tenant.container.image != c.image
       || !answer.tenant.container.running || !HasExpectedHomeMount(answer.tenant.container, home) {
      return LaunchFailed;
    }
    return Launched;
  }

  /** Verifies the container a create answered with, reports it and starts it. */
  method Confirm(docker: Docker, lease: WatchdogPhase.Lease, id: Id, c: Container, home: string) returns (r: Launch)
    requires docker.slot.Well() && lease.Valid() && docker.slot.Has(id) && docker.slot.used[id] == c
    modifies docker, lease, lease.child
    ensures docker.slot.Well() && lease.Valid() && docker.slot.name == old(docker.slot.name)
    ensures old(Honest(docker.slot)) && !Tombstone(c) ==> Honest(docker.slot)
    ensures old(Guarded(lease.State(), docker.slot) && docker.slot.pending == [] && lease.reported == {}) ==>
      Guarded(lease.State(), docker.slot)
    ensures r == Launched ==> Running(docker.slot, home)
    ensures r in {LaunchFailed, Launched} ==> lease.createFinished && !lease.createInFlight
    ensures NoMore(old(docker.slot), docker.slot)
    ensures r != LaunchRefused
    ensures r == LaunchFailed ==> docker.troubles > old(docker.troubles) || Idle(docker.slot, id, c, home)
    ensures id in docker.slot.used && docker.slot.used[id] == c && (r == Launched ==> id in docker.slot.started)
    ensures r == LaunchUncertain && !old(lease.createFinished) && old(lease.createInFlight) && WatchdogPhase.FullId(id) ==>
      || docker.troubles > old(docker.troubles) || lease.Cut(old(lease.troubles), old(lease.closed))
      || !docker.slot.Has(id) || docker.slot.holder.value.container.running || !OwnsName(c, docker.slot.name)
      || !HasExpectedHomeMount(c, home)
    ensures docker.troubles >= old(docker.troubles) && lease.troubles >= old(lease.troubles)
  {
    hide Drifted, Slot.Well, WatchdogPhase.Agree, Guarded, Honest, HasExpectedHomeMount, OwnsName, Tombstone;
    ghost var entry := docker.slot;
    DriftIsReflexive(entry);
    HolderIsUsed(entry);
    var answer := docker.Inspect(ById(id), entry);
    Calm(lease.State(), entry, docker.slot);
    if !answer.Found? || !OwnsName(answer.tenant.container, docker.slot.name) || answer.tenant.container.image != c.image
       || answer.tenant.container.running || !HasExpectedHomeMount(answer.tenant.container, home) {
      return LaunchUncertain;
    }
    ghost var p := lease.State();
    var finished := lease.CreateFinished(id);
    NowReported(p, lease.State(), docker.slot, id);
    if * {
      return LauncherDied;
    }
    if !finished {
      return LaunchUncertain;
    }
    r := StartContainer(docker, lease.State(), id, c, home);
  }

  /** Nothing but time passed. */
  lemma Calm(p: WatchdogPhase.ParentState, v: Slot, w: Slot)
    requires v.Well() && Untouched(v, w)
    ensures Guarded(p, v) ==> Guarded(p, w)
    ensures Honest(v) ==> Honest(w)
    ensures Closed(v) ==> Closed(w)
    ensures v.Empty() ==> w.Empty()
    ensures v.pending == [] ==> w.pending == []
    ensures w.name == v.name && w.Load() <= v.Load() && NoMore(v, w)
    ensures forall i :: v.Has(i) && i in v.used ==> i in w.used && w.used[i] == v.used[i] && (w.holder.Some? && v.pending == [] ==> w.Has(i))
  {
    NobodyNewComes(v, w);
    ClosedStays(v, w);
  }

  /** Creates and starts the credential container. The process may die between any two
      steps. `ready` stands for the checks of home and image. */
  method Start(docker: Docker, lease: WatchdogPhase.Lease, image: string, home: string, ready: bool) returns (r: Launch)
    requires docker.slot.Well() && lease.Valid()
    modifies docker, lease, lease.child
    ensures docker.slot.Well() && lease.Valid() && docker.slot.name == old(docker.slot.name)
    ensures old(Honest(docker.slot)) ==> Honest(docker.slot)
    ensures old(Closed(docker.slot)) ==> Closed(docker.slot) && r == LaunchRefused
    ensures old(Untried(lease.State(), docker.slot)) ==> Guarded(lease.State(), docker.slot)
    ensures r == LaunchRefused ==> docker.slot.Load() <= old(docker.slot.Load())
    ensures r in {LaunchFailed, Launched} ==> lease.createFinished && !lease.createInFlight
    ensures r in {LaunchRefused, LaunchFailed, Launched} ==> NoMore(old(docker.slot), docker.slot)
    ensures r == Launched ==> Running(docker.slot, home) && Served(docker.slot, image, home)
    ensures !ready || !ImageId(image) ==> r == LaunchRefused && docker.slot == old(docker.slot)
    ensures r == LaunchRefused ==>
      || !ready || !ImageId(image) || docker.slot.holder.Some? || docker.troubles > old(docker.troubles)
      || old(docker.slot.pending) != [] || lease.Cut(old(lease.troubles), old(lease.closed)) || old(lease.createFinished)
    ensures r == LaunchFailed ==>
      || docker.troubles > old(docker.troubles)
      || exists id :: id !in old(docker.slot.used) && id in docker.slot.used && (!docker.slot.Has(id) || !docker.slot.holder.value.container.running)
    ensures docker.troubles >= old(docker.troubles)
  {
    hide Drifted, Slot.Well, WatchdogPhase.Agree, Honest, HasExpectedHomeMount, OwnsName, Idle;
    ghost var entry := docker.slot;
    DriftIsReflexive(entry);
    if !ready || !ImageId(image) {
      return LaunchRefused;
    }
    var before := docker.Inspect(ByName, entry);
    Calm(lease.State(), entry, docker.slot);
    if !before.Absent? {
      return LaunchRefused;
    }
    assert !Closed(docker.slot);
    var placement := Place(docker, lease, CredentialContainer(docker.slot.name, image, home));
    match placement
    case PlaceRefused => return LaunchRefused;
    case PlaceUncertain => return LaunchUncertain;
    case PlacerDied => return LauncherDied;
    case Placed(id) =>
      ghost var c := CredentialContainer(docker.slot.name, image, home);
      r := Confirm(docker, lease, id, CredentialContainer(docker.slot.name, image, home), home);
      IdleIsNotRunning(docker.slot, id, c, home);
  }

  lemma IdleIsNotRunning(w: Slot, id: Id, c: Container, home: string)
    requires c.name == w.name && c.labels == Profile(w.name, false) && c.mounts == [Mount(true, home, "/profile")]
    ensures Idle(w, id, c, home) ==> !w.Has(id) || !w.holder.value.container.running
  {
    assert c.mounts[1..] == [] && Binds([]) == 0;
  }

  // ---- Runs ----------------------------------------------------------------------

  /** However far a launch got before its supervisor died or gave up, a watchdog that ends
      its cleanup leaves no credential container under the name and none to come. */
  method LaunchAndCleanUp(docker: Docker, lease: WatchdogPhase.Lease, image: string, home: string, patience: nat)
    returns (outcome: Outcome)
    requires docker.slot.Well() && lease.Valid() && Untried(lease.State(), docker.slot)
    modifies docker, lease, lease.child
    ensures docker.slot.Well()
    ensures outcome == Clean ==>
      docker.slot.Empty() || (docker.slot.holder.Some? && LabelledTombstone(docker.slot.holder.value.container, docker.slot.name))
  {
    hide WatchdogPhase.Agree, Guarded, Drifted, Slot.Well, Watched, Honest;
    var launch := Start(docker, lease, image, home, true);
    lease.Elapse();
    ghost var before := docker.slot;
    DriftIsReflexive(before);
    docker.Drift(before);
    StillGuarded(lease.State(), before, docker.slot);
    match lease.child.status
    case Cleaning(inFlight, id) =>
      CleanupIsWatched(lease.State(), lease.child.State(), lease.child.input, lease.child.output, docker.slot);
      ghost var landed: Option<Id>;
      outcome, landed := CleanUpSandbox(docker, inFlight, Confirmed(id), OfProfile, patience);
    case _ => outcome := Killed;
  }

  lemma CleanupSparesTombstones(owner: Owner, v: Slot, w: Slot)
    requires v.Well() && w.Well() && Drifted(v, w) && OrdersOwned(owner, v, w)
    ensures Honest(v) ==> Honest(w)
    ensures Closed(v) ==> Closed(w)
  {
    if Honest(v) {
      forall i | i in w.started + w.doomed ensures i in w.used && !Tombstone(w.used[i]) {
        if i !in v.started + v.doomed {
          assert w.used[i].name == w.name;
        }
      }
    }
    if Closed(v) {
      var id := v.holder.value.id;
      assert v.used[id] == w.used[id] && v.used[id] == v.holder.value.container;
      assert id !in w.doomed;
      assert w.Has(id) && w.used[id] == w.holder.value.container.(running := false);
    }
  }

  /** Once a name is closed, nothing that ever happens under it again, delayed requests,
      launches, stops, reconciliations and watchdogs, opens it: whatever is found there is
      a tombstone without mounts. */
  method Aftermath(docker: Docker, lease: WatchdogPhase.Lease, calls: nat)
    requires docker.slot.Well() && lease.Valid() && Closed(docker.slot)
    modifies docker, lease, lease.child
    ensures Closed(docker.slot) && Fenced(docker.slot)
    ensures Tombstone(docker.slot.holder.value.container)
  {
    hide WatchdogPhase.Agree, Guarded, Drifted, Slot.Well, OrdersOwned, Honest;
    var left := calls;
    while left > 0
      invariant docker.slot.Well() && lease.Valid() && Closed(docker.slot)
    {
      left := left - 1;
      ghost var before := docker.slot;
      DriftIsReflexive(before);
      var image: string, home: string, budget: nat, flag: bool := *, *, *, *;
      if {
        case true =>
          docker.Drift(before);
          ClosedStays(before, docker.slot);
        case true =>
          var launch := Start(docker, lease, image, home, flag);
        case true =>
          var stopping := Stop(docker, flag, before);
        case true =>
          var ok := ReconcileCreate(docker, image, budget);
        case true =>
          var id: string := *;
          var outcome, landed := CleanUpSandbox(docker, flag, Confirmed(id), OfProfile, budget);
          CleanupSparesTombstones(OfProfile, before, docker.slot);
      }
    }
    ClosedIsFenced(docker.slot);
  }
}
