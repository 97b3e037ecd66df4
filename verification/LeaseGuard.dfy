/** Execution authority over one attempt: its context, the lease timer and the journal
    (internal/supervisor/lease.go). Instants and durations are milliseconds. */
module LeaseGuard {
  import opened Directory
  import opened Daemon
  import opened SandboxDocker
  import opened AttemptJournal
  import opened CreateProtocol
  import opened Text
  import WatchdogPhase

  const LEASE_DURATION := 45000

  function Min(a: int, b: int): int {
    if a < b then a else b
  }

  // ---- Context and timer ---------------------------------------------------------

  datatype Timer = Armed(at: int) | Halted | Fired

  /** The attempt's context. It dies at the deadline, when the timer fires or when it is
      cancelled, and stays dead. */
  class Context {
    const deadline: int
    var now: int
    var dead: bool
    var timer: Timer
    ghost var lastReset: int

    constructor (now: int, remaining: int, deadline: int)
      requires 0 < remaining <= LEASE_DURATION
      ensures this.deadline == deadline && Valid() && timer == Armed(now + remaining) && lastReset == now
    {
      this.deadline, this.now, this.dead := deadline, now, deadline <= now;
      this.timer, this.lastReset := Armed(now + remaining), now;
    }

    ghost predicate Valid()
      reads this
    {
      && lastReset <= now
      && (!dead ==> now < deadline && timer != Fired)
      && (timer.Armed? ==> timer.at <= lastReset + LEASE_DURATION && (!dead ==> now < timer.at))
    }

    /** The context is alive only under a running timer. */
    ghost predicate Live()
      reads this
    {
      Valid() && (!dead ==> timer.Armed?)
    }

    /** Time passes; whoever holds the context may cancel it. */
    method Elapse()
      requires Valid()
      modifies this
      ensures Valid() && now >= old(now) && lastReset == old(lastReset) && (old(dead) ==> dead)
      ensures timer == old(timer) || (old(timer).Armed? && timer == Fired && dead)
      ensures old(Live()) ==> Live()
      ensures old(Live()) && (now >= deadline || now >= lastReset + LEASE_DURATION) ==> dead
    {
      var d: int := *;
      if d > 0 {
        now := now + d;
      }
      if timer.Armed? && timer.at <= now {
        timer, dead := Fired, true;
      }
      if deadline <= now {
        dead := true;
      }
      if * {
        dead := true;
      }
    }

    method Cancel()
      requires Valid()
      modifies `dead
      ensures Valid() && dead
    {
      dead := true;
    }

    /** Stops the timer; false if it had fired or was stopped before. */
    method StopTimer() returns (stopped: bool)
      requires Valid()
      modifies `timer
      ensures Valid() && stopped == old(timer).Armed?
      ensures timer == if stopped then Halted else old(timer)
    {
      stopped := timer.Armed?;
      if stopped {
        timer := Halted;
      }
    }

    method Reset(remaining: int)
      requires Valid() && timer == Halted && !dead && 0 < remaining <= LEASE_DURATION
      modifies `timer, `lastReset
      ensures Live() && timer == Armed(now + remaining) && lastReset == now
    {
      timer, lastReset := Armed(now + remaining), now;
    }
  }

  // ---- Tracking ------------------------------------------------------------------

  predicate Names(state: State, name: string) {
    state.claim.Valid() && name == SandboxName(state.claim.attempt, state.claim.fence)
  }

  /** A journal value tracks what is or may come under a name: the name is reserved in it,
      or the one container there ever was is. An empty name needs no tracking. */
  ghost predicate Tracks(v: Option<Doc>, w: Slot) {
    if Promoted(v, w.name) then Pinned(w, v.value.state.sandboxID)
    else w.Empty() || (About(v, w.name) && v.value.state.sandboxID == w.name)
  }

  predicate About(v: Option<Doc>, name: string) {
    v.Some? && v.value.Whole? && Names(v.value.state, name)
  }

  /** The journal holds a container instead of the name. */
  predicate Promoted(v: Option<Doc>, name: string) {
    About(v, name) && v.value.state.sandboxID !in {"", name}
  }

  ghost predicate Pinned(w: Slot, id: Id) {
    id in w.used && FullId(id) && Watched(w, true, Some(id))
  }

  /** Whatever a crash leaves of the journal tracks the attempt. */
  ghost predicate Tracked(fs: Folder, w: Slot) {
    forall v :: v in fs.May(Journal) ==> Tracks(v, w)
  }

  /** The name is reserved in whatever a crash leaves. */
  ghost predicate Reserved(fs: Folder, w: Slot) {
    forall v :: v in fs.May(Journal) ==>
      About(v, w.name) && v.value.state.sandboxID == w.name
  }

  lemma StillTracks(v: Option<Doc>, w: Slot, x: Slot)
    requires w.Well() && Drifted(w, x) && Tracks(v, w)
    ensures Tracks(v, x)
  {
    NobodyNewComes(w, x);
    if v.Some? && v.value.Whole? {
      StillWatched(w, x, true, Some(v.value.state.sandboxID));
    }
  }

  lemma StillTracked(fs: Folder, w: Slot, x: Slot)
    requires w.Well() && Drifted(w, x) && Tracked(fs, w)
    ensures Tracked(fs, x)
  {
    forall v | v in fs.May(Journal) ensures Tracks(v, x) {
      StillTracks(v, w, x);
    }
  }

  /** A save of a tracking value, whether or not it errs, keeps the attempt tracked. */
  lemma SaveTracks(before: Folder, after: Folder, doc: Option<Doc>, w: Slot)
    requires Tracked(before, w) && Tracks(doc, w) && Perhaps(before, after, doc)
    ensures Tracked(after, w)
  {
  }

  predicate FullId(id: string) {
    WatchdogPhase.FullId(id)
  }

  // ---- Guard ---------------------------------------------------------------------

  /** The guard's authority at one moment. */
  datatype Moment = Moment(now: int, lastReset: int, dead: bool, fired: bool, accepted: bool, heartbeats: nat) {
    predicate Bounded(deadline: int) {
      lastReset <= now && (now >= deadline || now >= lastReset + LEASE_DURATION || fired ==> dead)
    }

    predicate Leads(next: Moment) {
      && now <= next.now && lastReset <= next.lastReset && heartbeats <= next.heartbeats
      && (dead ==> next.dead) && (fired ==> next.fired) && (accepted ==> next.accepted)
      && (dead || accepted ==> next.heartbeats == heartbeats)
      && (dead || fired ==> next.lastReset == lastReset)
    }
  }

  /** The deadline and the lease bind at every moment, and what is over stays over. */
  ghost predicate Authorized(trace: seq<Moment>, deadline: int) {
    && (forall m :: m in trace ==> m.Bounded(deadline))
    && forall i, j :: 0 <= i < j < |trace| ==> trace[i].Leads(trace[j])
  }

  lemma OneMoment(m: Moment, deadline: int)
    requires m.Bounded(deadline)
    ensures Authorized([m], deadline)
  {
  }

  lemma AuthorizedGrows(trace: seq<Moment>, next: Moment, deadline: int)
    requires |trace| > 0 && trace[|trace| - 1].Leads(next) && Authorized(trace, deadline) && next.Bounded(deadline)
    ensures Authorized(trace + [next], deadline)
  {
    var more := trace + [next];
    forall i, j | 0 <= i < j < |more| ensures more[i].Leads(more[j]) {
      if j == |trace| && i < j - 1 {
        assert trace[i].Leads(trace[j - 1]);
      }
    }
  }

  /** What went wrong so far: at the control plane, on disk, on the watchdog's channel and at
      the daemon. */
  datatype Setbacks = Setbacks(server: nat, disk: nat, channel: nat, daemon: nat) {
    predicate NoneSince(before: Setbacks) {
      server <= before.server && disk <= before.disk && channel <= before.channel && daemon <= before.daemon
    }

    predicate Grown(before: Setbacks) {
      server >= before.server && disk >= before.disk && channel >= before.channel && daemon >= before.daemon
    }
  }

  /** The guard of one claimed attempt. `armed` says that the watchdog process runs;
      `heartbeats` counts the heartbeats sent, `troubles` the requests to the control plane
      that got no good answer and watchdogs that did not arm. */
  class Guard {
    const claim: Claim
    const store: Store
    const docker: Docker
    const lease: WatchdogPhase.Lease
    const context: Context

    var state: State
    var armed: bool
    var finished: bool
    var creationPending: bool
    var reservationPending: bool
    ghost var heartbeats: nat
    ghost var troubles: nat

    constructor (claim: Claim, store: Store, docker: Docker, lease: WatchdogPhase.Lease, context: Context, state: State)
      ensures this.claim == claim && this.store == store && this.docker == docker && this.lease == lease
      ensures this.context == context && this.state == state
      ensures !armed && !finished && !creationPending && !reservationPending && heartbeats == 0 && troubles == 0
    {
      this.claim, this.store, this.docker, this.lease, this.context := claim, store, docker, lease, context;
      this.state, armed, finished, creationPending, reservationPending, heartbeats := state, false, false, false, false, 0;
      troubles := 0;
    }

    ghost predicate Valid()
      reads this, context, store.disk, docker, lease, lease.child
    {
      && context.Live() && docker.slot.Well() && lease.Valid() && context.deadline == state.deadline
      && Consistent(store.disk.fs, docker.slot, claim, state, lease.State())
      && (!creationPending && !reservationPending ==> state.sandboxID != docker.slot.name)
    }

    ghost function Suffered(): Setbacks
      reads this, store.disk, lease, docker
    {
      Setbacks(troubles, store.disk.faults, lease.troubles, docker.troubles)
    }

    /** Something went wrong, or the watchdog is out of reach. */
    ghost predicate Obstructed(before: Setbacks)
      reads this, store.disk, lease, lease.child, docker
    {
      !Suffered().NoneSince(before) || lease.closed || lease.child.status != WatchdogPhase.Watching
    }

    ghost predicate Hindered(before: Setbacks)
      reads this, store.disk, lease, lease.child, docker, context
    {
      Obstructed(before) || context.dead
    }

    method TellRenewal() returns (told: bool)
      requires Valid()
      modifies context, lease`closed, lease`told, lease`troubles, lease.child`input
      ensures Valid() && context.now >= old(context.now) && context.lastReset == old(context.lastReset)
      ensures old(context.dead) ==> context.dead
      ensures context.timer == old(context.timer) || (old(context.timer).Armed? && context.timer == Fired)
      ensures lease.State() == old(lease.State()) && (told ==> lease.told == old(lease.told) + 1)
      ensures !told ==>
        lease.troubles > old(lease.troubles) || lease.closed || lease.child.status != WatchdogPhase.Watching
      ensures lease.troubles >= old(lease.troubles) && (old(lease.closed) ==> lease.closed)
    {
      hide Consistent, State.Valid, WatchdogPhase.Agree, Slot.Well;
      told := lease.Tell(WatchdogPhase.Renew);
      context.Elapse();
    }

    /** Writes the renewed lease to the journal and passes it to the watchdog. */
    method Persist(next: State) returns (r: Step)
      requires Valid() && next == state.(lease := next.lease)
      modifies context, store.disk, lease`closed, lease`told, lease`troubles, lease.child`input
      ensures Valid() && context.now >= old(context.now) && context.lastReset == old(context.lastReset)
      ensures old(context.dead) ==> context.dead
      ensures context.timer == old(context.timer) || (old(context.timer).Armed? && context.timer == Fired)
      ensures lease.State() == old(lease.State())
      ensures state.sandboxID == docker.slot.name && old(Reserved(store.disk.fs, docker.slot)) ==>
        Reserved(store.disk.fs, docker.slot)
      ensures r == Done ==> Certainly(store.disk.fs, Some(Whole(next))) && (armed ==> lease.told == old(lease.told) + 1)
      ensures lease.told != old(lease.told) ==> armed && Certainly(store.disk.fs, Some(Whole(next)))
      ensures r == Failed ==> Obstructed(old(Suffered()))
      ensures Suffered().Grown(old(Suffered())) && (old(lease.closed) ==> lease.closed)
    {
      hide Consistent, State.Valid, WatchdogPhase.Agree, Slot.Well, Reserved, Perhaps, Certainly;
      ghost var before := store.disk.fs;
      IsIntact(before, docker.slot, claim, state, lease.State());
      r := store.Save(next);
      Renewed(before, store.disk.fs, docker.slot, claim, state, next, lease.State());
      context.Elapse();
      if r == Done && armed {
        var told := TellRenewal();
        if !told {
          r := Failed;
        }
      }
    }

    /** One heartbeat: extends the journalled lease, the watchdog's and the timer, which then
        runs out with the lease that the server `granted`, or after 45 seconds. */
    method Renew() returns (r: Step, ghost granted: int)
      requires Valid()
      modifies this`state, this`heartbeats, this`troubles, context, store.disk, lease`closed, lease`told, lease`troubles,
               lease.child`input
      ensures Valid()
      ensures context.now >= old(context.now) && (old(context.dead) ==> context.dead)
      ensures old(context.timer) == Fired ==> context.timer == Fired
      ensures old(finished) ==> r == Done && heartbeats == old(heartbeats) && store.disk.fs == old(store.disk.fs)
      ensures heartbeats >= old(heartbeats) && context.lastReset >= old(context.lastReset)
      ensures old(context.dead) ==> heartbeats == old(heartbeats) && context.lastReset == old(context.lastReset)
      ensures !old(context.dead) && !old(finished) ==> heartbeats == old(heartbeats) + 1
      ensures state.(lease := old(state.lease)) == old(state)
      ensures lease.State() == old(lease.State())
      ensures state.sandboxID == docker.slot.name && old(Reserved(store.disk.fs, docker.slot)) ==>
        Reserved(store.disk.fs, docker.slot)
      ensures r == Done && !old(finished) ==>
        && state.lease == granted && Certainly(store.disk.fs, Some(Whole(state)))
        && (armed ==> lease.told == old(lease.told) + 1)
        && !context.dead && context.timer.Armed? && context.lastReset == context.now
        && Min(granted - context.now, LEASE_DURATION) <= context.timer.at - context.lastReset <= LEASE_DURATION
        && context.timer.at - context.lastReset <= granted - old(context.now)
      ensures r != Done ==> context.lastReset == old(context.lastReset) && state == old(state)
      ensures r == Failed ==> Hindered(old(Suffered())) || granted <= context.now
      ensures Suffered().Grown(old(Suffered())) && (old(lease.closed) ==> lease.closed)
    {
      hide Consistent, State.Valid, Slot.Empty, WatchdogPhase.Agree, Slot.Well, Reserved, Certainly;
      r, granted := Done, context.now;
      if finished {
        return;
      }
      if context.dead {
        return Failed, granted;
      }
      heartbeats := heartbeats + 1;
      context.Elapse();
      var expiry: int := *;
      granted := expiry;
      if * {
        // The heartbeat failed, or asks to stop.
        troubles := troubles + 1;
        return Failed, granted;
      }
      if context.dead {
        return Failed, granted;
      }
      var remaining := Min(expiry - context.now, LEASE_DURATION);
      if remaining <= 0 {
        return Failed, granted;
      }
      var next := state.(lease := expiry);
      r := Persist(next);
      if r != Done {
        return;
      }
      var stopped := context.StopTimer();
      if !stopped || context.dead {
        return Failed, granted;
      }
      LeaseIsFree(store.disk.fs, docker.slot, claim, state, expiry, lease.State());
      state := next;
      context.Reset(remaining);
    }

    /** One turn of the heartbeat loop, which ends the attempt's authority when a renewal
        fails; also time, and whatever happens at the daemon. */
    method Beat() returns (r: Step)
      requires Valid()
      modifies this`state, this`heartbeats, this`troubles, context, store.disk, docker`slot, lease`closed,
               lease`told, lease`troubles, lease.child
      ensures Valid() && r != Failed
      ensures context.now >= old(context.now) && heartbeats >= old(heartbeats) && context.lastReset >= old(context.lastReset)
      ensures old(context.dead) ==>
        context.dead && heartbeats == old(heartbeats) && context.lastReset == old(context.lastReset)
      ensures old(context.timer) == Fired ==> context.timer == Fired
      ensures old(finished) ==> heartbeats == old(heartbeats)
      ensures state.(lease := old(state.lease)) == old(state)
      ensures lease.State() == old(lease.State())
      ensures state.sandboxID == docker.slot.name && old(Reserved(store.disk.fs, docker.slot)) ==>
        Reserved(store.disk.fs, docker.slot)
      ensures Untouched(old(docker.slot), docker.slot) && docker.slot.name == old(docker.slot.name)
      ensures r == Done && !context.dead ==>
        finished || (heartbeats == old(heartbeats) + 1 && context.lastReset == context.now && Certainly(store.disk.fs, Some(Whole(state))))
      ensures Suffered().Grown(old(Suffered())) && (old(lease.closed) ==> lease.closed)
      ensures old(lease.child.status) != WatchdogPhase.Watching ==> lease.child.status == old(lease.child.status)
    {
      hide Consistent, WatchdogPhase.Agree, Slot.Well, Reserved, Untouched, Drifted, Certainly;
      ghost var w := docker.slot;
      DriftIsReflexive(w);
      docker.Drift(w);
      TimePassed(store.disk.fs, w, docker.slot, claim, state, lease.State());
      context.Elapse();
      lease.Elapse();
      r := Done;
      if !context.dead {
        ghost var granted;
        r, granted := Renew();
        if r == Failed {
          context.Cancel();
          r := Done;
        }
      }
    }

    /** Any number of beats while other calls are under way. */
    method Interlude() returns (r: Step)
      requires Valid()
      modifies this`state, this`heartbeats, this`troubles, context, store.disk, docker`slot, lease`closed,
               lease`told, lease`troubles, lease.child
      ensures Valid() && r != Failed
      ensures old(context.dead) ==> context.dead && heartbeats == old(heartbeats)
      ensures old(finished) ==> heartbeats == old(heartbeats)
      ensures state.(lease := old(state.lease)) == old(state)
      ensures lease.State() == old(lease.State())
      ensures state.sandboxID == docker.slot.name && old(Reserved(store.disk.fs, docker.slot)) ==>
        Reserved(store.disk.fs, docker.slot)
      ensures Untouched(old(docker.slot), docker.slot) && docker.slot.name == old(docker.slot.name)
      ensures Suffered().Grown(old(Suffered())) && (old(lease.closed) ==> lease.closed)
      ensures old(lease.child.status) != WatchdogPhase.Watching ==> lease.child.status == old(lease.child.status)
    {
      hide Consistent, WatchdogPhase.Agree, Slot.Well, Reserved, Untouched, Drifted;
      ghost var w := docker.slot;
      DriftIsReflexive(w);
      r := Done;
      var beats: nat := *;
      while beats > 0
        invariant Valid() && r == Done
        invariant old(context.dead) ==> context.dead && heartbeats == old(heartbeats)
        invariant old(finished) ==> heartbeats == old(heartbeats)
        invariant finished == old(finished) && Suffered().Grown(old(Suffered())) && (old(lease.closed) ==> lease.closed)
        invariant old(lease.child.status) != WatchdogPhase.Watching ==> lease.child.status == old(lease.child.status)
        invariant state.(lease := old(state.lease)) == old(state) && lease.State() == old(lease.State())
        invariant state.sandboxID == docker.slot.name && old(Reserved(store.disk.fs, docker.slot)) ==>
          Reserved(store.disk.fs, docker.slot)
        invariant Untouched(w, docker.slot) && docker.slot.name == w.name
        decreases beats
      {
        beats := beats - 1;
        ghost var x := docker.slot;
        r := Beat();
        UntouchedIsTransitive(w, x, docker.slot);
        if r == Died {
          return;
        }
      }
    }

    /** Journals the sandbox name, then arms the watchdog. */
    method Reserve() returns (r: Step)
      requires Valid() && docker.slot.Empty() && !creationPending && !armed
      modifies this`state, this`armed, this`reservationPending, this`troubles, context, store.disk
      ensures Valid() && creationPending == old(creationPending)
      ensures r == Failed ==> Hindered(old(Suffered()))
      ensures Suffered().Grown(old(Suffered())) && (old(context.dead) ==> context.dead && state == old(state))
      ensures r == Done ==> !context.dead && armed && state.sandboxID == docker.slot.name
      ensures r == Done ==> Reserved(store.disk.fs, docker.slot)
    {
      hide Consistent, WatchdogPhase.Agree, Slot.Well, Certainly, Perhaps;
      if context.dead {
        return Failed;
      }
      var next := state.(sandboxID := docker.slot.name);
      reservationPending := true;
      ghost var before := store.disk.fs;
      EmptyTracks(before, docker.slot, claim, state, next, lease.State());
      IsIntact(before, docker.slot, claim, next, lease.State());
      r := store.Save(next);
      Saved(before, store.disk.fs, docker.slot, claim, state, next, lease.State());
      context.Elapse();
      if r != Done {
        return;
      }
      CertainlyReserved(store.disk.fs, docker.slot, next);
      state := next;
      if * {
        // The watchdog did not arm.
        troubles := troubles + 1;
        return Failed;
      }
      armed := true;
      context.Elapse();
      if context.dead {
        return Failed;
      }
    }

    /** Announces the create. Only nil lets the supervisor send one, and its authority is
        alive then. */
    method CreateStarted() returns (r: Step)
      requires Valid() && docker.slot.Empty()
      modifies this`creationPending, context, lease, lease.child
      ensures Valid() && r != Died
      ensures r == Done ==> !context.dead && armed && state.sandboxID != "" && creationPending
      ensures r == Done ==> lease.createInFlight && !lease.phaseUnknown
      ensures lease.reported == old(lease.reported) && lease.createFinished == old(lease.createFinished)
      ensures r == Failed ==>
        Hindered(old(Suffered())) || !armed || state.sandboxID == "" || old(lease.createFinished)
      ensures Suffered().Grown(old(Suffered())) && (old(lease.closed) ==> lease.closed)
      ensures old(lease.child.status) != WatchdogPhase.Watching ==> lease.child.status == old(lease.child.status)
      ensures creationPending ==>
        old(creationPending) || lease.createInFlight || lease.phaseUnknown || lease.createFinished
    {
      hide Consistent, WatchdogPhase.Agree, Slot.Well;
      if context.dead || !armed || state.sandboxID == "" {
        return Failed;
      }
      creationPending := true;
      ghost var p := lease.State();
      var announced := lease.CreateStarted();
      Reported(store.disk.fs, docker.slot, claim, state, p, lease.State(), "");
      context.Elapse();
      if !announced || context.dead {
        return Failed;
      }
      r := Done;
    }

    /** Promotes the reserved name to the container a create answered with. */
    method Created(containerID: string) returns (r: Step)
      requires Valid() && docker.slot.pending == [] && containerID in docker.slot.used
      requires docker.slot.holder.Some? ==> docker.slot.Has(containerID)
      modifies this`state, this`creationPending, this`reservationPending, store.disk, lease, lease.child
      ensures Valid()
      ensures r == Done ==>
        state.sandboxID == containerID && FullId(containerID) && !creationPending && !reservationPending
      ensures r == Failed ==> creationPending == old(creationPending)
      ensures r == Done ==> !lease.createInFlight && !lease.phaseUnknown
      ensures r == Done ==>
        lease.createFinished && lease.confirmedID == containerID && Certainly(store.disk.fs, Some(Whole(state)))
      ensures r == Failed ==>
        || !old(creationPending) || !FullId(containerID) || Obstructed(old(Suffered()))
        || old(lease.createFinished) || (!old(lease.createInFlight) && !old(lease.phaseUnknown))
      ensures Suffered().Grown(old(Suffered())) && (old(lease.closed) ==> lease.closed)
      ensures old(lease.child.status) != WatchdogPhase.Watching ==> lease.child.status == old(lease.child.status)
    {
      hide Consistent, State.Valid, WatchdogPhase.Agree, Slot.Well, Perhaps, Certainly;
      if !creationPending || !FullId(containerID) {
        return Failed;
      }
      ghost var p := lease.State();
      var finished := lease.CreateFinished(containerID);
      Reported(store.disk.fs, docker.slot, claim, state, p, lease.State(), containerID);
      if !finished {
        return Failed;
      }
      var next := state.(sandboxID := containerID);
      ghost var before := store.disk.fs;
      PinnedTracks(before, docker.slot, claim, state, next, lease.State());
      IsIntact(before, docker.slot, claim, next, lease.State());
      r := store.Save(next);
      Saved(before, store.disk.fs, docker.slot, claim, state, next, lease.State());
      if r != Done {
        return;
      }
      state := next;
      creationPending := false;
      reservationPending := false;
    }

    /** Takes the reserved name back when no create was sent or one was refused. */
    method FinishWithoutCreate() returns (r: Step)
      requires Valid() && docker.slot.Empty()
      modifies this`state, this`creationPending, this`reservationPending, store.disk, lease, lease.child
      ensures Valid() && r != Done
      ensures !creationPending && !reservationPending ==> state.sandboxID == ""
      ensures !creationPending && old(creationPending && armed && (state.sandboxID != "" || reservationPending)) ==>
        lease.createFinished
      ensures (creationPending || reservationPending) && r == Failed && old(state.sandboxID != "" || reservationPending) ==>
        || Obstructed(old(Suffered()))
        || (old(armed && creationPending) && (old(lease.createFinished) || (!old(lease.createInFlight) && !old(lease.phaseUnknown))))
      ensures Suffered().Grown(old(Suffered())) && (old(lease.closed) ==> lease.closed)
      ensures old(lease.child.status) != WatchdogPhase.Watching ==> lease.child.status == old(lease.child.status)
      ensures old(state.sandboxID == "" && !reservationPending) ==>
        creationPending == old(creationPending) && reservationPending == old(reservationPending)
    {
      hide Consistent, WatchdogPhase.Agree, Slot.Well;
      if state.sandboxID != "" || reservationPending {
        if armed && creationPending {
          ghost var p := lease.State();
          var finished := lease.CreateFinished("");
          Reported(store.disk.fs, docker.slot, claim, state, p, lease.State(), "");
          if !finished {
            return Failed;
          }
        }
        var withdrawn := Withdraw();
        if withdrawn == Died {
          return Died;
        }
      }
      return Failed;
    }

    /** Journals that no sandbox is reserved. */
    method Withdraw() returns (r: Step)
      requires Valid() && docker.slot.Empty()
      modifies this`state, this`creationPending, this`reservationPending, store.disk
      ensures Valid()
      ensures r == Done ==> state.sandboxID == "" && !creationPending && !reservationPending
      ensures r != Done ==> creationPending && reservationPending == old(reservationPending) && state == old(state)
      ensures r == Failed ==> store.disk.faults > old(store.disk.faults)
      ensures store.disk.faults >= old(store.disk.faults)
    {
      hide Consistent, WatchdogPhase.Agree, Slot.Well, Perhaps, Certainly;
      var next := state.(sandboxID := "");
      ghost var before := store.disk.fs;
      EmptyTracks(before, docker.slot, claim, state, next, lease.State());
      IsIntact(before, docker.slot, claim, next, lease.State());
      r := store.Save(next);
      Saved(before, store.disk.fs, docker.slot, claim, state, next, lease.State());
      if r != Done {
        creationPending := true;
        return;
      }
      NameIsNoId(store.disk.fs, docker.slot, claim, state, lease.State(), "");
      state := next;
      creationPending := false;
      reservationPending := false;
    }

    ghost function Present(): Moment
      reads this, context
    {
      Moment(context.now, context.lastReset, context.dead, context.timer == Fired, finished, heartbeats)
    }

    /** A renewal, a beat, an attempt to deliver the result, a cancellation, or time. */
    method Turn() returns (r: Step)
      requires Valid()
      modifies this`state, this`heartbeats, this`troubles, this`finished, context, store.disk, docker`slot,
               lease`closed, lease`told, lease`troubles, lease.child
      ensures Valid() && old(Present()).Leads(Present())
    {
      hide Consistent, WatchdogPhase.Agree, Slot.Well, Reserved, Untouched, Drifted;
      r := Done;
      if {
        case true => context.Elapse();
        case true => context.Cancel();
        case true => ghost var granted; r, granted := Renew();
        case true => r := Beat();
        case true => var ok := Complete();
      }
    }

    lemma PresentIsBounded()
      requires context.Live()
      ensures Present().Bounded(context.deadline)
    {
    }

    /** Any number of turns; `trace` is what was so in between. At every moment the context
        is dead from the deadline on, and from 45 seconds after the last reset of the timer
        on; a dead context, a fired timer and an accepted result are for good; and neither a
        dead context nor an accepted result is followed by a heartbeat. */
    method Authority(rounds: nat) returns (ghost trace: seq<Moment>)
      requires Valid()
      modifies this`state, this`heartbeats, this`troubles, this`finished, context, store.disk, docker`slot,
               lease`closed, lease`told, lease`troubles, lease.child
      ensures Valid() && Authorized(trace, context.deadline)
      ensures |trace| > 0 && trace[0] == old(Present()) && trace[|trace| - 1] == Present()
    {
      hide Consistent, WatchdogPhase.Agree, Slot.Well, Authorized, Present, Moment.Leads, Moment.Bounded;
      PresentIsBounded();
      trace := [Present()];
      OneMoment(Present(), context.deadline);
      var left := rounds;
      while left > 0
        invariant Valid() && Authorized(trace, context.deadline)
        invariant |trace| > 0 && trace[0] == old(Present()) && trace[|trace| - 1] == Present()
      {
        left := left - 1;
        var r := Turn();
        PresentIsBounded();
        AuthorizedGrows(trace, Present(), context.deadline);
        trace := trace + [Present()];
        if r == Died {
          return;
        }
      }
    }

    /** Delivers the result. No heartbeat follows an accepted one. */
    method Complete() returns (ok: bool)
      requires Valid()
      modifies this`finished, this`troubles, context
      ensures Valid() && finished == (old(finished) || ok) && (old(context.dead) ==> !ok && context.dead)
      ensures context.now >= old(context.now) && context.lastReset == old(context.lastReset)
      ensures old(context.timer) == Fired ==> context.timer == Fired
      ensures !ok ==> old(context.dead) || troubles > old(troubles)
      ensures Suffered().Grown(old(Suffered()))
    {
      if context.dead {
        return false;
      }
      context.Elapse();
      ok := *;
      if ok {
        finished := true;
      } else {
        troubles := troubles + 1;
      }
    }
  }

  /** The attempt is tracked by the journal and by what the guard would write to it next,
      and the watchdog knows what it must. */
  ghost predicate Consistent(fs: Folder, w: Slot, claim: Claim, state: State, p: WatchdogPhase.ParentState) {
    && claim.Valid() && state.claim == claim && state.Valid() && state.refusedStoppedCount == 0 && w.name == SandboxName(claim.attempt, claim.fence)
    && Intact(fs) && OnlyFresh(fs, w.name) && Tracked(fs, w) && Tracks(Some(Whole(state)), w)
    && Guarded(p, w)
  }

  /** No crash leaves a journal of another attempt, or one that counts refusals. */
  ghost predicate OnlyFresh(fs: Folder, name: string) {
    forall v :: v in fs.May(Journal) ==> v.None? || (About(v, name) && v.value.state.refusedStoppedCount == 0)
  }

  lemma LeaseIsFree(fs: Folder, w: Slot, claim: Claim, state: State, expiry: int, p: WatchdogPhase.ParentState)
    requires Consistent(fs, w, claim, state, p)
    ensures Consistent(fs, w, claim, state.(lease := expiry), p)
  {
  }

  lemma Renewed(before: Folder, after: Folder, w: Slot, claim: Claim, state: State, next: State,
                p: WatchdogPhase.ParentState)
    requires Consistent(before, w, claim, state, p) && next == state.(lease := next.lease)
    requires Perhaps(before, after, Some(Whole(next))) && (Intact(before) ==> Intact(after))
    ensures Consistent(after, w, claim, state, p)
    ensures state.sandboxID == w.name && Reserved(before, w) ==> Reserved(after, w)
  {
    hide Intact, Guarded;
    LeaseIsFree(before, w, claim, state, next.lease, p);
    SaveTracks(before, after, Some(Whole(next)), w);
  }

  lemma TimePassed(fs: Folder, v: Slot, w: Slot, claim: Claim, state: State, p: WatchdogPhase.ParentState)
    requires v.Well() && Drifted(v, w) && Consistent(fs, v, claim, state, p)
    ensures Consistent(fs, w, claim, state, p)
    ensures Reserved(fs, v) == Reserved(fs, w)
  {
    StillTracked(fs, v, w);
    StillTracks(Some(Whole(state)), v, w);
    StillGuarded(p, v, w);
  }

  lemma IsIntact(fs: Folder, w: Slot, claim: Claim, state: State, p: WatchdogPhase.ParentState)
    requires Consistent(fs, w, claim, state, p)
    ensures Intact(fs) && state.Valid() && forall lease :: state.(lease := lease).Valid()
  {
  }

  lemma {:induction false} DecimalIsSafe(n: nat)
    ensures forall c :: c in Decimal(n) ==> AlphaNumeric(c)
  {
    if n >= 10 {
      DecimalIsSafe(n / 10);
      DecimalIsSafe(n % 10);
    }
  }

  function Power10(k: nat): (p: nat)
    ensures p > 0
  {
    if k == 0 then 1 else 10 * Power10(k - 1)
  }

  lemma {:induction false} DecimalIsShort(n: nat, k: nat)
    requires k > 0 && n < Power10(k)
    ensures |Decimal(n)| <= k
  {
    if n >= 10 {
      assert Power10(k) == 10 * Power10(k - 1) && Power10(0) == 1;
      DecimalIsShort(n / 10, k - 1);
      assert |Decimal(n % 10)| == 1;
    }
  }

  /** A sandbox name is one that a journal may hold. */
  lemma NameIsSafe(claim: Claim)
    requires claim.Valid()
    ensures SafeSandboxID(SandboxName(claim.attempt, claim.fence))
  {
    var name := SandboxName(claim.attempt, claim.fence);
    DecimalIsSafe(claim.fence);
    assert Power10(16) == 10000000000000000 by {
      assert Power10(4) == 10000;
      assert Power10(8) == 10000 * Power10(4);
      assert Power10(12) == 10000 * Power10(8);
    }
    DecimalIsShort(claim.fence, 16);
    assert forall c :: c in claim.attempt ==> AlphaNumeric(c);
    assert forall c :: c in "shipmunk-" ==> AlphaNumeric(c) || c in "_.-";
  }

  /** While the name is empty the journal may say anything of the attempt. */
  lemma EmptyTracks(fs: Folder, w: Slot, claim: Claim, state: State, next: State, p: WatchdogPhase.ParentState)
    requires Consistent(fs, w, claim, state, p) && w.Empty() && next == state.(sandboxID := next.sandboxID)
    requires next.sandboxID in {"", w.name}
    ensures Consistent(fs, w, claim, next, p)
  {
    NameIsSafe(claim);
  }

  /** The container that holds the name when no create is on its way tracks the attempt. */
  lemma PinnedTracks(fs: Folder, w: Slot, claim: Claim, state: State, next: State, p: WatchdogPhase.ParentState)
    requires Consistent(fs, w, claim, state, p) && next == state.(sandboxID := next.sandboxID)
    requires w.pending == [] && next.sandboxID in w.used && FullId(next.sandboxID)
    requires w.holder.Some? ==> w.Has(next.sandboxID)
    ensures Consistent(fs, w, claim, next, p)
    ensures next.sandboxID != w.name
  {
    NameIsNoId(fs, w, claim, state, p, next.sandboxID);
    assert next.sandboxID[0] in next.sandboxID;
    assert forall c :: c in next.sandboxID ==> AlphaNumeric(c);
  }

  lemma NameIsNoId(fs: Folder, w: Slot, claim: Claim, state: State, p: WatchdogPhase.ParentState, id: string)
    requires Consistent(fs, w, claim, state, p) && (id == "" || FullId(id))
    ensures w.name != id
  {
    assert w.name[0] == 's' && w.name[0] in w.name;
  }

  lemma Saved(before: Folder, after: Folder, w: Slot, claim: Claim, state: State, next: State,
              p: WatchdogPhase.ParentState)
    requires Consistent(before, w, claim, state, p) && Consistent(before, w, claim, next, p)
    requires Perhaps(before, after, Some(Whole(next))) && (Intact(before) ==> Intact(after))
    ensures Consistent(after, w, claim, state, p) && Consistent(after, w, claim, next, p)
  {
    hide Intact, Guarded;
    SaveTracks(before, after, Some(Whole(next)), w);
  }

  lemma CertainlyReserved(fs: Folder, w: Slot, next: State)
    requires Certainly(fs, Some(Whole(next))) && Names(next, w.name) && next.sandboxID == w.name
    ensures Reserved(fs, w)
  {
  }

  lemma Reported(fs: Folder, w: Slot, claim: Claim, state: State, p: WatchdogPhase.ParentState,
                 q: WatchdogPhase.ParentState, id: string)
    requires Consistent(fs, w, claim, state, p) && w.pending == [] && q.reported <= p.reported + {id}
    requires id == "" || (w.holder.Some? ==> w.Has(id))
    ensures Consistent(fs, w, claim, state, q)
  {
  }
}
