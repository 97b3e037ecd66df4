/** Creating, reconciling and cleaning up the container of one sandbox name
    (internal/sandbox/docker.go, internal/sandbox/watchdog.go). */
module SandboxDocker {
  import opened Directory
  import opened Daemon
  import opened Text

  predicate Ulid(s: string) {
    |s| == 26 && '0' <= s[0] <= '7'
    && forall i :: 1 <= i < 26 ==>
         '0' <= s[i] <= '9' || 'a' <= s[i] <= 'h' || 'j' <= s[i] <= 'k' || 'm' <= s[i] <= 'n' || 'p' <= s[i] <= 't'
         || 'v' <= s[i] <= 'z'
  }

  function SandboxName(attempt: string, fence: nat): string {
    "shipmunk-" + attempt + "-" + Decimal(fence)
  }

  predicate ProfileName(s: string) {
    "shipmunk-profile-" <= s && Ulid(s[|"shipmunk-profile-"|..])
  }

  /** Whose containers a cleanup may remove. */
  datatype Owner = OfAttempt | OfProfile

  predicate OwnsContainer(owner: Owner, c: Container) {
    match owner
    case OfAttempt =>
      && c.labels.Attempt? && Ulid(c.labels.run) && Ulid(c.labels.attempt)
      && 1 <= c.labels.fence <= MAX_SAFE_INTEGER
      && c.name == SandboxName(c.labels.attempt, c.labels.fence)
    case OfProfile =>
      c.labels.Profile? && c.labels.sandbox == c.name && ProfileName(c.name)
  }

  predicate Owns(owner: Owner, t: Tenant, key: Key, name: string) {
    OwnsContainer(owner, t.container) && (if key.ByName? then t.container.name == name else t.id == key.id)
  }

  lemma OwnershipIsFixed(owner: Owner, c: Container)
    ensures OwnsContainer(owner, c) == OwnsContainer(owner, c.(running := false))
    ensures owner == OfAttempt && OwnsContainer(owner, c) ==> !c.labels.Profile?
  {
  }

  /** The container is there, and runs or is not the owner's. */
  ghost predicate Defiant(w: Slot, id: Id, owner: Owner) {
    w.Has(id) && (w.holder.value.container.running || !OwnsContainer(owner, w.holder.value.container))
  }

  ghost predicate Stubborn(w: Slot, owner: Owner) {
    exists id :: Defiant(w, id, owner)
  }

  /** Stops a container that runs, first gently. `Failed` covers a changed owner too. */
  method StopOwned(docker: Docker, id: Id, tenant: Tenant, owner: Owner, ghost since: Slot)
    returns (gone: bool, ok: bool)
    requires docker.slot.Well() && since.Well() && Drifted(since, docker.slot)
    modifies docker
    ensures docker.slot.Well() && Drifted(since, docker.slot) && Remembers(old(docker.slot), docker.slot, id)
    ensures docker.slot.name == old(docker.slot.name)
    ensures docker.slot.started == old(docker.slot.started) && docker.slot.doomed == old(docker.slot.doomed)
    ensures gone ==> !docker.slot.Has(id)
    ensures ok && !gone && old(id in docker.slot.used) ==>
      !tenant.container.running || (docker.slot.Has(id) && !docker.slot.holder.value.container.running)
    ensures !ok && old(id in docker.slot.used) ==>
      docker.troubles > old(docker.troubles) || Defiant(docker.slot, id, owner)
    ensures docker.troubles >= old(docker.troubles)
  {
    hide Drifted, Slot.Well, OwnsContainer;
    if !tenant.container.running {
      return false, true;
    }
    var stopped := docker.Halt(id, since);
    var current := docker.Inspect(ById(id), since);
    if current.Absent? {
      return true, true;
    }
    if current.Unknown? || !Owns(owner, current.tenant, ById(id), docker.slot.name) {
      return false, false;
    }
    if current.tenant.container.running {
      var killed := docker.Halt(id, since);
      current := docker.Inspect(ById(id), since);
      if current.Absent? {
        return true, true;
      }
      if current.Unknown? || !Owns(owner, current.tenant, ById(id), docker.slot.name)
         || current.tenant.container.running {
        return false, false;
      }
    }
    return false, true;
  }

  /** Stops and removes one container, and confirms that it is gone. */
  method RemoveOwnedWith(docker: Docker, id: Id, tenant: Tenant, owner: Owner, ghost since: Slot) returns (ok: bool)
    requires docker.slot.Well() && since.Well() && Drifted(since, docker.slot) && id in docker.slot.used
    requires tenant.container.(running := false) == docker.slot.used[id]
    modifies docker
    ensures docker.slot.Well() && Drifted(since, docker.slot) && docker.slot.name == old(docker.slot.name)
    ensures docker.slot.started == old(docker.slot.started)
    ensures docker.slot.doomed == old(docker.slot.doomed)
            || (docker.slot.doomed == old(docker.slot.doomed) + {id} && OwnsContainer(owner, tenant.container))
    ensures Remembers(old(docker.slot), docker.slot, id)
    ensures ok ==> !docker.slot.Has(id)
    ensures !ok ==>
      !Owns(owner, tenant, ById(id), docker.slot.name) || docker.troubles > old(docker.troubles) || Defiant(docker.slot, id, owner)
    ensures docker.troubles >= old(docker.troubles)
  {
    hide Drifted, Slot.Well, OwnsContainer;
    if !Owns(owner, tenant, ById(id), docker.slot.name) {
      return false;
    }
    var gone, stopped := StopOwned(docker, id, tenant, owner, since);
    if gone || !stopped {
      return gone;
    }
    var removed := docker.Remove(id, since);
    if !removed {
      var after := docker.Inspect(ById(id), since);
      if !after.Absent? {
        return false;
      }
    }
    ghost var before := docker.slot;
    var confirmed := docker.Inspect(ById(id), since);
    GoneForGood(before, docker.slot, id);
    ok := confirmed.Absent?;
  }

  lemma GoneForGood(v: Slot, w: Slot, id: Id)
    requires Untouched(v, w) && id in v.used
    ensures !v.Has(id) ==> !w.Has(id)
  {
  }

  // ---- Watchdog cleanup ----------------------------------------------------------

  datatype Outcome = Clean | Refused | Killed

  /** What the supervisor's protocol grants the watchdog: one create at most; without one
      in flight none is to come; and a confirmed container is the one it made. */
  ghost predicate Watched(w: Slot, createInFlight: bool, confirmedID: Option<Id>) {
    && w.Load() <= 1
    && (!createInFlight ==> w.pending == [])
    && (confirmedID.Some? ==> w.pending == [] && (w.holder.Some? ==> w.Has(confirmedID.value)))
  }

  predicate LabelledTombstone(c: Container, name: string) {
    c.labels == Profile(name, true) && c.name == name
  }

  /** Removals were ordered only of containers that are the owner's and no tombstones. */
  ghost predicate OrdersOwned(owner: Owner, v: Slot, w: Slot) {
    && w.started == v.started
    && forall i :: i in w.doomed ==>
         i in v.doomed || (i in w.used && OwnsContainer(owner, w.used[i]) && !LabelledTombstone(w.used[i], w.name))
  }

  /** A create has landed as the owner's container `id`, which is there or was removed. */
  ghost predicate Landed(owner: Owner, w: Slot, id: Id) {
    && id in w.used && OwnsContainer(owner, w.used[id]) && !LabelledTombstone(w.used[id], w.name)
    && (w.Has(id) || id in w.doomed)
  }

  /** Removes the container that was found under the name. */
  method RemoveLanded(docker: Docker, tenant: Tenant, owner: Owner, ghost createInFlight: bool, ghost entry: Slot) returns (removed: bool)
    requires docker.slot.Well() && entry.Well() && Drifted(entry, docker.slot) && OrdersOwned(owner, entry, docker.slot)
    requires docker.slot.holder == Some(tenant) && OwnsContainer(owner, tenant.container)
    requires !LabelledTombstone(tenant.container, docker.slot.name)
    modifies docker
    ensures docker.slot.Well() && Drifted(entry, docker.slot) && OrdersOwned(owner, entry, docker.slot)
    ensures docker.slot.name == old(docker.slot.name) && Landed(owner, docker.slot, tenant.id)
    ensures old(Watched(docker.slot, createInFlight, Some(tenant.id))) ==>
      Watched(docker.slot, createInFlight, Some(tenant.id))
    ensures removed ==> !docker.slot.Has(tenant.id)
    ensures !removed ==> docker.troubles > old(docker.troubles) || Stubborn(docker.slot, owner)
    ensures docker.troubles >= old(docker.troubles)
  {
    hide Drifted, Slot.Well, OwnsContainer, OrdersOwned, Watched, Defiant;
    ghost var seen := docker.slot;
    OwnershipIsFixed(owner, tenant.container);
    HolderIsUsed(seen);
    DriftIsReflexive(seen);
    removed := RemoveOwnedWith(docker, tenant.id, tenant, owner, seen);
    DriftIsTransitive(entry, seen, docker.slot);
    StillWatched(seen, docker.slot, createInFlight, Some(tenant.id));
    StillOwned(owner, entry, seen, docker.slot, tenant.id);
  }

  /** What holds between two attempts: a container observed so far is the one looked for. */
  ghost predicate Sweeping(owner: Owner, entry: Slot, w: Slot, createInFlight: bool, confirmedID: Option<Id>, observed: bool,
                           observedID: Option<Id>) {
    && w.Well() && Drifted(entry, w) && OrdersOwned(owner, entry, w)
    && (Watched(entry, createInFlight, confirmedID) ==> Watched(w, createInFlight, observedID))
    && (observedID.Some? && observedID != confirmedID ==> observedID.value in w.used)
    && (observed ==> observedID.Some? && Landed(owner, w, observedID.value))
  }

  /** One attempt. Without an outcome there is another one. */
  method Sweep(docker: Docker, createInFlight: bool, ghost confirmedID: Option<Id>, observed: bool, observedID: Option<Id>,
               owner: Owner, ghost entry: Slot)
    returns (outcome: Option<Outcome>, seen: bool, seenID: Option<Id>)
    requires entry.Well() && Sweeping(owner, entry, docker.slot, createInFlight, confirmedID, observed, observedID)
    modifies docker
    ensures Sweeping(owner, entry, docker.slot, createInFlight, confirmedID, seen, seenID) && outcome != Some(Killed)
    ensures outcome == Some(Clean) && Watched(entry, createInFlight, confirmedID) ==>
      docker.slot.Empty() || (docker.slot.holder.Some? && LabelledTombstone(docker.slot.holder.value.container, docker.slot.name))
    ensures outcome == Some(Clean) && createInFlight ==>
      || (docker.slot.holder.Some? && LabelledTombstone(docker.slot.holder.value.container, docker.slot.name))
      || (seen && seenID.value in docker.slot.doomed && !docker.slot.Has(seenID.value))
    ensures outcome == Some(Refused) ==>
      || (docker.slot.holder.Some? && !OwnsContainer(owner, docker.slot.holder.value.container))
      || (confirmedID.Some? && confirmedID.value !in docker.slot.used)
    ensures outcome == None ==>
      docker.troubles > old(docker.troubles) || (createInFlight && !seen) || Stubborn(docker.slot, owner)
    ensures docker.troubles >= old(docker.troubles)
  {
    hide Drifted, Slot.Well, OwnsContainer, OrdersOwned, Watched, Slot.Empty, Defiant, Stubborn;
    outcome, seen, seenID := None, observed, observedID;
    ghost var u := docker.slot;
    var identifier := if observedID.Some? then ById(observedID.value) else ByName;
    var answer := docker.Inspect(identifier, entry);
    StillWatched(u, docker.slot, createInFlight, observedID);
    StillOwned(owner, entry, u, docker.slot, if observedID.Some? then observedID.value else "");
    if answer.Absent? {
      if !createInFlight || observed {
        AbsentIsEmpty(docker.slot, createInFlight, observedID);
        outcome := Some(Clean);
      }
      return;
    }
    if answer.Unknown? {
      return;
    }
    var tenant := answer.tenant;
    if LabelledTombstone(tenant.container, docker.slot.name) {
      outcome := Some(Clean);
      return;
    }
    if !Owns(owner, tenant, identifier, docker.slot.name) || tenant.container.name != docker.slot.name {
      RefusedIsForeign(docker.slot, owner, tenant, identifier);
      outcome := Some(Refused);
      return;
    }
    seen := true;
    if observedID.None? {
      FoundIsTheOne(docker.slot, createInFlight, tenant);
      seenID := Some(tenant.id);
    }
    var removed := RemoveLanded(docker, tenant, owner, createInFlight, entry);
    if removed {
      AbsentIsEmpty(docker.slot, createInFlight, seenID);
      outcome := Some(Clean);
    }
  }

  /** Retries until the container is gone; `patience` is how long the process lives. */
  method CleanUpSandbox(docker: Docker, createInFlight: bool, confirmedID: Option<Id>, owner: Owner, patience: nat)
    returns (outcome: Outcome, ghost landed: Option<Id>)
    requires docker.slot.Well()
    modifies docker
    ensures docker.slot.Well() && Drifted(old(docker.slot), docker.slot)
    ensures OrdersOwned(owner, old(docker.slot), docker.slot)
    ensures outcome == Clean && old(Watched(docker.slot, createInFlight, confirmedID)) ==>
      docker.slot.Empty() || (docker.slot.holder.Some? && LabelledTombstone(docker.slot.holder.value.container, docker.slot.name))
    ensures landed.Some? ==> Landed(owner, docker.slot, landed.value)
    ensures outcome == Refused ==>
      || (docker.slot.holder.Some? && !OwnsContainer(owner, docker.slot.holder.value.container))
      || (confirmedID.Some? && confirmedID.value !in docker.slot.used)
    ensures outcome == Killed && patience > 0 ==>
      docker.troubles > old(docker.troubles) || (createInFlight && landed.None?) || Stubborn(docker.slot, owner)
    ensures outcome == Clean && createInFlight ==>
      || (docker.slot.holder.Some? && LabelledTombstone(docker.slot.holder.value.container, docker.slot.name))
      || (landed.Some? && landed.value in docker.slot.doomed && !docker.slot.Has(landed.value))
  {
    hide Drifted, Slot.Well, OwnsContainer, OrdersOwned, Watched, Slot.Empty, Defiant, Stubborn, Landed, LabelledTombstone;
    ghost var entry := docker.slot;
    DriftIsReflexive(entry);
    NothingYet(owner, entry);
    var observed, observedID := false, confirmedID;
    var left := patience;
    while left > 0
      invariant Sweeping(owner, entry, docker.slot, createInFlight, confirmedID, observed, observedID)
      invariant docker.troubles >= old(docker.troubles)
      invariant
        || left == patience || docker.troubles > old(docker.troubles) || (createInFlight && !observed)
        || Stubborn(docker.slot, owner)
    {
      left := left - 1;
      var ended;
      ended, observed, observedID := Sweep(docker, createInFlight, confirmedID, observed, observedID, owner, entry);
      if ended.Some? {
        return ended.value, if observed then observedID else None;
      }
    }
    return Killed, if observed then observedID else None;
  }

  /** Only a container of someone else is refused, or one that never had the name. */
  lemma RefusedIsForeign(w: Slot, owner: Owner, tenant: Tenant, key: Key)
    requires w.Well() && (key.ById? ==> tenant.id == key.id)
    requires key.ByName? || key.id in w.used || tenant.container.name == w.name ==> w.holder == Some(tenant)
    requires !Owns(owner, tenant, key, w.name) || tenant.container.name != w.name
    ensures (w.holder.Some? && !OwnsContainer(owner, w.holder.value.container)) || (key.ById? && key.id !in w.used)
  {
  }

  lemma StillWatched(v: Slot, w: Slot, createInFlight: bool, confirmedID: Option<Id>)
    requires Drifted(v, w)
    ensures Watched(v, createInFlight, confirmedID) ==> Watched(w, createInFlight, confirmedID)
  {
    NobodyNewComes(v, w);
  }

  lemma StillOwned(owner: Owner, entry: Slot, v: Slot, w: Slot, id: Id)
    requires Drifted(v, w) && w.started == v.started && OrdersOwned(owner, entry, v)
    requires w.doomed == v.doomed || (w.doomed == v.doomed + {id} && Landed(owner, v, id))
    ensures OrdersOwned(owner, entry, w)
    ensures Landed(owner, v, id) ==> Landed(owner, w, id)
  {
  }

  lemma HolderIsUsed(w: Slot)
    requires w.Well() && w.holder.Some?
    ensures w.holder.value.id in w.used && w.used[w.holder.value.id] == w.holder.value.container.(running := false)
  {
  }

  lemma NothingYet(owner: Owner, w: Slot)
    ensures OrdersOwned(owner, w, w)
  {
  }

  lemma AbsentIsEmpty(w: Slot, createInFlight: bool, confirmedID: Option<Id>)
    requires confirmedID.None? ==> !createInFlight && w.holder.None?
    requires confirmedID.Some? ==> !w.Has(confirmedID.value)
    ensures Watched(w, createInFlight, confirmedID) ==> w.Empty()
  {
  }

  /** The container found under the name is the one create there was. */
  lemma FoundIsTheOne(w: Slot, createInFlight: bool, tenant: Tenant)
    requires w.holder == Some(tenant)
    ensures Watched(w, createInFlight, None) ==> Watched(w, createInFlight, Some(tenant.id))
  {
  }

  // ---- Create and Reconcile ------------------------------------------------------

  datatype Claim = Claim(run: string, attempt: string, fence: int) {
    predicate Valid() {
      Ulid(run) && Ulid(attempt) && 1 <= fence <= MAX_SAFE_INTEGER
    }

    function Sandbox(image: string): Container
      requires Valid()
    {
      Container(SandboxName(attempt, fence), image, Attempt(run, attempt, fence), [], false)
    }
  }

  predicate OwnsSandbox(c: Container, claim: Claim, name: string) {
    c.name == name && c.labels == Attempt(claim.run, claim.attempt, claim.fence)
  }

  datatype Creation = Created(id: Id) | CreateRefused | CreateUncertain

  /** Creates the container of a claim. Only a refusal says that no create was sent; any
      answer short of the expected container leaves it uncertain. `ready` stands for the
      checks of workspace and input. */
  method Create(docker: Docker, claim: Claim, image: string, ready: bool) returns (r: Creation)
    requires docker.slot.Well()
    requires claim.Valid() ==> docker.slot.name == SandboxName(claim.attempt, claim.fence)
    modifies docker
    ensures docker.slot.Well()
    ensures r == CreateRefused ==> Untouched(old(docker.slot), docker.slot)
    ensures r == CreateUncertain ==>
      claim.Valid() && (Untouched(old(docker.slot), docker.slot) || Untouched(Asked(old(docker.slot), claim, image), docker.slot))
    ensures r == CreateRefused ==>
      !claim.Valid() || !ready || docker.slot.holder.Some? || docker.troubles > old(docker.troubles)
    ensures r == CreateUncertain ==> docker.troubles > old(docker.troubles) || old(docker.slot.pending) != []
    ensures docker.troubles >= old(docker.troubles)
    ensures r.Created? ==> docker.troubles == old(docker.troubles)
    ensures r.Created? ==> claim.Valid() && Untouched(Asked(old(docker.slot), claim, image), docker.slot)
    ensures r.Created? ==>
      docker.slot.Has(r.id) && r.id in docker.slot.used && docker.slot.used[r.id] == claim.Sandbox(image)
  {
    hide Drifted, OwnsContainer, Ulid, SandboxName, Untouched;
    ghost var entry := docker.slot;
    DriftIsReflexive(entry);
    if !claim.Valid() || !ready {
      return CreateRefused;
    }
    UntouchedDrifts(entry, entry);
    var before := docker.Inspect(ByName, entry);
    if !before.Absent? {
      return CreateRefused;
    }
    ghost var looked := docker.slot;
    SentBeforeDrift(entry, looked, claim.Sandbox(image));
    var dispatched, reply := docker.Create(claim.Sandbox(image));
    ghost var asked := if dispatched then Asked(entry, claim, image) else entry;
    UntouchedIsTransitive(asked, if dispatched then Asked(looked, claim, image) else looked, docker.slot);
    if reply.None? {
      return CreateUncertain;
    }
    UntouchedDrifts(asked, docker.slot);
    ghost var sent := docker.slot;
    var created := docker.Inspect(ByName, asked);
    UntouchedIsTransitive(asked, sent, docker.slot);
    NewIsSafe(looked, sent, docker.slot, reply.value);
    HolderIsUsed(docker.slot);
    if !created.Found? {
      return CreateUncertain;
    }
    var c := created.tenant.container;
    if !OwnsSandbox(c, claim, docker.slot.name) || c.image != image || created.tenant.id != reply.value {
      return CreateUncertain;
    }
    DriftIsQuiet(sent, docker.slot);
    assert Remembers(sent, docker.slot, reply.value);
    return Created(reply.value);
  }

  /** Nobody ordered a container away that has only just come. */
  lemma NewIsSafe(before: Slot, v: Slot, w: Slot, id: Id)
    requires before.Well() && id !in before.used && v.doomed == before.doomed && v.Has(id) && id in v.used && Untouched(v, w)
    ensures w.Has(id) && id in w.used && w.used[id] == v.used[id]
  {
    assert id !in before.started + before.doomed;
  }

  /** The create was sent. */
  ghost function Asked(w: Slot, claim: Claim, image: string): Slot
    requires claim.Valid()
  {
    w.(pending := w.pending + [claim.Sandbox(image)])
  }

  lemma UntouchedDrifts(v: Slot, w: Slot)
    requires Untouched(v, w)
    ensures Drifted(v, w)
  {
  }

  lemma UntouchedIsTransitive(u: Slot, v: Slot, w: Slot)
    requires Untouched(u, v) && Untouched(v, w) && u.Well()
    ensures Untouched(u, w)
  {
    DriftIsTransitive(u, v, w);
  }

  datatype Reconciliation = Reconciled | ReconcileFailed | StillUncertain

  /** Stops and removes the container a journal names. A reserved name that nothing holds
      proves nothing: its create may be on its way. */
  method Reconcile(docker: Docker, key: Key) returns (r: Reconciliation)
    requires docker.slot.Well() && (key.ById? ==> key.id in docker.slot.used)
    modifies docker
    ensures docker.slot.Well() && Drifted(old(docker.slot), docker.slot)
    ensures OrdersOwned(OfAttempt, old(docker.slot), docker.slot)
    ensures r == Reconciled && key.ById? ==> !docker.slot.Has(key.id)
    ensures r == Reconciled && old(Watched(docker.slot, true, if key.ById? then Some(key.id) else None)) ==>
      docker.slot.Empty()
    ensures r == StillUncertain ==> key.ByName? && docker.slot.holder.None?
    ensures r == ReconcileFailed ==>
      docker.troubles > old(docker.troubles) || Stubborn(docker.slot, OfAttempt)
    ensures docker.troubles >= old(docker.troubles)
  {
    hide Drifted, Slot.Well, OwnsContainer, OrdersOwned, Watched, Slot.Empty;
    ghost var entry := docker.slot;
    ghost var known := if key.ById? then Some(key.id) else None;
    DriftIsReflexive(entry);
    NothingYet(OfAttempt, entry);
    var answer := docker.Inspect(key, entry);
    StillWatched(entry, docker.slot, true, known);
    StillOwned(OfAttempt, entry, entry, docker.slot, "");
    if answer.Absent? {
      if key.ByName? {
        return StillUncertain;
      }
      AbsentIsEmpty(docker.slot, true, known);
      return Reconciled;
    }
    if answer.Unknown? {
      return ReconcileFailed;
    }
    var tenant := answer.tenant;
    if !Owns(OfAttempt, tenant, key, docker.slot.name) {
      assert Defiant(docker.slot, docker.slot.holder.value.id, OfAttempt);
      return ReconcileFailed;
    }
    OwnershipIsFixed(OfAttempt, tenant.container);
    HolderIsUsed(docker.slot);
    FoundIsTheOne(docker.slot, true, tenant);
    ghost var seen := docker.slot;
    DriftIsReflexive(seen);
    var removed := RemoveOwnedWith(docker, tenant.id, tenant, OfAttempt, seen);
    DriftIsTransitive(entry, seen, docker.slot);
    StillWatched(seen, docker.slot, true, Some(tenant.id));
    StillOwned(OfAttempt, entry, seen, docker.slot, tenant.id);
    if removed {
      AbsentIsEmpty(docker.slot, true, Some(tenant.id));
      return Reconciled;
    }
    return ReconcileFailed;
  }
}
