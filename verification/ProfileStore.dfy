/** The journals and the credential home of one profile (internal/profile/store.go) and the
    decisions taken on them (internal/profile/lifecycle.go).

    A write or removal that errs, or that the process does not survive, may have taken
    effect, and what was never synced may be gone after a power failure. The profile's lock
    is held throughout. */
module ProfileStore {
  import opened Directory
  import opened SandboxDocker

  // ---- Values --------------------------------------------------------------------

  datatype Health = Health(health: string, reason: string)

  const READY := Health("ready", "")
  const STOPPED := Health("error", "operation_stopped")
  const FAILED := Health("error", "operation_failed")
  const DISCONNECTED := Health("disconnected", "disconnected")

  predicate ValidHealthOutcome(h: Health) {
    match h.health
    case "ready" => h.reason == ""
    case "expired" => h.reason == "native_login_required"
    case "unsupported" => h.reason in {"native_mode_mismatch", "runtime_mismatch"}
    case "rate_limited" => h.reason == "rate_limited"
    case "error" => h.reason in {"native_probe_failed", "operation_failed", "operation_stopped"}
    case "disconnected" => h.reason == "disconnected"
    case _ => false
  }

  predicate ValidCompletionHealth(h: Health) {
    || ValidHealthOutcome(h)
    || h in {Health("error", "lease_expired"), Health("disconnected", "profile_revoked"),
             Health("disconnected", "operation_stopped")}
  }

  /** A JSON member that should be a boolean, and one that should be a string or null. */
  datatype Flag = Missing | Wrong | Bool(value: bool)
  datatype Field = NoField | WrongField | Text(value: string)

  /** What the server grants for an operation; strings of the wrong type are empty. */
  datatype Binding =
    Binding(profile: string, operation: string, reference: string, agent: string, authMode: string, version: string,
            stopRequested: Flag, stopped: Flag, lease: Option<int>)
  {
    function Stable(): Identity {
      Identity(profile, reference, agent, authMode, version)
    }
  }

  datatype Identity = Identity(profile: string, reference: string, agent: string, authMode: string, version: string)

  predicate CredentialReference(s: string) {
    "credential:" <= s && |s| > 11
    && forall c :: c in s[11..] ==> '0' <= c <= '9' || 'a' <= c <= 'z' || 'A' <= c <= 'Z' || c in "_-"
  }

  predicate ValidJournalBinding(b: Binding, profile: string, operation: string) {
    && b.profile == profile && b.operation == operation && CredentialReference(b.reference)
    && b.agent != "" && b.authMode != "" && b.version != "" && b.stopRequested.Bool? && b.lease.Some? && b.stopped != Wrong
  }

  predicate ValidBinding(b: Binding, profile: string, operation: string, now: int) {
    ValidJournalBinding(b, profile, operation) && b.stopRequested == Bool(false) && b.lease.value > now
  }

  datatype Pending =
    Pending(profile: string, operationID: string, operation: string, sandbox: string, binding: Option<Binding>,
            outcome: Option<Health>, createAttempted: bool, recoveryFailed: bool)
  {
    predicate Valid(profileID: string) {
      && profile == profileID && Ulid(operationID) && sandbox == SandboxOf(operationID)
      && operation in {"login", "probe", "disconnect"}
      && (binding.Some? ==> ValidJournalBinding(binding.value, profileID, operationID))
      && (outcome.Some? ==> ValidHealthOutcome(outcome.value) && binding.Some?)
      && (createAttempted ==> binding.Some?)
      && (recoveryFailed ==> outcome == Some(STOPPED))
    }

    /** What a recovery of this journal reports. */
    function Next(): Health {
      if outcome.Some? then outcome.value else STOPPED
    }
  }

  function SandboxOf(operationID: string): string {
    "shipmunk-profile-" + operationID
  }

  datatype Response = Response(operationID: string, stopped: Flag, active: Flag, health: string, reason: Field)

  predicate ValidCompletionResponse(r: Response, operationID: string, submitted: Health) {
    && r.operationID == operationID && r.stopped == Bool(true) && r.active.Bool? && r.reason.Text?
    && ValidCompletionHealth(Health(r.health, r.reason.value))
    && (r.health == "ready" ==> submitted.health == "ready")
    && (r.active == Bool(true) ==> submitted.health == "ready" && r.health == "ready" && r.reason.value == "")
  }

  predicate DefinitiveBeginStatus(status: int) {
    status in {401, 403, 404, 409, 422, 426}
  }

  // ---- Store ---------------------------------------------------------------------

  datatype Files = Files(pending: Option<Pending>, active: Option<Identity>, completed: Option<string>,
                         execution: Option<Claim>, home: bool)

  /** What forgetting the active identity and then removing the home may leave when it is
      cut short anywhere. */
  predicate Invalidated(f: Files, g: Files) {
    g in {f, f.(active := None), f.(active := None, home := false)}
  }

  /** A change of one journal or of the home. */
  datatype Change =
    | PendingIs(pending: Option<Pending>)
    | ActiveIs(active: Option<Identity>)
    | CompletedIs(completed: Option<string>)
    | ExecutionIs(execution: Option<Claim>)
    | HomeIs(home: bool)
  {
    function On(f: Files): Files {
      match this
      case PendingIs(p) => f.(pending := p)
      case ActiveIs(a) => f.(active := a)
      case CompletedIs(c) => f.(completed := c)
      case ExecutionIs(e) => f.(execution := e)
      case HomeIs(h) => f.(home := h)
    }
  }

  /** What a power failure may leave once `c` was made on top of what it might leave before,
      and not synced. */
  function Spread(may: set<Files>, c: Change): set<Files> {
    may + set f | f in may :: c.On(f)
  }

  /** A home removed without a sync may leave an identity without it after a power failure
      exactly if an earlier removal of the identity was not synced either. */
  lemma IdentityOutlivesHomeIff(may: set<Files>)
    requires forall f :: f in may && f.active.Some? ==> f.home
    ensures (exists g :: g in Spread(may, HomeIs(false)) && g.active.Some? && !g.home) <==> exists f :: f in may && f.active.Some?
  {
    if f :| f in may && f.active.Some? {
      assert HomeIs(false).On(f) in Spread(may, HomeIs(false));
    }
  }

  /** A reservation journalled without a sync may stand beside an operation after a power
      failure exactly if the removal of that operation was not synced either. */
  lemma ReservationMeetsOperationIff(may: set<Files>, claim: Claim)
    requires forall f :: f in may ==> !(f.pending.Some? && f.execution.Some?)
    ensures
      (exists g :: g in Spread(may, ExecutionIs(Some(claim))) && g.pending.Some? && g.execution.Some?) <==>
      exists f :: f in may && f.pending.Some?
  {
    if f :| f in may && f.pending.Some? {
      assert ExecutionIs(Some(claim)).On(f) in Spread(may, ExecutionIs(Some(claim)));
    }
  }

  /** What becomes of a change. */
  datatype Fate = Made | Lost(applied: bool, r: Step)

  predicate Befalls(fate: Fate, r: Step, f: Files, g: Files, c: Change) {
    match fate
    case Made => r == Done && g == c.On(f)
    case Lost(applied, step) => r == (if step == Done then Failed else step) && g == if applied then c.On(f) else f
  }

  /** The same after a power failure, when the identity was `absent` from the start or not. */
  ghost predicate InvalidatedFrom(may: set<Files>, absent: bool, g: Files) {
    exists f :: f in may && (Invalidated(f, g) || (absent && g == f.(home := false)))
  }

  /** `files` is what the running system sees, `may` what a power failure may leave. `fates`
      is what becomes of the next changes, as far as that is settled; others end in any way.
      `faults` counts what went wrong. */
  class Store {
    var files: Files
    var may: set<Files>
    var fates: seq<Fate>
    ghost var faults: nat

    constructor ()
      ensures files == Files(None, None, None, None, false) && may == {files} && fates == []
    {
      files, may, fates := Files(None, None, None, None, false), {Files(None, None, None, None, false)}, [];
      faults := 0;
    }

    predicate Synced()
      reads this`files, this`may
    {
      may == {files}
    }

    /** Makes a change without syncing it. */
    method Make(c: Change) returns (r: Step)
      modifies this
      ensures r == Done ==> files == c.On(old(files)) && may == Spread(old(may), c)
      ensures (files == old(files) && may == old(may)) || (files == c.On(old(files)) && may == Spread(old(may), c))
      ensures old(fates) != [] ==> Befalls(old(fates)[0], r, old(files), files, c) && fates == old(fates)[1..]
      ensures if r == Done then faults == old(faults) else faults > old(faults)
    {
      var fate := Made;
      if fates != [] {
        fate, fates := fates[0], fates[1..];
      } else if * {
        var applied: bool, step: Step := *, *;
        fate := Lost(applied, step);
      }
      r := Done;
      if fate.Made? || fate.applied {
        files, may := c.On(files), Spread(may, c);
      }
      if fate.Lost? {
        r := if fate.r == Done then Failed else fate.r;
        faults := faults + 1;
      }
    }

    /** Syncs the directory. */
    method Sync() returns (r: Step)
      modifies this`may, this`faults
      ensures r == Done ==> Synced()
      ensures may == old(may) || Synced()
      ensures fates != [] ==> r == Done
      ensures if r == Done then faults == old(faults) else faults > old(faults)
    {
      r := Done;
      if fates == [] {
        r := *;
        var synced: bool := *;
        if r != Done {
          faults := faults + 1;
          if !synced {
            return;
          }
        }
      }
      may := {files};
    }

    /** Replaces a journal. */
    method Write(c: Change) returns (r: Step)
      modifies this
      ensures r == Done ==> files == c.On(old(files)) && Synced()
      ensures (files == old(files) && may == old(may)) || (files == c.On(old(files)) && (may == Spread(old(may), c) || Synced()))
      ensures |old(fates)| > 1 ==> Befalls(old(fates)[0], r, old(files), files, c) && fates == old(fates)[1..]
      ensures if r == Done then faults == old(faults) else faults > old(faults)
    {
      r := Make(c);
      if r == Done {
        r := Sync();
      }
    }

    /** Removes a journal. An absent one is not synced. */
    method Forget(c: Change) returns (r: Step)
      requires c in {PendingIs(None), ActiveIs(None), ExecutionIs(None)}
      modifies this
      ensures r == Done ==> files == c.On(old(files)) && (Synced() || (files == old(files) && may == old(may)))
      ensures (files == old(files) && may == old(may)) || (files == c.On(old(files)) && (may == Spread(old(may), c) || Synced()))
      ensures |old(fates)| > 1 && c.On(old(files)) != old(files) ==>
        Befalls(old(fates)[0], r, old(files), files, c) && fates == old(fates)[1..]
      ensures if r == Done then faults == old(faults) else faults > old(faults)
    {
      if c.On(files) == files {
        r := Done;
        if fates == [] {
          r := *;
          faults := faults + if r == Done then 0 else 1;
        }
        return;
      }
      r := Write(c);
    }

    method Read() returns (r: Step)
      modifies this`faults
      ensures r != Died
      ensures if r == Done then faults == old(faults) else faults > old(faults)
    {
      r := Done;
      if * {
        r := Failed;
        faults := faults + 1;
      }
    }

    /** Forgets the active identity, then removes the home. Unless a removal of the identity
        was left unsynced before, no power failure leaves it without its home. */
    method Invalidate() returns (r: Step)
      modifies this
      ensures r == Done ==> files == old(files).(active := None, home := false) && Synced()
      ensures Invalidated(old(files), files)
      ensures old(Synced()) ==> forall g :: g in may ==> Invalidated(old(files), g)
      ensures old(files in may) ==> files in may
      ensures old(files in may) ==> forall g :: g in may ==> InvalidatedFrom(old(may), old(files.active.None?), g)
      ensures old(files in may && (forall f :: f in may && f.active.Some? ==> f.home)
                  && (files.active.Some? || forall f :: f in may ==> f.active.None?)) ==>
        forall g :: g in may && g.active.Some? ==> g.home
      ensures old(files.active.Some?) && old(fates) == [Made, Lost(false, Died)] ==>
        r == Died && files == old(files).(active := None)
      ensures if r == Done then faults == old(faults) else faults > old(faults)
    {
      ghost var was, before := may, files;
      r := Forget(ActiveIs(None));
      ghost var forgotten := may;
      if r == Done {
        r := Make(HomeIs(false));
        if r == Done {
          r := Sync();
        }
      }
      if before in was {
        forall g | g in may
          ensures InvalidatedFrom(was, before.active.None?, g)
          ensures was == {before} ==> Invalidated(before, g)
        {
          if f :| f in forgotten && (g == f || g == f.(home := false)) {
            assert f in was || f == before.(active := None) || exists e :: e in was && f == e.(active := None);
          }
        }
      }
    }

    /** Creates and fills the home. */
    method CreateHome() returns (r: Step)
      modifies this
      ensures r == Done ==> files == old(files).(home := true)
      ensures (files == old(files) && may == old(may)) || (files == old(files).(home := true) && may == Spread(old(may), HomeIs(true)))
      ensures if r == Done then faults == old(faults) else faults > old(faults)
    {
      r := Make(HomeIs(true));
    }

    /** Normalizing, validating and repairing need a home and keep it. */
    method RepairHome() returns (r: Step)
      modifies this`faults
      ensures r == Done ==> files.home && faults == old(faults)
      ensures r == Died || (r == Failed && files.home) ==> faults > old(faults)
      ensures faults >= old(faults)
    {
      r := if files.home then Done else Failed;
      if * {
        r := *;
        faults := faults + 1;
        if r == Done {
          r := Failed;
        }
      }
    }

    /** A power failure and a restart. */
    method Restart()
      requires files in may
      modifies this
      ensures files in old(may) && Synced()
    {
      var left :| left in may;
      files := left;
      may := {files};
    }
  }
}
