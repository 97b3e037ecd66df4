/** Login, probe and disconnect of one profile, and the recovery of an interrupted one
    (internal/profile/lifecycle.go). */
module ProfileLifecycle {
  import opened Directory
  import opened Daemon
  import opened SandboxDocker
  import opened CreateProtocol
  import opened ProfileRuntime
  import opened ProfileStore
  import WatchdogPhase

  // ---- What every state keeps ----------------------------------------------------

  /** An active identity is always one whose ready outcome the server confirmed active, and
      has its home; only after a power failure, under a journalled grant, may it lack one. An
      operation and an execution exclude each other. */
  ghost predicate Sane(f: Files, confirmed: set<Identity>, torn: bool) {
    && (f.active.Some? ==> f.active.value in confirmed && (f.home || (torn && !Ungranted(f))))
    && !(f.pending.Some? && f.execution.Some?)
  }

  predicate Ungranted(f: Files) {
    f.pending.None? || f.pending.value.binding.None?
  }

  predicate Paired(f: Files) {
    f.home <==> f.active.Some?
  }

  /** A home without an identity, and no journalled grant that will have it removed. */
  predicate Orphaned(f: Files) {
    Ungranted(f) && f.home && f.active.None?
  }

  /** An operation without a journalled grant, beside an active identity. */
  predicate Exposed(f: Files) {
    f.pending.Some? && f.pending.value.binding.None? && f.active.Some?
  }

  datatype Grant = Granted(binding: Binding) | Refused(status: int) | NoGrant

  datatype Answer = NoAnswer | NotFound | Answered(response: Response)

  function PinnedVersion(agent: string): Option<string> {
    match agent
    case "codex" => Some("0.154.0")
    case "claude_code" => Some("2.1.269")
    case _ => None
  }

  predicate NamesOperation(b: Binding, id: string, operationID: string) {
    b.profile == id && b.operation == operationID
  }

  /** The server calls the operation stopped, and does not grant it. */
  predicate StoppedGrant(grant: Grant, id: string, operationID: string, now: int) {
    && grant.Granted? && !ValidBinding(grant.binding, id, operationID, now)
    && NamesOperation(grant.binding, id, operationID) && grant.binding.stopped == Bool(true)
  }

  /** The server's answer ends the operation before any grant is journalled. */
  predicate TurnedDown(grant: Grant, id: string, operationID: string, now: int) {
    (grant.Refused? && DefinitiveBeginStatus(grant.status)) || StoppedGrant(grant, id, operationID, now)
  }

  lemma GrantedIsNotTurnedDown(grant: Grant, id: string, operationID: string, now: int)
    requires grant.Granted? && ValidBinding(grant.binding, id, operationID, now)
    ensures !TurnedDown(grant, id, operationID, now)
  {
  }

  /** Identity and home are gone, and the operation is marked completed, or over. */
  predicate Ended(f: Files, g: Files, operationID: string) {
    g in {f.(active := None, home := false), f.(active := None, home := false, completed := Some(operationID)),
          f.(active := None, home := false, completed := Some(operationID), pending := None)}
  }

  /** What turning a grant down may leave. */
  predicate Rejected(f: Files, g: Files, id: string, b: Binding)
    requires f.pending.Some?
  {
    var p := f.pending.value;
    var granted := f.(pending := Some(p.(binding := Some(b))));
    || g == f
    || (NamesOperation(b, id, p.operationID) &&
        if b.stopped == Bool(true) then g == f.(pending := None)
        else b.stopped == Bool(false) && b.version != "" && (Invalidated(granted, g) || Ended(granted, g, p.operationID)))
  }

  /** What the recovery of an operation without a journalled grant may leave. */
  predicate Recovered(f: Files, g: Files, id: string, now: int, grant: Grant)
    requires f.pending.Some?
  {
    var p := f.pending.value;
    || g == f
    || (p.Valid(id) && grant.Granted? &&
        if ValidBinding(grant.binding, id, p.operationID, now) then Invalidated(f, g) || Ended(f, g, p.operationID)
        else Rejected(f, g, id, grant.binding))
  }

  /** Identity and home were apart before an operation and still are, with none left: either
      nothing was done, or the server ended the operation that counts before any grant was
      journalled. */
  predicate LeftApart(f: Files, g: Files, id: string, operationID: string, now: int, earlier: Grant, grant: Grant) {
    Orphaned(f) && (g == f || match f.pending
                             case Some(p) => StoppedGrant(earlier, id, p.operationID, now)
                             case None => TurnedDown(grant, id, operationID, now))
  }

  /** From `f` an operation was admitted with `a`, or not, and ended with `g`. */
  lemma EndsApart(f: Files, a: Files, g: Files, id: string, operationID: string, now: int, earlier: Grant, grant: Grant)
    requires Ungranted(f) ==> (Paired(f) <==> !Orphaned(f))
    requires if f.pending.None? then a == f.(pending := a.pending)
             else Paired(a) <==> !(Orphaned(f) && StoppedGrant(earlier, id, f.pending.value.operationID, now))
    requires g.pending.None?
    requires a == g || (a.pending.Some? && (f.pending.Some? ==> Paired(a))
                        && (Paired(g) <==> Paired(a) || !TurnedDown(grant, id, operationID, now)))
    ensures Paired(g) <==> !LeftApart(f, g, id, operationID, now, earlier, grant)
  {
    hide StoppedGrant, TurnedDown;
  }

  lemma ApartIsOrphaned(f: Files, confirmed: set<Identity>, torn: bool)
    requires Sane(f, confirmed, torn) && Ungranted(f)
    ensures Paired(f) <==> !Orphaned(f)
  {
  }

  /** Requests sent for one operation never get better: a ready outcome may give way, once
      and for all, to a stopped one, and nothing else changes. */
  ghost predicate NeverImproves(sent: seq<Health>) {
    forall i, j :: 0 <= i < j < |sent| ==> sent[i] == sent[j] || (sent[i] == READY && sent[j] == STOPPED)
  }

  /** All that was sent agrees with what the journal would report next. */
  ghost predicate Reported(sent: seq<Health>, f: Files) {
    && NeverImproves(sent)
    && (f.pending.Some? ==> forall h :: h in sent ==>
          h == f.pending.value.Next() || (h == READY && f.pending.value.outcome == Some(STOPPED)))
  }

  /** Every name is barred except that of the operation under way, and that one is settled
      unless its journal says that a create was attempted. */
  ghost predicate Fences(f: Files, slots: map<string, Slot>) {
    && (forall n :: n in slots ==> slots[n].name == n && slots[n].Well() && Honest(slots[n]))
    && (forall n :: n in slots && !(f.pending.Some? && f.pending.value.sandbox == n) ==> Barred(slots[n]))
    && (f.pending.Some? ==> f.pending.value.sandbox in slots)
    && (f.pending.Some? && !f.pending.value.createAttempted ==> Settled(slots[f.pending.value.sandbox]))
  }

  lemma OneMoreReport(sent: seq<Health>, f: Files)
    requires Reported(sent, f) && f.pending.Some?
    ensures Reported(sent + [f.pending.value.Next()], f)
  {
    var next := f.pending.value.Next();
    forall i | 0 <= i < |sent| ensures sent[i] == next || (sent[i] == READY && next == STOPPED) {
      assert sent[i] in sent;
    }
  }

  lemma SandboxIsKnown(f: Files, slots: map<string, Slot>)
    requires Fences(f, slots) && f.pending.Some?
    ensures
      var n := f.pending.value.sandbox;
      && n in slots && slots[n].name == n && slots[n].Well() && Honest(slots[n])
      && (!f.pending.value.createAttempted ==> Settled(slots[n]))
  {
  }

  lemma Started(f: Files, slots: map<string, Slot>, n: string, w: Slot, launch: ProfileRuntime.Launch)
    requires Fences(f, slots) && f.pending.Some? && f.pending.value.sandbox == n && f.pending.value.createAttempted
    requires w.name == n && w.Well() && Honest(w) && n in slots && Settled(slots[n])
    requires Closed(slots[n]) ==> Closed(w)
    requires launch in {LaunchRefused, LaunchFailed, Launched} ==> NoMore(slots[n], w)
    ensures Fences(f, slots[n := w])
    ensures launch in {LaunchRefused, LaunchFailed, Launched} ==> Settled(w)
  {
    hide Barred, Honest;
  }

  /** The journal may become `p`. */
  ghost predicate Follows(p: Pending, f: Files, sent: seq<Health>, slots: map<string, Slot>) {
    && f.pending.Some? && f.pending.value.sandbox == p.sandbox && p.sandbox in slots
    && (p.binding.Some? || f.pending.value.binding.None?)
    && (sent == [] || p.outcome == f.pending.value.outcome || (f.pending.value.outcome == Some(READY) && p.outcome == Some(STOPPED)))
    && (!p.createAttempted ==> Settled(slots[p.sandbox]))
  }

  lemma SaveIsFine(f: Files, p: Pending, confirmed: set<Identity>, torn: bool, sent: seq<Health>, slots: map<string, Slot>)
    requires Sane(f, confirmed, torn) && Reported(sent, f) && Fences(f, slots) && Follows(p, f, sent, slots)
    ensures
      var g := f.(pending := Some(p));
      Sane(g, confirmed, torn) && Reported(sent, g) && Fences(g, slots)
  {
    hide NeverImproves, Barred, Settled;
  }

  // ---- What a power failure may leave --------------------------------------------

  /** What one call keeps of whatever a power failure may leave. `apart` says that identity
      and home may come apart in it before any grant is journalled. */
  ghost predicate Lasting(f: Files, confirmed: set<Identity>, sent: seq<Health>, slots: map<string, Slot>, apart: bool) {
    && Sane(f, confirmed, true) && Reported(sent, f) && Fences(f, slots)
    && (Ungranted(f) && !apart ==> Paired(f))
  }

  ghost predicate AllLast(may: set<Files>, confirmed: set<Identity>, sent: seq<Health>, slots: map<string, Slot>, apart: bool) {
    forall f :: f in may ==> Lasting(f, confirmed, sent, slots, apart)
  }

  /** Whatever is left, the journal is that of `p`, but for whether a create was attempted. */
  ghost predicate Underway(may: set<Files>, p: Pending) {
    forall f :: f in may ==> f.pending.Some? && f.pending.value.(createAttempted := false) == p.(createAttempted := false)
  }

  lemma SpreadLasts(may: set<Files>, c: Change, confirmed: set<Identity>, sent: seq<Health>, slots: map<string, Slot>, apart: bool)
    requires AllLast(may, confirmed, sent, slots, apart)
    requires forall f :: f in may ==> Lasting(c.On(f), confirmed, sent, slots, apart)
    ensures AllLast(Spread(may, c), confirmed, sent, slots, apart)
  {
    hide Lasting;
  }

  lemma SaveLasts(may: set<Files>, p: Pending, confirmed: set<Identity>, sent: seq<Health>, slots: map<string, Slot>, apart: bool)
    requires AllLast(may, confirmed, sent, slots, apart) && forall f :: f in may ==> Follows(p, f, sent, slots)
    ensures AllLast(Spread(may, PendingIs(Some(p))), confirmed, sent, slots, apart)
  {
    hide NeverImproves, Barred, Settled, Sane, Reported, Fences, Follows;
    forall f | f in may ensures Lasting(PendingIs(Some(p)).On(f), confirmed, sent, slots, apart) {
      SaveIsFine(f, p, confirmed, true, sent, slots);
      if p.binding.None? {
        StillUngranted(p, f, sent, slots);
      }
    }
    SpreadLasts(may, PendingIs(Some(p)), confirmed, sent, slots, apart);
  }

  lemma StillUngranted(p: Pending, f: Files, sent: seq<Health>, slots: map<string, Slot>)
    requires Follows(p, f, sent, slots) && p.binding.None?
    ensures Ungranted(f)
  {
  }

  lemma JournalLasts(f: Files, p: Pending, confirmed: set<Identity>, torn: bool, slots: map<string, Slot>, apart: bool)
    requires Sane(f, confirmed, torn) && Fences(f, slots) && f.pending.None? && f.execution.None?
    requires p.sandbox in slots && Settled(slots[p.sandbox]) && p.binding.None?
    ensures
      var g := f.(pending := Some(p));
      && Sane(g, confirmed, torn) && Reported([], g) && Fences(g, slots)
      && (Lasting(f, confirmed, [], slots, apart) ==> Lasting(g, confirmed, [], slots, apart))
  {
    hide Barred, Settled, Honest, Slot.Well;
  }

  lemma FinishLasts(f: Files, confirmed: set<Identity>, sent: seq<Health>, slots: map<string, Slot>, apart: bool)
    requires Lasting(f, confirmed, sent, slots, apart) && f.pending.Some? && Barred(slots[f.pending.value.sandbox])
    requires Ungranted(f) || Paired(f)
    ensures Lasting(f.(pending := None), confirmed, sent, slots, apart)
  {
    hide NeverImproves, Barred, Settled, Honest, Slot.Well;
  }

  /** Under a journalled grant identity and home may change in any order. */
  lemma GrantedLasts(may: set<Files>, c: Change, confirmed: set<Identity>, sent: seq<Health>, slots: map<string, Slot>, apart: bool)
    requires AllLast(may, confirmed, sent, slots, apart) && forall f :: f in may ==> !Ungranted(f)
    requires c in {ActiveIs(None), HomeIs(true), HomeIs(false)}
    ensures AllLast(Spread(may, c), confirmed, sent, slots, apart)
    ensures forall f :: f in may ==> AllLast({c.On(f)}, confirmed, sent, slots, apart)
  {
    hide NeverImproves, Barred, Settled, Honest, Slot.Well;
    SpreadLasts(may, c, confirmed, sent, slots, apart);
  }

  /** An invalidation under no grant needs a call that may take identity and home apart, or
      one that finds nothing to forget. */
  lemma InvalidationLasts(may: set<Files>, absent: bool, after: set<Files>, confirmed: set<Identity>, sent: seq<Health>,
                          slots: map<string, Slot>, apart: bool)
    requires AllLast(may, confirmed, sent, slots, apart) && forall g :: g in after ==> InvalidatedFrom(may, absent, g)
    requires (forall f :: f in may ==> !Ungranted(f))
             || (forall f :: f in may ==> absent == f.active.None? && (apart || !Exposed(f)) && (Ungranted(f) ==> f.pending.Some?))
    ensures AllLast(after, confirmed, sent, slots, apart)
  {
    hide NeverImproves, Barred, Settled, Honest, Slot.Well;
    forall g | g in after ensures Lasting(g, confirmed, sent, slots, apart) {
      var f :| f in may && (Invalidated(f, g) || (absent && g == f.(home := false)));
      assert Lasting(f, confirmed, sent, slots, apart);
    }
  }

  lemma InvalidationGoesOn(may: set<Files>, absent: bool, after: set<Files>)
    requires forall g :: g in after ==> InvalidatedFrom(may, absent, g)
    ensures forall p :: Underway(may, p) ==> Underway(after, p)
  {
    forall p | Underway(may, p) ensures Underway(after, p) {
      forall g | g in after ensures g.pending.Some? && g.pending.value.(createAttempted := false) == p.(createAttempted := false) {
        var f :| f in may && (Invalidated(f, g) || (absent && g == f.(home := false)));
      }
    }
  }

  /** Names may only become barred, or stay settled. */
  lemma SlotsLast(may: set<Files>, confirmed: set<Identity>, sent: seq<Health>, slots: map<string, Slot>, apart: bool, n: string, w: Slot)
    requires AllLast(may, confirmed, sent, slots, apart) && n in slots
    requires w.name == n && w.Well() && Honest(w)
    requires Settled(slots[n]) ==> Settled(w)
    requires Barred(slots[n]) ==> Barred(w) || forall f :: f in may ==> f.pending.Some? && f.pending.value.sandbox == n
    ensures AllLast(may, confirmed, sent, slots[n := w], apart)
  {
    hide NeverImproves, Barred, Settled, Honest, Slot.Well, Sane;
  }

  /** The server answered, consistently, that the profile is active. */
  predicate Confirms(answer: Answer, p: Pending, outcome: Health) {
    answer.Answered? && ValidCompletionResponse(answer.response, p.operationID, outcome)
    && answer.response.active == Bool(true)
  }

  /** What the server said to a completion, when that the operation is unknown counts. */
  function Reply(answer: Answer, operationID: string): Answer {
    if answer == NotFound then Answered(Gone404(operationID)) else answer
  }

  /** The server took the outcome for that of the operation, which stopped. */
  predicate Took(answer: Answer, operationID: string, outcome: Health) {
    answer.Answered? && ValidCompletionResponse(answer.response, operationID, outcome)
  }

  /** The server took the outcome that the journal called for, or, when a home that should
      be ready did not hold up, that the operation was stopped and the profile not active. */
  predicate Acknowledged(answer: Answer, p: Pending) {
    || Took(Reply(answer, p.operationID), p.operationID, p.Next())
    || (p.Next() == READY && Took(Reply(answer, p.operationID), p.operationID, STOPPED) && GivenUp(Reply(answer, p.operationID)))
  }

  /** The server took an outcome of the operation, and calls the profile active exactly when
      the one that is left is ready. */
  predicate Settles(answer: Answer, operationID: string, outcome: Health) {
    && (Took(answer, operationID, outcome) || (outcome == STOPPED && Took(answer, operationID, READY)))
    && (outcome == READY <==> answer.response.active == Bool(true))
  }

  /** What authentication under the grant `b` comes to when `before` was active: a mismatch
      if there is one, and ready exactly if that is earned, unless it comes to nothing. */
  ghost predicate Judged(b: Binding, operation: string, before: Option<Identity>, native: Native, outcome: Option<Health>) {
    && (outcome.Some? ==> ValidHealthOutcome(outcome.value) && outcome.value.health != "disconnected")
    && (outcome.Some? ==> (outcome.value == READY <==> Earned(b, operation, before, native)))
    && (Mismatch(b).Some? ==> outcome == Mismatch(b))
  }

  lemma ErrorsAreValid()
    ensures ValidHealthOutcome(FAILED) && ValidHealthOutcome(DISCONNECTED)
  {
  }

  lemma JudgedIsValid(b: Binding, operation: string, before: Option<Identity>, native: Native, outcome: Option<Health>)
    requires Judged(b, operation, before, native, outcome)
    ensures ValidHealthOutcome(if outcome.Some? then outcome.value else FAILED)
  {
  }

  lemma MismatchIsJudged(b: Binding, operation: string, before: Option<Identity>, native: Native)
    requires Mismatch(b).Some?
    ensures Judged(b, operation, before, native, Mismatch(b))
  {
  }

  lemma StrangerIsJudged(b: Binding, operation: string, before: Option<Identity>, native: Native)
    requires Mismatch(b).None? && operation != "login" && before != Some(b.Stable())
    ensures Judged(b, operation, before, native, Some(Health("expired", "native_login_required")))
  {
  }

  lemma RunIsJudged(b: Binding, operation: string, before: Option<Identity>, native: Native, outcome: Option<Health>)
    requires Mismatch(b).None?
    requires outcome.Some? ==>
      && CredentialReference(b.reference) && (operation == "login" || before == Some(b.Stable()))
      && ValidHealthOutcome(outcome.value) && outcome.value.health != "disconnected"
      && (outcome.value == READY <==> native.Healthy(operation))
    ensures Judged(b, operation, before, native, outcome)
  {
  }

  /** The outcome is what authentication came to, or an error without any; a ready one may
      have been stopped by the server, or failed for its home. */
  predicate Carried(result: Option<Health>, outcome: Health) {
    match result
    case None => outcome == FAILED
    case Some(h) => outcome == h || (h == READY && outcome in {STOPPED, FAILED})
  }

  /** What an operation under the grant `b` achieved. A profile it calls ready is the active
      one that the server confirmed: its container ran on the profile's home, its client was
      healthy, and but for a login it was active `before`. */
  ghost predicate Achieved(f: Files, slots: map<string, Slot>, answer: Answer, b: Binding, operation: string,
                           operationID: string, outcome: Health, result: Option<Health>, before: Option<Identity>,
                           image: string, home: string, native: Native) {
    && f.pending.None? && Paired(f) && f.completed == Some(operationID) && Settles(answer, operationID, outcome)
    && (outcome == READY <==> f.active.Some?)
    && (outcome.health == "disconnected" <==> operation == "disconnect")
    && (operation != "disconnect" ==> Carried(result, outcome) && (Mismatch(b).Some? ==> result == Mismatch(b)))
    && (outcome == READY ==>
          && f.active == Some(b.Stable()) && Earned(b, operation, before, native)
          && SandboxOf(operationID) in slots && Served(slots[SandboxOf(operationID)], image, home))
  }

  /** What was carried out is achieved once it was reported. */
  lemma ReportAchieves(f: Files, slots: map<string, Slot>, answer: Answer, p: Pending, outcome: Health, final: Health,
                       result: Option<Health>, before: Option<Identity>, image: string, home: string, native: Native)
    requires p.binding.Some? && p.sandbox == SandboxOf(p.operationID)
    requires f.pending.None? && Paired(f) && f.completed == Some(p.operationID) && Settles(answer, p.operationID, final)
    requires final == READY <==> f.active.Some?
    requires final == READY ==> f.active == Some(p.binding.value.Stable())
    requires final == outcome || (outcome == READY && final in {STOPPED, FAILED})
    requires if p.operation == "disconnect" then outcome == DISCONNECTED
             else outcome == (if result.Some? then result.value else FAILED) && Judged(p.binding.value, p.operation, before, native, result)
    requires outcome == READY ==> p.sandbox in slots && Served(slots[p.sandbox], image, home)
    ensures Achieved(f, slots, answer, p.binding.value, p.operation, p.operationID, final, result, before, image, home, native)
  {
    hide Earned, Mismatch, Served, Settles;
  }

  lemma JustUnderway(f: Files, may: set<Files>)
    requires f.pending.Some?
    ensures may == {f} ==> Underway(may, f.pending.value)
  {
  }

  lemma UnderwayNames(may: set<Files>, p: Pending)
    requires Underway(may, p)
    ensures forall f :: f in may ==> f.pending.Some? && f.pending.value.sandbox == p.sandbox
    ensures forall q: Pending :: q == p.(createAttempted := q.createAttempted) ==> Underway(may, q)
  {
  }

  predicate GivenUp(answer: Answer) {
    answer.Answered? && answer.response.active != Bool(true) && answer.response.health in {"error", "disconnected"}
  }

  /** A grant that no operation can be carried out under. */
  function Mismatch(b: Binding): (h: Option<Health>)
    ensures h.Some? ==> h.value.health == "unsupported"
  {
    if b.authMode != "subscription" then Some(Health("unsupported", "native_mode_mismatch"))
    else if PinnedVersion(b.agent) != Some(b.version) then Some(Health("unsupported", "runtime_mismatch"))
    else None
  }

  /** The identity of the grant is the one that may call itself ready. */
  predicate Earned(b: Binding, operation: string, before: Option<Identity>, native: Native) {
    && b.authMode == "subscription" && PinnedVersion(b.agent) == Some(b.version) && CredentialReference(b.reference)
    && native.Healthy(operation) && (operation == "login" || before == Some(b.Stable()))
  }

  lemma {:induction false} NeverOrphaned(trace: seq<Files>, i: nat)
    requires i < |trace| && !Orphaned(trace[0])
    requires forall j :: 0 <= j < i && Orphaned(trace[j + 1]) ==> Orphaned(trace[j]) || Exposed(trace[j])
    requires forall j :: 0 <= j < i ==> !Exposed(trace[j])
    ensures !Orphaned(trace[i])
  {
    if i > 0 {
      NeverOrphaned(trace, i - 1);
    }
  }

  /** What a completion of an operation the server no longer knows counts as. */
  function Gone404(operationID: string): Response {
    Response(operationID, Bool(true), Bool(false), "disconnected", Text("disconnected"))
  }

  lemma CleanupKeepsBars(v: Slot, w: Slot)
    requires v.Well() && w.Well() && Drifted(v, w) && OrdersOwned(OfProfile, v, w)
    ensures w.name == v.name && (Honest(v) ==> Honest(w))
    ensures Barred(v) ==> Barred(w)
    ensures Settled(v) ==> Settled(w)
  {
    CleanupSparesTombstones(OfProfile, v, w);
  }

  lemma ValidMeans(f: Files, confirmed: set<Identity>, torn: bool, sent: seq<Health>, slots: map<string, Slot>)
    requires Sane(f, confirmed, torn) && Reported(sent, f) && Fences(f, slots)
    ensures NeverImproves(sent) && (f.active.Some? ==> f.active.value in confirmed)
    ensures f.active.Some? && (!torn || Ungranted(f)) ==> f.home
    ensures !(f.pending.Some? && f.execution.Some?)
    ensures f.pending.None? ==>
      forall n :: n in slots && slots[n].holder.Some? ==> Tombstone(slots[n].holder.value.container)
  {
    hide NeverImproves;
    forall n | f.pending.None? && n in slots && slots[n].holder.Some? ensures Tombstone(slots[n].holder.value.container) {
      BarredStays(slots[n], slots[n]);
    }
  }

  /** The first recovery is granted and stops between forgetting the identity and removing
      the home; for the second the server calls the operation stopped. */
  lemma HomeCanOutliveIdentity(f: Files, id: string, now: int, granted: Binding, stopped: Binding)
    requires f.pending.Some? && f.pending.value.Valid(id) && f.home && Exposed(f)
    requires ValidBinding(granted, id, f.pending.value.operationID, now)
    requires StoppedGrant(Granted(stopped), id, f.pending.value.operationID, now)
    ensures
      var between := f.(active := None);
      var after := between.(pending := None);
      && Invalidated(f, between) && Recovered(f, between, id, now, Granted(granted))
      && Rejected(between, after, id, stopped) && Recovered(between, after, id, now, Granted(stopped))
      && after.pending.None? && !Paired(after)
  {
  }

  /** Two recoveries can leave a home without an identity, and no operation. */
  ghost predicate CanComeApart(f: Files, id: string, now: int) {
    exists g: Files, first: Grant, second: Grant ::
      f.pending.Some? && Recovered(f, g, id, now, first) && g.pending.Some? && g.pending.value.binding.None?
      && Recovered(g, g.(pending := None), id, now, second) && g.home && g.active.None?
  }

  /** Beside an active identity recoveries can take identity and home apart if and only if
      the journal is one the recovery accepts and holds no grant. */
  lemma ComesApartIff(f: Files, id: string, now: int)
    requires f.pending.Some? && Ungranted(f) && Paired(f)
    ensures CanComeApart(f, id, now) <==> f.pending.value.Valid(id) && f.active.Some?
  {
    var p := f.pending.value;
    if p.Valid(id) && f.active.Some? {
      var granted := Binding(id, p.operationID, "credential:a", "codex", "subscription", "1", Bool(false), Bool(false), Some(now + 1));
      var stopped := granted.(stopRequested := Bool(true), stopped := Bool(true));
      assert CredentialReference("credential:a");
      HomeCanOutliveIdentity(f, id, now, granted, stopped);
      var g := f.(active := None);
      assert Recovered(f, g, id, now, Granted(granted)) && Recovered(g, g.(pending := None), id, now, Granted(stopped));
    }
  }

  lemma NewNameIsBarred(n: string)
    ensures
      var w := Slot(n, None, [], {}, {}, map[]);
      w.Well() && Honest(w) && Barred(w)
  {
  }

  lemma BarredIsSettled(w: Slot)
    requires Barred(w)
    ensures Settled(w)
  {
  }

  datatype Status = LoggedIn | LoggedOut | OtherMode

  datatype Preflight = Works | Limited | Broken

  /** What the commands of the native client answer: whether its version matches, the exit
      code of the login, the status, a preflight, and the status again. `None` is an error. */
  datatype Native = Native(version: Option<bool>, login: Option<int>, status: Option<Status>, preflight: Option<Preflight>,
                           again: Option<Status>)
  {
    predicate Healthy(operation: string) {
      && version == Some(true) && (operation == "login" ==> login == Some(0))
      && status == Some(LoggedIn) && preflight == Some(Works) && again == Some(LoggedIn)
    }

    /** Some command of the operation erred. */
    predicate Errs(operation: string) {
      version.None? || (operation == "login" && login.None?) || status.None? || preflight.None? || again.None?
    }
  }

  function StatusHealth(s: Status): Health {
    match s
    case LoggedIn => READY
    case LoggedOut => Health("expired", "native_login_required")
    case OtherMode => Health("unsupported", "native_mode_mismatch")
  }

  function PreflightHealth(p: Preflight): Health {
    match p
    case Works => READY
    case Limited => Health("rate_limited", "rate_limited")
    case Broken => Health("error", "native_probe_failed")
  }

  /** Asks the native client. `None` is an error of a command or, `cut`, of a heartbeat. */
  method RunNative(operation: string, native: Native) returns (outcome: Option<Health>, ghost cut: bool)
    ensures outcome.Some? ==> ValidHealthOutcome(outcome.value) && outcome.value.health != "disconnected"
    ensures outcome.Some? ==> (outcome.value == READY <==> native.Healthy(operation))
    ensures outcome.None? ==> cut || native.Errs(operation)
    ensures outcome.Some? && outcome.value.health == "rate_limited" ==> native.preflight == Some(Limited)
    ensures outcome.Some? && outcome.value.health == "expired" ==>
      (operation == "login" && native.login != Some(0)) || native.status == Some(LoggedOut) || native.again == Some(LoggedOut)
  {
    cut := false;
    if * {
      // A heartbeat failed, or the deadline passed.
      return None, true;
    }
    if native.version.None? {
      return None, cut;
    }
    if !native.version.value {
      return Some(Health("unsupported", "runtime_mismatch")), cut;
    }
    if operation == "login" {
      if native.login.None? {
        return None, cut;
      }
      if native.login.value != 0 {
        return Some(Health("expired", "native_login_required")), cut;
      }
    }
    if native.status.None? {
      return None, cut;
    }
    var health := StatusHealth(native.status.value);
    if health == READY {
      if native.preflight.None? {
        return None, cut;
      }
      health := PreflightHealth(native.preflight.value);
      if health == READY {
        if native.again.None? {
          return None, cut;
        }
        health := StatusHealth(native.again.value);
      }
    }
    return Some(health), cut;
  }

  /** Something is or was in the way of a launch, or its watchdog left. */
  ghost predicate Thwarted(v: Slot, w: Slot, lease: Option<WatchdogPhase.Lease>)
    reads if lease.Some? then {lease.value, lease.value.child} else {}
  {
    || w.used != v.used || w.holder.Some? || v.pending != []
    || (lease.Some? && lease.value.child.status != WatchdogPhase.Watching)
  }

  /** One profile. `confirmed` are the identities the server confirmed active, `sent` the
      outcomes reported for the operation under way. `torn` says that there was a power
      failure, `steady` that the call under way began with everything synced, and `apart`
      that it began orphaned or exposed. `said` is the last answer to a completion; `troubles`
      counts what went wrong but on disk. */
  class Profile {
    const id: string
    const store: Store
    var slots: map<string, Slot>
    ghost var confirmed: set<Identity>
    ghost var sent: seq<Health>
    ghost var torn: bool
    var steady: bool
    ghost var apart: bool
    ghost var said: Answer
    ghost var troubles: nat

    constructor (id: string, store: Store)
      requires store.files == Files(None, None, None, None, false) && store.Synced()
      ensures this.id == id && this.store == store && Valid() && !torn
    {
      this.id, this.store, slots, confirmed, sent := id, store, map[], {}, [];
      torn, steady, apart, said, troubles := false, true, false, NoAnswer, 0;
    }

    /** What went wrong so far. */
    ghost function Suffered(): nat
      reads this`troubles, store`faults
    {
      troubles + store.faults
    }

    ghost predicate Valid()
      reads this`slots, this`confirmed, this`sent, this`torn, this`steady, this`apart, store`files, store`may
    {
      && Sane(store.files, confirmed, torn) && Reported(sent, store.files) && Fences(store.files, slots)
      && store.files in store.may && (steady ==> AllLast(store.may, confirmed, sent, slots, apart))
    }

    lemma Known()
      requires Valid()
      ensures store.files in store.may
      ensures Ungranted(store.files) ==> (Paired(store.files) <==> !Orphaned(store.files))
      ensures store.files.pending.Some? ==>
        && store.files.pending.value.sandbox in slots
        && (!store.files.pending.value.createAttempted ==> Settled(slots[store.files.pending.value.sandbox]))
    {
    }

    /** A call begins. */
    method BeginCall()
      requires Valid()
      modifies this`steady, this`apart
      ensures Valid() && (steady <==> store.Synced()) && (apart <==> Orphaned(store.files) || Exposed(store.files))
    {
      steady := store.Synced();
      apart := Orphaned(store.files) || Exposed(store.files);
      if steady && Ungranted(store.files) {
        ApartIsOrphaned(store.files, confirmed, torn);
      }
    }

    /** Reports an outcome. The answer may be lost. */
    method Complete(p: Pending, outcome: Health) returns (answer: Answer)
      requires Valid() && store.files.pending.Some? && outcome == store.files.pending.value.Next()
      requires p.binding.Some? && (steady ==> store.Synced())
      modifies this`confirmed, this`sent, this`said, this`troubles
      ensures Valid() && confirmed >= old(confirmed) && said == answer && troubles >= old(troubles)
      ensures if p.binding.value.version == "" then answer == NoAnswer && sent == old(sent) else sent == old(sent) + [outcome]
      ensures troubles == old(troubles) && p.binding.value.version != "" ==> Took(answer, p.operationID, outcome)
      ensures Confirms(answer, p, outcome) ==> outcome.health == "ready" && p.binding.value.Stable() in confirmed
    {
      answer, said := NoAnswer, NoAnswer;
      if p.binding.value.version == "" {
        return;
      }
      OneMoreReport(sent, store.files);
      sent := sent + [outcome];
      answer := *;
      said, troubles := answer, troubles + if Took(answer, p.operationID, outcome) then 0 else 1;
      if Confirms(answer, p, outcome) {
        confirmed := confirmed + {p.binding.value.Stable()};
      }
    }

    /** Removes the operation's container, or closes its name when a create may be on its
        way, and disarms the watchdog. */
    method StopPending(p: Pending, lease: Option<WatchdogPhase.Lease>, image: string, patience: nat) returns (r: Step)
      requires Valid() && p.sandbox in slots && (!p.createAttempted ==> Settled(slots[p.sandbox]))
      requires store.files.pending.Some? && store.files.pending.value.sandbox == p.sandbox
      requires lease.Some? ==> lease.value.Valid()
      requires steady ==> forall f :: f in store.may ==> f.pending.Some? && f.pending.value.sandbox == p.sandbox
      modifies this`slots, this`troubles, if lease.Some? then {lease.value, lease.value.child} else {}
      ensures Valid() && p.sandbox in slots && (!p.createAttempted ==> Settled(slots[p.sandbox]))
      ensures r == Done ==> Barred(slots[p.sandbox])
      ensures r == Done && !p.createAttempted && lease.Some? ==>
        lease.value.closed && (lease.value.child.status == WatchdogPhase.Disarmed || lease.value.child.status.Cleaning?)
      ensures !p.createAttempted ==> Drifted(old(slots)[p.sandbox], slots[p.sandbox])
      ensures r != Died && troubles >= old(troubles)
      ensures r == Failed && p.createAttempted && old(slots[p.sandbox].Empty() || Closed(slots[p.sandbox]))
              && ImageId(image) && patience > 0 ==>
        troubles > old(troubles)
      ensures r == Failed && !p.createAttempted ==>
        || troubles > old(troubles)
        || (slots[p.sandbox].holder.Some? && Obstinate(slots[p.sandbox], slots[p.sandbox].holder.value.id))
        || (lease.Some? && (old(lease.value.createInFlight || lease.value.phaseUnknown || lease.value.closed)
                            || lease.value.child.status == WatchdogPhase.Broken))
    {
      hide Sane, Reported, Slot.Well, Honest, Drifted, Closed, WatchdogPhase.Agree, AllTombstones, Settled;
      var docker := new Docker.Resume(slots[p.sandbox]);
      ghost var v := docker.slot;
      r := Failed;
      if p.createAttempted {
        var closed := ReconcileCreate(docker, image, patience);
        troubles := troubles + docker.troubles;
        if steady {
          SlotsLast(store.may, confirmed, sent, slots, apart, p.sandbox, docker.slot);
        }
        slots := slots[p.sandbox := docker.slot];
        if closed {
          r := Done;
        }
        return;
      }
      DriftIsReflexive(v);
      var stopping := Stop(docker, false, v);
      troubles := troubles + docker.troubles;
      if steady {
        SlotsLast(store.may, confirmed, sent, slots, apart, p.sandbox, docker.slot);
      }
      slots := slots[p.sandbox := docker.slot];
      if stopping != Gone {
        return;
      }
      if lease.Some? {
        ghost var before := lease.value.troubles;
        var disarmed := lease.value.Disarm();
        troubles := troubles + lease.value.troubles - before;
        if !disarmed {
          return;
        }
      }
      r := Done;
    }

    /** Replaces the pending journal. */
    method Save(p: Pending) returns (r: Step)
      requires Valid() && Follows(p, store.files, sent, slots)
      requires steady ==> forall f :: f in store.may ==> Follows(p, f, sent, slots)
      modifies store
      ensures Valid() && store.files in {old(store.files), old(store.files).(pending := Some(p))}
      ensures r == Done ==> store.files.pending == Some(p) && store.Synced()
      ensures if r == Done then store.faults == old(store.faults) else store.faults > old(store.faults)
      ensures old(Underway(store.may, p)) ==> Underway(store.may, p)
    {
      hide Sane, Reported, Fences, Follows, Lasting;
      SaveIsFine(store.files, p, confirmed, torn, sent, slots);
      if steady {
        SaveLasts(store.may, p, confirmed, sent, slots, apart);
      }
      r := store.Write(PendingIs(Some(p)));
    }

    /** Ends the operation: its name is barred by now. */
    method Finish() returns (r: Step)
      requires Valid() && store.files.pending.Some? && Barred(slots[store.files.pending.value.sandbox])
      requires (Ungranted(store.files) || Paired(store.files)) && (steady ==> store.Synced())
      modifies store
      ensures Valid() && store.files in {old(store.files), old(store.files).(pending := None)}
      ensures r == Done ==> store.files.pending.None? && store.Synced()
      ensures if r == Done then store.faults == old(store.faults) else store.faults > old(store.faults)
      ensures old(store.fates) == [Made, Made] ==> r == Done
    {
      hide NeverImproves, Settled, Barred;
      if steady {
        FinishLasts(store.files, confirmed, sent, slots, apart);
      }
      r := store.Forget(PendingIs(None));
    }

    /** Marks the operation completed and ends it. */
    method MarkCompleted(operationID: string) returns (r: Step)
      requires Valid() && store.files.pending.Some? && Barred(slots[store.files.pending.value.sandbox])
      requires (Ungranted(store.files) || Paired(store.files)) && (steady ==> store.Synced())
      modifies store
      ensures Valid() && (r == Done ==>
        store.files == old(store.files).(completed := Some(operationID), pending := None) && store.Synced())
      ensures if r == Done then store.faults == old(store.faults) else store.faults > old(store.faults)
      ensures store.files in {old(store.files), old(store.files).(completed := Some(operationID)),
                              old(store.files).(completed := Some(operationID), pending := None)}
    {
      hide NeverImproves, Settled, Barred;
      r := store.Write(CompletedIs(Some(operationID)));
      if r == Done {
        r := Finish();
      }
    }

    method Invalidate() returns (r: Step)
      requires Valid() && store.files.pending.Some?
      requires steady ==> (forall f :: f in store.may ==> !Ungranted(f)) || (store.Synced() && (apart || !Exposed(store.files)))
      modifies store
      ensures Valid() && Invalidated(old(store.files), store.files)
      ensures r == Done ==> store.files == old(store.files).(active := None, home := false) && store.Synced()
      ensures if r == Done then store.faults == old(store.faults) else store.faults > old(store.faults)
      ensures forall p :: old(Underway(store.may, p)) ==> Underway(store.may, p)
      ensures old(store.files.active.Some?) && old(store.fates) == [Made, Lost(false, Died)] ==>
        r == Died && store.files == old(store.files).(active := None)
    {
      hide NeverImproves, Settled, Barred, Lasting, AllLast, Underway, InvalidatedFrom, Honest, Slot.Well;
      ghost var may, absent := store.may, store.files.active.None?;
      r := store.Invalidate();
      InvalidationGoesOn(may, absent, store.may);
      if steady {
        InvalidationLasts(may, absent, store.may, confirmed, sent, slots, apart);
      }
    }

    /** What the answer to a completion makes of active identity and home. */
    method Settle(p: Pending, outcome: Health, response: Response) returns (r: Step)
      requires Valid() && store.files.pending.Some? && p.binding.Some?
      requires outcome == READY ==> store.files.home && store.files.pending.value.binding.Some?
      requires Confirms(Answered(response), p, outcome) ==> p.binding.value.Stable() in confirmed
      requires ValidCompletionResponse(response, p.operationID, outcome) && (outcome.health == "ready" ==>
        outcome == READY)
      requires steady ==> store.Synced() && !Exposed(store.files)
      modifies store
      ensures Valid() && store.files.pending == old(store.files.pending)
      ensures r == Done ==> Paired(store.files) && store.Synced()
      ensures if r == Done then store.faults == old(store.faults) else store.faults > old(store.faults)
      ensures if outcome == READY && response.active == Bool(true)
              then store.files in {old(store.files), old(store.files).(active := Some(p.binding.value.Stable()))}
              else Invalidated(old(store.files), store.files)
      ensures r == Done ==> (store.files.active.Some? <==> outcome == READY && response.active == Bool(true))
      ensures r == Done && store.files.active.Some? ==> store.files.active.value == p.binding.value.Stable()
    {
      hide NeverImproves, Settled, Barred;
      if outcome.health == "ready" && response.active == Bool(true) {
        r := store.Write(ActiveIs(Some(p.binding.value.Stable())));
      } else {
        r := Invalidate();
      }
    }

    /** Forgets the active identity alone. */
    method ForgetIdentity() returns (r: Step)
      requires Valid() && store.files.pending.Some? && !Ungranted(store.files)
      requires steady ==> forall f :: f in store.may ==> !Ungranted(f)
      modifies store
      ensures Valid() && store.files in {old(store.files), old(store.files).(active := None)}
      ensures forall p :: old(Underway(store.may, p)) ==> Underway(store.may, p)
      ensures r == Done ==> store.files.active.None?
      ensures if r == Done then store.faults == old(store.faults) else store.faults > old(store.faults)
    {
      hide NeverImproves, Settled, Barred, Lasting, AllLast, Honest, Slot.Well;
      if steady {
        GrantedLasts(store.may, ActiveIs(None), confirmed, sent, slots, apart);
      }
      r := store.Forget(ActiveIs(None));
    }

    /** Creates the credential home. */
    method CreateHome() returns (r: Step)
      requires Valid() && store.files.pending.Some? && !Ungranted(store.files)
      requires steady ==> forall f :: f in store.may ==> !Ungranted(f)
      modifies store
      ensures Valid() && store.files in {old(store.files), old(store.files).(home := true)}
      ensures forall p :: old(Underway(store.may, p)) ==> Underway(store.may, p)
      ensures steady ==> forall f :: f in store.may ==> !Ungranted(f)
      ensures r == Done ==> store.files.home
      ensures if r == Done then store.faults == old(store.faults) else store.faults > old(store.faults)
    {
      hide NeverImproves, Settled, Barred, Lasting, AllLast, Honest, Slot.Well;
      if steady {
        GrantedLasts(store.may, HomeIs(true), confirmed, sent, slots, apart);
      }
      r := store.CreateHome();
    }

    /** Readies the credential home: a fresh one for a login, the one of the same identity
        otherwise. `None` is an error, `Some(false)` a profile that must log in first. */
    method PrepareHome(p: Pending, b: Binding) returns (r: Step, ready: bool)
      requires Valid() && store.files.pending.Some? && store.files.pending.value.binding.Some?
      requires steady ==> forall f :: f in store.may ==> !Ungranted(f)
      modifies store
      ensures Valid() && store.files.pending == old(store.files.pending) && store.files.execution == old(store.files.execution)
      ensures forall p :: old(Underway(store.may, p)) ==> Underway(store.may, p)
      ensures r == Done && ready ==> store.files.home && store.files.active.None?
      ensures r == Done && p.operation == "login" ==> ready
      ensures r == Done && p.operation != "login" ==> (ready <==> old(store.files.active) == Some(b.Stable()))
      ensures store.faults >= old(store.faults)
      ensures r != Done ==> store.faults > old(store.faults) || (p.operation != "login" && old(!store.files.home))
    {
      hide Valid, Underway;
      ready := false;
      if p.operation == "login" {
        r := Invalidate();
        if r != Done {
          return;
        }
        r := CreateHome();
        if r != Done {
          return;
        }
      } else {
        r := store.Read();
        if r != Done {
          return;
        }
        if store.files.active != Some(b.Stable()) {
          return;
        }
      }
      r := ForgetIdentity();
      if r != Done {
        return;
      }
      r := store.RepairHome();
      ready := true;
    }

    /** Starts the container of an operation whose journal says so. */
    method StartContainer(watchdog: WatchdogPhase.Lease, image: string, home: string, ready: bool) returns (launch: ProfileRuntime.Launch)
      requires Valid() && store.files.pending.Some? && store.files.pending.value.createAttempted && (steady ==>
        store.Synced())
      requires store.files.pending.value.sandbox in slots && Settled(slots[store.files.pending.value.sandbox])
      requires watchdog.Valid()
      modifies this`slots, this`troubles, watchdog, watchdog.child
      ensures Valid() && slots.Keys == old(slots).Keys && watchdog.Valid()
      ensures launch == Launched ==>
        Running(slots[store.files.pending.value.sandbox], home) && Served(slots[store.files.pending.value.sandbox], image, home)
      ensures troubles >= old(troubles)
      ensures launch == LaunchRefused && ready && ImageId(image) && !old(watchdog.closed || watchdog.createFinished) ==>
        || troubles > old(troubles) || slots[store.files.pending.value.sandbox].holder.Some?
        || old(slots[store.files.pending.value.sandbox].pending != []) || watchdog.child.status != WatchdogPhase.Watching
      ensures launch == LaunchFailed ==>
        troubles > old(troubles) || slots[store.files.pending.value.sandbox].used != old(slots[store.files.pending.value.sandbox].used)
      ensures launch in {LaunchRefused, LaunchFailed, Launched} ==> Settled(slots[store.files.pending.value.sandbox])
    {
      hide Sane, Reported, Fences, Settled, Barred, Honest, Slot.Well, WatchdogPhase.Agree;
      var n := store.files.pending.value.sandbox;
      SandboxIsKnown(store.files, slots);
      var docker := new Docker.Resume(slots[n]);
      launch := Start(docker, watchdog, image, home, ready);
      Started(store.files, slots, n, docker.slot, launch);
      troubles := troubles + docker.troubles + watchdog.troubles;
      slots := slots[n := docker.slot];
    }

    /** Creates the container and starts it, with the intent journalled first. The journal
        and the pending value at hand may differ in whether a create was attempted. */
    method Launch(p: Pending, image: string, home: string, ready: bool)
      returns (r: Step, q: Pending, lease: Option<WatchdogPhase.Lease>)
      requires Valid() && store.files.pending == Some(p) && p.binding.Some? && !p.createAttempted && sent == []
      requires steady ==> Underway(store.may, p)
      modifies store, this`slots, this`troubles
      ensures Valid() && p.sandbox in slots && q == p.(createAttempted := q.createAttempted)
      ensures steady ==> Underway(store.may, p)
      ensures store.files.pending.Some?
              && store.files.pending.value == p.(createAttempted := store.files.pending.value.createAttempted)
      ensures !q.createAttempted ==> Settled(slots[p.sandbox])
      ensures r == Done ==> !q.createAttempted
      ensures store.files.(pending := old(store.files.pending)) == old(store.files)
      ensures r == Failed && !q.createAttempted && ready && ImageId(image) ==>
        Suffered() > old(Suffered()) || Thwarted(old(slots[p.sandbox]), slots[p.sandbox], lease)
      ensures r == Done ==>
        lease.Some? && store.files.pending == Some(p) && Running(slots[p.sandbox], home) && Served(slots[p.sandbox], image, home)
      ensures troubles >= old(troubles) && store.faults >= old(store.faults)
      ensures lease.Some? ==> lease.value.Valid() && fresh(lease.value) && fresh(lease.value.child)
    {
      hide Valid, Settled, Barred, WatchdogPhase.Agree, Served, ImageId, Running;
      lease, q := None, p;
      Known();
      if * {
        // The watchdog did not arm.
        troubles := troubles + 1;
        return Failed, q, lease;
      }
      var watchdog := new WatchdogPhase.Lease();
      q := p.(createAttempted := true);
      r := Save(q);
      if r != Done {
        if r == Failed {
          var disarmed := watchdog.Disarm();
        }
        return;
      }
      var launch := StartContainer(watchdog, image, home, ready);
      lease := Some(watchdog);
      if launch == LauncherDied {
        return Died, q, lease;
      }
      if launch == LaunchUncertain {
        return Failed, q, lease;
      }
      q := p;
      r := Save(q);
      if r == Done && launch != Launched {
        r := Failed;
      }
    }

    /** Launches the container and asks the native client in it. */
    method RunContainer(p: Pending, image: string, home: string, native: Native)
      returns (r: Step, outcome: Option<Health>, q: Pending, lease: Option<WatchdogPhase.Lease>)
      requires Valid() && store.files.pending == Some(p) && p.binding.Some? && !p.createAttempted && sent == []
      requires steady ==> Underway(store.may, p)
      modifies store, this`slots, this`troubles
      ensures Valid() && p.sandbox in slots && q == p.(createAttempted := q.createAttempted)
      ensures steady ==> Underway(store.may, p)
      ensures store.files.pending.Some?
              && store.files.pending.value == p.(createAttempted := store.files.pending.value.createAttempted)
      ensures store.files.(pending := old(store.files.pending)) == old(store.files)
      ensures !q.createAttempted ==> Settled(slots[p.sandbox])
      ensures lease.Some? ==> lease.value.Valid() && fresh(lease.value) && fresh(lease.value.child)
      ensures outcome.Some? ==>
        && r == Done && !q.createAttempted && Served(slots[p.sandbox], image, home)
        && ValidHealthOutcome(outcome.value) && outcome.value.health != "disconnected"
        && (outcome.value == READY <==> native.Healthy(p.operation))
      ensures r == Done && outcome.None? ==> Suffered() > old(Suffered()) || native.Errs(p.operation)
      ensures r == Failed && !q.createAttempted && ImageId(image) ==>
        Suffered() > old(Suffered()) || Thwarted(old(slots[p.sandbox]), slots[p.sandbox], lease)
      ensures troubles >= old(troubles) && store.faults >= old(store.faults)
    {
      hide Valid, Settled, Barred, WatchdogPhase.Agree, Running, Served, ImageId, Thwarted, ValidHealthOutcome, Native.Healthy,
           Native.Errs, Underway;
      outcome := None;
      r, q, lease := Launch(p, image, home, true);
      if r != Done {
        return;
      }
      ghost var cut;
      outcome, cut := RunNative(p.operation, native);
      if cut {
        troubles := troubles + 1;
      }
    }

    /** Authenticates natively. `None` is an error. */
    method Authenticate(p: Pending, image: string, home: string, native: Native)
      returns (r: Step, outcome: Option<Health>, q: Pending, lease: Option<WatchdogPhase.Lease>)
      requires Valid() && store.files.pending == Some(p) && p.binding.Some? && !p.createAttempted && sent == []
      requires steady ==> Underway(store.may, p)
      modifies store, this`slots, this`troubles
      ensures Valid() && p.sandbox in slots && q == p.(createAttempted := q.createAttempted)
      ensures steady ==> Underway(store.may, p)
      ensures store.files.pending.Some?
              && store.files.pending.value == p.(createAttempted := store.files.pending.value.createAttempted)
      ensures !q.createAttempted ==> Settled(slots[p.sandbox])
      ensures lease.Some? ==> lease.value.Valid() && fresh(lease.value) && fresh(lease.value.child)
      ensures Judged(p.binding.value, p.operation, old(store.files.active), native, outcome)
      ensures outcome.Some? ==> r == Done && !q.createAttempted
      ensures outcome == Some(READY) ==> Served(slots[p.sandbox], image, home) && store.files.home
      ensures Suffered() >= old(Suffered()) && store.faults >= old(store.faults)
      ensures r == Done && outcome.None? ==>
        Suffered() > old(Suffered()) || !CredentialReference(p.binding.value.reference) || native.Errs(p.operation)
      ensures r == Failed && !q.createAttempted && ImageId(image) ==>
        || Suffered() > old(Suffered()) || (p.operation != "login" && old(!store.files.home))
        || Thwarted(old(slots[p.sandbox]), slots[p.sandbox], lease)
    {
      hide Valid, Settled, Barred, WatchdogPhase.Agree, Served, ImageId, Thwarted, Judged, Earned, ValidHealthOutcome,
           Native.Healthy, Native.Errs, CredentialReference, PinnedVersion;
      Known();
      var b := p.binding.value;
      ghost var before := store.files.active;
      r, outcome, q, lease := Done, None, p, None;
      if b.authMode != "subscription" {
        outcome := Some(Health("unsupported", "native_mode_mismatch"));
        MismatchIsJudged(b, p.operation, before, native);
        return;
      }
      if PinnedVersion(b.agent) != Some(b.version) {
        outcome := Some(Health("unsupported", "runtime_mismatch"));
        MismatchIsJudged(b, p.operation, before, native);
        return;
      }
      RunIsJudged(b, p.operation, before, native, None);
      if !CredentialReference(b.reference) {
        return;
      }
      var ready;
      r, ready := PrepareHome(p, b);
      if r != Done {
        return;
      }
      if !ready {
        outcome := Some(Health("expired", "native_login_required"));
        StrangerIsJudged(b, p.operation, before, native);
        return;
      }
      r, outcome, q, lease := RunContainer(p, image, home, native);
      RunIsJudged(b, p.operation, before, native, outcome);
    }

    /** Stops what there is of an operation and completes it as stopped. */
    method CompleteStopped(q: Pending, image: string, patience: nat) returns (r: Step)
      requires Valid() && store.files.pending == Some(q) && q.binding.Some? && q.outcome.None? && !q.createAttempted
      requires q.sandbox in slots && Barred(slots[q.sandbox]) && store.Synced()
      modifies store, this`slots, this`confirmed, this`sent, this`said, this`troubles
      ensures Valid()
      ensures Invalidated(old(store.files), store.files) || Ended(old(store.files), store.files, q.operationID)
      ensures r == Done ==>
        && store.files == old(store.files).(active := None, home := false, completed := Some(q.operationID), pending := None)
        && Took(said, q.operationID, STOPPED) && store.Synced()
      ensures store.faults >= old(store.faults) && troubles >= old(troubles)
      ensures r == Died ==> store.faults > old(store.faults)
    {
      hide Valid, Underway, Settled, Barred, Took;
      Known();
      r := StopPending(q, None, image, patience);
      if r != Done {
        return;
      }
      r := Invalidate();
      if r != Done {
        return;
      }
      var answer := Complete(q, STOPPED);
      if !Took(answer, q.operationID, STOPPED) {
        return Failed;
      }
      r := MarkCompleted(q.operationID);
    }

    /** Turns down a grant that does not hold. One that names another operation is left
        alone; a stopped one ends the operation; a live one is completed as stopped. */
    method RejectBegin(p: Pending, b: Binding, image: string, patience: nat) returns (r: Step)
      requires Valid() && store.files.pending == Some(p) && p.binding.None? && p.outcome.None? && !p.createAttempted
      requires Barred(slots[p.sandbox]) && (steady ==> store.Synced())
      modifies store, this`slots, this`confirmed, this`sent, this`said, this`troubles
      ensures old(store.fates) == [Made, Made] && b.stopped == Bool(true) && NamesOperation(b, id, p.operationID) ==>
        r == Done && store.files == old(store.files).(pending := None)
      ensures Valid() && Rejected(old(store.files), store.files, id, b)
      ensures r == Done && NamesOperation(b, id, p.operationID) && b.stopped == Bool(true) ==> store.files.pending.None?
      ensures r == Done && store.files.pending.Some? ==> store.files == old(store.files)
      ensures !NamesOperation(b, id, p.operationID) ==> r == Done && store.files == old(store.files)
      ensures r == Done && NamesOperation(b, id, p.operationID) && b.stopped == Bool(false) && b.version != "" ==>
        store.files == old(store.files).(active := None, home := false, completed := Some(p.operationID), pending := None)
        && Took(said, p.operationID, STOPPED)
      ensures Suffered() >= old(Suffered()) && store.faults >= old(store.faults)
      ensures store.files.pending.None? ==>
        (Paired(store.files) <==> old(Paired(store.files)) || b.stopped != Bool(true))
    {
      hide Valid, Underway, Settled, Barred;
      Known();
      r := Done;
      if b.profile != id || b.operation != p.operationID {
        return;
      }
      if b.stopped == Bool(true) {
        r := Finish();
        return;
      }
      if b.stopped != Bool(false) || b.version == "" {
        return;
      }
      var q := p.(binding := Some(b));
      r := Save(q);
      if r != Done {
        return;
      }
      r := CompleteStopped(q, image, patience);
    }

    /** Finishes an operation that did not run to its end; `grant` is the server's answer
        should it be asked again. Nil says that no operation is left. When one goes away,
        identity and home are together unless they were apart before and the server, with
        no grant journalled, called the operation stopped. */
    method Recover(now: int, grant: Grant, image: string, patience: nat) returns (r: Step)
      requires Valid() && (steady ==> store.Synced() && (Exposed(store.files) ==> apart))
      modifies store, this`slots, this`confirmed, this`sent, this`said, this`troubles
      ensures Valid() && (r == Done ==> store.files.pending.None? && (steady ==> store.Synced()))
      ensures old(store.files.pending.None?) ==> store.files == old(store.files) && (steady ==> store.Synced())
      ensures r == Done && old(store.files.pending.Some?) ==>
        && Paired(store.files) && store.files.completed == Some(old(store.files).pending.value.operationID)
        && Acknowledged(said, old(store.files).pending.value)
      ensures old(store.files.pending.None?) && r != Done ==> r == Failed && store.faults > old(store.faults)
      ensures Suffered() >= old(Suffered()) && store.faults >= old(store.faults)
      ensures store.files.execution == old(store.files.execution)
      ensures old(store.files.pending.Some? && Ungranted(store.files)) ==>
        Recovered(old(store.files), store.files, id, now, grant)
      ensures old(!Ungranted(store.files)) ==> store.files.pending.None? || !Ungranted(store.files)
      ensures old(store.files.pending.Some?) && store.files.pending.None? ==>
        (Paired(store.files) <==>
           !(old(Orphaned(store.files)) && StoppedGrant(grant, id, old(store.files).pending.value.operationID, now)))
      ensures Orphaned(store.files) ==> old(Orphaned(store.files) || Exposed(store.files))
      ensures store.files.active.Some? && store.files.active != old(store.files.active) ==>
        old(store.files.pending.Some?) && old(store.files).pending.value.outcome == Some(READY)
        && old(store.files).pending.value.binding.Some?
        && store.files.active.value == old(store.files).pending.value.binding.value.Stable()
    {
      hide Valid, Underway, Settled, Barred;
      Known();
      r := store.Read();
      if r != Done || store.files.pending.None? {
        return;
      }
      var p := store.files.pending.value;
      if !p.Valid(id) {
        return Failed;
      }
      Known();
      r := StopPending(p, None, image, patience);
      if r != Done {
        return;
      }
      if p.binding.None? {
        r := RecoverUngranted(p, now, grant, image, patience);
      } else {
        r := Conclude(p);
      }
    }

    /** The part of a recovery that asks for a grant. */
    method RecoverUngranted(p: Pending, now: int, grant: Grant, image: string, patience: nat) returns (r: Step)
      requires Valid() && store.files.pending == Some(p) && p.binding.None? && p.Valid(id)
      requires p.sandbox in slots && Barred(slots[p.sandbox])
      requires steady ==> store.Synced() && (Exposed(store.files) ==> apart)
      modifies store, this`slots, this`confirmed, this`sent, this`said, this`troubles
      ensures Valid() && (r == Done ==> store.files.pending.None? && Paired(store.files) && store.Synced())
      ensures r == Done ==>
        && store.files.completed == Some(p.operationID) && Acknowledged(said, p)
        && grant.Granted? && ValidBinding(grant.binding, id, p.operationID, now)
      ensures Suffered() >= old(Suffered()) && store.faults >= old(store.faults)
      ensures Recovered(old(store.files), store.files, id, now, grant)
      ensures store.files.pending.None? ==>
        (Paired(store.files) <==> old(Paired(store.files)) || !StoppedGrant(grant, id, p.operationID, now))
      ensures Orphaned(store.files) ==> old(Orphaned(store.files) || Exposed(store.files))
      ensures store.files.active in {old(store.files.active), None} && store.files.execution == old(store.files.execution)
    {
      hide Valid, Underway, Settled, Barred;
      if !grant.Granted? {
        return Failed;
      }
      if !ValidBinding(grant.binding, id, p.operationID, now) {
        r := RejectBegin(p, grant.binding, image, patience);
        if r == Done {
          r := Failed;
        }
        return;
      }
      r := Conclude(p.(binding := Some(grant.binding)));
    }

    /** Reports the journalled outcome of a stopped operation, or that it was stopped. A
        ready outcome whose home does not hold up is given up for good first. */
    method Conclude(p: Pending) returns (r: Step)
      requires Valid() && p.sandbox in slots && Barred(slots[p.sandbox]) && p.binding.Some?
      requires store.files.pending.Some? && p == store.files.pending.value.(binding := p.binding)
      requires store.files.pending.value.Valid(id)
      requires steady ==> store.Synced() && (Exposed(store.files) ==> apart)
      modifies store, this`confirmed, this`sent, this`said, this`troubles
      ensures Valid()
      ensures r == Done ==> store.files.pending.None? && store.Synced()
      ensures r == Done ==> store.files.completed == Some(p.operationID) && Acknowledged(said, p)
      ensures r == Done && p.recoveryFailed ==> GivenUp(Reply(said, p.operationID))
      ensures r == Failed && p.binding.value.version != "" ==>
        Suffered() > old(Suffered()) || !GivenUp(Reply(said, p.operationID))
      ensures Suffered() >= old(Suffered()) && store.faults >= old(store.faults)
      ensures store.files.execution == old(store.files.execution)
      ensures store.files.pending.None? ==> Paired(store.files)
      ensures old(store.files.active.Some?) && old(store.fates) == [Made, Lost(false, Died)] && p.Next() != READY ==>
        r == Died && store.files == old(store.files).(active := None)
      ensures old(Ungranted(store.files)) ==>
        Invalidated(old(store.files), store.files) || Ended(old(store.files), store.files, p.operationID)
      ensures old(!Ungranted(store.files)) ==> store.files.pending.None? || !Ungranted(store.files)
      ensures store.files.active.Some? && store.files.active != old(store.files.active) ==>
        p.Next() == READY && store.files.active.value == p.binding.value.Stable()
    {
      hide Valid, Underway, Settled, Barred;
      var q;
      r, q := Withdraw(p);
      if r == Done {
        r := Acknowledge(q);
      }
    }

    /** Removes identity and home unless the outcome is ready and the home holds up. A ready
        outcome whose home does not is given up in the journal first. */
    method Withdraw(p: Pending) returns (r: Step, q: Pending)
      requires Valid() && p.sandbox in slots && Barred(slots[p.sandbox]) && p.binding.Some?
      requires store.files.pending.Some? && p == store.files.pending.value.(binding := p.binding)
      requires store.files.pending.value.Valid(id)
      requires steady ==> store.Synced() && (Exposed(store.files) ==> apart)
      modifies store
      ensures Valid() && store.files.execution == old(store.files.execution) && store.files.pending.Some?
      ensures store.files.active in {old(store.files.active), None}
      ensures old(Ungranted(store.files)) ==> Invalidated(old(store.files), store.files)
      ensures old(!Ungranted(store.files)) ==> !Ungranted(store.files)
      ensures r == Done ==>
        q == store.files.pending.value.(binding := p.binding) && q.sandbox == p.sandbox && q.operationID == p.operationID
      ensures r == Done ==> q == p || (p.Next() == READY && q.Next() == STOPPED && q.recoveryFailed)
      ensures r != Done ==> store.faults > old(store.faults)
      ensures store.faults >= old(store.faults)
      ensures r == Done && q != p ==> !old(store.files.home) || store.faults > old(store.faults)
      ensures r == Done ==> if q.Next() == READY then store.files.home else !store.files.home && store.files.active.None?
      ensures r == Done && steady ==> store.Synced()
      ensures old(store.files.active.Some?) && old(store.fates) == [Made, Lost(false, Died)] && p.Next() != READY ==>
        r == Died && store.files == old(store.files).(active := None)
    {
      hide Valid, Underway, Settled, Barred;
      q := p;
      if p.Next() == READY {
        r := store.RepairHome();
        if r == Failed {
          q := p.(outcome := Some(STOPPED), recoveryFailed := true);
          BarredIsSettled(slots[p.sandbox]);
          r := Save(q);
          if r == Done {
            r := Invalidate();
          }
        }
      } else {
        r := Invalidate();
      }
    }

    /** Reports the outcome of an operation that is being recovered, and settles the profile
        by the answer. */
    method Acknowledge(q: Pending) returns (r: Step)
      requires Valid() && q.sandbox in slots && Barred(slots[q.sandbox]) && q.binding.Some?
      requires store.files.pending.Some? && q == store.files.pending.value.(binding := q.binding)
      requires q.outcome.Some? ==> ValidHealthOutcome(q.outcome.value) && store.files.pending.value.binding.Some?
      requires if q.Next() == READY then store.files.home else !store.files.home && store.files.active.None?
      requires steady ==> store.Synced()
      modifies store, this`confirmed, this`sent, this`said, this`troubles
      ensures Valid()
      ensures r == Done ==> store.files.pending.None? && store.Synced()
      ensures r == Done ==>
        store.files.completed == Some(q.operationID) && Took(Reply(said, q.operationID), q.operationID, q.Next())
      ensures r == Done && q.recoveryFailed ==> GivenUp(Reply(said, q.operationID))
      ensures r == Done ==>
        (store.files.active.Some? <==> q.Next() == READY && Reply(said, q.operationID).response.active == Bool(true))
      ensures r == Failed && q.binding.value.version != "" ==>
        Suffered() > old(Suffered()) || (q.recoveryFailed && !GivenUp(Reply(said, q.operationID)))
      ensures Suffered() >= old(Suffered()) && store.faults >= old(store.faults)
      ensures store.files.execution == old(store.files.execution)
      ensures store.files.pending.None? ==> Paired(store.files)
      ensures old(Ungranted(store.files)) ==>
        store.files == old(store.files) || Ended(old(store.files), store.files, q.operationID)
      ensures old(!Ungranted(store.files)) ==> store.files.pending.None? || !Ungranted(store.files)
      ensures store.files.active in {old(store.files.active), None} ||
              (q.Next() == READY && store.files.active == Some(q.binding.value.Stable()))
    {
      hide Valid, Underway, Settled, Barred;
      var outcome := q.Next();
      var answer := Complete(q, outcome);
      if answer == NoAnswer {
        return Failed;
      }
      var response := if answer == NotFound then Gone404(q.operationID) else answer.response;
      if !ValidCompletionResponse(response, q.operationID, outcome) {
        return Failed;
      }
      if q.recoveryFailed && (response.active == Bool(true) || response.health !in {"error", "disconnected"}) {
        return Failed;
      }
      r := Settle(q, outcome, response);
      if r == Done {
        r := MarkCompleted(q.operationID);
      }
    }

    /** A name nobody knew yet is barred. */
    method Introduce(n: string)
      requires Valid() && store.files.pending.None? && (steady ==> store.Synced())
      modifies this`slots
      ensures Valid() && n in slots && Barred(slots[n]) && Settled(slots[n])
    {
      hide Barred, Settled, Honest, Sane, Reported;
      if n !in slots {
        NewNameIsBarred(n);
        slots := slots[n := Slot(n, None, [], {}, {}, map[])];
      }
      BarredIsSettled(slots[n]);
    }

    /** Journals a new operation before the server is asked. */
    method Journal(operation: string, operationID: string) returns (r: Step, p: Pending)
      requires Valid() && store.files.pending.None? && store.files.execution.None? && (steady ==> store.Synced())
      modifies store, this`slots, this`sent
      ensures Valid() && sent == [] && p.sandbox == SandboxOf(operationID) && p.operationID == operationID
      ensures p == Pending(id, operationID, operation, p.sandbox, None, None, false, false)
      ensures store.files in {old(store.files), old(store.files).(pending := Some(p))}
      ensures r == Done ==> store.files.pending == Some(p) && p.sandbox in slots && Barred(slots[p.sandbox])
      ensures if r == Done then store.faults == old(store.faults) else store.faults > old(store.faults)
      ensures r == Done ==> store.Synced()
    {
      hide Barred, Settled, Honest, Slot.Well;
      p := Pending(id, operationID, operation, SandboxOf(operationID), None, None, false, false);
      Introduce(p.sandbox);
      sent := [];
      JournalLasts(store.files, p, confirmed, torn, slots, apart);
      r := store.Write(PendingIs(Some(p)));
    }

    /** Begins an operation and journals what the server grants. */
    method RequestGrant(p: Pending, now: int, grant: Grant, image: string, patience: nat) returns (r: Step, q: Pending)
      requires Valid() && store.files.pending == Some(p) && p.binding.None? && p.outcome.None? && !p.createAttempted
      requires p.sandbox in slots && Barred(slots[p.sandbox]) && sent == [] && (steady ==> store.Synced())
      modifies store, this`slots, this`confirmed, this`sent, this`said, this`troubles
      ensures Valid() && (r == Done ==> store.Synced())
      ensures r == Done ==>
        q == p.(binding := q.binding) && q.binding.Some? && store.files.pending == Some(q) && sent == []
      ensures r == Done ==> grant == Granted(q.binding.value) && ValidBinding(grant.binding, id, p.operationID, now)
      ensures r == Done ==> store.files == old(store.files).(pending := Some(q))
      ensures r == Failed && grant.Granted? && ValidBinding(grant.binding, id, p.operationID, now) ==>
        store.faults > old(store.faults)
      ensures grant.Refused? && DefinitiveBeginStatus(grant.status) ==>
        store.files == old(store.files).(pending := None) || store.faults > old(store.faults)
      ensures Suffered() >= old(Suffered()) && store.faults >= old(store.faults)
      ensures store.files.pending.None? ==>
        (Paired(store.files) <==> old(Paired(store.files)) || !TurnedDown(grant, id, p.operationID, now))
      ensures Orphaned(store.files) ==> old(Orphaned(store.files))
    {
      hide Valid, Underway, Settled, Barred;
      q := p;
      match grant
      case NoGrant => r := Failed;
      case Refused(status) =>
        r := Failed;
        if DefinitiveBeginStatus(status) {
          var forgotten := Finish();
        }
      case Granted(b) =>
        if !ValidBinding(b, id, p.operationID, now) {
          r := RejectBegin(p, b, image, patience);
          if r == Done {
            r := Failed;
          }
          return;
        }
        q := p.(binding := Some(b));
        BarredIsSettled(slots[p.sandbox]);
        r := Save(q);
    }

    /** Journals and reports the outcome, and settles the profile by the answer. */
    method Submit(p: Pending, outcome: Health) returns (r: Step, final: Health)
      requires Valid() && p.sandbox in slots && Barred(slots[p.sandbox]) && p.binding.Some? && p.outcome.None? && sent == []
      requires store.files.pending.Some? && store.files.pending.value.(createAttempted := false) == p.(createAttempted := false)
      requires ValidHealthOutcome(outcome) && (steady ==> Underway(store.may, p)) && (outcome == READY ==> store.files.home)
      modifies store, this`confirmed, this`sent, this`said, this`troubles
      ensures Valid()
      ensures r == Done ==> store.files.pending.None? && store.Synced()
      ensures if store.files.pending.None? then Paired(store.files) else !Ungranted(store.files)
      ensures r == Done ==> (final == READY <==> store.files.active.Some?)
      ensures r == Done && final == READY ==> outcome == READY && store.files.active == Some(p.binding.value.Stable())
      ensures r == Done ==>
        store.files.completed == Some(p.operationID) && Took(said, p.operationID, outcome) && Settles(said, p.operationID, final)
      ensures r == Done ==> final == outcome || (outcome == READY && final == STOPPED)
      ensures r == Failed && p.binding.value.version != "" ==> Suffered() > old(Suffered())
      ensures Suffered() >= old(Suffered()) && store.faults >= old(store.faults)
    {
      hide Valid, Settled, Barred;
      final := outcome;
      var q := p.(outcome := Some(final));
      BarredIsSettled(slots[p.sandbox]);
      r := Save(q);
      if r != Done {
        return;
      }
      var answer := Complete(q, final);
      if !answer.Answered? || !ValidCompletionResponse(answer.response, q.operationID, final) {
        return Failed, final;
      }
      r := Settle(q, final, answer.response);
      if r == Done {
        if final == READY && answer.response.active != Bool(true) {
          final := STOPPED;
        }
        r := MarkCompleted(q.operationID);
      }
    }

    /** Journals the outcome of a stopped operation, reports it, and settles the profile. What
        it calls ready in the end is a profile the server confirmed active. */
    method Report(p: Pending, outcome: Health) returns (r: Step, final: Health)
      requires Valid() && p.sandbox in slots && Barred(slots[p.sandbox]) && p.binding.Some? && p.outcome.None? && sent == []
      requires store.files.pending.Some? && store.files.pending.value.(createAttempted := false) == p.(createAttempted := false)
      requires ValidHealthOutcome(outcome) && (steady ==> Underway(store.may, p))
      modifies store, this`confirmed, this`sent, this`said, this`troubles
      ensures Valid()
      ensures r == Done ==> store.files.pending.None? && store.Synced()
      ensures if store.files.pending.None? then Paired(store.files) else !Ungranted(store.files)
      ensures r == Done ==> (final == READY <==> store.files.active.Some?)
      ensures r == Done && final == READY ==> outcome == READY && store.files.active == Some(p.binding.value.Stable())
      ensures r == Done ==> store.files.completed == Some(p.operationID)
      ensures r == Done ==> Settles(said, p.operationID, final)
      ensures r == Done ==> final == outcome || (outcome == READY && final in {STOPPED, FAILED})
      ensures r == Done && outcome == READY && final == FAILED ==>
        !old(store.files.home) || store.faults > old(store.faults)
      ensures r == Failed && p.binding.value.version != "" ==> Suffered() > old(Suffered())
      ensures Suffered() >= old(Suffered()) && store.faults >= old(store.faults)
    {
      hide Valid, Settled, Barred;
      final := outcome;
      if outcome.health != "ready" {
        r := Invalidate();
        if r != Done {
          return;
        }
      } else {
        var kept := store.RepairHome();
        if kept == Died {
          return Died, final;
        }
        if kept == Failed {
          final := FAILED;
          r := Invalidate();
          if r != Done {
            return;
          }
        }
      }
      r, final := Submit(p, final);
    }

    /** Recovers what is left of an earlier operation, then journals the new one. */
    method Admit(operation: string, operationID: string, now: int, earlier: Grant, image: string, patience: nat)
      returns (r: Step, p: Pending)
      requires Valid() && (steady ==> store.Synced() && (Exposed(store.files) ==> apart))
      modifies store, this`slots, this`confirmed, this`sent, this`said, this`troubles
      ensures Valid() && (r == Done ==> store.Synced())
      ensures old(store.files.execution.Some?) ==> r != Done && store.files == old(store.files)
      ensures r == Done ==>
        sent == [] && p.binding.None? && p.outcome.None? && !p.createAttempted && p.operation == operation
      ensures r == Done ==> store.files.pending == Some(p) && p.sandbox in slots && Barred(slots[p.sandbox])
      ensures r == Done ==>
        && p.operationID == operationID && p.sandbox == SandboxOf(operationID)
        && Ulid(operationID) && operation in {"login", "probe", "disconnect"}
      ensures r == Done ==> store.files.completed != Some(operationID)
      ensures old(store.files.pending.None? && store.files.completed == Some(operationID)) ==>
        r != Done && store.files == old(store.files)
      ensures old(store.files.pending.None?) && r == Failed ==>
        || store.faults > old(store.faults) || !Ulid(operationID) || operation !in {"login", "probe", "disconnect"}
        || old(store.files.execution.Some?) || old(store.files.completed) == Some(operationID)
      ensures Suffered() >= old(Suffered()) && store.faults >= old(store.faults)
      ensures r == Done ==> if old(store.files.pending.None?) then store.files == old(store.files).(pending := Some(p))
                            else Paired(store.files)
      ensures old(store.files.pending.None?) && store.files.pending.None? ==> store.files == old(store.files)
      ensures old(store.files.pending.Some?) && (r == Done || store.files.pending.None?) ==>
        (Paired(store.files) <==>
           !(old(Orphaned(store.files)) && StoppedGrant(earlier, id, old(store.files).pending.value.operationID, now)))
      ensures Orphaned(store.files) ==> old(Orphaned(store.files) || Exposed(store.files))
    {
      hide Valid, Underway, Settled, Barred;
      r, p := Failed, Pending(id, operationID, operation, SandboxOf(operationID), None, None, false, false);
      if !Ulid(operationID) || operation !in {"login", "probe", "disconnect"} {
        return;
      }
      r := store.Read();
      if r != Done {
        return;
      }
      if store.files.execution.Some? {
        return Failed, p;
      }
      r := Recover(now, earlier, image, patience);
      if r != Done {
        return;
      }
      if store.files.completed == Some(operationID) {
        return Failed, p;
      }
      r, p := Journal(operation, operationID);
    }

    /** One login, probe or disconnect. Nil leaves no operation, and active identity and
        home together; it calls the profile ready exactly when an identity is active.
        `earlier` is the server's answer for the operation found journalled, `grant` the one
        for this operation. If no operation is left, identity and home are together unless
        they were apart before, with no grant journalled, and either nothing was done or the
        server turned the operation down. */
    method Operate(operation: string, operationID: string, now: int, earlier: Grant, grant: Grant, image: string,
                   home: string, native: Native, patience: nat)
      returns (r: Step, outcome: Health, ghost result: Option<Health>, ghost before: Option<Identity>)
      requires Valid()
      modifies store, this`slots, this`confirmed, this`sent, this`said, this`troubles, this`steady, this`apart
      ensures Valid() && (r == Done ==> store.Synced())
      ensures old(store.Synced()) ==> steady && (apart ==> old(Orphaned(store.files) || Exposed(store.files)))
      ensures old(store.files.execution.Some?) ==> r != Done && store.files == old(store.files)
      ensures r == Done ==>
        && Ulid(operationID) && operation in {"login", "probe", "disconnect"}
        && grant.Granted? && ValidBinding(grant.binding, id, operationID, now)
        && Achieved(store.files, slots, said, grant.binding, operation, operationID, outcome, result, before, image, home,
                    native)
      ensures r == Done && result == Some(READY) && outcome == FAILED ==> store.faults > old(store.faults)
      ensures old(store.files.pending.None?) ==> before == old(store.files.active)
      ensures old(store.files.pending.None? && store.files.completed == Some(operationID)) ==>
        r != Done && store.files == old(store.files)
      ensures store.files.pending.None? ==>
        (Paired(store.files) <==> !LeftApart(old(store.files), store.files, id, operationID, now, earlier, grant))
      ensures Orphaned(store.files) ==> old(Orphaned(store.files) || Exposed(store.files))
    {
      hide Valid, Underway, Settled, Barred, Achieved, Ulid, ValidBinding, StoppedGrant, TurnedDown, LeftApart, Paired,
           Orphaned, Exposed;
      ghost var f := store.files;
      outcome, result, before := FAILED, None, f.active;
      BeginCall();
      Known();
      var p;
      r, p := Admit(operation, operationID, now, earlier, image, patience);
      ghost var a := store.files;
      if r != Done {
        if a.pending.None? {
          EndsApart(f, a, a, id, operationID, now, earlier, grant);
        }
        return;
      }
      before := a.active;
      r, outcome, result := Undertake(p, now, grant, image, home, native, patience);
      if store.files.pending.None? {
        EndsApart(f, a, store.files, id, operationID, now, earlier, grant);
      }
    }

    /** Asks for the grant of a journalled operation and carries it out. */
    method Undertake(p: Pending, now: int, grant: Grant, image: string, home: string, native: Native, patience: nat)
      returns (r: Step, outcome: Health, ghost result: Option<Health>)
      requires Valid() && store.files.pending == Some(p) && p.binding.None? && p.outcome.None? && !p.createAttempted
      requires p.sandbox in slots && Barred(slots[p.sandbox]) && sent == [] && (steady ==> store.Synced())
      requires p.sandbox == SandboxOf(p.operationID)
      modifies store, this`slots, this`confirmed, this`sent, this`said, this`troubles
      ensures Valid() && (r == Done ==> store.Synced())
      ensures r == Done ==>
        && grant.Granted? && ValidBinding(grant.binding, id, p.operationID, now)
        && Achieved(store.files, slots, said, grant.binding, p.operation, p.operationID, outcome, result, old(store.files.active),
                    image, home, native)
      ensures r == Done && result == Some(READY) && outcome == FAILED ==> store.faults > old(store.faults)
      ensures store.files.pending.None? ==>
        (Paired(store.files) <==> old(Paired(store.files)) || !TurnedDown(grant, id, p.operationID, now))
      ensures Orphaned(store.files) ==> old(Orphaned(store.files))
    {
      hide Valid, Underway, Settled, Barred, Achieved, ValidBinding, TurnedDown;
      outcome, result := FAILED, None;
      var q;
      r, q := RequestGrant(p, now, grant, image, patience);
      if r != Done {
        return;
      }
      GrantedIsNotTurnedDown(grant, id, p.operationID, now);
      r, outcome, result := Perform(q, image, home, native, patience);
    }

    /** Carries out a granted operation and stops its container. */
    method CarryOut(p: Pending, image: string, home: string, native: Native, patience: nat)
      returns (r: Step, q: Pending, outcome: Health, ghost result: Option<Health>)
      requires Valid() && store.files.pending == Some(p) && p.binding.Some? && p.outcome.None? && !p.createAttempted
      requires sent == [] && (steady ==> store.Synced())
      modifies store, this`slots, this`troubles
      ensures Valid() && q == p.(createAttempted := q.createAttempted) && (steady ==> Underway(store.may, p))
      ensures store.files.pending.Some? && store.files.pending.value.(createAttempted := false) == p && p.sandbox in slots
      ensures r == Done ==> Barred(slots[p.sandbox]) && ValidHealthOutcome(outcome)
      ensures r == Done ==>
        if p.operation == "disconnect" then outcome == DISCONNECTED
        else
          outcome == (if result.Some? then result.value else FAILED)
          && Judged(p.binding.value, p.operation, old(store.files.active), native, result)
      ensures r == Done && outcome == READY ==> Served(slots[p.sandbox], image, home) && store.files.home
      ensures Suffered() >= old(Suffered()) && store.faults >= old(store.faults)
    {
      hide Valid, Slot.Well, Slot.Empty, Closed, Honest, Settled, Barred, WatchdogPhase.Agree, Served, Drifted, Thwarted,
           Judged, Native.Errs, CredentialReference, Underway, Obstinate, ValidHealthOutcome;
      Known();
      ErrorsAreValid();
      outcome, result := DISCONNECTED, None;
      ghost var before := store.files.active;
      q := p;
      JustUnderway(store.files, store.may);
      var watchdog: Option<WatchdogPhase.Lease> := None;
      if p.operation != "disconnect" {
        var health;
        r, health, q, watchdog := Authenticate(p, image, home, native);
        result := health;
        JudgedIsValid(p.binding.value, p.operation, before, native, result);
        if r == Died {
          return;
        }
        outcome := if r == Done && health.Some? then health.value else FAILED;
      }
      if steady {
        UnderwayNames(store.may, p);
      }
      ghost var w := slots[p.sandbox];
      r := StopPending(q, watchdog, image, patience);
      if outcome == READY {
        ServedStays(w, slots[p.sandbox], image, home);
      }
    }

    /** Carries out a granted operation, stops its container, and reports. */
    method Perform(p: Pending, image: string, home: string, native: Native, patience: nat)
      returns (r: Step, outcome: Health, ghost result: Option<Health>)
      requires Valid() && store.files.pending == Some(p) && p.binding.Some? && p.outcome.None? && !p.createAttempted
      requires p.sandbox == SandboxOf(p.operationID) && sent == [] && (steady ==> store.Synced())
      modifies store, this`slots, this`confirmed, this`sent, this`said, this`troubles
      ensures Valid()
      ensures r == Done ==> store.Synced()
      ensures if store.files.pending.None? then Paired(store.files) else !Ungranted(store.files)
      ensures r == Done ==>
        Achieved(store.files, slots, said, p.binding.value, p.operation, p.operationID, outcome, result, old(store.files.active),
                 image, home, native)
      ensures r == Done && result == Some(READY) && outcome == FAILED ==> store.faults > old(store.faults)
      ensures store.faults >= old(store.faults)
    {
      hide Valid, Barred, Served, Judged, Achieved, Settles, Underway, ValidHealthOutcome;
      ghost var before := store.files.active;
      var q;
      r, q, outcome, result := CarryOut(p, image, home, native, patience);
      if r != Done {
        return;
      }
      if steady {
        UnderwayNames(store.may, p);
      }
      ghost var reached := outcome;
      r, outcome := Report(q, outcome);
      if r == Done {
        ReportAchieves(store.files, slots, said, p, reached, outcome, result, before, image, home, native);
      }
    }

    /** Journals a fenced execution while no operation is under way. */
    method ReserveExecution(claim: Claim) returns (r: Step)
      requires Valid()
      modifies store, this`steady, this`apart
      ensures old(store.Synced()) ==> steady && (apart ==> old(Orphaned(store.files) || Exposed(store.files)))
      ensures Valid() && store.files.(execution := old(store.files.execution)) == old(store.files)
      ensures r == Done ==> store.files.execution == Some(claim) && claim.Valid()
      ensures r == Failed ==>
        store.faults > old(store.faults) || !claim.Valid() || old(store.files.pending.Some? || store.files.execution.Some?)
      ensures old(store.files.pending.Some? || store.files.execution.Some?) ==>
        r != Done && store.files == old(store.files)
    {
      hide NeverImproves, Barred, Settled, Honest;
      BeginCall();
      r := store.Read();
      if r != Done {
        return;
      }
      if !claim.Valid() || store.files.pending.Some? || store.files.execution.Some? {
        return Failed;
      }
      r := store.Write(ExecutionIs(Some(claim)));
    }

    /** Clears the reservation of the same claim once the home was normalized. */
    method ReleaseExecution(claim: Claim) returns (r: Step)
      requires Valid()
      modifies store, this`steady, this`apart
      ensures old(store.Synced()) ==> steady && (apart ==> old(Orphaned(store.files) || Exposed(store.files)))
      ensures Valid() && store.files.(execution := old(store.files.execution)) == old(store.files)
      ensures store.files.execution in {old(store.files.execution), None}
      ensures r == Done ==> store.files.execution.None? && (old(store.files.execution.Some?) ==> store.files.home)
      ensures r == Failed ==>
        store.faults > old(store.faults) || old(store.files.execution) !in {None, Some(claim)} || !store.files.home
      ensures old(store.files.execution) !in {None, Some(claim)} ==> r != Done && store.files == old(store.files)
    {
      hide NeverImproves, Barred, Settled, Honest;
      BeginCall();
      r := store.Read();
      if r != Done || store.files.execution.None? {
        return;
      }
      if store.files.execution != Some(claim) {
        return Failed;
      }
      r := store.RepairHome();
      if r != Done {
        return;
      }
      r := store.Forget(ExecutionIs(None));
    }

    /** What goes on under any operation's name by itself: delayed requests, and the
        watchdog of any operation. */
    method Environment(patience: nat)
      requires Valid()
      modifies this`slots
      ensures Valid()
    {
      hide Sane, Reported, Slot.Well, Honest, Drifted, OrdersOwned, Barred, Settled;
      var name: string := *;
      if name in slots {
        ghost var v := slots[name];
        DriftIsReflexive(v);
        var docker := new Docker.Resume(slots[name]);
        if * {
          docker.Drift(v);
          BarredStays(v, docker.slot);
          ClosedStays(v, docker.slot);
        } else {
          var inFlight: bool, container: string := *, *;
          var outcome, landed := CleanUpSandbox(docker, inFlight, Confirmed(container), OfProfile, patience);
          CleanupKeepsBars(v, docker.slot);
        }
        if steady {
          SlotsLast(store.may, confirmed, sent, slots, apart, name, docker.slot);
        }
        slots := slots[name := docker.slot];
      }
    }

    /** A power failure during or after a call that began with everything synced. */
    method PowerFailure()
      requires Valid() && steady
      modifies store, this`torn
      ensures Valid() && store.files in old(store.may)
      ensures Orphaned(store.files) ==> apart
    {
      hide NeverImproves, Settled, Barred, Honest;
      store.Restart();
      torn := true;
    }

    /** Any number of operations, executions, and of what goes on in between, with the
        process killed anywhere, and power failures anywhere in calls that began with
        everything synced; `trace` is the journals and the home between them. If no operation
        began beside an active identity with a journal that held no grant, then identity and
        home are together whenever no operation is journalled. No name can then hold anything
        but a tombstone. */
    method Run(rounds: nat) returns (ghost trace: seq<Files>, powerFailures: nat)
      requires Valid()
      modifies store, this`slots, this`confirmed, this`sent, this`said, this`troubles, this`torn, this`steady, this`apart
      ensures Valid() && NeverImproves(sent)
      ensures store.files.active.Some? ==> store.files.active.value in confirmed
      ensures store.files.active.Some? && (Ungranted(store.files) || (powerFailures == 0 && !old(torn))) ==>
        store.files.home
      ensures !(store.files.pending.Some? && store.files.execution.Some?)
      ensures |trace| == rounds + 1 && trace[0] == old(store.files) && trace[rounds] == store.files
      ensures forall i :: 0 <= i < rounds && Orphaned(trace[i + 1]) ==> Orphaned(trace[i]) || Exposed(trace[i])
      ensures !Orphaned(trace[0]) && (forall i :: 0 <= i < rounds ==> !Exposed(trace[i])) && store.files.pending.None? ==>
        Paired(store.files)
      ensures store.files.pending.None? ==>
        forall n :: n in slots && slots[n].holder.Some? ==> Tombstone(slots[n].holder.value.container)
    {
      hide Sane, Reported, Fences, Settled, Barred, Honest, Lasting, AllLast;
      trace, powerFailures := [store.files], 0;
      for i := 0 to rounds
        invariant Valid() && |trace| == i + 1 && trace[0] == old(store.files) && trace[i] == store.files
        invariant powerFailures == 0 ==> torn == old(torn)
        invariant forall j :: 0 <= j < i && Orphaned(trace[j + 1]) ==> Orphaned(trace[j]) || Exposed(trace[j])
      {
        var operation: string, operationID: string, image: string, home: string, now: int := *, *, *, *, *;
        var run: string, attempt: string, fence: int := *, *, *;
        var earlier: Grant, grant: Grant, native: Native := *, *, *;
        var synced := store.Synced();
        var r;
        if {
          case true =>
            var outcome;
            ghost var result, before;
            r, outcome, result, before :=
              Operate(operation, operationID, now, earlier, grant, image, home, native, rounds);
          case true => r := ReserveExecution(Claim(run, attempt, fence));
          case true => r := ReleaseExecution(Claim(run, attempt, fence));
          case true => Environment(rounds); synced := false;
        }
        var fails: bool := *;
        if fails && synced {
          PowerFailure();
          powerFailures := powerFailures + 1;
        }
        trace := trace + [store.files];
      }
      ValidMeans(store.files, confirmed, torn, sent, slots);
      if store.files.pending.None? {
        ApartIsOrphaned(store.files, confirmed, torn);
      }
      if !Orphaned(trace[0]) && forall j :: 0 <= j < rounds ==> !Exposed(trace[j]) {
        NeverOrphaned(trace, rounds);
      }
    }

    /** An execution in which they come apart: a recovery that was granted is cut short
        after the identity was forgotten, and for the next the server says stopped. */
    method TakeApart(granted: Binding, stopped: Binding, image: string, patience: nat)
      requires Valid() && Exposed(store.files) && store.files.pending.value.Valid(id) && store.Synced()
      requires Barred(slots[store.files.pending.value.sandbox]) && granted.profile == id
      requires NamesOperation(stopped, id, store.files.pending.value.operationID) && stopped.stopped == Bool(true)
      modifies store, this`slots, this`confirmed, this`sent, this`said, this`troubles, this`steady, this`apart
      ensures Valid() && store.files == old(store.files).(active := None, pending := None) && !Paired(store.files)
    {
      hide Reported, Fences, Settled, Barred, Honest, Lasting, AllLast;
      var p := store.files.pending.value;
      SandboxIsKnown(store.files, slots);
      BeginCall();
      store.fates := [Made, Lost(false, Died)];
      var r := Conclude(p.(binding := Some(granted)));
      BeginCall();
      store.fates := [Made, Made];
      r := RejectBegin(p, stopped, image, patience);
      store.fates := [];
    }
  }
}
