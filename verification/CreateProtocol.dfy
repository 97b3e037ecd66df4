/** How the watchdog channel and the daemon stand to each other while a container is being
    created (internal/sandbox/watchdog.go). */
module CreateProtocol {
  import opened Directory
  import opened Daemon
  import opened SandboxDocker
  import opened WatchdogPhase

  /** What binds the watchdog channel to the name: a create that may still take effect is
      one the supervisor holds in flight with the watchdog's knowledge, and a container it
      reported is the one create there was. */
  ghost predicate Guarded(p: ParentState, w: Slot) {
    && w.Load() <= 1
    && (w.pending != [] ==> p.inFlight && !p.unknown)
    && forall id :: id in p.reported && id != "" ==> w.pending == [] && (w.holder.Some? ==> w.Has(id))
  }

  function Confirmed(id: string): Option<Id> {
    if id == "" then None else Some(id)
  }

  /** Whenever the watchdog goes to clean up, the flag and container it took along are
      right: a later clean end then leaves nothing under the name and nothing to come. */
  lemma CleanupIsWatched(p: ParentState, c: ChildState,
                         input: seq<Message>, output: seq<Response>, w: Slot)
    requires Agree(p, c, input, output) && Guarded(p, w) && c.status.Cleaning?
    ensures Watched(w, c.status.inFlight, Confirmed(c.status.id))
  {
    AgreementMeans(p, c, input, output);
  }

  lemma StillGuarded(p: ParentState, v: Slot, w: Slot)
    requires Guarded(p, v) && Drifted(v, w)
    ensures Guarded(p, w)
  {
    NobodyNewComes(v, w);
  }

  /** The watchdog channel is fresh and nothing is under the name or on its way. */
  ghost predicate Untried(p: ParentState, w: Slot) {
    w.Empty() && p.reported == {}
  }

  lemma OneCreate(p: ParentState, v: Slot, w: Slot, c: Container, dispatched: bool)
    requires Untouched(if dispatched then v.(pending := v.pending + [c]) else v, w)
    requires p.inFlight && !p.unknown
    ensures Untried(p, v) ==> Guarded(p, w)
    ensures !dispatched ==> w.Load() <= v.Load() && (v.pending == [] ==> w.pending == [])
    ensures v.Empty() && w.holder.Some? ==> w.pending == []
  {
    NobodyNewComes(if dispatched then v.(pending := v.pending + [c]) else v, w);
  }

  lemma NowReported(p: ParentState, q: ParentState, w: Slot, id: Id)
    ensures Guarded(p, w) && p.reported == {} && q.reported <= {id} && w.pending == [] && (w.holder.Some? ==>
      w.Has(id)) ==>
      Guarded(q, w)
  {
  }
}
