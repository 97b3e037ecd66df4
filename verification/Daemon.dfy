/** One container name at a Docker daemon, as clients see it.

    A request whose client gave up may still take effect, at any later time: a create
    lands if the name is free by then, a removal removes. Containers may exit by
    themselves. Container ids are never used twice. */
module Daemon {
  import opened Directory

  type Id = string

  datatype Labels =
    | Attempt(run: string, attempt: string, fence: int)
    | Profile(sandbox: string, reservation: bool)
    | Foreign

  datatype Mount = Mount(bind: bool, source: string, destination: string)

  datatype Container = Container(name: string, image: string, labels: Labels, mounts: seq<Mount>, running: bool)

  datatype Tenant = Tenant(id: Id, container: Container)

  /** `pending` are creates under the name, `started` and `doomed` starts and removals of
      containers, that were sent and may still take effect; `used` are the containers that
      ever had the name, as they were created. */
  datatype Slot = Slot(name: string, holder: Option<Tenant>, pending: seq<Container>, started: set<Id>, doomed: set<Id>,
                       used: map<Id, Container>)
  {
    ghost predicate Well() {
      && (forall c :: c in pending ==> c.name == name && !c.running)
      && (forall i :: i in used ==> used[i].name == name && !used[i].running)
      && (forall i :: i in started + doomed ==> i in used)
      && (holder.Some? ==> holder.value.id in used && used[holder.value.id] == holder.value.container.(running := false))
    }

    /** How many creates are left that did or may take effect. */
    function Load(): nat {
      |pending| + if holder.Some? then 1 else 0
    }

    predicate Has(id: Id) {
      holder.Some? && holder.value.id == id
    }

    /** Nothing is under the name and nothing can come. */
    predicate Empty() {
      holder.None? && pending == []
    }
  }

  /** One thing that may happen unasked. */
  datatype Event = Land(request: nat, id: Id) | Lapse(request: nat) | Rise | Exit | Obey

  predicate Enabled(w: Slot, e: Event) {
    match e
    case Land(r, i) => r < |w.pending| && i !in w.used && w.holder.None?
    case Lapse(r) => r < |w.pending|
    case Rise => w.holder.Some? && w.holder.value.id in w.started
    case Exit => w.holder.Some?
    case Obey => w.holder.Some? && w.holder.value.id in w.doomed
  }

  function Without<T>(s: seq<T>, k: nat): (r: seq<T>)
    requires k < |s|
    ensures forall x :: x in r ==> x in s
  {
    s[..k] + s[k + 1..]
  }

  function Happen(w: Slot, e: Event): Slot
    requires Enabled(w, e)
  {
    match e
    case Land(r, i) =>
      w.(holder := Some(Tenant(i, w.pending[r])), pending := Without(w.pending, r), used := w.used[i := w.pending[r]])
    case Lapse(r) => w.(pending := Without(w.pending, r))
    case Rise => w.(holder := Some(w.holder.value.(container := w.holder.value.container.(running := true))))
    case Exit => w.(holder := Some(w.holder.value.(container := w.holder.value.container.(running := false))))
    case Obey => w.(holder := None)
  }

  /** What any number of events, and of starts and removals, may do. Creates and removals
      take effect only where one was sent. */
  ghost predicate Drifted(v: Slot, w: Slot) {
    && (v.Well() ==> w.Well())
    && w.name == v.name && v.started <= w.started && v.doomed <= w.doomed
    && w.Load() <= v.Load() && |w.pending| <= |v.pending|
    && (forall c :: c in w.pending ==> c in v.pending)
    && (forall i :: i in v.used ==> i in w.used && w.used[i] == v.used[i])
    && (forall i :: i in w.used ==> i in v.used || w.used[i] in v.pending)
    && (w.holder.Some? ==>
          if v.Has(w.holder.value.id) then
            w.holder.value.container.running ==> v.holder.value.container.running || w.holder.value.id in w.started
          else
            && w.holder.value.id !in v.used && w.holder.value.container.(running := false) in v.pending
            && (w.holder.value.container.running ==> w.holder.value.id in w.started))
    && (v.holder.Some? ==> w.Has(v.holder.value.id) || v.holder.value.id in w.doomed)
  }

  /** Nobody asked for anything in between. */
  ghost predicate Untouched(v: Slot, w: Slot) {
    Drifted(v, w) && w.started == v.started && w.doomed == v.doomed
  }

  lemma EventDrifts(w: Slot, e: Event)
    requires Enabled(w, e) && w.Well()
    ensures Untouched(w, Happen(w, e))
  {
  }

  lemma DriftIsTransitive(u: Slot, v: Slot, w: Slot)
    requires Drifted(u, v) && Drifted(v, w) && u.Well()
    ensures Drifted(u, w)
  {
  }

  // ---- Fence ---------------------------------------------------------------------

  /** A stopped container without mounts that only occupies its name. */
  predicate Tombstone(c: Container) {
    c.labels == Profile(c.name, true) && c.mounts == [] && !c.running
  }

  /** No create that lands later can bring a container under the name. */
  predicate Fenced(w: Slot) {
    || w.Empty()
    || (w.holder.Some? && Tombstone(w.holder.value.container) && w.holder.value.id !in w.doomed + w.started)
  }

  /** A fence stands whatever happens unasked, and only its tombstone is behind it. */
  lemma FenceHolds(v: Slot, w: Slot)
    requires Untouched(v, w) && v.Well() && Fenced(v)
    ensures Fenced(w)
    ensures w.holder.Some? ==> Tombstone(w.holder.value.container)
  {
  }

  // ---- Client --------------------------------------------------------------------

  /** What an inspection answers. */
  datatype Answer = Absent | Found(tenant: Tenant) | Unknown

  datatype Key = ByName | ById(id: Id)

  /** No create was added to those on their way. */
  ghost predicate NoMore(v: Slot, w: Slot) {
    forall c :: c in w.pending ==> c in v.pending
  }

  /** A container that ever had the name stays known as it was created. */
  ghost predicate Remembers(v: Slot, w: Slot, id: Id) {
    id in v.used ==> id in w.used && w.used[id] == v.used[id]
  }

  /** The daemon. Every request gives time to whatever is under way. `since` is any
      earlier state, from which all that happened is drift. `troubles` counts the requests
      that got no good answer though nothing under the name stood in their way. */
  class Docker {
    var slot: Slot
    ghost var troubles: nat

    constructor (name: string)
      ensures slot == Slot(name, None, [], {}, {}, map[]) && slot.Well() && troubles == 0
    {
      slot, troubles := Slot(name, None, [], {}, {}, map[]), 0;
    }

    constructor Resume(slot: Slot)
      ensures this.slot == slot && troubles == 0
    {
      this.slot, troubles := slot, 0;
    }

    method Drift(ghost since: Slot)
      requires slot.Well() && since.Well() && Drifted(since, slot)
      modifies `slot
      ensures slot.Well() && Drifted(since, slot) && Untouched(old(slot), slot)
      ensures slot.name == old(slot.name) && slot.started == old(slot.started) && slot.doomed == old(slot.doomed)
    {
      hide Drifted, Slot.Well;
      ghost var entry := slot;
      DriftIsReflexive(slot);
      var events: nat := *;
      while events > 0
        invariant slot.Well() && Drifted(since, slot) && Untouched(entry, slot)
      {
        var e: Event := *;
        if Enabled(slot, e) {
          EventDrifts(slot, e);
          DriftIsTransitive(entry, slot, Happen(slot, e));
          DriftIsTransitive(since, slot, Happen(slot, e));
          slot := Happen(slot, e);
        }
        events := events - 1;
      }
      DriftIsQuiet(entry, slot);
    }

    /** Looks a container up. One with another name may answer to an id that never had
        this one. */
    method Inspect(key: Key, ghost since: Slot) returns (answer: Answer)
      requires slot.Well() && since.Well() && Drifted(since, slot)
      modifies this
      ensures slot.Well() && Drifted(since, slot) && Untouched(old(slot), slot)
      ensures slot.name == old(slot.name) && slot.started == old(slot.started) && slot.doomed == old(slot.doomed)
      ensures key.ById? ==> Remembers(old(slot), slot, key.id)
      ensures answer.Absent? && key.ByName? ==> slot.holder.None?
      ensures answer.Absent? && key.ById? ==> !slot.Has(key.id)
      ensures answer.Found? && key.ById? ==> answer.tenant.id == key.id
      ensures answer.Found? && (key.ByName? || key.id in slot.used || answer.tenant.container.name == slot.name) ==>
                slot.holder == Some(answer.tenant)
      ensures troubles == old(troubles) + if answer.Unknown? then 1 else 0
    {
      Drift(since);
      if * {
        troubles := troubles + 1;
        return Unknown;
      }
      if slot.holder.Some? && (key.ByName? || key.id == slot.holder.value.id) {
        return Found(slot.holder.value);
      }
      if key.ById? && key.id !in slot.used {
        var c: Container := *;
        if c.name != slot.name {
          return Found(Tenant(key.id, c));
        }
      }
      return Absent;
    }

    /** Sends a create. Only a reply says that it took effect; without one it may have,
        may still, or may never. */
    method Create(c: Container) returns (dispatched: bool, reply: Option<Id>)
      requires slot.Well() && c.name == slot.name && !c.running
      modifies this
      ensures slot.Well() && slot.name == old(slot.name)
      ensures !dispatched ==> reply == None && Untouched(old(slot), slot)
      ensures dispatched ==> Untouched(old(slot).(pending := old(slot.pending) + [c]), slot)
      ensures reply.Some? ==> slot.Has(reply.value) && reply.value in slot.used && slot.used[reply.value] == c
      ensures reply.Some? ==> reply.value !in old(slot.used)
      ensures reply.Some? || !dispatched ==> NoMore(old(slot), slot)
      ensures troubles >= old(troubles) && (reply.Some? ==> troubles == old(troubles))
      ensures reply.None? && troubles == old(troubles) ==> old(slot.holder.Some? || slot.pending != [])
    {
      hide Drifted;
      DriftIsReflexive(slot);
      Drift(slot);
      var id: Id := *;
      NobodyNewComes(old(slot), slot);
      DriftIsQuiet(old(slot), slot);
      assert Remembers(old(slot), slot, id);
      ghost var drifted := slot;
      dispatched := *;
      if !dispatched {
        troubles := troubles + 1;
        return false, None;
      }
      SentBeforeDrift(old(slot), slot, c);
      ghost var asked := old(slot).(pending := old(slot.pending) + [c]);
      slot := slot.(pending := slot.pending + [c]);
      var e := Land(|slot.pending| - 1, id);
      var lands: bool := *;
      if lands && Enabled(slot, e) {
        EventDrifts(slot, e);
        DriftIsTransitive(asked, slot, Happen(slot, e));
        slot := Happen(slot, e);
        assert slot.pending == drifted.pending;
        return true, Some(id);
      }
      if slot.holder.None? {
        troubles := troubles + 1;
      }
      Drift(asked);
      reply := None;
    }

    /** Sends a start, which from now on may take effect at any time. */
    method Start(id: Id, ghost since: Slot) returns (ok: bool)
      requires slot.Well() && since.Well() && Drifted(since, slot) && id in slot.used
      modifies this
      ensures slot.Well() && Drifted(since, slot) && slot.name == old(slot.name) && Remembers(old(slot), slot, id)
      ensures slot.started == old(slot.started) + {id} && slot.doomed == old(slot.doomed)
      ensures troubles == old(troubles) + if ok then 0 else 1
    {
      slot := slot.(started := slot.started + {id});
      Drift(since);
      ok := *;
      troubles := troubles + if ok then 0 else 1;
    }

    /** Sends a stop or a kill. */
    method Halt(id: Id, ghost since: Slot) returns (ok: bool)
      requires slot.Well() && since.Well() && Drifted(since, slot)
      modifies this
      ensures slot.Well() && Drifted(since, slot) && Untouched(old(slot), slot)
      ensures slot.name == old(slot.name) && slot.started == old(slot.started) && slot.doomed == old(slot.doomed)
      ensures Remembers(old(slot), slot, id)
      ensures troubles == old(troubles) + if ok then 0 else 1
    {
      hide Drifted;
      Drift(since);
      if * {
        if slot.Has(id) {
          EventDrifts(slot, Exit);
          DriftIsTransitive(old(slot), slot, Happen(slot, Exit));
          DriftIsTransitive(since, slot, Happen(slot, Exit));
          slot := Happen(slot, Exit);
        }
      }
      DriftIsQuiet(old(slot), slot);
      ok := *;
      troubles := troubles + if ok then 0 else 1;
    }

    /** Sends a removal, which from now on may take effect at any time; a good answer says
        that it did. */
    method Remove(id: Id, ghost since: Slot) returns (ok: bool)
      requires slot.Well() && since.Well() && Drifted(since, slot) && id in slot.used
      modifies this
      ensures slot.Well() && Drifted(since, slot) && slot.name == old(slot.name) && Remembers(old(slot), slot, id)
      ensures slot.started == old(slot.started) && slot.doomed == old(slot.doomed) + {id}
      ensures troubles == old(troubles) + if ok then 0 else 1
      ensures ok ==> !slot.Has(id)
    {
      slot := slot.(doomed := slot.doomed + {id});
      Drift(since);
      var answered: bool := *;
      ok := answered && !slot.Has(id);
      troubles := troubles + if ok then 0 else 1;
    }
  }

  lemma DriftIsReflexive(v: Slot)
    ensures Untouched(v, v)
  {
  }

  /** Without a create on its way, no other container comes. */
  lemma NobodyNewComes(v: Slot, w: Slot)
    requires Drifted(v, w)
    ensures w.Load() <= v.Load()
    ensures v.pending == [] ==> w.pending == [] && (w.holder.Some? ==> v.Has(w.holder.value.id))
  {
    if v.pending == [] {
      assert w.pending == [];
    }
  }

  lemma DriftIsQuiet(v: Slot, w: Slot)
    requires Untouched(v, w)
    ensures w.name == v.name && w.started == v.started && w.doomed == v.doomed && NoMore(v, w)
    ensures forall i :: Remembers(v, w, i)
  {
  }

  /** A create sent after some drift might as well have been sent before it. */
  lemma SentBeforeDrift(v: Slot, w: Slot, c: Container)
    requires Untouched(v, w) && v.Well() && w.Well() && c.name == v.name && !c.running
    ensures Untouched(v.(pending := v.pending + [c]), w.(pending := w.pending + [c]))
    ensures v.(pending := v.pending + [c]).Well() && w.(pending := w.pending + [c]).Well()
  {
  }
}
