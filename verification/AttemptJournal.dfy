/** The journal of the active attempt: one file, replaced through a synced temporary and a
    rename (internal/attemptstate/store.go). */
module AttemptJournal {
  import opened Directory
  import opened SandboxDocker

  /** `sandboxID` is empty, a reserved name or a container id; `lease` and `deadline` are
      instants. */
  datatype State = State(claim: Claim, sandboxID: string, lease: int, deadline: int, refusedStoppedCount: int) {
    predicate Valid() {
      && claim.Valid()
      && (sandboxID != "" ==> SafeSandboxID(sandboxID))
      && 0 <= refusedStoppedCount <= 1000
    }
  }

  predicate AlphaNumeric(c: char) {
    '0' <= c <= '9' || 'a' <= c <= 'z' || 'A' <= c <= 'Z'
  }

  predicate SafeSandboxID(s: string) {
    1 <= |s| <= 128 && AlphaNumeric(s[0]) && forall c :: c in s ==> AlphaNumeric(c) || c in "_.-"
  }

  datatype Entry = Journal | Temporary(suffix: nat)

  datatype Doc = Whole(state: State) | Torn

  type Folder = Image<Entry, Doc>

  /** No power failure can leave a journal that does not decode. */
  ghost predicate Intact(fs: Folder) {
    forall v :: v in fs.May(Journal) ==> v.None? || (v.value.Whole? && v.value.state.Valid())
  }

  /** The journal may by now be `doc`, and is otherwise as it was. */
  ghost predicate Perhaps(v: Folder, w: Folder, doc: Option<Doc>) {
    w.See(Journal) in {v.See(Journal), doc} && w.May(Journal) <= v.May(Journal) + {doc}
  }

  ghost predicate Certainly(w: Folder, doc: Option<Doc>) {
    w.See(Journal) == doc && w.May(Journal) == {doc}
  }

  ghost predicate Alike(v: Folder, w: Folder) {
    w.See(Journal) == v.See(Journal) && w.May(Journal) == v.May(Journal)
  }

  lemma IntactIsSeen(fs: Folder)
    ensures Intact(fs) ==> fs.See(Journal).None? || (fs.See(Journal).value.Whole? && fs.See(Journal).value.state.Valid())
  {
    assert fs.See(Journal) in fs.May(Journal);
  }

  class Store {
    const disk: Disk<Entry, Doc>

    constructor (disk: Disk<Entry, Doc>)
      ensures this.disk == disk
    {
      this.disk := disk;
    }

    method Load() returns (r: Step, state: Option<State>)
      modifies disk
      ensures disk.fs == old(disk.fs) && r != Died && disk.faults >= old(disk.faults)
      ensures disk.faults == old(disk.faults) && Intact(disk.fs) ==> r == Done
      ensures r == Done ==> match disk.fs.See(Journal) {
        case None => state == None
        case Some(doc) => doc.Whole? && doc.state.Valid() && state == Some(doc.state)
      }
    {
      hide Image.See, Image.May, Image.Visible;
      IntactIsSeen(disk.fs);
      var file: Option<Doc>;
      r, file := disk.Read(Journal);
      if r != Done || file == None {
        return r, None;
      }
      if file.value.Torn? || !file.value.state.Valid() {
        return Failed, None;
      }
      state := Some(file.value.state);
    }

    /** Writes and syncs a fresh temporary file; five names are tried. */
    method CreateTemporary(doc: Doc) returns (r: Step, temporary: Entry)
      modifies disk
      ensures Alike(old(disk.fs), disk.fs)
      ensures disk.faults >= old(disk.faults) && (disk.faults == old(disk.faults) ==> r == Done)
      ensures r == Done ==> temporary.Temporary? && disk.fs.See(temporary) == Some(doc)
    {
      hide Image.See, Image.May, Image.Visible;
      temporary := Temporary(0);
      for attempt := 0 to 5
        invariant Alike(old(disk.fs), disk.fs) && temporary.Temporary? && disk.faults == old(disk.faults)
      {
        var suffix: nat := *;
        temporary := Temporary(suffix);
        var present := disk.Find(temporary);
        if present == None {
          r := disk.Write(temporary, doc, Torn);
          if r == Failed {
            var removed := disk.Remove(temporary);
            if removed == Died {
              r := Died;
            }
          }
          return;
        }
      }
      disk.Count(Failed);
      return Failed, temporary;
    }

    /** Replaces the journal. An error leaves open whether it was replaced, and if so
        whether a power failure undoes that. */
    method Save(state: State) returns (r: Step)
      modifies disk
      ensures r == Done ==> state.Valid() && Certainly(disk.fs, Some(Whole(state)))
      ensures Perhaps(old(disk.fs), disk.fs, Some(Whole(state)))
      ensures !state.Valid() ==> Alike(old(disk.fs), disk.fs)
      ensures disk.faults >= old(disk.faults)
      ensures disk.faults == old(disk.faults) && old(Intact(disk.fs)) && state.Valid() ==> r == Done
      ensures old(Intact(disk.fs)) ==> Intact(disk.fs)
    {
      hide Image.See, Image.May, Image.Visible;
      var present: Option<State>;
      r, present := Load();
      if r != Done {
        return;
      }
      if !state.Valid() {
        return Failed;
      }
      var temporary;
      r, temporary := CreateTemporary(Whole(state));
      if r != Done {
        return;
      }
      r := disk.Rename(temporary, Journal);
      if r == Failed {
        var removed := disk.Remove(temporary);
        if removed == Died {
          r := Died;
        }
        return;
      }
      if r == Died {
        return;
      }
      r := disk.Sync();
    }

    /** Removes the journal. An absent one counts as removed without a sync. */
    method Clear() returns (r: Step)
      modifies disk
      ensures r == Done ==> disk.fs.See(Journal) == None
      ensures r == Done && old(disk.fs.See(Journal)) != None ==> Certainly(disk.fs, None)
      ensures Perhaps(old(disk.fs), disk.fs, None)
      ensures disk.faults >= old(disk.faults)
      ensures disk.faults == old(disk.faults) && old(Intact(disk.fs)) ==> r == Done
      ensures old(Intact(disk.fs)) ==> Intact(disk.fs)
    {
      hide Image.See, Image.May, Image.Visible;
      var present: Option<State>;
      r, present := Load();
      if r != Done {
        return;
      }
      r := disk.Remove(Journal);
      if r != Done || present == None {
        return;
      }
      r := disk.Sync();
    }
  }
}
