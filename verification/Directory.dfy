/** A directory on a crash-prone disk.

    Entries changed since the last directory sync are a sequence of unsynced
    operations on top of a durable map. A power failure keeps an arbitrary
    subset of them. A killed process keeps all of them. */
module Directory {

  datatype Option<+T> = None | Some(value: T)

  /** How one system call ends. `Died` means the process is gone; whether the call
      took effect first is not decided. */
  datatype Step = Done | Failed | Died

  datatype Op<E, F> =
    | Put(entry: E, file: F)
    | Drop(entry: E)
    | Move(source: E, target: E, file: F)

  function Lookup<E, F>(m: map<E, F>, e: E): Option<F> {
    if e in m then Some(m[e]) else None
  }

  function Effect<E, F>(op: Op<E, F>, m: map<E, F>): map<E, F> {
    match op
    case Put(e, f) => m[e := f]
    case Drop(e) => m - {e}
    case Move(s, t, f) => (m - {s})[t := f]
  }

  /** What one operation leaves at entry `e`, if it touches it. */
  ghost function Traces<E, F>(op: Op<E, F>, e: E): set<Option<F>> {
    match op
    case Put(x, f) => if x == e then {Some(f)} else {}
    case Drop(x) => if x == e then {None} else {}
    case Move(s, t, f) => if t == e then {Some(f)} else if s == e then {None} else {}
  }

  datatype Image<E(!new), F(!new)> = Image(durable: map<E, F>, unsynced: seq<Op<E, F>>) {

    function Before(): Image<E, F>
      requires unsynced != []
    {
      this.(unsynced := unsynced[..|unsynced| - 1])
    }

    function Last(): Op<E, F>
      requires unsynced != []
    {
      unsynced[|unsynced| - 1]
    }

    /** What the running system sees. */
    function Visible(): map<E, F>
      decreases |unsynced|
    {
      if unsynced == [] then durable else Effect(Last(), Before().Visible())
    }

    /** What a power failure leaves that keeps exactly the operations marked in `keep`. */
    function Survivor(keep: seq<bool>): map<E, F>
      requires |keep| == |unsynced|
      decreases |unsynced|
    {
      if unsynced == [] then durable
      else
        var m := Before().Survivor(keep[..|keep| - 1]);
        if keep[|keep| - 1] then Effect(Last(), m) else m
    }

    ghost function See(e: E): (r: Option<F>)
      ensures r in May(e)
    {
      VisibleIsPossible(e);
      Lookup(Visible(), e)
    }

    /** Everything a power failure may leave at entry `e`. */
    ghost function May(e: E): set<Option<F>>
      decreases |unsynced|
    {
      if unsynced == [] then {Lookup(durable, e)} else Before().May(e) + Traces(Last(), e)
    }

    lemma {:induction false} VisibleIsPossible(e: E)
      ensures Lookup(Visible(), e) in May(e)
      decreases |unsynced|
    {
      if unsynced != [] {
        Before().VisibleIsPossible(e);
      }
    }

    lemma {:induction false} DurableIsPossible(e: E)
      ensures Lookup(durable, e) in May(e)
      decreases |unsynced|
    {
      if unsynced != [] {
        Before().DurableIsPossible(e);
      }
    }

    lemma {:induction false} SurvivorIsPossible(keep: seq<bool>, e: E)
      requires |keep| == |unsynced|
      ensures Lookup(Survivor(keep), e) in May(e)
      decreases |unsynced|
    {
      if unsynced != [] {
        Before().SurvivorIsPossible(keep[..|keep| - 1], e);
      }
    }

    function Then(op: Op<E, F>): Image<E, F> {
      this.(unsynced := unsynced + [op])
    }

    lemma ThenSees(op: Op<E, F>)
      ensures Then(op).Visible() == Effect(op, Visible())
      ensures forall e :: Then(op).May(e) == May(e) + Traces(op, e)
    {
      assert Then(op).Before() == this;
    }
  }

  /** The directory of a running system. `faults` counts the system calls that did
      not end in `Done`, except refusals to create an entry that exists. */
  class Disk<E(==,!new), F(==,!new)> {
    var fs: Image<E, F>
    ghost var faults: nat

    constructor (contents: map<E, F>)
      ensures fs == Image(contents, []) && faults == 0
    {
      fs, faults := Image(contents, []), 0;
    }

    ghost method Count(r: Step)
      modifies `faults
      ensures faults == old(faults) + (if r == Done then 0 else 1)
    {
      faults := faults + (if r == Done then 0 else 1);
    }

    /** What is at `e` now. */
    method Find(e: E) returns (file: Option<F>)
      ensures file == fs.See(e)
    {
      var m := fs.Visible();
      file := if e in m then Some(m[e]) else None;
    }

    method ApplyPut(e: E, file: F)
      modifies `fs
      ensures fs == old(fs).Then(Put(e, file))
      ensures fs.See(e) == Some(file) && fs.May(e) == old(fs.May(e)) + {Some(file)}
      ensures forall x :: x != e ==> fs.See(x) == old(fs.See(x)) && fs.May(x) == old(fs.May(x))
    {
      fs.ThenSees(Put(e, file));
      fs := fs.Then(Put(e, file));
    }

    method ApplyDrop(e: E)
      modifies `fs
      ensures fs == old(fs).Then(Drop(e))
      ensures fs.See(e) == None && fs.May(e) == old(fs.May(e)) + {None}
      ensures forall x :: x != e ==> fs.See(x) == old(fs.See(x)) && fs.May(x) == old(fs.May(x))
    {
      fs.ThenSees(Drop(e));
      fs := fs.Then(Drop(e));
    }

    method ApplyMove(source: E, target: E, file: F)
      requires source != target
      modifies `fs
      ensures fs == old(fs).Then(Move(source, target, file))
      ensures fs.See(source) == None && fs.May(source) == old(fs.May(source)) + {None}
      ensures fs.See(target) == Some(file) && fs.May(target) == old(fs.May(target)) + {Some(file)}
      ensures forall x :: x != source && x != target ==> fs.See(x) == old(fs.See(x)) && fs.May(x) == old(fs.May(x))
    {
      fs.ThenSees(Move(source, target, file));
      fs := fs.Then(Move(source, target, file));
    }

    method Read(e: E) returns (r: Step, file: Option<F>)
      modifies `faults
      ensures r == Done ==> file == fs.See(e)
      ensures r != Died
      ensures faults == old(faults) + (if r == Done then 0 else 1)
    {
      hide Image.Visible, Image.May, Image.See;
      file := Find(e);
      r := Done;
      if * {
        r, file := Failed, None;
      }
      Count(r);
    }

    /** Creates `e` exclusively and syncs its contents, not the directory. A failed
        or killed write may leave a torn file, or a whole file whose contents were
        never synced and may still tear in a power failure. */
    method Write(e: E, file: F, torn: F) returns (r: Step)
      modifies `fs, `faults
      ensures r == Done ==> old(fs.See(e)) == None && fs == old(fs).Then(Put(e, file))
      ensures r == Done ==> fs.See(e) == Some(file) && fs.May(e) == old(fs.May(e)) + {Some(file)}
      ensures old(fs.See(e)) != None ==> fs == old(fs)
      ensures fs in {old(fs), old(fs).Then(Put(e, file)), old(fs).Then(Put(e, torn)),
                     old(fs).Then(Put(e, torn)).Then(Put(e, file))}
      ensures old(fs.May(e)) <= fs.May(e) <= old(fs.May(e)) + {Some(torn), Some(file)}
      ensures fs.See(e) in {old(fs.See(e)), Some(torn), Some(file)}
      ensures forall x :: x != e ==> fs.See(x) == old(fs.See(x)) && fs.May(x) == old(fs.May(x))
      ensures faults == old(faults) + (if r == Done || old(fs.See(e)) != None then 0 else 1)
    {
      hide Image.Visible, Image.May, Image.See;
      var present := Find(e);
      if present != None {
        r :| r != Done;
        return;
      }
      if * {
        ApplyPut(e, file);
        r := Done;
      } else {
        if * {
          ApplyPut(e, torn);
          if * {
            ApplyPut(e, file);
          }
        }
        r :| r != Done;
      }
      Count(r);
    }

    /** Removes `e`. An absent entry counts as removed. */
    method Remove(e: E) returns (r: Step)
      modifies `fs, `faults
      ensures r == Done ==> fs.See(e) == None && fs.May(e) == old(fs.May(e)) + {None}
      ensures r == Done ==> fs == if old(fs.See(e)) == None then old(fs) else old(fs).Then(Drop(e))
      ensures fs == old(fs) || fs == old(fs).Then(Drop(e))
      ensures old(fs.May(e)) <= fs.May(e) <= old(fs.May(e)) + {None}
      ensures fs.See(e) != None ==> fs.See(e) == old(fs.See(e)) && fs.May(e) == old(fs.May(e))
      ensures forall x :: x != e ==> fs.See(x) == old(fs.See(x)) && fs.May(x) == old(fs.May(x))
      ensures faults == old(faults) + (if r == Done then 0 else 1)
    {
      hide Image.Visible, Image.May, Image.See;
      assert fs.See(e) in fs.May(e);
      var present := Find(e);
      if * {
        if present != None {
          ApplyDrop(e);
        }
        r := *;
      } else if present != None {
        r :| r != Done;
      } else {
        r := Done;
      }
      Count(r);
    }

    /** Replaces `target` by `source` in one step. */
    method Rename(source: E, target: E) returns (r: Step)
      requires source != target
      modifies `fs, `faults
      ensures r == Done ==> old(fs.See(source)) != None && fs.See(source) == None
      ensures r == Done ==>
        fs.See(target) == old(fs.See(source)) && fs.May(target) == old(fs.May(target)) + {old(fs.See(source))}
      ensures r == Failed && old(fs.See(source)) == None ==> fs == old(fs)
      ensures old(fs.May(target)) <= fs.May(target)
      ensures fs.May(target) <= old(fs.May(target)) + (if old(fs.See(source)) == None then {} else {old(fs.See(source))})
      ensures fs.See(target) == old(fs.See(target)) || (old(fs.See(source)) != None && fs.See(target) == old(fs.See(source)))
      ensures fs.See(source) in {old(fs.See(source)), None}
      ensures old(fs.May(source)) <= fs.May(source) <= old(fs.May(source)) + {None}
      ensures forall x :: x != source && x != target ==> fs.See(x) == old(fs.See(x)) && fs.May(x) == old(fs.May(x))
      ensures faults == old(faults) + (if r == Done || (r == Failed && old(fs.See(source)) == None) then 0 else 1)
    {
      hide Image.Visible, Image.May, Image.See;
      var present := Find(source);
      if present == None {
        r :| r != Done;
        Count(if r == Failed then Done else r);
        return;
      }
      if * {
        ApplyMove(source, target, present.value);
        r := *;
      } else {
        r :| r != Done;
      }
      Count(r);
    }

    /** Syncs the directory. A failed sync promises nothing about any operation. */
    method Sync() returns (r: Step)
      modifies `fs, `faults
      ensures r == Done ==> fs == Image(old(fs.Visible()), [])
      ensures r == Failed ==> fs == old(fs)
      ensures r == Done ==> fs.unsynced == [] && forall e :: Lookup(fs.durable, e) == fs.See(e)
      ensures fs == old(fs) || (fs.unsynced == [] && forall e :: Lookup(fs.durable, e) == fs.See(e))
      ensures forall e :: fs.See(e) == old(fs.See(e)) && fs.May(e) <= old(fs.May(e))
      ensures fs == old(fs) || forall e :: fs.May(e) == {fs.See(e)}
      ensures r == Done ==> forall e :: fs.May(e) == {fs.See(e)}
      ensures faults == old(faults) + (if r == Done then 0 else 1)
    {
      if * {
        fs := Image(fs.Visible(), []);
        r :| r != Failed;
      } else {
        r :| r != Done;
      }
      Count(r);
    }

    /** A power failure followed by a restart. */
    method Reboot() returns (keep: seq<bool>)
      modifies `fs
      ensures |keep| == |old(fs).unsynced| && fs == Image(old(fs).Survivor(keep), [])
      ensures forall e :: fs.See(e) in old(fs.May(e)) && fs.May(e) == {fs.See(e)}
    {
      keep := *;
      if |keep| != |fs.unsynced| {
        keep := seq(|fs.unsynced|, i => true);
      }
      ghost var before := fs;
      fs := Image(fs.Survivor(keep), []);
      forall e ensures fs.See(e) in before.May(e) {
        before.SurvivorIsPossible(keep, e);
      }
    }
  }
}
