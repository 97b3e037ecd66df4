/** The create phase of a sandbox as its supervisor and the independent watchdog process
    follow it over a pipe (internal/sandbox/watchdog.go).

    Each phase carries a fresh sequence number and is acknowledged with it. Waits end in
    a timeout at any moment, writes fail or time out at any moment, and the child runs
    between any two steps of the parent. */
module WatchdogPhase {

  /** The full hexadecimal name of a container. */
  predicate FullId(id: string) {
    |id| == 64 && forall c :: c in id ==> '0' <= c <= '9' || 'a' <= c <= 'f'
  }

  datatype Kind = Started | Finished | Unknown

  /** What the child reads. `Malformed` is a phase that does not parse, `TooLong` an
      oversized frame, `Eof` the end of the pipe. */
  datatype Message =
    | Phase(sequence: nat, kind: Kind, id: string)
    | Malformed
    | TooLong
    | Disarm
    | Renew
    | Eof

  /** What the parent reads. `Trouble` is the end of the stream or an error. */
  datatype Response = Ack(sequence: nat) | Trouble

  /** Where the child is: in its loop, in cleanup with the create flag and container it
      took along, gone because it was disarmed, or gone because it could not write. */
  datatype Status = Watching | Cleaning(inFlight: bool, id: string) | Disarmed | Broken

  datatype ChildState =
    ChildState(status: Status, inFlight: bool, finished: bool, last: nat, confirmed: string, acked: nat)
  {
    /** The child's variables are those that phase `m` leaves. */
    predicate Reflects(m: Message) {
      && m.Phase?
      && (m.kind == Started ==> inFlight && !finished)
      && (m.kind == Finished ==> !inFlight && finished && confirmed == m.id)
    }

    predicate Sound() {
      && acked <= last
      && (status.Watching? ==> acked == last)
      && (status.Cleaning? ==> (inFlight ==> status.inFlight) && status.id == confirmed)
      && (status.Disarmed? ==> !inFlight)
    }
  }

  /** One phase accepted by a watching child. */
  predicate Accepts(c: ChildState, m: Message) {
    && m.Phase? && m.sequence > c.last
    && (m.kind == Started ==> m.id == "" && !c.finished)
    && (m.kind == Finished ==>
          && (c.inFlight || c.finished)
          && (m.id == "" || FullId(m.id))
          && (c.finished ==> m.id == c.confirmed))
    && m.kind != Unknown
  }

  /** What one turn of the child's loop may do with message `m`, and what it writes. */
  ghost predicate Turn(c: ChildState, d: ChildState, m: Message, said: seq<Response>) {
    match m
    case Phase(n, _, _) =>
      if Accepts(c, m) then
        && d.last == n && d.Reflects(m) && (m.kind == Started ==> d.confirmed == c.confirmed)
        && ((said == [Ack(n)] && d.status == c.status && d.acked == n)
            || (said == [] && d.status == Broken && d.acked == c.acked))
      else
        && said == [] && (d.last == c.last || c.last < d.last == n)
        && d == c.(status := Cleaning(true, c.confirmed), last := d.last)
    case Malformed => said == [] && d == c.(status := Cleaning(true, c.confirmed))
    case TooLong => said == [] && d == c.(status := Cleaning(true, c.confirmed))
    case Eof => said == [] && d == c.(status := Cleaning(c.inFlight, c.confirmed))
    case Disarm => said == [] && (d == c || (!c.inFlight && d == c.(status := Disarmed)))
    case Renew => said == [] && d == c
  }

  /** The watchdog process. */
  class Child {
    var status: Status
    var createInFlight: bool
    var createPhaseFinished: bool
    var lastPhaseSequence: nat
    var confirmedID: string
    ghost var acked: nat

    var input: seq<Message>
    var output: seq<Response>

    constructor ()
      ensures State() == ChildState(Watching, false, false, 0, "", 0) && input == [] && output == []
    {
      status, createInFlight, createPhaseFinished, lastPhaseSequence, confirmedID := Watching, false, false, 0, "";
      acked := 0;
      input, output := [], [];
    }

    ghost function State(): ChildState
      reads this
    {
      ChildState(status, createInFlight, createPhaseFinished, lastPhaseSequence, confirmedID, acked)
    }

    method CleanUp(inFlight: bool)
      modifies `status
      ensures status == Cleaning(inFlight, confirmedID)
    {
      status := Cleaning(inFlight, confirmedID);
    }

    /** Handles a phase. An acknowledgement that cannot be written ends the process
        without cleanup. */
    method Handle(sequence: nat, kind: Kind, id: string)
      requires status == Watching
      modifies this
      ensures input == old(input) && |output| >= |old(output)| && output[..|old(output)|] == old(output)
      ensures Turn(old(State()), State(), Phase(sequence, kind, id), output[|old(output)|..])
    {
      if sequence == 0 || sequence <= lastPhaseSequence {
        CleanUp(true);
        return;
      }
      lastPhaseSequence := sequence;
      match kind {
        case Started =>
          if id != "" || createPhaseFinished {
            CleanUp(true);
            return;
          }
          createInFlight := true;
        case Finished =>
          if (!createInFlight && !createPhaseFinished) || (id != "" && !FullId(id))
             || (createPhaseFinished && id != confirmedID) {
            CleanUp(true);
            return;
          }
          createInFlight := false;
          createPhaseFinished := true;
          confirmedID := id;
        case Unknown =>
          CleanUp(true);
          return;
      }
      if * {
        status := Broken;
      } else {
        output := output + [Ack(sequence)];
        acked := sequence;
      }
    }

    /** One turn of the loop: expiry, which acts like the end of the pipe, a poll that
        finds nothing, or one message; `absent` is what the inspection before a disarm
        confirmed. A child that has left its loop only closes its output. */
    method Step() returns (ghost taken: seq<Message>, ghost m: Message, ghost said: seq<Response>, ghost absent: bool)
      modifies this
      ensures old(input) == taken + input && output == old(output) + said
      ensures old(status) == Watching ==> Turn(old(State()), State(), m, said)
      ensures old(status) == Watching ==> taken == [m] || (taken == [] && m in {Eof, Renew})
      ensures old(status) == Watching && taken == [Disarm] ==> (status == Disarmed <==> absent && !old(createInFlight))
      ensures old(status) != Watching ==> State() == old(State()) && taken == [] && (said == [] || said == [Trouble])
    {
      taken, m, said, absent := [], Renew, [], false;
      if status != Watching {
        if * {
          said := [Trouble];
          output := output + [Trouble];
        }
        return;
      }
      if * {
        CleanUp(createInFlight);
        m := Eof;
        return;
      }
      if input == [] {
        return;
      }
      var message := input[0];
      input := input[1..];
      taken, m := [message], message;
      match message {
        case Eof =>
          CleanUp(createInFlight);
        case Phase(sequence, kind, id) =>
          ghost var before := output;
          Handle(sequence, kind, id);
          said := output[|before|..];
          assert output == output[..|before|] + said;
        case Malformed =>
          CleanUp(true);
        case TooLong =>
          CleanUp(true);
        case Disarm =>
          if !createInFlight {
            // The container is inspected; only confirmed absence lets the child go.
            var confirmed: bool := *;
            absent := confirmed;
            if confirmed {
              status := Disarmed;
            }
          }
        case Renew =>
      }
    }
  }

  // ---- Agreement -----------------------------------------------------------------

  /** The parent's variables; `sent` is the last phase it wrote, `reported` the containers
      it ever reported. */
  datatype ParentState =
    ParentState(inFlight: bool, finished: bool, unknown: bool, sequence: nat, confirmed: string, sent: Message,
                reported: set<string>)

  /** Phases on their way to a child that has seen `last`: in order, none after `top`, and
      that one is `sent`. */
  ghost predicate Queued(last: nat, top: nat, sent: Message, input: seq<Message>)
    decreases input
  {
    if input == [] then true
    else if input[0].Phase? then
      && last < input[0].sequence <= top
      && (input[0].sequence == top ==> input[0] == sent)
      && Queued(input[0].sequence, top, sent, input[1..])
    else
      Queued(last, top, sent, input[1..])
  }

  function Passed(last: nat, m: Message): nat {
    if m.Phase? then m.sequence else last
  }

  /** Frames that are not phases may follow. */
  lemma {:induction false} QueuedWithControl(last: nat, top: nat, sent: Message, input: seq<Message>, more: seq<Message>)
    requires Queued(last, top, sent, input) && forall m :: m in more ==> !m.Phase?
    ensures Queued(last, top, sent, input + more)
    decreases input, more
  {
    if input != [] {
      QueuedWithControl(Passed(last, input[0]), top, sent, input[1..], more);
      assert (input + more)[1..] == input[1..] + more;
    } else if more != [] {
      QueuedWithControl(last, top, sent, [], more[1..]);
      assert input + more == more && [] + more[1..] == more[1..];
    }
  }

  /** A newer phase may follow, or get lost. */
  lemma {:induction false} QueuedWithPhase(last: nat, top: nat, sent: Message, next: Message, input: seq<Message>)
    requires Queued(last, top, sent, input) && last <= top && next.Phase? && top < next.sequence
    ensures Queued(last, next.sequence, next, input)
    ensures Queued(last, next.sequence, next, input + [next])
    decreases input
  {
    if input != [] {
      QueuedWithPhase(Passed(last, input[0]), top, sent, next, input[1..]);
      assert (input + [next])[1..] == input[1..] + [next];
    } else {
      assert input + [next] == [next] && [next][1..] == [];
    }
  }

  /** Once the child has seen the last phase, none is on its way. */
  lemma {:induction false} QueueIsDrained(top: nat, sent: Message, input: seq<Message>)
    requires Queued(top, top, sent, input)
    ensures forall m :: m in input ==> !m.Phase?
  {
    if input != [] {
      QueueIsDrained(top, sent, input[1..]);
    }
  }

  /** The child learned of containers only what the parent reported. */
  ghost predicate Heard(c: ChildState, reported: set<string>, input: seq<Message>) {
    && (c.confirmed != "" ==> c.confirmed in reported)
    && forall m :: m in input && m.Phase? && m.kind == Finished ==> m.id in reported
  }

  /** Acknowledgements come in order, and the output ends only when the child has left. */
  ghost predicate Answered(c: ChildState, output: seq<Response>) {
    && (forall r :: r in output && r.Ack? ==> r.sequence <= c.acked)
    && (forall i, j :: 0 <= i < j < |output| && output[i].Ack? && output[j].Ack? ==> output[i].sequence < output[j].sequence)
    && (Trouble in output ==> c.status != Watching)
  }

  /** The child stands where the parent's last phase left it. */
  ghost predicate Settled(c: ChildState, p: ParentState) {
    c.acked == p.sequence > 0 && c.Reflects(p.sent)
  }

  ghost predicate Agree(p: ParentState, c: ChildState, input: seq<Message>, output: seq<Response>) {
    && c.Sound() && c.last <= p.sequence
    && (c.status == Watching ==> Queued(c.last, p.sequence, p.sent, input))
    && Answered(c, output) && Heard(c, p.reported, input)
    && (c.acked == p.sequence > 0 ==> c.Reflects(p.sent))
    && (!p.unknown ==>
          && (p.inFlight ==> Settled(c, p) && p.sent.kind == Started && !p.finished)
          && (p.finished ==> Settled(c, p) && p.sent.kind == Finished && p.sent.id == p.confirmed)
          && (!p.inFlight && !p.finished ==> p.sequence == 0))
    && (p.finished ==> !p.unknown)
  }

  /** No turn of the child disturbs the agreement. */
  lemma TurnAgrees(p: ParentState, c: ChildState, d: ChildState, taken: seq<Message>, m: Message, said: seq<Response>,
                   input: seq<Message>, output: seq<Response>)
    requires Agree(p, c, taken + input, output) && c.status == Watching
    requires Turn(c, d, m, said) && (taken == [m] || (taken == [] && m in {Eof, Renew}))
    ensures Agree(p, d, input, output + said)
  {
    assert forall x :: x in input || x in taken ==> x in taken + input;
    if taken == [m] {
      assert (taken + input)[0] == m && (taken + input)[1..] == input;
    } else {
      assert taken + input == input;
    }
  }

  /** What an agreement is worth: as long as the parent holds a create in flight, the
      child does too, and takes that into cleanup; it has not let itself be disarmed. Once the
      parent holds the create finished, the child knows exactly its container. */
  lemma AgreementMeans(p: ParentState, c: ChildState, input: seq<Message>, output: seq<Response>)
    requires Agree(p, c, input, output)
    ensures p.inFlight && !p.unknown ==> c.inFlight && c.status != Disarmed && (c.status.Cleaning? ==> c.status.inFlight)
    ensures p.finished ==> !c.inFlight && c.finished && c.confirmed == p.confirmed
    ensures p.finished && c.status.Cleaning? ==> c.status.id == p.confirmed
    ensures !p.unknown && c.status == Watching && p.sequence > 0 ==> forall m :: m in input ==> !m.Phase?
    ensures p.inFlight && !p.unknown ==> !p.finished
    ensures p.finished ==> !p.inFlight && !p.unknown && p.sequence > 0
  {
    if !p.unknown && c.status == Watching && p.sequence > 0 {
      QueueIsDrained(p.sequence, p.sent, input);
    }
  }

  /** A fresh phase agrees with the child whether or not its write got through. */
  lemma SendingAgrees(p: ParentState, q: ParentState, c: ChildState, input: seq<Message>, sent: seq<Message>,
                      output: seq<Response>)
    requires Agree(p, c, input, output) && p.unknown && !p.finished
    requires q.sent.Phase? && q.sent.sequence == q.sequence == p.sequence + 1
    requires q == p.(sequence := q.sequence, sent := q.sent, reported := q.reported) && p.reported <= q.reported
    requires q.sent.kind == Finished ==> q.sent.id in q.reported
    requires sent == input || sent == input + [q.sent] || sent == input + [q.sent, Eof] || sent == input + [Eof]
    ensures Agree(q, c, sent, output)
  {
    if c.status == Watching {
      QueuedWithPhase(c.last, p.sequence, p.sent, q.sent, input);
      QueuedWithControl(c.last, q.sequence, q.sent, input, [Eof]);
      QueuedWithControl(c.last, q.sequence, q.sent, input + [q.sent], [Eof]);
      assert input + [q.sent, Eof] == input + [q.sent] + [Eof];
    }
  }

  /** The parent may doubt a phase at any time before the create is finished. */
  lemma DoubtAgrees(p: ParentState, c: ChildState, input: seq<Message>, output: seq<Response>)
    requires Agree(p, c, input, output) && !p.finished
    ensures Agree(p.(unknown := true), c, input, output)
  {
  }

  /** An acknowledged phase is what the parent may believe. */
  lemma SettledAgrees(p: ParentState, c: ChildState, input: seq<Message>, output: seq<Response>)
    requires Agree(p, c, input, output) && p.unknown && !p.finished && Settled(c, p)
    ensures p.sent.kind == Started ==> Agree(p.(inFlight := true, unknown := false), c, input, output)
    ensures p.sent.kind == Finished ==>
      Agree(p.(inFlight := false, unknown := false, finished := true, confirmed := p.sent.id), c, input, output)
  {
  }

  /** Frames that are not phases leave the agreement alone. */
  lemma OtherFramesAgree(p: ParentState, c: ChildState, input: seq<Message>, more: seq<Message>, output: seq<Response>)
    requires Agree(p, c, input, output) && forall m :: m in more ==> !m.Phase?
    ensures Agree(p, c, input + more, output)
  {
    if c.status == Watching {
      QueuedWithControl(c.last, p.sequence, p.sent, input, more);
    }
  }

  /** An acknowledgement with the last sequence number settles the phase. */
  lemma AcknowledgedIsSettled(p: ParentState, c: ChildState, input: seq<Message>, output: seq<Response>)
    requires Agree(p, c, input, output) && output != []
    ensures Agree(p, c, input, output[1..])
    ensures p.sequence > 0 && output[0] == Ack(p.sequence) ==> Settled(c, p) && forall r :: r in output[1..] ==> !r.Ack?
    ensures output[0] == Trouble ==> c.status != Watching
  {
    if output[0].Ack? {
      forall r | r in output[1..] && r.Ack? ensures r.sequence > output[0].sequence {
        var j :| 1 <= j < |output| && output[j] == r;
      }
    }
  }

  /** The supervisor's end of the channel. `told` counts the frames delivered that are not
      phases, `troubles` the writes and waits that failed. */
  class Lease {
    const child: Child

    var closed: bool
    var createInFlight: bool
    var createFinished: bool
    var phaseUnknown: bool
    var phaseSequence: nat
    var confirmedID: string
    ghost var sent: Message
    ghost var reported: set<string>
    ghost var told: nat
    ghost var troubles: nat

    constructor ()
      ensures reported == {} && Valid() && fresh(child) && child.State().status == Watching
      ensures !closed && !createInFlight && !createFinished && !phaseUnknown
    {
      child := new Child();
      closed, createInFlight, createFinished, phaseUnknown, phaseSequence, confirmedID :=
        false, false, false, false, 0, "";
      sent, reported, told, troubles := Renew, {}, 0, 0;
    }

    ghost function State(): ParentState
      reads this
    {
      ParentState(createInFlight, createFinished, phaseUnknown, phaseSequence, confirmedID, sent, reported)
    }

    ghost predicate Valid()
      reads this, child
    {
      && Agree(State(), child.State(), child.input, child.output)
      && (closed ==> Eof in child.input || child.status != Watching)
    }

    /** Time passes: the child takes any number of turns. */
    method Elapse()
      requires Valid()
      modifies child
      ensures Valid() && (old(child.status) != Watching ==> child.status == old(child.status))
    {
      var turns: nat := *;
      while turns > 0
        invariant Valid() && (old(child.status) != Watching ==> child.status == old(child.status))
      {
        ghost var p, c, input, output := State(), child.State(), child.input, child.output;
        ghost var taken, m, said, absent := child.Step();
        if c.status == Watching {
          assert input == taken + child.input;
          TurnAgrees(p, c, child.State(), taken, m, said, child.input, output);
        }
        turns := turns - 1;
      }
    }

    /** Writes one frame. A write that fails may still have been delivered; one that
        times out closes the channel, which the child reads as its end. */
    method WriteMessage(message: Message) returns (ok: bool)
      modifies `closed, `troubles, child`input
      ensures old(closed) ==> !ok && closed && child.input == old(child.input)
      ensures !old(closed) ==> child.input in if closed then {old(child.input) + [Eof], old(child.input) + [message, Eof]}
                                              else {old(child.input), old(child.input) + [message]}
      ensures ok ==> child.input == old(child.input) + [message] && !closed
      ensures troubles == old(troubles) + if ok || old(closed) then 0 else 1
    {
      if closed {
        return false;
      }
      var delivered: bool := *;
      if delivered {
        child.input := child.input + [message];
      }
      if * {
        closed := true;
        child.input := child.input + [Eof];
        assert old(child.input) + [message] + [Eof] == old(child.input) + [message, Eof];
        troubles := troubles + 1;
        return false;
      }
      ok := *;
      ok := ok && delivered;
      troubles := troubles + if ok then 0 else 1;
    }

    /** Sends a phase and waits for its own acknowledgement; older ones are passed over. */
    method SendPhase(kind: Kind, id: string) returns (ok: bool)
      requires Valid() && phaseUnknown && !createFinished && kind != Unknown
      modifies `closed, `phaseSequence, `sent, `reported, `troubles, child
      ensures Valid() && (old(child.status) != Watching ==> child.status == old(child.status))
      ensures old(closed) ==> closed
      ensures reported == if kind == Finished then old(reported) + {id} else old(reported)
      ensures ok ==> sent == Phase(phaseSequence, kind, id) && Settled(child.State(), State())
      ensures ok ==> forall r :: r in child.output ==> !r.Ack?
      ensures !ok ==> Cut(old(troubles), old(closed))
      ensures troubles >= old(troubles) && (closed && !old(closed) ==> troubles > old(troubles))
    {
      hide Agree, Settled;
      ghost var p, input := State(), child.input;
      phaseSequence := phaseSequence + 1;
      var message := Phase(phaseSequence, kind, id);
      sent := message;
      reported := if kind == Finished then reported + {id} else reported;
      var written := WriteMessage(message);
      SendingAgrees(p, State(), child.State(), input, child.input, child.output);
      if !written {
        return false;
      }
      var patience: nat := *;
      while patience > 0
        invariant Valid() && sent == message && phaseSequence == message.sequence && !closed && troubles == old(troubles)
        invariant old(child.status) != Watching ==> child.status == old(child.status)
        invariant reported == if kind == Finished then old(reported) + {id} else old(reported)
      {
        Elapse();
        if child.output != [] {
          AcknowledgedIsSettled(State(), child.State(), child.input, child.output);
          var response := child.output[0];
          child.output := child.output[1..];
          if response == Ack(phaseSequence) {
            return true;
          }
          if response == Trouble {
            return false;
          }
        }
        patience := patience - 1;
      }
      troubles := troubles + 1;
      return false;
    }

    /** A call failed because a write or a wait did, the channel was closed, or the child
        had left its loop. */
    ghost predicate Cut(before: nat, wasClosed: bool)
      reads this, child
    {
      troubles > before || wasClosed || child.status != Watching
    }

    /** Announces a create. Only a nil result lets the supervisor send one to Docker. */
    method CreateStarted() returns (ok: bool)
      requires Valid()
      modifies this, child
      ensures Valid() && (old(child.status) != Watching ==> child.status == old(child.status))
      ensures old(closed) ==> closed
      ensures ok ==> createInFlight && !phaseUnknown && !createFinished
      ensures !ok ==> createInFlight == old(createInFlight) && createFinished == old(createFinished)
      ensures !ok && !createFinished ==> phaseUnknown
      ensures confirmedID == old(confirmedID) && reported == old(reported) && (old(createFinished) ==> !ok)
      ensures !ok ==> old(createFinished) || Cut(old(troubles), old(closed))
      ensures troubles >= old(troubles) && (closed && !old(closed) ==> troubles > old(troubles))
      ensures told == old(told)
      ensures old(createInFlight && !phaseUnknown && !createFinished) ==> ok
    {
      if createFinished {
        return false;
      }
      if createInFlight && !phaseUnknown {
        return true;
      }
      hide Agree, Settled;
      DoubtAgrees(State(), child.State(), child.input, child.output);
      phaseUnknown := true;
      ok := SendPhase(Started, "");
      if !ok {
        return;
      }
      SettledAgrees(State(), child.State(), child.input, child.output);
      createInFlight := true;
      phaseUnknown := false;
    }

    /** Reports the definitive outcome of a create. */
    method CreateFinished(containerID: string) returns (ok: bool)
      requires Valid()
      modifies this, child
      ensures Valid() && (old(child.status) != Watching ==> child.status == old(child.status))
      ensures old(closed) ==> closed
      ensures old(reported) <= reported <= old(reported) + {containerID}
      ensures ok ==> createFinished && !createInFlight && !phaseUnknown && confirmedID == containerID
      ensures ok ==> containerID == "" || FullId(containerID)
      ensures !ok ==> createInFlight == old(createInFlight) && createFinished == old(createFinished)
      ensures ok ==> child.State().finished && !child.State().inFlight && child.State().confirmed == containerID
      ensures ok && child.status == Watching ==> forall m :: m in child.input ==> !m.Phase?
      ensures !ok ==>
        || (containerID != "" && !FullId(containerID))
        || (old(createFinished) && old(confirmedID) != containerID)
        || (!old(createInFlight) && !old(phaseUnknown))
        || Cut(old(troubles), old(closed))
      ensures troubles >= old(troubles) && (closed && !old(closed) ==> troubles > old(troubles))
      ensures told == old(told)
    {
      hide Agree, Settled;
      if containerID != "" && !FullId(containerID) {
        return false;
      }
      if createFinished {
        ok := confirmedID == containerID;
        AgreementMeans(State(), child.State(), child.input, child.output);
        return;
      }
      if !createInFlight && !phaseUnknown {
        return false;
      }
      DoubtAgrees(State(), child.State(), child.input, child.output);
      phaseUnknown := true;
      ok := SendPhase(Finished, containerID);
      if !ok {
        return;
      }
      SettledAgrees(State(), child.State(), child.input, child.output);
      createInFlight := false;
      phaseUnknown := false;
      createFinished := true;
      confirmedID := containerID;
      AgreementMeans(State(), child.State(), child.input, child.output);
    }

    /** Writes a frame that is not a phase. */
    method Tell(message: Message) returns (ok: bool)
      requires Valid() && !message.Phase?
      modifies `closed, `told, `troubles, child`input
      ensures Valid() && (old(closed) ==> closed)
      ensures told == old(told) + if ok then 1 else 0
      ensures ok ==> child.input == old(child.input) + [message]
      ensures !ok ==> old(closed) || troubles > old(troubles)
      ensures troubles >= old(troubles) && (closed && !old(closed) ==> troubles > old(troubles))
    {
      hide Agree;
      ghost var input := child.input;
      ok := WriteMessage(message);
      ghost var more := child.input[|input|..];
      assert child.input == input + more;
      OtherFramesAgree(State(), child.State(), input, more, child.output);
      told := told + if ok then 1 else 0;
    }

    /** Asks the child to leave once the container is gone. The lock is free while Docker
        is asked, so another thread may move the create phase on in between. */
    method Disarm() returns (ok: bool)
      requires Valid()
      modifies this, child
      ensures Valid() && (old(child.status) != Watching ==> child.status == old(child.status))
      ensures old(closed) ==> closed
      ensures old(createInFlight || phaseUnknown) ==> !ok
      ensures ok ==> closed && (child.status == Disarmed || child.status.Cleaning?)
      ensures ok && createInFlight && !phaseUnknown ==> child.status.Cleaning? && child.status.inFlight
      ensures !ok ==> old(createInFlight || phaseUnknown || closed) || troubles > old(troubles) || child.status == Broken
      ensures troubles >= old(troubles)
    {
      hide Agree;
      if createInFlight || phaseUnknown {
        return false;
      }
      if * {
        // The container is still there, or Docker did not say.
        troubles := troubles + 1;
        return false;
      }
      Interlude();
      if closed {
        return false;
      }
      var told := Tell(Message.Disarm);
      closed := true;
      OtherFramesAgree(State(), child.State(), child.input, [Eof], child.output);
      child.input := child.input + [Eof];
      Elapse();
      if child.status == Watching || child.status == Broken {
        troubles := troubles + if child.status == Watching then 1 else 0;
        return false;
      }
      AgreementMeans(State(), child.State(), child.input, child.output);
      ok := *;
      troubles := troubles + if ok then 0 else 1;
    }

    /** What another thread may do while the lock is free. */
    method Interlude()
      requires Valid()
      modifies this, child
      ensures Valid() && (old(child.status) != Watching ==> child.status == old(child.status))
      ensures old(closed) ==> closed
      ensures troubles >= old(troubles) && (closed && !old(closed) ==> troubles > old(troubles))
    {
      hide Agree;
      Elapse();
      if * {
        var started := CreateStarted();
      }
      if * {
        var id: string := *;
        var finished := CreateFinished(id);
      }
    }

    /** Any run of the channel. While a create was announced with success and no outcome
        was reported since, the child holds it in flight. */
    method Run()
      requires Valid() && !createInFlight && !phaseUnknown
      modifies this, child
      ensures Valid()
      ensures createInFlight && !phaseUnknown ==> child.createInFlight && child.status != Disarmed
      ensures createInFlight && !phaseUnknown && child.status.Cleaning? ==> child.status.inFlight
      ensures createFinished && child.status.Cleaning? ==> child.status.id == confirmedID
    {
      hide Agree;
      var calls: nat := *;
      while calls > 0
        invariant Valid()
        decreases calls
      {
        if {
        case true =>
          Elapse();
        case true =>
          var ok := CreateStarted();
        case true =>
          var id: string := *;
          var ok := CreateFinished(id);
        case true =>
          var ok := Tell(Renew);
        case true =>
          var ok := Disarm();
        }
        calls := calls - 1;
      }
      AgreementMeans(State(), child.State(), child.input, child.output);
    }
  }
}
