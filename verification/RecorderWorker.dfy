/** The recorder's command loop as the worker thread runs it (src/daemon.rs, lines 354-409, 1419-1466 and
    1540-1945), step by step over its fields. Every handler keeps the worker sound and says what its caller can
    rely on; that it also does what `Recorder` says of the command carries the properties of whole runs over. */
module RecorderWorker {
  import opened Basics
  import opened Recorder

  class WorkerThread {
    var active: Option<Partition>
    var previousState: Option<OwnerState>
    var injectedFailureConsumed: bool
    var running: bool
    var trace: seq<Event>

    // The state the previous owner left.
    ghost const first: Option<OwnerState>

    function State(): Worker
      reads this
    {
      Worker(active, previousState, injectedFailureConsumed, running, trace)
    }

    // At most one writer lock, the active partition's; every store call under it; at most one restart gap.
    ghost predicate Valid()
      reads this
    {
      Sound(State(), first)
    }

    constructor (previous: Option<OwnerState>)
      ensures Valid() && State() == Started(previous) && first == previous && OnDisk(trace) == Some(IDLE)
    {
      active, previousState, injectedFailureConsumed, running := None, previous, false, true;
      first := previous;
      trace := [Published(IDLE)];
      new;
      ServingIsSound(previous, []);
    }

    method Emit(e: Event)
      modifies this`trace
      ensures trace == old(trace) + [e]
    {
      trace := trace + [e];
    }

    /** On success the file holds the state; after a failure it holds the old one or, if only the rename was
        reached, the new one. A state that fails validation never gets there. */
    method PersistState(state: OwnerState, outcome: Publishing) returns (ok: bool)
      modifies this`trace
      ensures Answer(trace) == Answer(old(trace))
      ensures ok ==> Publishable(state) && OnDisk(trace) == Some(state)
      ensures !ok ==> OnDisk(trace) == OnDisk(old(trace)) || (Publishable(state) && OnDisk(trace) == Some(state))
      ensures Attempt(trace, ok) == Persist(old(trace), state, outcome)
    {
      PersistTells(trace, state, outcome);
      if !Publishable(state) || outcome == Lost {
        return false;
      }
      Emit(Published(state));
      ok := outcome == Done;
    }

    method ReleaseActive()
      requires Valid()
      modifies this`trace, this`active
      ensures Valid() && active == None
      ensures State() == Released(old(State()))
    {
      ReleaseIsSound(State(), first);
      if active.Some? {
        Emit(UnlockWriter(active.value));
        active := None;
      }
    }

    method PromoteCandidate(p: Partition, o: Opening) returns (ok: bool)
      modifies this`trace
      ensures Attempt(trace, ok) == MakeFinal(old(trace), p, o)
    {
      Emit(MakeCandidate(p));
      if !o.candidateOk || !o.syncOk || !o.renameOk {
        return false;
      }
      Emit(Promote(p));
      ok := o.directorySyncOk;
    }

    /** Opens a partition with no lock held: it succeeds exactly when every call does, holds the writer lock
        exactly on success, and neither opens a restart gap nor publishes or answers anything. */
    method ActivatePartition(p: Partition, o: Opening) returns (ok: bool)
      modifies this`trace
      ensures ok <==> OpensFully(o)
      ensures Silent(old(trace), trace)
      ensures Legal(old(trace)) && Held(old(trace)) == multiset{} ==>
        Continues(old(trace), trace, if ok then multiset{p} else multiset{})
      ensures Attempt(trace, ok) == OpenPartition(old(trace), p, o)
    {
      if Legal(trace) && Held(trace) == multiset{} {
        OpenIsLegal(trace, p, o);
      }
      OpeningTells(trace, p, o);
      if !o.directoryOk || o.finalSeen.None? || o.candidateSeen.None? {
        return false;
      }
      if o.finalSeen.value && o.candidateSeen.value {
        return false;
      }
      var existing := o.finalSeen.value;
      if !existing {
        var made := PromoteCandidate(p, o);
        if !made {
          return false;
        }
      }
      if o.lock != Some(true) {
        return false;
      }
      Emit(LockWriter(p));
      if existing {
        Emit(Write(p));
      }
      if !o.storeOk || !o.markOk {
        Emit(UnlockWriter(p));
        return false;
      }
      ok := true;
    }

    /** The restart gap of the previous owner. If that owner was writing this partition, success means that the
        evidence is used up and that one gap was opened unless one was pending; otherwise, and on failure, the
        evidence is kept and nothing is opened. */
    method BeginRestartGap(p: Partition, g: GapCalls) returns (ok: bool)
      modifies this`trace, this`previousState
      ensures ok && Owed(old(previousState), p, g.monotonic) ==>
        && previousState == None
        && |GapsOpened(trace)| == |GapsOpened(old(trace))| + (if g.pending == Some(true) then 0 else 1)
      ensures !ok || !Owed(old(previousState), p, g.monotonic) ==>
        previousState == old(previousState) && GapsOpened(trace) == GapsOpened(old(trace))
      ensures !Owed(old(previousState), p, g.monotonic) ==> ok
      ensures GapAttempt(trace, previousState, ok) == OpenGap(old(trace), old(previousState), p, g)
    {
      GapSettles(trace, previousState, p, g);
      if previousState.None? {
        return true;
      }
      var gap := PendingGap(previousState.value, p, g.monotonic, g.now);
      if gap.None? {
        return true;
      }
      if g.resetAt.None? {
        return false;
      }
      var restartGap := gap.value;
      if g.resetAt.value > 0 {
        restartGap := restartGap.(resetAt := g.resetAt);
      }
      if g.pending.None? {
        return false;
      }
      if !g.pending.value {
        Emit(BeginGap(restartGap, g.beginOk));
        if !g.beginOk {
          return false;
        }
      }
      previousState := None;
      ok := true;
    }

    // The lock is held but the partition cannot be entered: the handle goes after the answer.
    method Reject(p: Partition)
      modifies this`trace
      ensures trace == old(trace) + [Reply(false)] + [UnlockWriter(p)]
    {
      Emit(Reply(false));
      Emit(UnlockWriter(p));
    }

    // What is left of an activation once the writer lock is held.
    method Enter(p: Partition, g: GapCalls, publishing: Publishing)
      requires active == None
      modifies this`trace, this`active, this`previousState
      ensures State() == Entered(old(State()), p, g, publishing)
    {
      var begun := BeginRestartGap(p, g);
      if !begun {
        Reject(p);
        return;
      }
      var published := PersistState(DegradedOn(p), publishing);
      if !published {
        Reject(p);
        return;
      }
      active := Some(p);
      Emit(Reply(true));
    }

    // Lets the active partition go and opens another.
    method Change(p: Partition, o: Opening, g: GapCalls, publishing: Publishing)
      requires Valid() && active != Some(p)
      modifies this`trace, this`active, this`previousState
      ensures State() == Activated(old(State()), p, o, g, publishing)
    {
      ReleaseActive();
      var entered := ActivatePartition(p, o);
      if entered {
        Enter(p, g, publishing);
      } else {
        var _ := PersistState(DegradedOn(p), publishing);
        Emit(Reply(false));
      }
    }

    /** Answers success exactly when the partition is active afterwards, and otherwise leaves none active. A
        partition newly activated is published as degraded until its first commit; one that was active already
        is left alone. */
    method ActivateAccount(p: Partition, o: Opening, g: GapCalls, publishing: Publishing)
      requires Valid() && running
      modifies this
      ensures Valid() && (active == Some(p) || active == None) && Answer(trace) == Some(active == Some(p))
      ensures active == Some(p) && old(active) != Some(p) ==> OnDisk(trace) == Some(DegradedOn(p))
      ensures old(active) == Some(p) ==> active == Some(p) && OnDisk(trace) == OnDisk(old(trace))
      ensures State() == Activated(old(State()), p, o, g, publishing)
    {
      ghost var past := State();
      if active == Some(p) {
        Emit(Reply(true));
      } else {
        Change(p, o, g, publishing);
      }
      ActivationIsSound(past, first, p, o, g, publishing);
      ActivationTells(past, p, o, g, publishing);
    }

    /** Under the writer lock: a generation is acknowledged exactly when it was committed, all that follows went
        well, and the very last thing done was to read it back with the number that is acknowledged. */
    method CommitGeneration(p: Partition, generation: Generation, calls: StoreCalls) returns (ack: Option<Ack>)
      modifies this`trace
      ensures Silent(old(trace), trace)
      ensures Legal(old(trace)) && Held(old(trace)) == multiset{p} ==> Continues(old(trace), trace, multiset{p})
      ensures ack.Some? <==> Confirmed(generation, calls)
      ensures ack.Some? ==>
        && ack.value == Receipt(generation, calls) && |trace| > 0
        && trace[|trace| - 1] == ReadBack(p, Sent(ack.value.generation, generation))
      ensures ack.Some? && Legal(old(trace)) && Held(old(trace)) == multiset{p} ==>
        Latest(trace) == Some((p, Sent(ack.value.generation, generation)))
      ensures Committed(trace, ack) == Commit(old(trace), p, generation, calls)
    {
      if Legal(trace) && Held(trace) == multiset{p} {
        CommitIsLegal(trace, p, generation, calls);
      }
      CommitTells(trace, p, generation, calls);
      if generation.continuity {
        Emit(Write(p));
      }
      if calls.commit.None? {
        Emit(Write(p));
        return None;
      }
      var dataGeneration := calls.commit.value;
      Emit(Collected(p, Sent(dataGeneration, generation)));
      if calls.legacy {
        Emit(Write(p));
        if calls.bridged.None? {
          return None;
        }
        if calls.bridged.value {
          if calls.reloaded.None? {
            return None;
          }
          dataGeneration := calls.reloaded.value;
          Emit(Reloaded(p, dataGeneration));
        }
      }
      if calls.monotonic == 0 {
        return None;
      }
      Emit(Write(p));
      if !calls.reconcileOk || calls.found.None? {
        return None;
      }
      var found := calls.found.value;
      Emit(ReadBack(p, found));
      if found.generation != dataGeneration || found.epoch != Some(generation.epoch) ||
          found.cycle != generation.cycle {
        return None;
      }
      ack := Some(Ack(dataGeneration, generation.epoch, generation.cycle, AtLeastOne(calls.now)));
    }

    // A command that failed: the state file stops claiming Ready, if it can be written.
    method Refuse(publishing: Publishing)
      modifies this`trace
      ensures State() == Refused(old(State()), publishing)
    {
      if active.Some? {
        var _ := PersistState(DegradedOn(active.value), publishing);
      }
      Emit(Reply(false));
    }

    // A commit that was read back: it is acknowledged once the state file says Ready.
    method Announce(p: Partition, ack: Ack, publishing: Publishing)
      modifies this`trace
      ensures trace == Announced(old(trace), p, ack, publishing)
    {
      var published := PersistState(ReadyOn(p, ack), publishing);
      Emit(if published then Acknowledge(p, ack) else Reply(false));
    }

    // The end of a command that got as far as the store.
    method Finish(p: Partition, result: Option<Ack>, publishing: Publishing)
      modifies this`trace
      ensures State() == Finished(old(State()), p, Committed(old(trace), result), publishing)
    {
      if result.Some? {
        Announce(p, result.value, publishing);
      } else {
        Refuse(publishing);
      }
    }

    // The steps of a store command.
    method Record(p: Partition, generation: Generation, calls: StoreCalls, publishing: Publishing)
      requires Valid() && running
      modifies this
      ensures State() == Stored(old(State()), p, generation, calls, publishing)
    {
      if generation.cumulative && generation.timeline {
        Refuse(publishing);
      } else if calls.injection.WorkerDeath? && !injectedFailureConsumed {
        ReleaseActive();
        running := false;
      } else if calls.injection.Failure? && !injectedFailureConsumed {
        injectedFailureConsumed := true;
        Refuse(publishing);
      } else {
        var result: Option<Ack> := None;
        if active == Some(p) {
          result := CommitGeneration(p, generation, calls);
        }
        Finish(p, result, publishing);
      }
    }

    /** Answers success exactly for a confirmed generation of the active partition, and then the state file
        claims it under the number it was committed with; after a failure it claims nothing new, provided it
        could be written. The active partition stays, unless an injected death stops the worker without an
        answer. */
    method StoreGeneration(p: Partition, generation: Generation, calls: StoreCalls, publishing: Publishing)
      requires Valid() && running
      modifies this
      ensures Valid()
      ensures running ==> StoreToldRight(old(State()), State(), p, generation, calls, publishing)
      ensures !running ==> calls.injection.WorkerDeath? && active == None && Silent(old(trace), trace)
      ensures State() == Stored(old(State()), p, generation, calls, publishing)
    {
      ghost var past := State();
      Record(p, generation, calls, publishing);
      StoreIsSound(past, first, p, generation, calls, publishing);
      StoringTells(past, p, generation, calls, publishing);
    }

    /** Succeeds only for the active partition, and touches no store for any other. */
    method ForgetSessions(p: Partition, ok: bool)
      requires Valid() && running
      modifies this`trace
      ensures Valid() && OnDisk(trace) == OnDisk(old(trace)) && Answer(trace) == Some(ok && active == Some(p))
      ensures active != Some(p) ==> trace == old(trace) + [Reply(false)]
      ensures State() == Forgotten(old(State()), p, ok)
    {
      ForgetIsSound(State(), first, p, ok);
      ForgettingTells(State(), p, ok);
      if active == Some(p) {
        Emit(Write(p));
        Emit(Reply(ok));
      } else {
        Emit(Reply(false));
      }
    }

    // One command of the channel.
    method Handle(c: Command)
      requires Valid() && running
      modifies this
      ensures Valid() && State() == Serve(old(State()), c)
    {
      match c {
        case Shutdown =>
          ReleaseActive();
          running := false;
        case Activate(p, o, g, publishing) => ActivateAccount(p, o, g, publishing);
        case Store(p, generation, calls, publishing) => StoreGeneration(p, generation, calls, publishing);
        case Forget(p, ok) => ForgetSessions(p, ok);
      }
    }

    /** The loop over the command channel, from a fresh worker until a command stops it or the channel
        closes; the active partition is let go at the end. */
    method ServeCommands(commands: seq<Command>)
      requires Valid() && State() == Started(first)
      modifies this
      ensures Valid() && active == None && Held(trace) == multiset{} && |GapsOpened(trace)| <= 1
      ensures State() == Released(ServeAll(first, commands))
    {
      for i := 0 to |commands|
        invariant Valid() && State() == ServeAll(first, commands[..i])
      {
        assert commands[..i + 1][..i] == commands[..i];
        if running {
          Handle(commands[i]);
        }
      }
      assert commands[..|commands|] == commands;
      ReleaseActive();
    }
  }
}
