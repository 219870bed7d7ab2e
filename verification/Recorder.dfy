/** The serialized recorder worker (src/daemon.rs, lines 205-339, 1419-1466 and 1540-1945). Every call into
    the file system and the store has its outcome given with the command, so all patterns of failure are
    covered; what the worker does to the outside is recorded event by event in a trace. */
module Recorder {
  import opened Basics

  type Partition = nat

  datatype WriteState = IdleNoAccount | Ready | Degraded

  /** The owner record on disk. The hash of a partition id is taken to be injective and stands as the id. */
  datatype OwnerState = OwnerState(write: WriteState, partition: Option<Partition>, generation: Option<nat>,
                                   epoch: Option<nat>, cycle: Option<nat>, lastCommit: Option<int>)

  datatype Gap = Gap(partition: Partition, startAt: int, endAt: int, resetAt: Option<int>, cursor: nat,
                     epoch: nat, cycle: nat, monotonic: nat)

  datatype Collection = Collection(generation: nat, epoch: Option<nat>, cycle: nat)

  datatype Ack = Ack(generation: nat, epoch: nat, cycle: nat, lastCommit: int)

  datatype Event =
    | LockWriter(p: Partition) | UnlockWriter(p: Partition)
    | MakeCandidate(p: Partition) | Promote(p: Partition)
    | Write(p: Partition) | BeginGap(gap: Gap, begun: bool)
    | Collected(p: Partition, data: Collection) | Reloaded(p: Partition, number: nat)
    | ReadBack(p: Partition, found: Collection)
    | Published(state: OwnerState) | Reply(ok: bool) | Acknowledge(p: Partition, ack: Ack)

  // ---- outcomes of the calls a command makes ----

  // A state write fails before the rename, after it, or not at all.
  datatype Publishing = Lost | Replaced | Done

  /** Opening a partition: which databases exist (None for an error), and whether each call succeeds.
      `lock` is Some(false) when another owner has the writer lock. */
  datatype Opening = Opening(directoryOk: bool, finalSeen: Option<bool>, candidateSeen: Option<bool>, candidateOk: bool,
                             syncOk: bool, renameOk: bool, directorySyncOk: bool, lock: Option<bool>, storeOk: bool,
                              markOk: bool)

  // `resetAt` and `pending` are None when the store cannot be read.
  datatype GapCalls = GapCalls(monotonic: nat, now: int, resetAt: Option<int>, pending: Option<bool>, beginOk: bool)

  datatype Injection = NoInjection | WorkerDeath | Failure

  datatype Generation = Generation(epoch: nat, cycle: nat, continuity: bool, cumulative: bool, timeline: bool)

  /** `commit` is the generation number committed, `legacy` whether a legacy database is to be bridged,
      `bridged` whether it was, `reloaded` the number after that, `found` what the read-back returns. */
  datatype StoreCalls = StoreCalls(injection: Injection, commit: Option<nat>, legacy: bool, bridged: Option<bool>,
                                   reloaded: Option<nat>, monotonic: nat, reconcileOk: bool,
                                    found: Option<Collection>, now: int)

  datatype Command =
    | Shutdown
    | Activate(p: Partition, opening: Opening, gap: GapCalls, publishing: Publishing)
    | Store(p: Partition, generation: Generation, calls: StoreCalls, publishing: Publishing)
    | Forget(p: Partition, ok: bool)

  // ---- what each command does ----

  function AtLeastOne(now: int): int { if now < 1 then 1 else now }

  function PositiveOr1(value: Option<nat>): nat { if value.Some? && value.value > 0 then value.value else 1 }

  function PendingGap(previous: OwnerState, p: Partition, monotonic: nat, clock: int): (gap: Option<Gap>) {
    if previous.write == IdleNoAccount || previous.partition != Some(p) || monotonic == 0 then None
    else
      var now := AtLeastOne(clock);
      var start :=
        if previous.lastCommit.Some? && 0 < previous.lastCommit.value <= now then previous.lastCommit.value else now;
      var cursor := if previous.generation.Some? then previous.generation.value else 0;
      Some(Gap(p, start, now, None, cursor, PositiveOr1(previous.epoch), PositiveOr1(previous.cycle), monotonic))
  }

  // The checks a state must pass before it is written.
  predicate Publishable(state: OwnerState) {
    && (state.generation.Some? ==> state.generation.value > 0)
    && (state.epoch.Some? ==> state.epoch.value > 0)
    && (state.cycle.Some? ==> state.cycle.value > 0)
    && (state.lastCommit.Some? ==> state.lastCommit.value > 0)
    && match state.write {
         case IdleNoAccount => state == IDLE
         case Ready => state.partition.Some? && state.generation.Some? && state.epoch.Some? && state.cycle.Some?
                       && state.lastCommit.Some?
         case Degraded => state.partition.Some?
       }
  }

  const IDLE := OwnerState(IdleNoAccount, None, None, None, None, None)

  function DegradedOn(p: Partition): OwnerState { OwnerState(Degraded, Some(p), None, None, None, None) }

  function ReadyOn(p: Partition, ack: Ack): OwnerState {
    OwnerState(Ready, Some(p), Some(ack.generation), Some(ack.epoch), Some(ack.cycle), Some(ack.lastCommit))
  }

  datatype Attempt = Attempt(trace: seq<Event>, ok: bool)

  function Persist(trace: seq<Event>, state: OwnerState, outcome: Publishing): Attempt {
    if !Publishable(state) || outcome == Lost then Attempt(trace, false)
    else Attempt(trace + [Published(state)], outcome == Done)
  }

  // The candidate becomes the database, before the writer lock is taken.
  function MakeFinal(trace: seq<Event>, p: Partition, o: Opening): Attempt {
    if !o.candidateOk || !o.syncOk || !o.renameOk then Attempt(trace + [MakeCandidate(p)], false)
    else Attempt(trace + [MakeCandidate(p)] + [Promote(p)], o.directorySyncOk)
  }

  function OpenPartition(trace: seq<Event>, p: Partition, o: Opening): Attempt {
    if !o.directoryOk || o.finalSeen.None? || o.candidateSeen.None? then Attempt(trace, false)
    else if o.finalSeen.value && o.candidateSeen.value then Attempt(trace, false)
    else if o.finalSeen.value then LockAndUse(trace, p, o)
    else if !MakeFinal(trace, p, o).ok then MakeFinal(trace, p, o)
    else LockAndUse(MakeFinal(trace, p, o).trace, p, o)
  }

  function LockAndUse(trace: seq<Event>, p: Partition, o: Opening): Attempt {
    if o.lock != Some(true) then Attempt(trace, false) else UseDatabase(trace + [LockWriter(p)], p, o)
  }

  // Under the writer lock: maintenance of a database that was already there, or a first opening.
  function UseDatabase(trace: seq<Event>, p: Partition, o: Opening): Attempt {
    var used := if o.finalSeen == Some(true) then trace + [Write(p)] else trace;
    if o.storeOk && o.markOk then Attempt(used, true) else Attempt(used + [UnlockWriter(p)], false)
  }

  datatype GapAttempt = GapAttempt(trace: seq<Event>, previous: Option<OwnerState>, ok: bool)

  function OpenGap(trace: seq<Event>, previous: Option<OwnerState>, p: Partition, g: GapCalls): GapAttempt {
    var gap := if previous.None? then None else PendingGap(previous.value, p, g.monotonic, g.now);
    if gap.None? then GapAttempt(trace, previous, true)
    else if g.resetAt.None? || g.pending.None? then GapAttempt(trace, previous, false)
    else if g.pending.value then GapAttempt(trace, None, true)
    else
      var bound := gap.value.(resetAt := if g.resetAt.value > 0 then g.resetAt else None);
      GapAttempt(trace + [BeginGap(bound, g.beginOk)], if g.beginOk then None else previous, g.beginOk)
  }

  /** The worker between two commands. */
  datatype Worker = Worker(active: Option<Partition>, previous: Option<OwnerState>, injected: bool, running: bool,
          trace: seq<Event>)

  function Released(w: Worker): Worker {
    if w.active.None? then w else w.(active := None, trace := w.trace + [UnlockWriter(w.active.value)])
  }

  // The rest of an activation, once the partition is open and its lock held.
  function Entered(idle: Worker, p: Partition, g: GapCalls, publishing: Publishing): Worker {
    AfterGap(idle, OpenGap(idle.trace, idle.previous, p, g), p, publishing)
  }

  function AfterGap(idle: Worker, gap: GapAttempt, p: Partition, publishing: Publishing): Worker {
    if !gap.ok then idle.(trace := gap.trace + [Reply(false)] + [UnlockWriter(p)])
    else Admitted(idle.(trace := gap.trace, previous := gap.previous), p, publishing)
  }

  function Admitted(idle: Worker, p: Partition, publishing: Publishing): Worker {
    var published := Persist(idle.trace, DegradedOn(p), publishing);
    if published.ok then idle.(active := Some(p), trace := published.trace + [Reply(true)])
    else idle.(trace := published.trace + [Reply(false)] + [UnlockWriter(p)])
  }

  function Activated(w: Worker, p: Partition, o: Opening, g: GapCalls, publishing: Publishing): Worker {
    if w.active == Some(p) then w.(trace := w.trace + [Reply(true)])
    else
      var idle := Released(w);
      var open := OpenPartition(idle.trace, p, o);
      if !open.ok then idle.(trace := Persist(open.trace, DegradedOn(p), publishing).trace + [Reply(false)])
      else Entered(idle.(trace := open.trace), p, g, publishing)
  }

  datatype Committed = Committed(trace: seq<Event>, ack: Option<Ack>)

  // One generation through the store: continuity, commit, bridge, gap reconciliation, read-back.
  function Commit(trace: seq<Event>, p: Partition, generation: Generation, calls: StoreCalls): Committed {
    var begun := if generation.continuity then trace + [Write(p)] else trace;
    if calls.commit.None? then Committed(begun + [Write(p)], None)
    else Bridging(begun + [Collected(p, Sent(calls.commit.value, generation))], p, generation, calls)
  }

  // What the store holds once a generation is committed under this number.
  function Sent(number: nat, generation: Generation): Collection {
    Collection(number, Some(generation.epoch), generation.cycle)
  }

  // The rest of a commit: the legacy history is bridged, if there is one.
  function Bridging(trace: seq<Event>, p: Partition, generation: Generation, calls: StoreCalls): Committed
    requires calls.commit.Some?
  {
    if !calls.legacy then Reconciled(trace, p, calls.commit.value, generation, calls)
    else if calls.bridged.None? || (calls.bridged.value && calls.reloaded.None?) then
      Committed(trace + [Write(p)], None)
    else if !calls.bridged.value then Reconciled(trace + [Write(p)], p, calls.commit.value, generation, calls)
    else
      var reloaded := trace + [Write(p)] + [Reloaded(p, calls.reloaded.value)];
      Reconciled(reloaded, p, calls.reloaded.value, generation, calls)
  }

  function Reconciled(trace: seq<Event>, p: Partition, number: nat, generation: Generation,
          calls: StoreCalls): Committed {
    if calls.monotonic == 0 then Committed(trace, None)
    else if !calls.reconcileOk || calls.found.None? then Committed(trace + [Write(p)], None)
    else
      var checked := trace + [Write(p)] + [ReadBack(p, calls.found.value)];
      if calls.found.value != Sent(number, generation) then Committed(checked, None)
      else Committed(checked, Some(Ack(number, generation.epoch, generation.cycle, AtLeastOne(calls.now))))
  }

  function Refused(w: Worker, publishing: Publishing): Worker {
    var told := if w.active.None? then w.trace else Persist(w.trace, DegradedOn(w.active.value), publishing).trace;
    w.(trace := told + [Reply(false)])
  }

  function Stored(w: Worker, p: Partition, generation: Generation, calls: StoreCalls, publishing: Publishing): Worker {
    if generation.cumulative && generation.timeline then Refused(w, publishing)
    else if calls.injection.WorkerDeath? && !w.injected then Released(w).(running := false)
    else if calls.injection.Failure? && !w.injected then Refused(w.(injected := true), publishing)
    else if w.active != Some(p) then Refused(w, publishing)
    else Finished(w, p, Commit(w.trace, p, generation, calls), publishing)
  }

  function Finished(w: Worker, p: Partition, done: Committed, publishing: Publishing): Worker {
    if done.ack.None? then Refused(w.(trace := done.trace), publishing)
    else w.(trace := Announced(done.trace, p, done.ack.value, publishing))
  }

  // A commit that was read back is published as Ready, and acknowledged once that is known to be on disk.
  function Announced(trace: seq<Event>, p: Partition, ack: Ack, publishing: Publishing): seq<Event> {
    var published := Persist(trace, ReadyOn(p, ack), publishing);
    published.trace + [if published.ok then Acknowledge(p, ack) else Reply(false)]
  }

  function Forgotten(w: Worker, p: Partition, ok: bool): Worker {
    if w.active == Some(p) then w.(trace := w.trace + [Write(p)] + [Reply(ok)])
    else w.(trace := w.trace + [Reply(false)])
  }

  function Serve(w: Worker, c: Command): Worker {
    if !w.running then w
    else
      match c
      case Shutdown => Released(w).(running := false)
      case Activate(p, opening, gap, publishing) => Activated(w, p, opening, gap, publishing)
      case Store(p, generation, calls, publishing) => Stored(w, p, generation, calls, publishing)
      case Forget(p, ok) => Forgotten(w, p, ok)
  }

  function Started(previous: Option<OwnerState>): Worker { Worker(None, previous, false, true, [Published(IDLE)]) }

  function ServeAll(previous: Option<OwnerState>, commands: seq<Command>): Worker {
    if |commands| == 0 then Started(previous)
    else Serve(ServeAll(previous, commands[..|commands| - 1]), commands[|commands| - 1])
  }

  // ---- what a trace may contain ----

  // The writer locks held after these events, each as often as it was taken and not let go.
  function Held(trace: seq<Event>): multiset<Partition> {
    if |trace| == 0 then multiset{} else HeldAfter(Held(trace[..|trace| - 1]), trace[|trace| - 1])
  }

  function HeldAfter(held: multiset<Partition>, e: Event): multiset<Partition> {
    match e
    case LockWriter(p) => held + multiset{p}
    case UnlockWriter(p) => held - multiset{p}
    case _ => held
  }

  // What the command under way has committed: the partition, and what its store now holds.
  function Latest(trace: seq<Event>): Option<(Partition, Collection)> {
    if |trace| == 0 then None else LatestAfter(Latest(trace[..|trace| - 1]), trace[|trace| - 1])
  }

  function LatestAfter(latest: Option<(Partition, Collection)>, e: Event): Option<(Partition, Collection)> {
    match e
    case Collected(p, data) => Some((p, data))
    case Reloaded(p, number) =>
      if latest.Some? && latest.value.0 == p then Some((p, latest.value.1.(generation := number))) else None
    case Reply(_) => None
    case Acknowledge(_, _) => None
    case _ => latest
  }

  // What may follow these events: locks one at a time, store calls only under the lock of their partition,
  // Ready only for what this command committed and just read back, an acknowledgement only for such a commit
  // that was just published as Ready.
  predicate MayFollow(trace: seq<Event>, e: Event) {
    match e
    case LockWriter(_) => Held(trace) == multiset{}
    case UnlockWriter(p) => Held(trace) == multiset{p}
    case MakeCandidate(_) => Held(trace) == multiset{}
    case Promote(_) => Held(trace) == multiset{}
    case Write(p) => Held(trace) == multiset{p}
    case BeginGap(gap, _) => Held(trace) == multiset{gap.partition}
    case Collected(p, _) => Held(trace) == multiset{p}
    case Reloaded(p, _) => Held(trace) == multiset{p}
    case ReadBack(p, _) => Held(trace) == multiset{p}
    case Published(state) =>
      state.write.Ready? ==>
        && state.partition.Some? && state.generation.Some? && state.cycle.Some? && |trace| > 0
        && var data := Collection(state.generation.value, state.epoch, state.cycle.value);
           trace[|trace| - 1] == ReadBack(state.partition.value, data)
           && Latest(trace) == Some((state.partition.value, data))
    case Reply(_) => true
    case Acknowledge(p, ack) =>
      && |trace| > 0 && trace[|trace| - 1] == Published(ReadyOn(p, ack))
      && Latest(trace) == Some((p, Collection(ack.generation, Some(ack.epoch), ack.cycle)))
  }

  predicate Legal(trace: seq<Event>) {
    |trace| == 0 || (Legal(trace[..|trace| - 1]) && MayFollow(trace[..|trace| - 1], trace[|trace| - 1]))
  }

  // The restart gaps that were opened.
  function GapsOpened(trace: seq<Event>): seq<Gap> {
    if |trace| == 0 then []
    else
      var before, e := GapsOpened(trace[..|trace| - 1]), trace[|trace| - 1];
      if e.BeginGap? && e.begun then before + [e.gap] else before
  }

  // What the state file says after these events, if anything was published.
  function OnDisk(trace: seq<Event>): Option<OwnerState> {
    if |trace| == 0 then None
    else
      var e := trace[|trace| - 1];
      if e.Published? then Some(e.state) else OnDisk(trace[..|trace| - 1])
  }

  // The last answer given to a command: whether it was a success.
  function Answer(trace: seq<Event>): Option<bool> {
    if |trace| == 0 then None
    else
      var e := trace[|trace| - 1];
      if e.Reply? then Some(e.ok) else if e.Acknowledge? then Some(true) else Answer(trace[..|trace| - 1])
  }

  lemma {:induction false} Tells(trace: seq<Event>, e: Event)
    ensures OnDisk(trace + [e]) == if e.Published? then Some(e.state) else OnDisk(trace)
    ensures Answer(trace + [e]) ==
      if e.Reply? then Some(e.ok) else if e.Acknowledge? then Some(true) else Answer(trace)
  {
    assert (trace + [e])[..|trace|] == trace;
  }

  lemma {:induction false} Follows(trace: seq<Event>, e: Event)
    requires Legal(trace) && MayFollow(trace, e)
    ensures Legal(trace + [e]) && Held(trace + [e]) == HeldAfter(Held(trace), e)
    ensures GapsOpened(trace + [e]) == if e.BeginGap? && e.begun then GapsOpened(trace) + [e.gap] else GapsOpened(trace)
    ensures Latest(trace + [e]) == LatestAfter(Latest(trace), e)
  {
    var more := trace + [e];
    assert more[..|more| - 1] == trace;
  }

  // The trace `t` goes on from `s` legally, ending with `held` locked and no more gaps opened.
  ghost predicate Continues(s: seq<Event>, t: seq<Event>, held: multiset<Partition>) {
    Legal(t) && Held(t) == held && GapsOpened(t) == GapsOpened(s)
  }

  lemma {:induction false} PersistIsLegal(trace: seq<Event>, state: OwnerState, outcome: Publishing)
    requires Legal(trace) && MayFollow(trace, Published(state))
    ensures Continues(trace, Persist(trace, state, outcome).trace, Held(trace))
    ensures Persist(trace, state, outcome).ok ==> Persist(trace, state, outcome).trace == trace + [Published(state)]
    ensures Latest(Persist(trace, state, outcome).trace) == Latest(trace)
  {
    Follows(trace, Published(state));
  }

  lemma {:induction false} ReplyIsLegal(trace: seq<Event>, ok: bool)
    requires Legal(trace)
    ensures Continues(trace, trace + [Reply(ok)], Held(trace))
  {
    Follows(trace, Reply(ok));
  }

  lemma {:induction false} WriteIsLegal(trace: seq<Event>, p: Partition)
    requires Legal(trace) && Held(trace) == multiset{p}
    ensures Continues(trace, trace + [Write(p)], multiset{p}) && Latest(trace + [Write(p)]) == Latest(trace)
  {
    Follows(trace, Write(p));
  }

  lemma {:induction false} UnlockIsLegal(trace: seq<Event>, p: Partition)
    requires Legal(trace) && Held(trace) == multiset{p}
    ensures Continues(trace, trace + [UnlockWriter(p)], multiset{})
  {
    Follows(trace, UnlockWriter(p));
  }

  lemma {:induction false} MakeFinalIsLegal(trace: seq<Event>, p: Partition, o: Opening)
    requires Legal(trace) && Held(trace) == multiset{}
    ensures Continues(trace, MakeFinal(trace, p, o).trace, multiset{})
  {
    Follows(trace, MakeCandidate(p));
    Follows(trace + [MakeCandidate(p)], Promote(p));
  }

  lemma {:induction false} OpenIsLegal(trace: seq<Event>, p: Partition, o: Opening)
    requires Legal(trace) && Held(trace) == multiset{}
    ensures Continues(trace, OpenPartition(trace, p, o).trace,
        if OpenPartition(trace, p, o).ok then multiset{p} else multiset{})
  {
    LockIsLegal(trace, p, o);
    MakeFinalIsLegal(trace, p, o);
    LockIsLegal(MakeFinal(trace, p, o).trace, p, o);
  }

  lemma {:induction false} LockIsLegal(trace: seq<Event>, p: Partition, o: Opening)
    requires Legal(trace) && Held(trace) == multiset{}
    ensures Continues(trace, LockAndUse(trace, p, o).trace,
        if LockAndUse(trace, p, o).ok then multiset{p} else multiset{})
  {
    if o.lock == Some(true) {
      Follows(trace, LockWriter(p));
      UseIsLegal(trace + [LockWriter(p)], p, o);
    }
  }

  lemma {:induction false} UseIsLegal(trace: seq<Event>, p: Partition, o: Opening)
    requires Legal(trace) && Held(trace) == multiset{p}
    ensures Continues(trace, UseDatabase(trace, p, o).trace,
        if UseDatabase(trace, p, o).ok then multiset{p} else multiset{})
  {
    WriteIsLegal(trace, p);
    UnlockIsLegal(if o.finalSeen == Some(true) then trace + [Write(p)] else trace, p);
  }

  lemma {:induction false} GapIsLegal(trace: seq<Event>, previous: Option<OwnerState>, p: Partition, g: GapCalls)
    requires Legal(trace) && Held(trace) == multiset{p}
    ensures
      var r := OpenGap(trace, previous, p, g);
      && Legal(r.trace) && Held(r.trace) == multiset{p}
      && ((GapsOpened(r.trace) == GapsOpened(trace) && (r.previous == previous || r.previous == None)) ||
          (exists gap: Gap :: OpenedFrom(previous, gap) && r.previous == None &&
              GapsOpened(r.trace) == GapsOpened(trace) + [gap]))
  {
    var r := OpenGap(trace, previous, p, g);
    if r.trace != trace {
      var gap := PendingGap(previous.value, p, g.monotonic, g.now).value;
      var bound := gap.(resetAt := if g.resetAt.value > 0 then g.resetAt else None);
      Follows(trace, BeginGap(bound, g.beginOk));
      assert OpenedFrom(previous, bound);
    }
  }

  // The gap a previous owner state stands for.
  predicate OpenedFrom(previous: Option<OwnerState>, gap: Gap) {
    && previous.Some? && previous.value.write != IdleNoAccount && previous.value.partition == Some(gap.partition)
    && 1 <= gap.startAt <= gap.endAt && gap.monotonic > 0
    && gap.epoch
      == (if previous.value.epoch == None || previous.value.epoch == Some(0) then 1 else previous.value.epoch.value)
    && gap.cycle
      == (if previous.value.cycle == None || previous.value.cycle == Some(0) then 1 else previous.value.cycle.value)
    && gap.cursor == (if previous.value.generation == None then 0 else previous.value.generation.value)
    && (previous.value.lastCommit.Some? && 0 < previous.value.lastCommit.value <= gap.endAt ==>
         gap.startAt == previous.value.lastCommit.value)
    && (previous.value.lastCommit == None || !(0 < previous.value.lastCommit.value <= gap.endAt) ==>
         gap.startAt == gap.endAt)
    && (gap.resetAt.Some? ==> gap.resetAt.value > 0)
  }

  lemma {:induction false} CommitIsLegal(trace: seq<Event>, p: Partition, generation: Generation, calls: StoreCalls)
    requires Legal(trace) && Held(trace) == multiset{p}
    ensures
      var c := Commit(trace, p, generation, calls);
      && Continues(trace, c.trace, multiset{p})
      && (c.ack.Some? ==> MayFollow(c.trace, Published(ReadyOn(p, c.ack.value))))
  {
    WriteIsLegal(trace, p);
    var begun := if generation.continuity then trace + [Write(p)] else trace;
    WriteIsLegal(begun, p);
    if calls.commit.Some? {
      var committed := begun + [Collected(p, Sent(calls.commit.value, generation))];
      Follows(begun, Collected(p, Sent(calls.commit.value, generation)));
      BridgingIsLegal(committed, p, generation, calls);
    }
  }

  lemma {:induction false} BridgingIsLegal(trace: seq<Event>, p: Partition, generation: Generation, calls: StoreCalls)
    requires Legal(trace) && Held(trace) == multiset{p}
    requires calls.commit.Some? && Latest(trace) == Some((p, Sent(calls.commit.value, generation)))
    ensures
      var c := Bridging(trace, p, generation, calls);
      && Continues(trace, c.trace, multiset{p})
      && (c.ack.Some? ==> MayFollow(c.trace, Published(ReadyOn(p, c.ack.value))))
  {
    var tried := trace + [Write(p)];
    WriteIsLegal(trace, p);
    if !calls.legacy {
      ReconciledIsLegal(trace, p, calls.commit.value, generation, calls);
    } else if calls.bridged.Some? && !calls.bridged.value {
      ReconciledIsLegal(tried, p, calls.commit.value, generation, calls);
    } else if calls.bridged.Some? && calls.reloaded.Some? {
      ReloadedIsLegal(tried, p, calls.commit.value, generation, calls);
    }
  }

  lemma {:induction false} ReloadedIsLegal(trace: seq<Event>, p: Partition, number: nat, generation: Generation,
          calls: StoreCalls)
    requires Legal(trace) && Held(trace) == multiset{p} && Latest(trace) == Some((p, Sent(number, generation)))
    requires calls.reloaded.Some?
    ensures
      var c := Reconciled(trace + [Reloaded(p, calls.reloaded.value)], p, calls.reloaded.value, generation, calls);
      && Continues(trace, c.trace, multiset{p})
      && (c.ack.Some? ==> MayFollow(c.trace, Published(ReadyOn(p, c.ack.value))))
  {
    Follows(trace, Reloaded(p, calls.reloaded.value));
    ReconciledIsLegal(trace + [Reloaded(p, calls.reloaded.value)], p, calls.reloaded.value, generation, calls);
  }

  lemma {:induction false} ReconciledIsLegal(trace: seq<Event>, p: Partition, number: nat, generation: Generation,
          calls: StoreCalls)
    requires Legal(trace) && Held(trace) == multiset{p} && Latest(trace) == Some((p, Sent(number, generation)))
    ensures
      var c := Reconciled(trace, p, number, generation, calls);
      && Continues(trace, c.trace, multiset{p})
      && (c.ack.Some? ==> MayFollow(c.trace, Published(ReadyOn(p, c.ack.value))))
  {
    WriteIsLegal(trace, p);
    if calls.found.Some? {
      Follows(trace + [Write(p)], ReadBack(p, calls.found.value));
    }
  }

  // ---- every worker state ----

  // At most one gap, from the first previous state, which is used up by it.
  predicate GapsSound(gaps: seq<Gap>, previous: Option<OwnerState>, first: Option<OwnerState>) {
    && (previous == first || previous == None)
    && (gaps == [] || (|gaps| == 1 && previous == None && OpenedFrom(first, gaps[0])))
  }

  ghost predicate Sound(w: Worker, first: Option<OwnerState>) {
    && Legal(w.trace)
    && Held(w.trace) == (if w.active.Some? then multiset{w.active.value} else multiset{})
    && GapsSound(GapsOpened(w.trace), w.previous, first)
    && (!w.running ==> w.active == None)
  }

  lemma {:induction false} ReleaseIsSound(w: Worker, first: Option<OwnerState>)
    requires Sound(w, first)
    ensures Sound(Released(w), first) && Released(w).active == None
    ensures GapsOpened(Released(w).trace) == GapsOpened(w.trace)
  {
    if w.active.Some? {
      UnlockIsLegal(w.trace, w.active.value);
    }
  }

  lemma {:induction false} RefusalIsSound(w: Worker, first: Option<OwnerState>, publishing: Publishing)
    requires Sound(w, first)
    ensures Sound(Refused(w, publishing), first)
  {
    if w.active.Some? {
      var told := Persist(w.trace, DegradedOn(w.active.value), publishing);
      PersistIsLegal(w.trace, DegradedOn(w.active.value), publishing);
      ReplyIsLegal(told.trace, false);
    } else {
      ReplyIsLegal(w.trace, false);
    }
  }

  lemma {:induction false} ActivationIsSound(w: Worker, first: Option<OwnerState>, p: Partition, o: Opening,
          g: GapCalls, publishing: Publishing)
    requires Sound(w, first) && w.running
    ensures Sound(Activated(w, p, o, g, publishing), first)
  {
    if w.active == Some(p) {
      ReplyIsLegal(w.trace, true);
    } else {
      var idle := Released(w);
      ReleaseIsSound(w, first);
      var open := OpenPartition(idle.trace, p, o);
      OpenIsLegal(idle.trace, p, o);
      if !open.ok {
        PersistIsLegal(open.trace, DegradedOn(p), publishing);
        ReplyIsLegal(Persist(open.trace, DegradedOn(p), publishing).trace, false);
      } else {
        OpenedIsSound(idle.(trace := open.trace), first, p, g, publishing);
      }
    }
  }

  lemma {:induction false} RejectionIsLegal(trace: seq<Event>, p: Partition)
    requires Legal(trace) && Held(trace) == multiset{p}
    ensures Continues(trace, trace + [Reply(false)] + [UnlockWriter(p)], multiset{})
  {
    ReplyIsLegal(trace, false);
    UnlockIsLegal(trace + [Reply(false)], p);
  }

  lemma {:induction false} GapStaysSound(trace: seq<Event>, previous: Option<OwnerState>, first: Option<OwnerState>,
          p: Partition, g: GapCalls)
    requires Legal(trace) && Held(trace) == multiset{p} && GapsSound(GapsOpened(trace), previous, first)
    ensures
      var r := OpenGap(trace, previous, p, g);
      Legal(r.trace) && Held(r.trace) == multiset{p} && GapsSound(GapsOpened(r.trace), r.previous, first)
  {
    GapIsLegal(trace, previous, p, g);
  }

  lemma {:induction false} OpenedIsSound(idle: Worker, first: Option<OwnerState>, p: Partition, g: GapCalls,
          publishing: Publishing)
    requires Legal(idle.trace) && Held(idle.trace) == multiset{p} && idle.active == None && idle.running
    requires GapsSound(GapsOpened(idle.trace), idle.previous, first)
    ensures Sound(Entered(idle, p, g, publishing), first)
  {
    GapStaysSound(idle.trace, idle.previous, first, p, g);
    AfterGapIsSound(idle, OpenGap(idle.trace, idle.previous, p, g), first, p, publishing);
  }

  lemma {:induction false} AfterGapIsSound(idle: Worker, gap: GapAttempt, first: Option<OwnerState>, p: Partition,
          publishing: Publishing)
    requires Legal(gap.trace) && Held(gap.trace) == multiset{p} && idle.active == None && idle.running
    requires GapsSound(GapsOpened(gap.trace), gap.previous, first)
    requires !gap.ok ==> gap.previous == idle.previous
    ensures Sound(AfterGap(idle, gap, p, publishing), first)
    ensures GapsOpened(AfterGap(idle, gap, p, publishing).trace) == GapsOpened(gap.trace)
  {
    if !gap.ok {
      RejectionIsLegal(gap.trace, p);
    } else {
      AdmissionIsSound(idle.(trace := gap.trace, previous := gap.previous), first, p, publishing);
    }
  }

  lemma {:induction false} AdmissionIsSound(idle: Worker, first: Option<OwnerState>, p: Partition,
          publishing: Publishing)
    requires Legal(idle.trace) && Held(idle.trace) == multiset{p} && idle.active == None && idle.running
    requires GapsSound(GapsOpened(idle.trace), idle.previous, first)
    ensures Sound(Admitted(idle, p, publishing), first)
    ensures GapsOpened(Admitted(idle, p, publishing).trace) == GapsOpened(idle.trace)
  {
    var published := Persist(idle.trace, DegradedOn(p), publishing);
    PersistIsLegal(idle.trace, DegradedOn(p), publishing);
    RejectionIsLegal(published.trace, p);
    ReplyIsLegal(published.trace, true);
  }

  lemma {:induction false} StoreIsSound(w: Worker, first: Option<OwnerState>, p: Partition, generation: Generation,
          calls: StoreCalls, publishing: Publishing)
    requires Sound(w, first) && w.running
    ensures Sound(Stored(w, p, generation, calls, publishing), first)
  {
    if generation.cumulative && generation.timeline {
      RefusalIsSound(w, first, publishing);
    } else if calls.injection.WorkerDeath? && !w.injected {
      ReleaseIsSound(w, first);
    } else if calls.injection.Failure? && !w.injected {
      RefusalIsSound(w.(injected := true), first, publishing);
    } else if w.active != Some(p) {
      RefusalIsSound(w, first, publishing);
    } else {
      CommitIsLegal(w.trace, p, generation, calls);
      FinishIsSound(w, first, p, Commit(w.trace, p, generation, calls), publishing);
    }
  }

  lemma {:induction false} FinishIsSound(w: Worker, first: Option<OwnerState>, p: Partition, done: Committed,
          publishing: Publishing)
    requires Sound(w, first) && w.running && w.active == Some(p) && Continues(w.trace, done.trace, multiset{p})
    requires done.ack.Some? ==> MayFollow(done.trace, Published(ReadyOn(p, done.ack.value)))
    ensures Sound(Finished(w, p, done, publishing), first)
  {
    if done.ack.None? {
      RefusalIsSound(w.(trace := done.trace), first, publishing);
    } else {
      AnnouncingIsLegal(done.trace, p, done.ack.value, publishing);
    }
  }

  lemma {:induction false} AnnouncingIsLegal(trace: seq<Event>, p: Partition, ack: Ack, publishing: Publishing)
    requires Legal(trace) && MayFollow(trace, Published(ReadyOn(p, ack)))
    ensures Continues(trace, Announced(trace, p, ack, publishing), Held(trace))
  {
    var published := Persist(trace, ReadyOn(p, ack), publishing);
    PersistIsLegal(trace, ReadyOn(p, ack), publishing);
    ReplyIsLegal(published.trace, false);
    if published.ok {
      Follows(published.trace, Acknowledge(p, ack));
    }
  }

  lemma {:induction false} ForgetIsSound(w: Worker, first: Option<OwnerState>, p: Partition, ok: bool)
    requires Sound(w, first) && w.running
    ensures Sound(Forgotten(w, p, ok), first)
  {
    ReplyIsLegal(w.trace, false);
    if w.active == Some(p) {
      WriteIsLegal(w.trace, p);
      ReplyIsLegal(w.trace + [Write(p)], ok);
    }
  }

  lemma {:induction false} ServingIsSound(first: Option<OwnerState>, commands: seq<Command>)
    ensures Sound(ServeAll(first, commands), first)
  {
    if |commands| == 0 {
      Follows([], Published(IDLE));
      assert [] + [Published(IDLE)] == [Published(IDLE)];
    } else {
      var before := commands[..|commands| - 1];
      ServingIsSound(first, before);
      var w := ServeAll(first, before);
      if w.running {
        match commands[|commands| - 1] {
          case Shutdown => ReleaseIsSound(w, first);
          case Activate(p, opening, gap, publishing) => ActivationIsSound(w, first, p, opening, gap, publishing);
          case Store(p, generation, calls, publishing) => StoreIsSound(w, first, p, generation, calls, publishing);
          case Forget(p, ok) => ForgetIsSound(w, first, p, ok);
        }
      }
    }
  }

  // ---- what every run of the worker guarantees ----

  lemma {:induction false} LegalAt(trace: seq<Event>, i: nat)
    requires Legal(trace) && i <= |trace|
    ensures Legal(trace[..i]) && (i < |trace| ==> MayFollow(trace[..i], trace[i]))
    decreases |trace|
  {
    if i == |trace| {
      assert trace[..i] == trace;
    } else {
      var before := trace[..|trace| - 1];
      if i < |before| {
        LegalAt(before, i);
        assert before[..i] == trace[..i];
      }
    }
  }

  lemma {:induction false} OneLockAtMost(trace: seq<Event>)
    requires Legal(trace)
    ensures Held(trace) == multiset{} || exists p: Partition :: Held(trace) == multiset{p}
  {
    if |trace| > 0 {
      var before, e := trace[..|trace| - 1], trace[|trace| - 1];
      OneLockAtMost(before);
      if e.LockWriter? {
        assert Held(trace) == multiset{e.p};
      } else if e.UnlockWriter? {
        assert Held(trace) == multiset{};
      }
    }
  }

  predicate TouchesStore(e: Event, p: Partition) {
    e == Write(p) || ((e.Collected? || e.Reloaded? || e.ReadBack?) && e.p == p) || (e.BeginGap? && e.gap.partition == p)
  }

  // The command under way committed this collection to the store of that partition: the number is the one the
  // commit returned, or the one loaded again after a legacy history was bridged.
  ghost predicate CommittedBefore(trace: seq<Event>, p: Partition, data: Collection) {
    exists k, number: nat ::
      && 0 <= k < |trace| && trace[k] == Collected(p, data.(generation := number))
      && (forall j :: k < j < |trace| ==> !trace[j].Reply? && !trace[j].Acknowledge?)
      && (number == data.generation || exists j :: k < j < |trace| && trace[j] == Reloaded(p, data.generation))
  }

  lemma {:induction false} LatestIsCommitted(trace: seq<Event>, p: Partition, data: Collection)
    requires Latest(trace) == Some((p, data))
    ensures CommittedBefore(trace, p, data)
  {
    var before, e := trace[..|trace| - 1], trace[|trace| - 1];
    if e.Collected? {
      assert trace[|before|] == Collected(p, data.(generation := data.generation));
    } else {
      var earlier := Latest(before).value.1;
      LatestIsCommitted(before, p, earlier);
      CommittedStill(before, e, p, earlier, data);
      assert trace == before + [e];
    }
  }

  lemma {:induction false} CommittedStill(trace: seq<Event>, e: Event, p: Partition, data: Collection, now: Collection)
    requires CommittedBefore(trace, p, data) && !e.Reply? && !e.Acknowledge?
    requires now == data || (e == Reloaded(p, now.generation) && now == data.(generation := now.generation))
    ensures CommittedBefore(trace + [e], p, now)
  {
    var more := trace + [e];
    var k, number: nat :|
      && 0 <= k < |trace| && trace[k] == Collected(p, data.(generation := number))
      && (forall j :: k < j < |trace| ==> !trace[j].Reply? && !trace[j].Acknowledge?)
      && (number == data.generation || exists j :: k < j < |trace| && trace[j] == Reloaded(p, data.generation));
    assert more[k] == Collected(p, now.(generation := number));
    if now != data {
      assert more[|trace|] == Reloaded(p, now.generation);
    } else if number != data.generation {
      var j :| k < j < |trace| && trace[j] == Reloaded(p, data.generation);
      assert more[j] == Reloaded(p, now.generation);
    }
  }

  // The event before position `i` read back what the same command had committed.
  ghost predicate ReadBackBefore(trace: seq<Event>, i: nat, p: Partition, data: Collection) {
    0 < i <= |trace| && trace[i - 1] == ReadBack(p, data) && CommittedBefore(trace[..i], p, data)
  }

  // The state at position `i` may be Ready.
  ghost predicate ReadyIsRight(trace: seq<Event>, i: nat, state: OwnerState) {
    && state.partition.Some? && state.generation.Some? && state.cycle.Some?
    && ReadBackBefore(trace, i, state.partition.value,
         Collection(state.generation.value, state.epoch, state.cycle.value))
  }

  // The acknowledgement at position `i` is of a commit that was read back and then published.
  ghost predicate AcknowledgeIsRight(trace: seq<Event>, i: nat, p: Partition, ack: Ack) {
    && 0 < i <= |trace| && trace[i - 1] == Published(ReadyOn(p, ack))
    && ReadBackBefore(trace, i - 1, p, Collection(ack.generation, Some(ack.epoch), ack.cycle))
  }

  lemma {:induction false} ReadyIsCommitted(trace: seq<Event>, i: nat)
    requires Legal(trace) && i < |trace| && trace[i].Published? && trace[i].state.write.Ready?
    ensures ReadyIsRight(trace, i, trace[i].state)
  {
    var state := trace[i].state;
    LegalAt(trace, i);
    LatestIsCommitted(trace[..i], state.partition.value,
      Collection(state.generation.value, state.epoch, state.cycle.value));
  }

  lemma {:induction false} AcknowledgedIsCommitted(trace: seq<Event>, i: nat, p: Partition, ack: Ack)
    requires Legal(trace) && i < |trace| && trace[i] == Acknowledge(p, ack)
    ensures AcknowledgeIsRight(trace, i, p, ack)
  {
    LegalAt(trace, i);
    ReadyIsCommitted(trace, i - 1);
  }

  // At most one writer lock is held, a store is only touched under its lock, and a candidate only made or
  // promoted while no lock is held.
  ghost predicate LocksAreRight(trace: seq<Event>, e: Event) {
    && (Held(trace) == multiset{} || exists p: Partition :: Held(trace) == multiset{p})
    && (forall p: Partition :: TouchesStore(e, p) ==> Held(trace) == multiset{p})
    && (e.MakeCandidate? || e.Promote? ==> Held(trace) == multiset{})
  }

  lemma {:induction false} LockingIsRight(trace: seq<Event>, e: Event)
    requires Legal(trace) && MayFollow(trace, e)
    ensures LocksAreRight(trace, e)
  {
    OneLockAtMost(trace);
    forall p: Partition | TouchesStore(e, p) ensures Held(trace) == multiset{p} {
      assert e.BeginGap? || e.p == p;
    }
  }

  // What is right about the event at position `i`: its locks, the state file only becomes Ready for what the
  // same command committed and just read back, and an acknowledgement comes right after that.
  ghost predicate IsRight(trace: seq<Event>, i: nat)
    requires i < |trace|
  {
    && LocksAreRight(trace[..i], trace[i])
    && (trace[i].Published? && trace[i].state.write.Ready? ==> ReadyIsRight(trace, i, trace[i].state))
    && (trace[i].Acknowledge? ==> AcknowledgeIsRight(trace, i, trace[i].p, trace[i].ack))
  }

  lemma {:induction false} LegalIsRight(trace: seq<Event>, i: nat)
    requires Legal(trace) && i < |trace|
    ensures IsRight(trace, i)
  {
    LegalAt(trace, i);
    LockingIsRight(trace[..i], trace[i]);
    if trace[i].Acknowledge? {
      AcknowledgedIsCommitted(trace, i, trace[i].p, trace[i].ack);
    } else if trace[i].Published? && trace[i].state.write.Ready? {
      ReadyIsCommitted(trace, i);
    }
  }

  // Nothing is said, or a positive number is.
  predicate Unless0(value: Option<nat>) { value != Some(0) }

  /** Which states may be published: an idle one that says nothing, a ready one that says everything, and a degraded
      one that names its partition; no number said is zero, and no commit time below one. */
  lemma {:induction false} PublishableIff(state: OwnerState)
    ensures Publishable(state) <==>
      && Unless0(state.generation) && Unless0(state.epoch) && Unless0(state.cycle)
      && (state.lastCommit == None || 1 <= state.lastCommit.value)
      && (state.write.IdleNoAccount? ==>
           && state.partition == None && state.generation == None && state.epoch == None && state.cycle == None
           && state.lastCommit == None)
      && (state.write.Degraded? ==> state.partition != None)
      && (state.write.Ready? ==>
           && state.partition != None && state.generation != None && state.epoch != None && state.cycle != None
           && state.lastCommit != None)
  {
  }

  /** A new owner first says on disk that it serves no account. */
  lemma {:induction false} StartsIdle(first: Option<OwnerState>)
    ensures ServeAll(first, []).trace == [Published(OwnerState(IdleNoAccount, None, None, None, None, None))]
    ensures ServeAll(first, []).active == None && ServeAll(first, []).previous == first
  {
  }

  /** Every event of every run is right. */
  lemma {:induction false} EveryEventIsGuarded(first: Option<OwnerState>, commands: seq<Command>, i: nat)
    requires i < |ServeAll(first, commands).trace|
    ensures IsRight(ServeAll(first, commands).trace, i)
  {
    ServingIsSound(first, commands);
    LegalIsRight(ServeAll(first, commands).trace, i);
  }

  /** Between two commands the lock held is that of the active partition, and none once the worker stopped. */
  lemma {:induction false} LockFollowsActive(first: Option<OwnerState>, commands: seq<Command>)
    ensures
      var w := ServeAll(first, commands);
      && Held(w.trace) == (if w.active.Some? then multiset{w.active.value} else multiset{})
      && (!w.running ==> Held(w.trace) == multiset{})
  {
    ServingIsSound(first, commands);
  }

  /** Over a whole run at most one restart gap is opened, and only in the partition that the previous
      owner's state names. */
  lemma {:induction false} OneRestartGap(first: Option<OwnerState>, commands: seq<Command>)
    ensures |GapsOpened(ServeAll(first, commands).trace)| <= 1
    ensures forall gap :: gap in GapsOpened(ServeAll(first, commands).trace) ==> OpenedFrom(first, gap)
  {
    ServingIsSound(first, commands);
    var gaps := GapsOpened(ServeAll(first, commands).trace);
    assert gaps == [] || gaps == [gaps[0]];
  }

  /** Activating another account leaves the previous owner's evidence for its own account. */
  lemma {:induction false} OtherAccountKeepsEvidence(w: Worker, p: Partition, o: Opening, g: GapCalls,
          publishing: Publishing)
    requires w.previous.Some? && w.previous.value.partition != Some(p)
    ensures Activated(w, p, o, g, publishing).previous == w.previous
  {
    assert PendingGap(w.previous.value, p, g.monotonic, g.now) == None;
  }

  // The previous owner was writing this partition, and the clock works.
  predicate Owed(previous: Option<OwnerState>, p: Partition, monotonic: nat) {
    previous.Some? && !previous.value.write.IdleNoAccount? && previous.value.partition == Some(p) && monotonic > 0
  }

  predicate OpensFully(o: Opening) {
    && o.directoryOk && o.finalSeen.Some? && o.candidateSeen.Some? && !(o.finalSeen.value && o.candidateSeen.value)
    && (o.finalSeen.value || (o.candidateOk && o.syncOk && o.renameOk && o.directorySyncOk))
    && o.lock == Some(true) && o.storeOk && o.markOk
  }

  /** The first activation of the account the previous owner was writing opens the gap, unless its store
      already has one pending. */
  lemma {:induction false} RestartOpensItsGap(w: Worker, p: Partition, o: Opening, g: GapCalls, publishing: Publishing)
    requires w.previous.Some? && w.previous.value.partition == Some(p) && !w.previous.value.write.IdleNoAccount?
    requires w.running && w.active != Some(p) && Sound(w, w.previous) && OpensFully(o)
    requires g.monotonic > 0 && g.resetAt.Some? && g.pending.Some? && g.beginOk
    ensures
      var after := Activated(w, p, o, g, publishing);
      && after.previous == None
      && |GapsOpened(after.trace)| == (if g.pending.value then 0 else 1)
  {
    var idle := Released(w);
    ReleaseIsSound(w, w.previous);
    OpeningSucceeds(idle.trace, p, o);
    OpenIsLegal(idle.trace, p, o);
    EntryOpensGap(idle.(trace := OpenPartition(idle.trace, p, o).trace), p, g, publishing);
  }

  lemma {:induction false} OpeningSucceeds(trace: seq<Event>, p: Partition, o: Opening)
    requires OpensFully(o)
    ensures OpenPartition(trace, p, o).ok
  {
  }

  lemma {:induction false} EntryOpensGap(idle: Worker, p: Partition, g: GapCalls, publishing: Publishing)
    requires Legal(idle.trace) && Held(idle.trace) == multiset{p} && GapsOpened(idle.trace) == []
    requires idle.running && idle.active == None
    requires idle.previous.Some? && idle.previous.value.partition == Some(p)
    requires !idle.previous.value.write.IdleNoAccount?
    requires g.monotonic > 0 && g.resetAt.Some? && g.pending.Some? && g.beginOk
    ensures Entered(idle, p, g, publishing).previous == None
    ensures |GapsOpened(Entered(idle, p, g, publishing).trace)| == if g.pending.value then 0 else 1
  {
    var gap := OpenGap(idle.trace, idle.previous, p, g);
    GapCounts(idle.trace, idle.previous, p, g);
    assert Legal(gap.trace) && Held(gap.trace) == multiset{p} &&
        GapsSound(GapsOpened(gap.trace), None, idle.previous) by {
      GapStaysSound(idle.trace, idle.previous, idle.previous, p, g);
    }
    GapIsTheCount(idle, gap, p, publishing);
  }

  lemma {:induction false} GapIsTheCount(idle: Worker, gap: GapAttempt, p: Partition, publishing: Publishing)
    requires Legal(gap.trace) && Held(gap.trace) == multiset{p} && idle.running && idle.active == None
    requires gap.ok && gap.previous == None && GapsSound(GapsOpened(gap.trace), None, idle.previous)
    ensures AfterGap(idle, gap, p, publishing).previous == None
    ensures GapsOpened(AfterGap(idle, gap, p, publishing).trace) == GapsOpened(gap.trace)
  {
    AfterGapIsSound(idle, gap, idle.previous, p, publishing);
  }

  lemma {:induction false} GapCounts(trace: seq<Event>, previous: Option<OwnerState>, p: Partition, g: GapCalls)
    requires Legal(trace) && Held(trace) == multiset{p} && GapsOpened(trace) == []
    requires previous.Some? && previous.value.partition == Some(p) && !previous.value.write.IdleNoAccount?
    requires g.monotonic > 0 && g.resetAt.Some? && g.pending.Some? && g.beginOk
    ensures OpenGap(trace, previous, p, g).ok && OpenGap(trace, previous, p, g).previous == None
    ensures |GapsOpened(OpenGap(trace, previous, p, g).trace)| == if g.pending.value then 0 else 1
  {
    if !g.pending.value {
      var gap := PendingGap(previous.value, p, g.monotonic, g.now).value.(
          resetAt := if g.resetAt.value > 0 then g.resetAt else None);
      Follows(trace, BeginGap(gap, true));
    }
  }

  /** A generation or a forget request for any other partition reaches no store at all. */
  lemma {:induction false} OtherPartitionIsUntouched(w: Worker, c: Command)
    requires (c.Store? || c.Forget?) && w.active != Some(c.p)
    ensures |w.trace| <= |Serve(w, c).trace| && w.trace == Serve(w, c).trace[..|w.trace|]
    ensures forall i, q: Partition :: |w.trace| <= i < |Serve(w, c).trace| ==> !TouchesStore(Serve(w, c).trace[i], q)
  {
  }

  // ---- exactly which changes are not under the writer lock ----

  // The partition whose files a call changes.
  function Changes(e: Event): Option<Partition> {
    match e
    case MakeCandidate(p) => Some(p)
    case Promote(p) => Some(p)
    case Write(p) => Some(p)
    case Collected(p, _) => Some(p)
    case BeginGap(gap, _) => Some(gap.partition)
    case _ => None
  }

  predicate Guarded(trace: seq<Event>, e: Event) { Changes(e).Some? ==> Held(trace) == multiset{Changes(e).value} }

  // How many changes were made without holding the lock of their partition.
  function Unguarded(trace: seq<Event>): nat {
    if |trace| == 0 then 0
    else
      var before, e := trace[..|trace| - 1], trace[|trace| - 1];
      Unguarded(before) + if Guarded(before, e) then 0 else 1
  }

  lemma {:induction false} GuardedThroughout(trace: seq<Event>, i: nat)
    requires Unguarded(trace) == 0 && i < |trace|
    ensures Guarded(trace[..i], trace[i])
    decreases |trace|
  {
    var before := trace[..|trace| - 1];
    if i < |before| {
      GuardedThroughout(before, i);
      assert before[..i] == trace[..i];
    }
  }

  lemma {:induction false} UnguardedSomewhere(trace: seq<Event>) returns (i: nat)
    requires Unguarded(trace) > 0
    ensures i < |trace| && !Guarded(trace[..i], trace[i])
    decreases |trace|
  {
    var before := trace[..|trace| - 1];
    if Unguarded(before) > 0 {
      i := UnguardedSomewhere(before);
      assert before[..i] == trace[..i];
    } else {
      i := |before|;
    }
  }

  // How many steps the worker took to prepare a database that did not exist yet.
  function Prepared(trace: seq<Event>): nat {
    if |trace| == 0 then 0
    else
      var e := trace[|trace| - 1];
      Prepared(trace[..|trace| - 1]) + if e.MakeCandidate? || e.Promote? then 1 else 0
  }

  lemma {:induction false} UnguardedIsPrepared(trace: seq<Event>)
    requires Legal(trace)
    ensures Unguarded(trace) == Prepared(trace)
  {
    if |trace| > 0 {
      UnguardedIsPrepared(trace[..|trace| - 1]);
    }
  }

  lemma {:induction false} PreparedMore(trace: seq<Event>, e: Event)
    ensures Prepared(trace + [e]) == Prepared(trace) + if e.MakeCandidate? || e.Promote? then 1 else 0
  {
    assert (trace + [e])[..|trace|] == trace;
  }

  // An activation that finds neither the partition active nor its database there makes the candidate, and
  // promotes it if the calls up to the rename go well.
  function Steps(w: Worker, p: Partition, o: Opening): nat {
    if w.active == Some(p) || !o.directoryOk || o.finalSeen != Some(false) || o.candidateSeen.None? then 0
    else if o.candidateOk && o.syncOk && o.renameOk then 2 else 1
  }

  lemma {:induction false} PersistPrepares(trace: seq<Event>, state: OwnerState, outcome: Publishing)
    ensures Prepared(Persist(trace, state, outcome).trace) == Prepared(trace)
  {
    PreparedMore(trace, Published(state));
  }

  lemma {:induction false} OpeningPrepares(w: Worker, p: Partition, o: Opening)
    requires w.active == None
    ensures Prepared(OpenPartition(w.trace, p, o).trace) == Prepared(w.trace) + Steps(w, p, o)
  {
    LockPrepares(w.trace, p, o);
    PreparedMore(w.trace, MakeCandidate(p));
    PreparedMore(w.trace + [MakeCandidate(p)], Promote(p));
    LockPrepares(MakeFinal(w.trace, p, o).trace, p, o);
  }

  lemma {:induction false} LockPrepares(trace: seq<Event>, p: Partition, o: Opening)
    ensures Prepared(LockAndUse(trace, p, o).trace) == Prepared(trace)
  {
    var locked := trace + [LockWriter(p)];
    PreparedMore(trace, LockWriter(p));
    PreparedMore(locked, Write(p));
    PreparedMore(locked, UnlockWriter(p));
    PreparedMore(locked + [Write(p)], UnlockWriter(p));
  }

  lemma {:induction false} EntryPrepares(idle: Worker, p: Partition, g: GapCalls, publishing: Publishing)
    ensures Prepared(Entered(idle, p, g, publishing).trace) == Prepared(idle.trace)
  {
    var gap := OpenGap(idle.trace, idle.previous, p, g);
    if |gap.trace| > |idle.trace| {
      PreparedMore(idle.trace, gap.trace[|idle.trace|]);
    }
    assert Prepared(gap.trace) == Prepared(idle.trace);
    var published := Persist(gap.trace, DegradedOn(p), publishing).trace;
    PersistPrepares(gap.trace, DegradedOn(p), publishing);
    RejectionPrepares(gap.trace, p);
    RejectionPrepares(published, p);
    PreparedMore(published, Reply(true));
  }

  lemma {:induction false} RejectionPrepares(trace: seq<Event>, p: Partition)
    ensures Prepared(trace + [Reply(false)] + [UnlockWriter(p)]) == Prepared(trace)
  {
    PreparedMore(trace, Reply(false));
    PreparedMore(trace + [Reply(false)], UnlockWriter(p));
  }

  lemma {:induction false} ReleasePrepares(w: Worker)
    ensures Prepared(Released(w).trace) == Prepared(w.trace)
  {
    if w.active.Some? {
      PreparedMore(w.trace, UnlockWriter(w.active.value));
    }
  }

  lemma {:induction false} RefusalPrepares(w: Worker, publishing: Publishing)
    ensures Prepared(Refused(w, publishing).trace) == Prepared(w.trace)
  {
    PreparedMore(w.trace, Reply(false));
    if w.active.Some? {
      PersistPrepares(w.trace, DegradedOn(w.active.value), publishing);
      PreparedMore(Persist(w.trace, DegradedOn(w.active.value), publishing).trace, Reply(false));
    }
  }

  lemma {:induction false} ActivationPrepares(w: Worker, p: Partition, o: Opening, g: GapCalls, publishing: Publishing)
    ensures Prepared(Activated(w, p, o, g, publishing).trace) == Prepared(w.trace) + Steps(w, p, o)
  {
    if w.active == Some(p) {
      PreparedMore(w.trace, Reply(true));
    } else {
      var idle := Released(w);
      ReleasePrepares(w);
      OpeningPrepares(idle, p, o);
      var open := OpenPartition(idle.trace, p, o);
      if open.ok {
        EntryPrepares(idle.(trace := open.trace), p, g, publishing);
      } else {
        PersistPrepares(open.trace, DegradedOn(p), publishing);
        PreparedMore(Persist(open.trace, DegradedOn(p), publishing).trace, Reply(false));
      }
    }
  }

  lemma {:induction false} WritesPrepare(trace: seq<Event>, p: Partition, generation: Generation, calls: StoreCalls)
    ensures Prepared(Commit(trace, p, generation, calls).trace) == Prepared(trace)
  {
    var begun := if generation.continuity then trace + [Write(p)] else trace;
    PreparedMore(trace, Write(p));
    PreparedMore(begun, Write(p));
    if calls.commit.Some? {
      PreparedMore(begun, Collected(p, Sent(calls.commit.value, generation)));
      BridgingPrepares(begun + [Collected(p, Sent(calls.commit.value, generation))], p, generation, calls);
    }
  }

  lemma {:induction false} BridgingPrepares(trace: seq<Event>, p: Partition, generation: Generation, calls: StoreCalls)
    requires calls.commit.Some?
    ensures Prepared(Bridging(trace, p, generation, calls).trace) == Prepared(trace)
  {
    var tried := trace + [Write(p)];
    PreparedMore(trace, Write(p));
    ReconcilingPrepares(trace, p, calls.commit.value, generation, calls);
    ReconcilingPrepares(tried, p, calls.commit.value, generation, calls);
    if calls.reloaded.Some? {
      PreparedMore(tried, Reloaded(p, calls.reloaded.value));
      ReconcilingPrepares(tried + [Reloaded(p, calls.reloaded.value)], p, calls.reloaded.value, generation, calls);
    }
  }

  lemma {:induction false} ReconcilingPrepares(trace: seq<Event>, p: Partition, number: nat, generation: Generation,
          calls: StoreCalls)
    ensures Prepared(Reconciled(trace, p, number, generation, calls).trace) == Prepared(trace)
  {
    PreparedMore(trace, Write(p));
    if calls.found.Some? {
      PreparedMore(trace + [Write(p)], ReadBack(p, calls.found.value));
    }
  }

  lemma {:induction false} FinishingPrepares(w: Worker, p: Partition, done: Committed, publishing: Publishing)
    requires Prepared(done.trace) == Prepared(w.trace)
    ensures Prepared(Finished(w, p, done, publishing).trace) == Prepared(w.trace)
  {
    if done.ack.None? {
      RefusalPrepares(w.(trace := done.trace), publishing);
    } else {
      var published := Persist(done.trace, ReadyOn(p, done.ack.value), publishing);
      PersistPrepares(done.trace, ReadyOn(p, done.ack.value), publishing);
      PreparedMore(published.trace, Acknowledge(p, done.ack.value));
      PreparedMore(published.trace, Reply(false));
    }
  }

  lemma {:induction false} StoringPrepares(w: Worker, p: Partition, generation: Generation, calls: StoreCalls,
          publishing: Publishing)
    ensures Prepared(Stored(w, p, generation, calls, publishing).trace) == Prepared(w.trace)
  {
    if generation.cumulative && generation.timeline {
      RefusalPrepares(w, publishing);
    } else if calls.injection.WorkerDeath? && !w.injected {
      ReleasePrepares(w);
    } else if calls.injection.Failure? && !w.injected {
      RefusalPrepares(w.(injected := true), publishing);
    } else if w.active != Some(p) {
      RefusalPrepares(w, publishing);
    } else {
      WritesPrepare(w.trace, p, generation, calls);
      FinishingPrepares(w, p, Commit(w.trace, p, generation, calls), publishing);
    }
  }

  lemma {:induction false} ForgettingPrepares(w: Worker, p: Partition, ok: bool)
    ensures Prepared(Forgotten(w, p, ok).trace) == Prepared(w.trace)
  {
    PreparedMore(w.trace, Write(p));
    PreparedMore(w.trace + [Write(p)], Reply(ok));
    PreparedMore(w.trace, Reply(false));
  }

  // Whether a command makes a worker prepare a missing database.
  predicate Prepares(w: Worker, c: Command) { w.running && c.Activate? && Steps(w, c.p, c.opening) > 0 }

  lemma {:induction false} ServingPrepares(w: Worker, c: Command)
    ensures Prepared(Serve(w, c).trace) == Prepared(w.trace) + if Prepares(w, c) then Steps(w, c.p, c.opening) else 0
  {
    match c {
      case Shutdown => ReleasePrepares(w);
      case Activate(p, o, g, publishing) => ActivationPrepares(w, p, o, g, publishing);
      case Store(p, generation, calls, publishing) => StoringPrepares(w, p, generation, calls, publishing);
      case Forget(p, ok) => ForgettingPrepares(w, p, ok);
    }
  }

  // Whether the command at position `i` of the run prepares a missing database.
  predicate PreparesAt(first: Option<OwnerState>, commands: seq<Command>, i: nat)
    requires i < |commands|
  {
    Prepares(ServeAll(first, commands[..i]), commands[i])
  }

  lemma {:induction false} PreparesStill(first: Option<OwnerState>, commands: seq<Command>, c: Command, i: nat)
    requires i < |commands|
    ensures PreparesAt(first, commands + [c], i) == PreparesAt(first, commands, i)
  {
    assert (commands + [c])[..i] == commands[..i];
  }

  lemma {:induction false} PreparedWithLast(first: Option<OwnerState>, before: seq<Command>, c: Command)
    ensures Prepared(ServeAll(first, before + [c]).trace) == 0 <==>
      Prepared(ServeAll(first, before).trace) == 0 && !PreparesAt(first, before + [c], |before|)
  {
    assert (before + [c])[..|before|] == before;
    ServingPrepares(ServeAll(first, before), c);
  }

  lemma {:induction false} NothingPrepared(first: Option<OwnerState>, commands: seq<Command>, i: nat)
    requires Prepared(ServeAll(first, commands).trace) == 0 && i < |commands|
    ensures !PreparesAt(first, commands, i)
    decreases |commands|
  {
    var before, c := commands[..|commands| - 1], commands[|commands| - 1];
    assert commands == before + [c];
    PreparedWithLast(first, before, c);
    if i < |before| {
      NothingPrepared(first, before, i);
      PreparesStill(first, before, c, i);
    }
  }

  lemma {:induction false} StartPrepares()
    ensures Prepared([Published(IDLE)]) == 0
  {
    PreparedMore([], Published(IDLE));
    assert [] + [Published(IDLE)] == [Published(IDLE)];
  }

  lemma {:induction false} PreparedSomewhere(first: Option<OwnerState>, commands: seq<Command>) returns (i: nat)
    requires Prepared(ServeAll(first, commands).trace) > 0
    ensures i < |commands| && PreparesAt(first, commands, i)
    decreases |commands|
  {
    if |commands| == 0 {
      StartPrepares();
      assert false;
    } else {
      var before, c := commands[..|commands| - 1], commands[|commands| - 1];
      assert commands == before + [c];
      PreparedWithLast(first, before, c);
      if Prepared(ServeAll(first, before).trace) > 0 {
        i := PreparedSomewhere(first, before);
        PreparesStill(first, before, c, i);
      } else {
        i := |before|;
      }
    }
  }

  /** Every change to a partition's files is made under its writer lock exactly when no activation of the run
      met a partition that was not active and had no database yet, in a directory it could use. */
  lemma {:induction false} GuardedUnlessPrepared(first: Option<OwnerState>, commands: seq<Command>)
    ensures
      var trace := ServeAll(first, commands).trace;
      (forall i :: 0 <= i < |trace| ==> Guarded(trace[..i], trace[i])) <==>
      (forall i: nat :: i < |commands| ==> !PreparesAt(first, commands, i))
  {
    ServingIsSound(first, commands);
    var trace := ServeAll(first, commands).trace;
    UnguardedIsPrepared(trace);
    if Unguarded(trace) == 0 {
      forall i | 0 <= i < |trace| ensures Guarded(trace[..i], trace[i]) {
        GuardedThroughout(trace, i);
      }
      forall i: nat | i < |commands| ensures !PreparesAt(first, commands, i) {
        NothingPrepared(first, commands, i);
      }
    } else {
      var i := UnguardedSomewhere(trace);
      var j := PreparedSomewhere(first, commands);
    }
  }

  /** Every activation leaves exactly as many unguarded changes as it takes steps to prepare a database. */
  lemma {:induction false} ActivationLeavesUnguarded(first: Option<OwnerState>, commands: seq<Command>, p: Partition,
          o: Opening, g: GapCalls, publishing: Publishing)
    requires ServeAll(first, commands).running
    ensures
      var w := ServeAll(first, commands);
      Unguarded(Activated(w, p, o, g, publishing).trace) == Unguarded(w.trace) + Steps(w, p, o)
  {
    var w := ServeAll(first, commands);
    ServingIsSound(first, commands);
    ActivationIsSound(w, first, p, o, g, publishing);
    UnguardedIsPrepared(w.trace);
    UnguardedIsPrepared(Activated(w, p, o, g, publishing).trace);
    ActivationPrepares(w, p, o, g, publishing);
  }

  /** It does happen: a first activation in an empty directory makes the candidate with no lock held. */
  lemma {:induction false} FirstActivationIsUnguarded() returns (commands: seq<Command>)
    ensures |commands| == 1
    ensures
      var trace := ServeAll(None, commands).trace;
      exists i :: 0 <= i < |trace| && !Guarded(trace[..i], trace[i])
  {
    var opening := Opening(true, Some(false), Some(false), true, true, true, true, Some(true), true, true);
    commands := [Activate(0, opening, GapCalls(1, 1, Some(0), Some(false), true), Done)];
    assert commands[..0] == [];
    assert PreparesAt(None, commands, 0);
    GuardedUnlessPrepared(None, commands);
  }

  // ---- what the state file and the caller are told ----

  // Neither the state file nor the last answer changes.
  predicate Silent(s: seq<Event>, t: seq<Event>) { OnDisk(t) == OnDisk(s) && Answer(t) == Answer(s) }

  /** A write that succeeds leaves its state in the file; one that fails leaves the old state or, if only the
      rename was reached, the new one. A state that fails validation never gets there. */
  lemma {:induction false} PersistTells(trace: seq<Event>, state: OwnerState, outcome: Publishing)
    ensures
      var r := Persist(trace, state, outcome);
      && Answer(r.trace) == Answer(trace)
      && (r.ok ==> Publishable(state) && OnDisk(r.trace) == Some(state))
      && (!r.ok ==> OnDisk(r.trace) == OnDisk(trace) || (Publishable(state) && OnDisk(r.trace) == Some(state)))
  {
    Tells(trace, Published(state));
  }

  lemma {:induction false} OpeningTells(trace: seq<Event>, p: Partition, o: Opening)
    ensures Silent(trace, OpenPartition(trace, p, o).trace)
    ensures OpenPartition(trace, p, o).ok <==> OpensFully(o)
  {
    LockingTells(trace, p, o);
    Tells(trace, MakeCandidate(p));
    Tells(trace + [MakeCandidate(p)], Promote(p));
    LockingTells(MakeFinal(trace, p, o).trace, p, o);
  }

  lemma {:induction false} LockingTells(trace: seq<Event>, p: Partition, o: Opening)
    ensures Silent(trace, LockAndUse(trace, p, o).trace)
  {
    var locked := trace + [LockWriter(p)];
    Tells(trace, LockWriter(p));
    Tells(locked, Write(p));
    Tells(locked, UnlockWriter(p));
    Tells(locked + [Write(p)], UnlockWriter(p));
  }

  lemma {:induction false} RejectionTells(trace: seq<Event>, p: Partition)
    ensures OnDisk(trace + [Reply(false)] + [UnlockWriter(p)]) == OnDisk(trace)
    ensures Answer(trace + [Reply(false)] + [UnlockWriter(p)]) == Some(false)
  {
    Tells(trace, Reply(false));
    Tells(trace + [Reply(false)], UnlockWriter(p));
  }

  lemma {:induction false} AdmissionTells(idle: Worker, p: Partition, publishing: Publishing)
    requires idle.active == None
    ensures
      var w := Admitted(idle, p, publishing);
      && (w.active == Some(p) || w.active == None) && Answer(w.trace) == Some(w.active == Some(p))
      && (w.active == Some(p) ==> OnDisk(w.trace) == Some(DegradedOn(p)))
  {
    var published := Persist(idle.trace, DegradedOn(p), publishing).trace;
    PersistTells(idle.trace, DegradedOn(p), publishing);
    Tells(published, Reply(true));
    RejectionTells(published, p);
  }

  /** An activation answers success exactly when the partition is active afterwards, and otherwise leaves
      none active. A partition newly activated is published as degraded until its first commit. */
  lemma {:induction false} ActivationTells(w: Worker, p: Partition, o: Opening, g: GapCalls, publishing: Publishing)
    ensures
      var after := Activated(w, p, o, g, publishing);
      && (after.active == Some(p) || after.active == None) && Answer(after.trace) == Some(after.active == Some(p))
      && (w.active == Some(p) ==> after.active == Some(p) && OnDisk(after.trace) == OnDisk(w.trace))
      && (w.active != Some(p) && after.active == Some(p) ==> OnDisk(after.trace) == Some(DegradedOn(p)))
  {
    if w.active == Some(p) {
      Tells(w.trace, Reply(true));
    } else {
      var idle := Released(w);
      var open := OpenPartition(idle.trace, p, o);
      if open.ok {
        var gap := OpenGap(open.trace, idle.previous, p, g);
        RejectionTells(gap.trace, p);
        AdmissionTells(idle.(trace := gap.trace, previous := gap.previous), p, publishing);
      } else {
        Tells(Persist(open.trace, DegradedOn(p), publishing).trace, Reply(false));
      }
    }
  }

  // The number under which the generation is committed: that of the commit, or the one loaded again after a
  // legacy history was bridged; None if one of these calls failed.
  function Number(calls: StoreCalls): Option<nat> {
    if calls.commit.None? || !calls.legacy then calls.commit
    else if calls.bridged.None? then None
    else if calls.bridged.value then calls.reloaded else calls.commit
  }

  // The commit and all calls after it went well, and the read-back found this very generation.
  predicate Confirmed(generation: Generation, calls: StoreCalls) {
    && Number(calls).Some? && calls.monotonic > 0 && calls.reconcileOk
    && calls.found == Some(Sent(Number(calls).value, generation))
  }

  function Receipt(generation: Generation, calls: StoreCalls): Ack
    requires Confirmed(generation, calls)
  {
    Ack(Number(calls).value, generation.epoch, generation.cycle, AtLeastOne(calls.now))
  }

  /** What is acknowledged: the number, the epoch and the cycle of the commit, and when it was read back. */
  lemma {:induction false} ReceiptIs(generation: Generation, calls: StoreCalls)
    requires Confirmed(generation, calls)
    ensures
      var ack := Receipt(generation, calls);
      && calls.found == Some(Collection(ack.generation, Some(generation.epoch), generation.cycle))
      && ack.epoch == generation.epoch && ack.cycle == generation.cycle
      && Some(ack.generation) == (if calls.legacy && calls.bridged.value then calls.reloaded else calls.commit)
      && ack.lastCommit == if calls.now <= 0 then 1 else calls.now
  {
  }

  /** A generation is acknowledged exactly when it was committed, everything after that went well, and the
      read-back agrees with the commit; then under the number it was committed with. */
  lemma {:induction false} CommitTells(trace: seq<Event>, p: Partition, generation: Generation, calls: StoreCalls)
    ensures
      var c := Commit(trace, p, generation, calls);
      && Silent(trace, c.trace)
      && c.ack == if Confirmed(generation, calls) then Some(Receipt(generation, calls)) else None
  {
    var begun := if generation.continuity then trace + [Write(p)] else trace;
    Tells(trace, Write(p));
    Tells(begun, Write(p));
    if calls.commit.Some? {
      Tells(begun, Collected(p, Sent(calls.commit.value, generation)));
      BridgingTells(begun + [Collected(p, Sent(calls.commit.value, generation))], p, generation, calls);
    }
  }

  lemma {:induction false} BridgingTells(trace: seq<Event>, p: Partition, generation: Generation, calls: StoreCalls)
    requires calls.commit.Some?
    ensures
      var c := Bridging(trace, p, generation, calls);
      && Silent(trace, c.trace)
      && c.ack == if Confirmed(generation, calls) then Some(Receipt(generation, calls)) else None
  {
    if !calls.legacy {
      ReconcilingTells(trace, p, calls.commit.value, generation, calls);
    } else {
      LegacyTells(trace, p, generation, calls);
    }
  }

  lemma {:induction false} LegacyTells(trace: seq<Event>, p: Partition, generation: Generation, calls: StoreCalls)
    requires calls.commit.Some? && calls.legacy
    ensures
      var c := Bridging(trace, p, generation, calls);
      && Silent(trace, c.trace)
      && c.ack == if Confirmed(generation, calls) then Some(Receipt(generation, calls)) else None
  {
    var tried := trace + [Write(p)];
    Tells(trace, Write(p));
    if Number(calls).None? {
      assert Bridging(trace, p, generation, calls) == Committed(tried, None);
    } else if calls.bridged.value {
      ReloadingTells(tried, p, calls.reloaded.value, generation, calls);
      AckIs(Bridging(trace, p, generation, calls).ack, generation, calls);
    } else {
      ReconcilingTells(tried, p, calls.commit.value, generation, calls);
      AckIs(Bridging(trace, p, generation, calls).ack, generation, calls);
    }
  }

  lemma {:induction false} AckIs(ack: Option<Ack>, generation: Generation, calls: StoreCalls)
    requires Number(calls).Some?
    requires ack.Some? <==>
      calls.monotonic > 0 && calls.reconcileOk && calls.found == Some(Sent(Number(calls).value, generation))
    requires ack.Some? ==>
      ack.value == Ack(Number(calls).value, generation.epoch, generation.cycle, AtLeastOne(calls.now))
    ensures ack == if Confirmed(generation, calls) then Some(Receipt(generation, calls)) else None
  {
  }

  lemma {:induction false} ReloadingTells(trace: seq<Event>, p: Partition, number: nat, generation: Generation,
          calls: StoreCalls)
    ensures
      var c := Reconciled(trace + [Reloaded(p, number)], p, number, generation, calls);
      && Silent(trace, c.trace)
      && (c.ack.Some? <==> calls.monotonic > 0 && calls.reconcileOk && calls.found == Some(Sent(number, generation)))
      && (c.ack.Some? ==> c.ack.value == Ack(number, generation.epoch, generation.cycle, AtLeastOne(calls.now)))
  {
    Tells(trace, Reloaded(p, number));
    ReconcilingTells(trace + [Reloaded(p, number)], p, number, generation, calls);
  }

  lemma {:induction false} ReconcilingTells(trace: seq<Event>, p: Partition, number: nat, generation: Generation,
          calls: StoreCalls)
    ensures
      var c := Reconciled(trace, p, number, generation, calls);
      && Silent(trace, c.trace)
      && (c.ack.Some? <==> calls.monotonic > 0 && calls.reconcileOk && calls.found == Some(Sent(number, generation)))
      && (c.ack.Some? ==> c.ack.value == Ack(number, generation.epoch, generation.cycle, AtLeastOne(calls.now)))
  {
    Tells(trace, Write(p));
    if calls.found.Some? {
      Tells(trace + [Write(p)], ReadBack(p, calls.found.value));
    }
  }

  // The state file claims this generation of this partition, under the number it was committed with.
  predicate ReadyWith(state: OwnerState, p: Partition, generation: Generation, calls: StoreCalls) {
    && state.write == Ready && state.partition == Some(p) && state.generation == Number(calls)
    && state.epoch == Some(generation.epoch) && state.cycle == Some(generation.cycle)
  }

  lemma {:induction false} RefusalTells(w: Worker, publishing: Publishing)
    ensures
      var after := Refused(w, publishing);
      && Answer(after.trace) == Some(false)
      && (w.active.Some? && publishing == Done ==> OnDisk(after.trace) == Some(DegradedOn(w.active.value)))
  {
    Tells(w.trace, Reply(false));
    if w.active.Some? {
      PersistTells(w.trace, DegradedOn(w.active.value), publishing);
      Tells(Persist(w.trace, DegradedOn(w.active.value), publishing).trace, Reply(false));
    }
  }

  lemma {:induction false} AnnouncingTells(trace: seq<Event>, p: Partition, ack: Ack, publishing: Publishing)
    ensures
      var announced, ready := Announced(trace, p, ack, publishing), ReadyOn(p, ack);
      && Answer(announced) == Some(Publishable(ready) && publishing == Done)
      && OnDisk(announced) == if Publishable(ready) && publishing != Lost then Some(ready) else OnDisk(trace)
  {
    var published := Persist(trace, ReadyOn(p, ack), publishing);
    Tells(trace, Published(ReadyOn(p, ack)));
    Tells(published.trace, Acknowledge(p, ack));
    Tells(published.trace, Reply(false));
  }

  lemma {:induction false} FinishTells(w: Worker, p: Partition, generation: Generation, calls: StoreCalls,
          done: Committed, publishing: Publishing)
    requires w.active == Some(p) && OnDisk(done.trace) == OnDisk(w.trace)
    requires !(generation.cumulative && generation.timeline) && (w.injected || calls.injection.NoInjection?)
    requires done.ack == if Confirmed(generation, calls) then Some(Receipt(generation, calls)) else None
    ensures StoreToldRight(w, Finished(w, p, done, publishing), p, generation, calls, publishing)
  {
    if done.ack.None? {
      RefusalTells(w.(trace := done.trace), publishing);
    } else {
      AnnouncingTells(done.trace, p, done.ack.value, publishing);
    }
  }

  // What it takes for a generation to be acknowledged.
  predicate Accepts(w: Worker, p: Partition, generation: Generation, calls: StoreCalls, publishing: Publishing) {
    && w.active == Some(p) && !(generation.cumulative && generation.timeline)
    && (w.injected || calls.injection.NoInjection?) && Confirmed(generation, calls)
    && Number(calls).value > 0 && generation.epoch > 0 && generation.cycle > 0 && publishing == Done
  }

  // Success is answered exactly for an accepted generation, and then the state file claims it; after a failure
  // it no longer claims anything new, provided it could be written.
  predicate StoreToldRight(w: Worker, after: Worker, p: Partition, generation: Generation, calls: StoreCalls,
          publishing: Publishing) {
    && after.active == w.active && Answer(after.trace) == Some(Accepts(w, p, generation, calls, publishing))
    && (Accepts(w, p, generation, calls, publishing) ==>
         OnDisk(after.trace).Some? && ReadyWith(OnDisk(after.trace).value, p, generation, calls))
    && (!Accepts(w, p, generation, calls, publishing) && w.active.Some? && publishing == Done ==>
         OnDisk(after.trace) == Some(DegradedOn(w.active.value)) || OnDisk(after.trace) == OnDisk(w.trace))
  }

  /** A store command keeps the active partition and tells the truth about it, unless an injected death stops
      the worker without an answer. */
  lemma {:induction false} StoringTells(w: Worker, p: Partition, generation: Generation, calls: StoreCalls,
          publishing: Publishing)
    requires w.running
    ensures
      var after := Stored(w, p, generation, calls, publishing);
      && (after.running ==> StoreToldRight(w, after, p, generation, calls, publishing))
      && (!after.running ==> calls.injection.WorkerDeath? && after.active == None && Silent(w.trace, after.trace))
  {
    if generation.cumulative && generation.timeline {
      RefusalTells(w, publishing);
    } else if calls.injection.WorkerDeath? && !w.injected {
      if w.active.Some? {
        Tells(w.trace, UnlockWriter(w.active.value));
      }
    } else if calls.injection.Failure? && !w.injected {
      RefusalTells(w.(injected := true), publishing);
    } else if w.active != Some(p) {
      RefusalTells(w, publishing);
    } else {
      CommitTells(w.trace, p, generation, calls);
      FinishTells(w, p, generation, calls, Commit(w.trace, p, generation, calls), publishing);
    }
  }

  /** The gap that is begun: for the partition of the previous owner's state and from its last commit, where that
      is in the past, to now; bounded by the end of the quota period if there is one. */
  lemma {:induction false} GapBegun(trace: seq<Event>, previous: Option<OwnerState>, p: Partition, g: GapCalls)
    ensures
      var begins := Owed(previous, p, g.monotonic) && g.resetAt.Some? && g.pending == Some(false);
      && (OpenGap(trace, previous, p, g).trace != trace <==> begins)
      && (begins ==> exists gap: Gap ::
           && OpenGap(trace, previous, p, g).trace == trace + [BeginGap(gap, g.beginOk)]
           && OpenedFrom(previous, gap) && gap.partition == p && gap.monotonic == g.monotonic
           && gap.endAt == (if g.now < 1 then 1 else g.now)
           && gap.resetAt == (if g.resetAt.value > 0 then g.resetAt else None))
  {
    var t := OpenGap(trace, previous, p, g).trace;
    if Owed(previous, p, g.monotonic) && g.resetAt.Some? && g.pending == Some(false) {
      var gap := PendingGap(previous.value, p, g.monotonic, g.now).value;
      var bound := gap.(resetAt := if g.resetAt.value > 0 then g.resetAt else None);
      assert t == trace + [BeginGap(bound, g.beginOk)];
      assert OpenedFrom(previous, bound);
    }
  }

  /** The restart gap is settled on success and untouched on failure: one is opened unless one was pending, and
      only where the previous owner was writing. */
  lemma {:induction false} GapSettles(trace: seq<Event>, previous: Option<OwnerState>, p: Partition, g: GapCalls)
    ensures
      var r := OpenGap(trace, previous, p, g);
      && Silent(trace, r.trace)
      && (r.ok && Owed(previous, p, g.monotonic) ==>
           && r.previous == None
           && |GapsOpened(r.trace)| == |GapsOpened(trace)| + (if g.pending == Some(true) then 0 else 1))
      && (!r.ok || !Owed(previous, p, g.monotonic) ==>
          r.previous == previous && GapsOpened(r.trace) == GapsOpened(trace))
      && (!Owed(previous, p, g.monotonic) ==> r.ok)
  {
    var r := OpenGap(trace, previous, p, g);
    if r.trace != trace {
      var gap := PendingGap(previous.value, p, g.monotonic, g.now).value;
      var bound := gap.(resetAt := if g.resetAt.value > 0 then g.resetAt else None);
      Tells(trace, BeginGap(bound, g.beginOk));
      assert r.trace[..|trace|] == trace;
    }
  }

  lemma {:induction false} ForgettingTells(w: Worker, p: Partition, ok: bool)
    ensures
      var after := Forgotten(w, p, ok);
      OnDisk(after.trace) == OnDisk(w.trace) && Answer(after.trace) == Some(ok && w.active == Some(p))
  {
    Tells(w.trace, Write(p));
    Tells(w.trace + [Write(p)], Reply(ok));
    Tells(w.trace, Reply(false));
  }
}
