/** Stopping the daemon named by the profile lock (src/daemon.rs, lines 612-645, 696-873 and 1023-1093):
    every system call of `stop_daemon` is one step, and between any two of them processes may start, exit,
    exec, reuse a pid, and change, replace or remove the lock in any way. */
module StopProtocol {
  import opened Basics

  type Pid = nat

  const MAX_PID: nat := 0x7fff_ffff

  datatype Executable = Executable(device: nat, inode: nat)

  datatype Process = Process(start: nat, exe: Executable)

  // A process instance: a pid together with the start time of its holder.
  datatype Instance = Instance(pid: Pid, start: nat)

  datatype LockRecord = LockRecord(pid: Pid, startedAt: int, start: nat, exe: Executable, nonce: nat)

  predicate IsComplete(record: LockRecord) {
    && record.pid > 0 && record.startedAt > 0 && record.start > 0
    && record.exe.device > 0 && record.exe.inode > 0
  }

  predicate MatchesProcess(record: LockRecord, start: nat, exe: Executable) {
    IsComplete(record) && record.start == start && record.exe == exe
  }

  function Recorded(record: LockRecord): Instance { Instance(record.pid, record.start) }

  // `text` is the record the bytes spell with exactly the six known keys, if they do.
  datatype File = File(regular: bool, oversized: bool, text: Option<LockRecord>)

  datatype Entry = Entry(inode: nat, link: bool)

  /** `used` holds every instance that has ever run; the kernel never runs one twice. */
  datatype World = World(processes: map<Pid, Process>, used: set<Instance>, path: Option<Entry>, inodes: map<nat, File>)

  function FileAt(w: World, inode: nat): File {
    if inode in w.inodes then w.inodes[inode] else File(false, false, None)
  }

  predicate Live(w: World, i: Instance) { i.pid in w.processes && w.processes[i.pid].start == i.start }

  function Parse(text: Option<LockRecord>): Option<LockRecord> {
    if text.Some? && IsComplete(text.value) then text else None
  }

  datatype Snapshot = Snapshot(inode: nat, record: LockRecord)

  datatype StopError = LockUnavailable | LockInvalid | OwnerChanged | SignalFailed | Timeout

  // Which reading of the lock this is. `target` is the instance the pidfd is bound to.
  datatype When = Initial | PreSignal(first: Snapshot, target: Instance) | PostSignal(first: Snapshot)

  datatype Phase =
    | Stat(when: When)
    | Open(when: When, seen: nat)
    | Read(when: When, held: nat)
    | Restat(when: When, held: nat, text: Option<LockRecord>)
    | StartTime(when: When, snapshot: Snapshot)
    | ExeStat(when: When, snapshot: Snapshot, start: nat)
    | Attach(first: Snapshot)
    | Signal(first: Snapshot, target: Instance)
    | Pause(first: Snapshot)
    | Stopped
    | Refused(error: StopError)

  /** `firstRead`, `attempts` and `terms` record what happened: the record of the first snapshot, how often
      a signal was sent, and which instances got one. */
  datatype State = State(world: World, phase: Phase, firstRead: Option<LockRecord>, attempts: nat, terms: seq<Instance>)

  datatype Move =
    | Stop(fault: bool)
    | Spawn(pid: Pid, process: Process) | Exit(pid: Pid) | Exec(pid: Pid, exe: Executable)
    | SetPath(path: Option<Entry>) | SetFile(inode: nat, file: File)

  // ---- one step of the stopping process ----

  function Refuse(s: State, error: StopError): State { s.(phase := Refused(error)) }

  // The lock's name is gone at a point where that means `early` to the first reading.
  function Missing(s: State, when: When, early: Phase): State {
    match when
    case Initial => s.(phase := early)
    case PreSignal(_, _) => Refuse(s, OwnerChanged)
    case PostSignal(_) => s.(phase := Stopped)
  }

  // A whole snapshot has been read.
  function Observed(s: State, when: When, snapshot: Snapshot): State {
    match when
    case Initial => s.(phase := StartTime(when, snapshot), firstRead := Some(snapshot.record))
    case PreSignal(_, _) => s.(phase := StartTime(when, snapshot))
    case PostSignal(first) => if snapshot != first then Refuse(s, OwnerChanged) else s.(phase := Pause(first))
  }

  function LockStep(s: State, fault: bool): State {
    var path := s.world.path;
    match s.phase
    case Stat(when) =>
      if fault then Refuse(s, LockUnavailable)
      else if path.None? then Missing(s, when, Stopped)
      else
        var file := FileAt(s.world, path.value.inode);
        if path.value.link || !file.regular || file.oversized then Refuse(s, LockInvalid)
        else s.(phase := Open(when, path.value.inode))
    case Open(when, seen) =>
      if fault then Refuse(s, LockUnavailable)
      else if path.None? then Missing(s, when, Refused(LockUnavailable))
      else if path.value.inode != seen then Refuse(s, OwnerChanged)
      else s.(phase := Read(when, seen))
    case Read(when, held) =>
      if fault then Refuse(s, LockUnavailable)
      else if FileAt(s.world, held).oversized then Refuse(s, LockInvalid)
      else s.(phase := Restat(when, held, FileAt(s.world, held).text))
    case Restat(when, held, text) =>
      if fault then Refuse(s, LockUnavailable)
      else if path.None? then Missing(s, when, Refused(OwnerChanged))
      else if path.value.link || path.value.inode != held then Refuse(s, OwnerChanged)
      else if Parse(text).None? then Refuse(s, LockInvalid)
      else Observed(s, when, Snapshot(held, text.value))
    case _ => s
  }

  // The identity of a process is read in two calls that need not meet the same instance.
  function IdentityStep(s: State, fault: bool): State {
    match s.phase
    case StartTime(when, snapshot) =>
      var pid := snapshot.record.pid;
      if fault || pid !in s.world.processes then Unidentified(s, when)
      else s.(phase := ExeStat(when, snapshot, s.world.processes[pid].start))
    case ExeStat(when, snapshot, start) =>
      var pid := snapshot.record.pid;
      if fault || pid !in s.world.processes then Unidentified(s, when)
      else Identified(s, when, snapshot, MatchesProcess(snapshot.record, start, s.world.processes[pid].exe))
    case _ => s
  }

  function Unidentified(s: State, when: When): State {
    Refuse(s, if when.PreSignal? then OwnerChanged else LockInvalid)
  }

  function Identified(s: State, when: When, snapshot: Snapshot, matches: bool): State {
    match when
    case Initial => if matches then s.(phase := Attach(snapshot)) else Refuse(s, LockInvalid)
    case PreSignal(first, target) =>
      if snapshot == first && matches then s.(phase := Signal(first, target)) else Refuse(s, OwnerChanged)
    case PostSignal(_) => s
  }

  function StopStep(s: State, fault: bool): State {
    match s.phase
    case Attach(first) =>
      var pid := first.record.pid;
      if fault || pid > MAX_PID || pid !in s.world.processes then Refuse(s, SignalFailed)
      else s.(phase := Stat(PreSignal(first, Instance(pid, s.world.processes[pid].start))))
    case Signal(first, target) =>
      var tried := s.(attempts := s.attempts + 1);
      if fault || !Live(s.world, target) then Refuse(tried, SignalFailed)
      else tried.(terms := s.terms + [target], phase := Stat(PostSignal(first)))
    case Pause(first) => if fault then Refuse(s, Timeout) else s.(phase := Stat(PostSignal(first)))
    case StartTime(_, _) => IdentityStep(s, fault)
    case ExeStat(_, _, _) => IdentityStep(s, fault)
    case _ => LockStep(s, fault)
  }

  function WorldStep(w: World, m: Move): World {
    match m
    case Spawn(pid, process) =>
      var i := Instance(pid, process.start);
      if pid in w.processes || i in w.used then w
      else w.(processes := w.processes[pid := process], used := w.used + {i})
    case Exit(pid) => w.(processes := w.processes - {pid})
    case Exec(pid, exe) =>
      if pid in w.processes then w.(processes := w.processes[pid := w.processes[pid].(exe := exe)]) else w
    case SetPath(path) => w.(path := path)
    case SetFile(inode, file) => w.(inodes := w.inodes[inode := file])
    case Stop(_) => w
  }

  function Step(s: State, m: Move): State {
    if m.Stop? then StopStep(s, m.fault) else s.(world := WorldStep(s.world, m))
  }

  function Begin(w: World): State { State(w, Stat(Initial), None, 0, []) }

  function Run(w: World, moves: seq<Move>): State {
    if |moves| == 0 then Begin(w) else Step(Run(w, moves[..|moves| - 1]), moves[|moves| - 1])
  }

  ghost predicate Possible(w: World) {
    forall pid: Pid :: pid in w.processes ==> Instance(pid, w.processes[pid].start) in w.used
  }

  // ---- the invariant ----

  function WhenOf(phase: Phase): Option<When> {
    match phase
    case Stat(when) => Some(when)
    case Open(when, _) => Some(when)
    case Read(when, _) => Some(when)
    case Restat(when, _, _) => Some(when)
    case StartTime(when, _) => Some(when)
    case ExeStat(when, _, _) => Some(when)
    case _ => None
  }

  // The pidfd holds the recorded instance, or that instance is gone for good.
  predicate Bound(w: World, first: Snapshot, target: Instance) {
    && Recorded(first.record) in w.used && target.pid == first.record.pid
    && (target == Recorded(first.record) || !Live(w, Recorded(first.record)))
  }

  predicate Untried(s: State) { s.attempts == 0 && s.terms == [] }

  predicate WhenHolds(s: State, when: When) {
    match when
    case Initial => Untried(s)
    case PreSignal(first, target) => Untried(s) && s.firstRead == Some(first.record) && Bound(s.world, first, target)
    case PostSignal(first) =>
      s.attempts == 1 && s.firstRead == Some(first.record) && s.terms == [Recorded(first.record)]
  }

  predicate PhaseHolds(s: State) {
    match s.phase
    case StartTime(when, snapshot) => WhenHolds(s, when) && (when.Initial? ==> s.firstRead == Some(snapshot.record))
    case ExeStat(when, snapshot, start) =>
      && WhenHolds(s, when) && Instance(snapshot.record.pid, start) in s.world.used
      && (when.Initial? ==> s.firstRead == Some(snapshot.record))
      && (when.PreSignal? && snapshot == when.first && start == snapshot.record.start ==>
           when.target == Recorded(snapshot.record))
    case Attach(first) => Untried(s) && s.firstRead == Some(first.record) && Recorded(first.record) in s.world.used
    case Signal(first, target) => Untried(s) && s.firstRead == Some(first.record) && target == Recorded(first.record)
    case Pause(first) => WhenHolds(s, PostSignal(first))
    case Stopped => OneTermAtMost(s) && s.attempts == |s.terms|
    case Refused(_) => OneTermAtMost(s)
    case Stat(when) => WhenHolds(s, when)
    case Open(when, _) => WhenHolds(s, when)
    case Read(when, _) => WhenHolds(s, when)
    case Restat(when, _, _) => WhenHolds(s, when)
  }

  predicate OneTermAtMost(s: State) {
    && |s.terms| <= s.attempts <= 1
    && (s.terms != [] ==> s.firstRead.Some? && s.terms == [Recorded(s.firstRead.value)])
  }

  ghost predicate Inv(s: State) { Possible(s.world) && PhaseHolds(s) }

  // An instance that has run and is not running never runs again.
  lemma {:induction false} GoneStaysGone(w: World, m: Move, i: Instance)
    requires i in w.used
    ensures i in WorldStep(w, m).used
    ensures !Live(w, i) ==> !Live(WorldStep(w, m), i)
  {
  }

  lemma {:induction false} WorldKeepsInv(s: State, m: Move)
    requires Inv(s) && !m.Stop?
    ensures Inv(Step(s, m))
  {
    var t := Step(s, m);
    assert s.world.used <= t.world.used;
    if WhenOf(s.phase).Some? && WhenOf(s.phase).value.PreSignal? {
      GoneStaysGone(s.world, m, Recorded(WhenOf(s.phase).value.first.record));
    }
  }

  lemma {:induction false} LockKeepsInv(s: State, fault: bool)
    requires Inv(s)
    ensures Inv(LockStep(s, fault))
  {
  }

  lemma {:induction false} IdentityKeepsInv(s: State, fault: bool)
    requires Inv(s)
    ensures Inv(IdentityStep(s, fault))
  {
  }

  lemma {:induction false} StopKeepsInv(s: State, fault: bool)
    requires Inv(s)
    ensures Inv(StopStep(s, fault))
  {
    LockKeepsInv(s, fault);
    IdentityKeepsInv(s, fault);
  }

  lemma {:induction false} RunKeepsInv(w: World, moves: seq<Move>)
    requires Possible(w)
    ensures Inv(Run(w, moves))
  {
    if |moves| > 0 {
      RunKeepsInv(w, moves[..|moves| - 1]);
      var m := moves[|moves| - 1];
      if m.Stop? {
        StopKeepsInv(Run(w, moves[..|moves| - 1]), m.fault);
      } else {
        WorldKeepsInv(Run(w, moves[..|moves| - 1]), m);
      }
    }
  }

  // ---- what every run guarantees ----

  // The records read from the lock so far, before the pidfd was opened or after it and before the signal.
  ghost function ReadSoFar(w: World, moves: seq<Move>, after: bool): set<LockRecord> {
    if |moves| == 0 then {}
    else
      var before := moves[..|moves| - 1];
      ReadSoFar(w, before, after) + ReadBy(Run(w, before), moves[|moves| - 1], after)
  }

  function ReadBy(s: State, m: Move, after: bool): set<LockRecord> {
    if m == Stop(false) && s.phase.Read? && !s.phase.when.PostSignal? && s.phase.when.PreSignal? == after
       && FileAt(s.world, s.phase.held).text.Some?
    then {FileAt(s.world, s.phase.held).text.value} else {}
  }

  // What the stopping process knows has been read from the lock at some time.
  predicate Evidence(s: State, early: set<LockRecord>, late: set<LockRecord>) {
    && (s.firstRead.Some? ==> s.firstRead.value in early)
    && (s.phase.Restat? && s.phase.text.Some? && s.phase.when.Initial? ==> s.phase.text.value in early)
    && (s.phase.Restat? && s.phase.text.Some? && s.phase.when.PreSignal? ==> s.phase.text.value in late)
    && (s.phase.StartTime? && s.phase.when.PreSignal? ==> s.phase.snapshot.record in late)
    && (s.phase.ExeStat? && s.phase.when.PreSignal? ==> s.phase.snapshot.record in late)
    && (s.phase.Signal? ==> s.phase.first.record in late)
    && (s.attempts > 0 ==> s.firstRead.Some? && s.firstRead.value in late)
  }

  lemma {:induction false} LockKeepsEvidence(s: State, fault: bool, early: set<LockRecord>, late: set<LockRecord>)
    requires Inv(s) && Evidence(s, early, late)
    ensures Evidence(LockStep(s, fault), early + ReadBy(s, Stop(fault), false), late + ReadBy(s, Stop(fault), true))
  {
  }

  lemma {:induction false} IdentityKeepsEvidence(s: State, fault: bool, early: set<LockRecord>, late: set<LockRecord>)
    requires Inv(s) && Evidence(s, early, late)
    ensures Evidence(IdentityStep(s, fault), early, late)
  {
  }

  lemma {:induction false} EvidenceGrows(s: State, early: set<LockRecord>, late: set<LockRecord>,
          more: set<LockRecord>, later: set<LockRecord>)
    requires Evidence(s, early, late)
    ensures Evidence(s, early + more, late + later)
  {
  }

  lemma {:induction false} StepKeepsEvidence(s: State, m: Move, early: set<LockRecord>, late: set<LockRecord>)
    requires Inv(s) && Evidence(s, early, late)
    ensures Evidence(Step(s, m), early + ReadBy(s, m, false), late + ReadBy(s, m, true))
  {
    if m.Stop? && (s.phase.Stat? || s.phase.Open? || s.phase.Read? || s.phase.Restat?) {
      LockKeepsEvidence(s, m.fault, early, late);
    } else if m.Stop? && (s.phase.StartTime? || s.phase.ExeStat?) {
      IdentityKeepsEvidence(s, m.fault, early, late);
      EvidenceGrows(Step(s, m), early, late, ReadBy(s, m, false), ReadBy(s, m, true));
    } else {
      assert Evidence(Step(s, m), early, late);
      EvidenceGrows(Step(s, m), early, late, ReadBy(s, m, false), ReadBy(s, m, true));
    }
  }

  lemma {:induction false} RunHasEvidence(w: World, moves: seq<Move>)
    requires Possible(w)
    ensures Evidence(Run(w, moves), ReadSoFar(w, moves, false), ReadSoFar(w, moves, true))
  {
    if |moves| > 0 {
      var before := moves[..|moves| - 1];
      RunHasEvidence(w, before);
      RunKeepsInv(w, before);
      StepKeepsEvidence(Run(w, before), moves[|moves| - 1], ReadSoFar(w, before, false), ReadSoFar(w, before, true));
    }
  }

  /** Whatever processes and the lock do meanwhile, at most one signal is tried, and the only instance it
      can reach is the one named by the record that was first read from the lock and read again, equal,
      after the pidfd was bound. */
  lemma {:induction false} OnlyTheRecordedIsSignalled(w: World, moves: seq<Move>)
    requires Possible(w)
    ensures
      var s := Run(w, moves);
      && |s.terms| <= s.attempts <= 1
      && (s.attempts == 1 ==>
          s.firstRead.Some? && s.firstRead.value in ReadSoFar(w, moves, false) * ReadSoFar(w, moves, true))
      && forall i :: i in s.terms ==> s.firstRead.Some? && i == Recorded(s.firstRead.value)
  {
    RunKeepsInv(w, moves);
    RunHasEvidence(w, moves);
  }

  /** A pid that changed hands before the pidfd was bound never gets as far as a signal, and neither does
      a lock whose second reading differs. */
  lemma {:induction false} SignalNeedsTheSameInstance(w: World, moves: seq<Move>)
    requires Possible(w) && Run(w, moves).phase.Signal?
    ensures Run(w, moves).phase.target == Recorded(Run(w, moves).phase.first.record)
    ensures Run(w, moves).firstRead == Some(Run(w, moves).phase.first.record)
  {
    RunKeepsInv(w, moves);
  }

  /** Success means that the lock had no name at that very step, and that either nothing was signalled, for
      a lock that had no name from the start, or the recorded instance was. */
  lemma {:induction false} StoppedMeansAbsent(w: World, moves: seq<Move>, m: Move)
    requires Possible(w) && Run(w, moves).phase != Stopped && Step(Run(w, moves), m).phase == Stopped
    ensures Run(w, moves).world.path == None
    ensures
      var s := Step(Run(w, moves), m);
      if Run(w, moves).phase.when.Initial? then s.terms == [] && s.attempts == 0
      else s.firstRead.Some? && s.terms == [Recorded(s.firstRead.value)]
  {
    RunKeepsInv(w, moves);
  }

  /** A refusal for a changed owner or an invalid lock before the signal has signalled nobody. */
  lemma {:induction false} RefusedBeforeSignal(w: World, moves: seq<Move>, m: Move)
    requires Possible(w) && WhenOf(Run(w, moves).phase).Some? && !WhenOf(Run(w, moves).phase).value.PostSignal?
    requires Step(Run(w, moves), m).phase.Refused?
    ensures Step(Run(w, moves), m).terms == [] && Step(Run(w, moves), m).attempts == 0
  {
    RunKeepsInv(w, moves);
  }

  // ---- left alone, it does stop the daemon ----

  function Alone(s: State, steps: nat): State
    decreases steps
  {
    if steps == 0 then s else Alone(StopStep(s, false), steps - 1)
  }

  // The lock is a sound file naming a running process.
  predicate Named(w: World, inode: nat, record: LockRecord) {
    && w.path == Some(Entry(inode, false)) && FileAt(w, inode) == File(true, false, Some(record))
    && IsComplete(record) && record.pid <= MAX_PID
    && record.pid in w.processes && w.processes[record.pid] == Process(record.start, record.exe)
  }

  lemma {:induction false} SnapshotAlone(s: State, when: When, inode: nat, record: LockRecord)
    requires s.phase == Stat(when) && Named(s.world, inode, record)
    ensures Alone(s, 4) == Observed(s, when, Snapshot(inode, record))
  {
    var a := StopStep(s, false);
    assert a == s.(phase := Open(when, inode));
    var b := StopStep(a, false);
    assert b == s.(phase := Read(when, inode));
    var c := StopStep(b, false);
    assert c == s.(phase := Restat(when, inode, Some(record)));
    assert Alone(s, 4) == Alone(a, 3) == Alone(b, 2) == Alone(c, 1) == StopStep(c, false);
  }

  lemma {:induction false} AloneAdds(s: State, m: nat, n: nat)
    ensures Alone(s, m + n) == Alone(Alone(s, m), n)
    decreases m
  {
    if m > 0 {
      AloneAdds(StopStep(s, false), m - 1, n);
    }
  }

  /** With nothing in its way the fourteenth step is the signal to the recorded instance. */
  lemma {:induction false} AloneItStops(w: World, inode: nat, record: LockRecord)
    requires Named(w, inode, record)
    ensures Alone(Begin(w), 14).terms == [Recorded(record)] && Alone(Begin(w), 14).phase.Stat?
  {
    var snapshot := Snapshot(inode, record);
    var s := Begin(w);
    SnapshotAlone(s, Initial, inode, record);
    var a := Alone(s, 4);
    var b := Alone(a, 3);
    assert b == Alone(StopStep(StopStep(StopStep(a, false), false), false), 0);
    assert b == a.(phase := Stat(PreSignal(snapshot, Recorded(record))));
    SnapshotAlone(b, b.phase.when, inode, record);
    var c := Alone(b, 4);
    var d := Alone(c, 3);
    assert d == Alone(StopStep(StopStep(StopStep(c, false), false), false), 0);
    assert d.terms == [Recorded(record)];
    AloneAdds(s, 4, 3);
    AloneAdds(s, 7, 4);
    AloneAdds(s, 11, 3);
  }

  // ---- how it ends ----

  // What an undisturbed reading of the lock finds: no name, a lock that is not acceptable, or a record.
  datatype Finding = NoName | Unacceptable | Found(snapshot: Snapshot)

  // A record in which nothing is missing.
  predicate NothingMissing(record: LockRecord) {
    1 <= record.pid && 1 <= record.startedAt && 1 <= record.start && 1 <= record.exe.device && 1 <= record.exe.inode
  }

  function Finds(w: World): Finding {
    match w.path
    case None => NoName
    case Some(Entry(inode, link)) =>
      if link || inode !in w.inodes then Unacceptable
      else
        match w.inodes[inode]
        case File(true, false, Some(record)) =>
          if NothingMissing(record) then Found(Snapshot(inode, record)) else Unacceptable
        case _ => Unacceptable
  }

  lemma {:induction false} EndStays(s: State, n: nat)
    requires s.phase.Stopped? || s.phase.Refused?
    ensures Alone(s, n) == s
    decreases n
  {
    if n > 0 {
      EndStays(s, n - 1);
    }
  }

  /** An undisturbed reading takes four steps and ends by what it finds: without a name the daemon counts as stopped,
      except right before the signal; and after the signal only the very same lock is waited for. */
  lemma {:induction false} ReadingEnds(s: State, when: When)
    requires s.phase == Stat(when)
    ensures
      var t := Alone(s, 4);
      && t.world == s.world && t.terms == s.terms && t.attempts == s.attempts
      && match Finds(s.world)
         case NoName => t.phase == if when.PreSignal? then Refused(OwnerChanged) else Stopped
         case Unacceptable => t.phase == Refused(LockInvalid)
         case Found(snapshot) =>
           match when
           case Initial => t.phase == StartTime(when, snapshot) && t.firstRead == Some(snapshot.record)
           case PreSignal(_, _) => t.phase == StartTime(when, snapshot) && t.firstRead == s.firstRead
           case PostSignal(first) => t.phase == if snapshot == first then Pause(first) else Refused(OwnerChanged)
  {
    var a := StopStep(s, false);
    if a.phase.Stopped? || a.phase.Refused? {
      EndStays(a, 3);
    } else {
      var inode := s.world.path.value.inode;
      assert a == s.(phase := Open(when, inode));
      var b := StopStep(a, false);
      assert b == s.(phase := Read(when, inode));
      var c := StopStep(b, false);
      assert c == s.(phase := Restat(when, inode, FileAt(s.world, inode).text));
      assert Alone(s, 4) == Alone(a, 3) == Alone(b, 2) == Alone(c, 1) == StopStep(c, false);
    }
  }

  // The process that a record names runs, with the recorded start time and program.
  predicate Runs(w: World, record: LockRecord) {
    && record.pid in w.processes
    && w.processes[record.pid].start == record.start && w.processes[record.pid].exe == record.exe
  }

  /** Left alone, it stops at once without a lock, refuses a lock that is not acceptable or names no running process
      with that start time and program, and otherwise binds the recorded process and reads the lock again. */
  lemma {:induction false} AloneItJudges(w: World)
    ensures
      var end := Alone(Begin(w), 7);
      && end.terms == [] && end.attempts == 0
      && match Finds(w)
         case NoName => end.phase == Stopped
         case Unacceptable => end.phase == Refused(LockInvalid)
         case Found(snapshot) =>
           end.phase ==
             if !Runs(w, snapshot.record) then Refused(LockInvalid)
             else if snapshot.record.pid > 0x7fff_ffff then Refused(SignalFailed)
             else Stat(PreSignal(snapshot, Recorded(snapshot.record)))
  {
    var s := Begin(w);
    ReadingEnds(s, Initial);
    AloneAdds(s, 4, 3);
    var a := Alone(s, 4);
    if a.phase.Stopped? || a.phase.Refused? {
      EndStays(a, 3);
    } else {
      IdentityAlone(a, Initial, a.phase.snapshot);
    }
  }

  lemma {:induction false} IdentityAlone(s: State, when: When, snapshot: Snapshot)
    requires s.phase == StartTime(when, snapshot) && when.Initial? && NothingMissing(snapshot.record)
    ensures
      var end := Alone(s, 3);
      && end.terms == s.terms && end.attempts == s.attempts
      && end.phase ==
         if !Runs(s.world, snapshot.record) then Refused(LockInvalid)
         else if snapshot.record.pid > 0x7fff_ffff then Refused(SignalFailed)
         else Stat(PreSignal(snapshot, Recorded(snapshot.record)))
  {
    var a := StopStep(s, false);
    var b := StopStep(a, false);
    var c := StopStep(b, false);
    assert Alone(s, 3) == Alone(a, 2) == Alone(b, 1) == c;
  }

  /** The step to the signal sees the recorded program run under the recorded pid, and no step before the signal gets
      there from a record in which something is missing. */
  lemma {:induction false} SignalSeesTheProgram(s: State, m: Move)
    requires !s.phase.Signal? && Step(s, m).phase.Signal?
    ensures s.phase.ExeStat? && s.phase.when.PreSignal? && s.phase.snapshot == s.phase.when.first
    ensures
      var record := s.phase.snapshot.record;
      && NothingMissing(record) && s.phase.start == record.start
      && record.pid in s.world.processes && s.world.processes[record.pid].exe == record.exe
  {
  }

  /** What a name that vanishes between two calls means, by what is being read and how far the reading is. */
  lemma {:induction false} VanishedName(s: State)
    requires s.world.path == None && (s.phase.Stat? || s.phase.Open? || s.phase.Restat?)
    ensures
      var t := StopStep(s, false);
      && t.terms == s.terms
      && match s.phase.when
         case PostSignal(_) => t.phase == Stopped
         case PreSignal(_, _) => t.phase == Refused(OwnerChanged)
         case Initial =>
           t.phase == if s.phase.Stat? then Stopped
                      else if s.phase.Open? then Refused(LockUnavailable) else Refused(OwnerChanged)
  {
  }

  /** A lock that has grown too long when it is read is not acceptable. */
  lemma {:induction false} OverlongRead(s: State)
    requires s.phase.Read? && s.phase.held in s.world.inodes && s.world.inodes[s.phase.held].oversized
    ensures StopStep(s, false).phase == Refused(LockInvalid) && StopStep(s, false).terms == s.terms
  {
  }

  /** A name that leads to another file than before, or became a link, is a changed owner. */
  lemma {:induction false} ReplacedName(s: State, entry: Entry)
    requires s.world.path == Some(entry) && (s.phase.Open? || s.phase.Restat?)
    requires if s.phase.Open? then entry.inode != s.phase.seen else entry.inode != s.phase.held || entry.link
    ensures StopStep(s, false).phase == Refused(OwnerChanged) && StopStep(s, false).terms == s.terms
  {
  }

  /** What a failing call means, by where it fails. */
  lemma {:induction false} FaultMeans(s: State)
    requires !s.phase.Stopped? && !s.phase.Refused?
    requires WhenOf(s.phase).Some? && (s.phase.StartTime? || s.phase.ExeStat?) ==> !WhenOf(s.phase).value.PostSignal?
    ensures
      var t := StopStep(s, true);
      && t.terms == s.terms && t.attempts == s.attempts + (if s.phase.Signal? then 1 else 0)
      && t.phase == Refused(
           match s.phase
           case Attach(_) => SignalFailed
           case Signal(_, _) => SignalFailed
           case Pause(_) => Timeout
           case StartTime(when, _) => if when.Initial? then LockInvalid else OwnerChanged
           case ExeStat(when, _, _) => if when.Initial? then LockInvalid else OwnerChanged
           case _ => LockUnavailable)
  {
  }

  /** After the signal it waits as long as nothing but time passes, and a pid that is not the recorded instance any
      more is not signalled. */
  lemma {:induction false} WaitsForTheLock(s: State, first: Snapshot)
    requires s.phase == Stat(PostSignal(first)) && Finds(s.world) == Found(first)
    ensures Alone(s, 5) == s
  {
    ReadingEnds(s, PostSignal(first));
    AloneAdds(s, 4, 1);
    var a := Alone(s, 4);
    assert a.phase == Pause(first);
    assert Alone(a, 1) == StopStep(a, false);
    ReadingKeeps(s, first);
  }

  lemma {:induction false} ReadingKeeps(s: State, first: Snapshot)
    requires s.phase == Stat(PostSignal(first)) && Finds(s.world) == Found(first)
    ensures Alone(s, 4) == s.(phase := Pause(first))
  {
    var inode := first.inode;
    var a := StopStep(s, false);
    assert a == s.(phase := Open(PostSignal(first), inode));
    var b := StopStep(a, false);
    assert b == s.(phase := Read(PostSignal(first), inode));
    var c := StopStep(b, false);
    assert c == s.(phase := Restat(PostSignal(first), inode, Some(first.record)));
    assert Alone(s, 4) == Alone(a, 3) == Alone(b, 2) == Alone(c, 1) == StopStep(c, false);
  }

  /** The signal goes out exactly if the bound instance still runs; then the lock is waited for. */
  lemma {:induction false} SignalSends(s: State, first: Snapshot, target: Instance)
    requires s.phase == Signal(first, target)
    ensures
      var t := StopStep(s, false);
      && t.attempts == s.attempts + 1
      && if target.pid in s.world.processes && s.world.processes[target.pid].start == target.start
         then t.terms == s.terms + [target] && t.phase == Stat(PostSignal(first))
         else t.terms == s.terms && t.phase == Refused(SignalFailed)
  {
  }

  function Steps(n: nat): seq<Move> { seq(n, _ => Stop(false)) }

  /** Being left alone is one of the runs. */
  lemma {:induction false} AloneIsARun(w: World, n: nat)
    ensures Run(w, Steps(n)) == Alone(Begin(w), n)
  {
    if n > 0 {
      assert Steps(n)[..n - 1] == Steps(n - 1);
      AloneIsARun(w, n - 1);
      AloneAdds(Begin(w), n - 1, 1);
      var s := Alone(Begin(w), n - 1);
      assert Alone(s, 1) == Alone(StopStep(s, false), 0);
    }
  }

  /** In every run any pid can change hands, any program be replaced, and any lock be put in place. */
  lemma {:induction false} AnythingCanHappen(w: World, moves: seq<Move>, pid: Pid, process: Process, exe: Executable,
          path: Option<Entry>, inode: nat, file: File)
    requires Instance(pid, process.start) !in Run(w, moves).world.used
    ensures
      var changed := moves + [Exit(pid)] + [Spawn(pid, process)] + [Exec(pid, exe)];
      var more := changed + [SetPath(path)] + [SetFile(inode, file)];
      var (s, t) := (Run(w, moves), Run(w, more));
      && t.phase == s.phase && t.terms == s.terms
      && t.world.processes == s.world.processes[pid := Process(process.start, exe)]
      && t.world.path == path && t.world.inodes == s.world.inodes[inode := file]
  {
    var a := moves + [Exit(pid)];
    var b := a + [Spawn(pid, process)];
    var c := b + [Exec(pid, exe)];
    var d := c + [SetPath(path)];
    OneMore(w, moves, Exit(pid));
    OneMore(w, a, Spawn(pid, process));
    OneMore(w, b, Exec(pid, exe));
    OneMore(w, c, SetPath(path));
    OneMore(w, d, SetFile(inode, file));
    assert Run(w, c).world.processes == Run(w, moves).world.processes[pid := Process(process.start, exe)];
  }

  lemma {:induction false} OneMore(w: World, moves: seq<Move>, m: Move)
    ensures Run(w, moves + [m]) == Step(Run(w, moves), m)
  {
    assert (moves + [m])[..|moves|] == moves;
  }
}
