/** Several callers of the account registry at once (src/account_scope.rs, lines 578-660 and 878-985). A call
    loads the registry in one step and renames its changed copy into place in a later one, and nothing keeps
    other callers away in between. */
module RegistryRaces {
  import opened Basics
  import opened AccountRegistry

  type Caller = nat

  datatype Task = Resolving(account: nat) | Marking(p: Partition)

  /** Where a caller stands: nowhere, about to rename `more` into place after it loaded `base` (None when there
      was no registry), or about to load the registry it has just created. */
  datatype Phase = Idle | Pending(base: Option<Registry>, more: Registry, task: Task) | Reloading(task: Task)

  datatype Move = Start(task: Task, calls: Calls) | Finish(writing: Writing) | Reload(calls: Calls) | Crash

  // The disk, where the callers stand, and what they were answered so far.
  datatype State = State(disk: Disk, phases: map<Caller, Phase>, answers: seq<(Task, Outcome)>)

  // A step of a caller, or a change of the account directories.
  datatype Event = By(c: Caller, m: Move) | Outside(directories: map<Scope, AccountDirectory>)

  function At(s: State, c: Caller): Phase { if c in s.phases then s.phases[c] else Idle }

  function Goto(s: State, c: Caller, phase: Phase): State { s.(phases := s.phases[c := phase]) }

  function Reply(s: State, c: Caller, task: Task, outcome: Outcome): State {
    Goto(s, c, Idle).(answers := s.answers + [(task, outcome)])
  }

  // A registry was loaded for this task: the call is answered, or a changed registry is to be written.
  function Loaded(s: State, c: Caller, r: Registry, task: Task): State {
    match task
    case Resolving(account) =>
      var k := Scope(r.installKey, account);
      if !ArtifactsFit(r, s.disk.directories) then Reply(s, c, task, Failure(RecoveryRequired))
      else if k in r.accounts then Reply(s, c, task, Grant(s.disk, r, k, r.accounts[k]))
      else if r.next >= MAX_EPOCH then Reply(s, c, task, Failure(RecoveryRequired))
      else Goto(s, c, Pending(Some(r), WithEntry(r, k), task))
    case Marking(p) =>
      if !Knows(r, p) then Reply(s, c, task, Failure(RecoveryRequired))
      else if r.accounts[p.scope].state == Initialized then Reply(s, c, task, Marked)
      else Goto(s, c, Pending(Some(r), WithInitialized(r, p), task))
  }

  function LoadStep(s: State, c: Caller, task: Task, calls: Calls): State {
    match Load(s.disk, calls)
    case Ok(r) => Loaded(s, c, r, task)
    case Err(error) => Reply(s, c, task, Failure(error))
  }

  function StartStep(s: State, c: Caller, task: Task, calls: Calls): State {
    if task.Marking? && !HasDatabase(s.disk, task.p) then Reply(s, c, task, Failure(RecoveryRequired))
    else if task.Marking? || s.disk.metadata.Some? then LoadStep(s, c, task, calls)
    else if s.disk.directories != map[] then Reply(s, c, task, Failure(RecoveryRequired))
    else Goto(s, c, Pending(None, Fresh(calls), task))
  }

  // The answer once the changed registry is in place.
  function Answered(d: Disk, more: Registry, task: Task): Outcome {
    match task
    case Marking(_) => Marked
    case Resolving(account) =>
      var k := Scope(more.installKey, account);
      if k in more.accounts then Grant(d, more, k, more.accounts[k]) else Failure(RecoveryRequired)
  }

  function FinishStep(s: State, c: Caller, base: Option<Registry>, more: Registry, task: Task,
          writing: Writing): State {
    var (after, ok) := Write(s.disk, more, writing);
    var t := s.(disk := after);
    if !ok then Reply(t, c, task, Failure(Io))
    else if base.None? then Goto(t, c, Reloading(task))
    else Reply(t, c, task, Answered(after, more, task))
  }

  /** One step of a caller; a step that does not apply where the caller stands changes nothing. */
  function Step(s: State, c: Caller, m: Move): State {
    match At(s, c)
    case Idle => if m.Start? then StartStep(s, c, m.task, m.calls) else s
    case Pending(base, more, task) =>
      if m.Finish? then FinishStep(s, c, base, more, task, m.writing) else if m.Crash? then Goto(s, c, Idle) else s
    case Reloading(task) =>
      if m.Reload? then LoadStep(s, c, task, m.calls) else if m.Crash? then Goto(s, c, Idle) else s
  }

  function Next(s: State, e: Event): State {
    match e
    case By(c, m) => Step(s, c, m)
    case Outside(directories) => s.(disk := s.disk.(directories := directories))
  }

  const INITIAL := State(Disk(None, map[]), map[], [])

  function Run(events: seq<Event>): State {
    if |events| == 0 then INITIAL else Next(Run(events[..|events| - 1]), events[|events| - 1])
  }

  // ---- one caller alone ----

  function Alone(s: State, c: Caller, account: nat, calls: Calls): State {
    var started := Step(s, c, Start(Resolving(account), calls));
    var loaded :=
      if At(started, c).Pending? && At(started, c).base.None?
      then Step(Step(started, c, Finish(calls.first)), c, Reload(calls)) else started;
    Step(loaded, c, Finish(calls.second))
  }

  // The call of `c` left this disk and was answered this, and nobody else moved.
  ghost predicate Ended(s: State, t: State, c: Caller, account: nat, r: (Disk, Outcome)) {
    && At(t, c).Idle? && t.disk == r.0 && t.answers == s.answers + [(Resolving(account), r.1)]
    && forall other :: other != c ==> At(t, other) == At(s, other)
  }

  /** The steps of a call that nobody interrupts are the call of the sequential registry. */
  lemma {:induction false} AloneIsResolve(s: State, c: Caller, account: nat, calls: Calls)
    requires At(s, c).Idle?
    ensures Ended(s, Alone(s, c, account, calls), c, account, Resolve(s.disk, account, calls))
  {
    if s.disk.metadata.Some? {
      if Load(s.disk, calls).Ok? {
        LoadedIsResolveIn(s, c, s.disk.metadata.value, account, calls);
      }
    } else if s.disk.directories == map[] {
      AloneCreates(s, c, account, calls);
    }
  }

  /** And so are the steps of marking a partition. */
  lemma {:induction false} AloneIsMark(s: State, c: Caller, p: Partition, calls: Calls)
    requires At(s, c).Idle?
    ensures
      var t := Step(Step(s, c, Start(Marking(p), calls)), c, Finish(calls.second));
      && At(t, c).Idle? && t.disk == Mark(s.disk, p, calls).0
      && t.answers == s.answers + [(Marking(p), Mark(s.disk, p, calls).1)]
      && forall other :: other != c ==> At(t, other) == At(s, other)
  {
    if HasDatabase(s.disk, p) && Load(s.disk, calls).Ok? {
      assert LoadStep(s, c, Marking(p), calls) == Loaded(s, c, s.disk.metadata.value, Marking(p));
    }
  }

  lemma {:induction false} AloneCreates(s: State, c: Caller, account: nat, calls: Calls)
    requires At(s, c).Idle? && s.disk.metadata.None? && s.disk.directories == map[]
    ensures Ended(s, Alone(s, c, account, calls), c, account, Resolve(s.disk, account, calls))
  {
    var started := Goto(s, c, Pending(None, Fresh(calls), Resolving(account)));
    assert Step(s, c, Start(Resolving(account), calls)) == started;
    var made := Step(started, c, Finish(calls.first));
    if calls.first == Written && calls.readable {
      LoadedIsResolveIn(made, c, Fresh(calls), account, calls);
    }
  }

  lemma {:induction false} LoadedIsResolveIn(s: State, c: Caller, r: Registry, account: nat, calls: Calls)
    ensures
      var t := Step(Loaded(s, c, r, Resolving(account)), c, Finish(calls.second));
      Ended(s, t, c, account, ResolveIn(s.disk, r, account, calls))
  {
  }

  // ---- what every registry is, on disk or in a caller's hands ----

  predicate HasEpoch(r: Registry, e: nat) { exists s :: s in r.accounts && r.accounts[s].epoch == e }

  // Each epoch below the next one is some account's.
  ghost predicate Dense(r: Registry) { forall e: nat :: 0 < e < r.next ==> HasEpoch(r, e) }

  ghost predicate Good(r: Registry) { Consistent(Disk(Some(r), map[])) && Dense(r) }

  ghost predicate GoodIfAny(r: Option<Registry>) { r.Some? ==> Good(r.value) }

  predicate Precedes(r: Option<Registry>, q: Option<Registry>) { Grows(Disk(r, map[]), Disk(q, map[])) }

  // What a call makes of the registry it loaded.
  ghost predicate OneChange(base: Option<Registry>, more: Registry) {
    match base
    case None => more.next == 1 && more.accounts == map[]
    case Some(r) =>
      || (exists s :: Unknown(r, s) && more == WithEntry(r, s))
      || (exists p: Partition :: Knows(r, p) && r.accounts[p.scope].state == Allocated && more == WithInitialized(r, p))
  }

  // An account without an entry, while there are epochs left.
  predicate Unknown(r: Registry, s: Scope) {
    s !in r.accounts && s.Scope? && s.installKey == r.installKey && r.next < MAX_EPOCH
  }

  ghost predicate GoodPhase(phase: Phase) {
    phase.Pending? ==> GoodIfAny(phase.base) && Good(phase.more) && OneChange(phase.base, phase.more)
  }

  ghost predicate Sound(s: State) { GoodIfAny(s.disk.metadata) && forall c :: GoodPhase(At(s, c)) }

  lemma {:induction false} FreshIsGood(calls: Calls)
    ensures Good(Fresh(calls))
  {
  }

  lemma {:induction false} EntryIsGood(r: Registry, s: Scope)
    requires Good(r) && Unknown(r, s)
    ensures Good(WithEntry(r, s)) && Precedes(Some(r), Some(WithEntry(r, s)))
  {
    var more := WithEntry(r, s);
    AllocationKeeps(Disk(Some(r), map[]), r, s);
    forall e: nat | 0 < e < more.next ensures HasEpoch(more, e) {
      if e == r.next {
        assert s in more.accounts && more.accounts[s].epoch == e;
      } else {
        assert HasEpoch(r, e);
        var t :| t in r.accounts && r.accounts[t].epoch == e;
        assert t in more.accounts && more.accounts[t].epoch == e;
      }
    }
  }

  lemma {:induction false} InitializedIsGood(r: Registry, p: Partition)
    requires Good(r) && Knows(r, p)
    ensures Good(WithInitialized(r, p)) && Precedes(Some(r), Some(WithInitialized(r, p)))
  {
    var more := WithInitialized(r, p);
    MarkingKeeps(Disk(Some(r), map[]), r, p);
    forall e: nat | 0 < e < more.next ensures HasEpoch(more, e) {
      assert HasEpoch(r, e);
      var t :| t in r.accounts && r.accounts[t].epoch == e;
      assert t in more.accounts && more.accounts[t].epoch == e;
    }
  }

  lemma {:induction false} ChangePrecedes(base: Option<Registry>, more: Registry)
    requires GoodIfAny(base) && OneChange(base, more)
    ensures Precedes(base, Some(more))
  {
    if base.Some? {
      if s :| Unknown(base.value, s) && more == WithEntry(base.value, s) {
        EntryIsGood(base.value, s);
      } else {
        var p: Partition :|
          Knows(base.value, p) && base.value.accounts[p.scope].state == Allocated
          && more == WithInitialized(base.value, p);
        InitializedIsGood(base.value, p);
      }
    }
  }

  // ---- nothing lies between a registry and one change of it ----

  lemma {:induction false} NothingBeforeFresh(m: Registry, more: Registry)
    requires Good(m) && Good(more) && OneChange(None, more) && Precedes(Some(m), Some(more))
    ensures m == more
  {
    assert m.accounts == map[];
  }

  lemma {:induction false} EntryBetween(r: Registry, m: Registry, s: Scope)
    requires Good(r) && Good(m) && Unknown(r, s)
    requires Precedes(Some(r), Some(m)) && Precedes(Some(m), Some(WithEntry(r, s)))
    ensures m == r || m == WithEntry(r, s)
  {
    var more := WithEntry(r, s);
    assert forall t :: t in r.accounts ==> t in m.accounts && m.accounts[t] == r.accounts[t];
    if s in m.accounts {
      assert m.accounts[s].epoch == r.next && m.next == more.next;
      assert m.accounts == more.accounts;
    } else {
      assert m.accounts == r.accounts;
      assert !HasEpoch(m, r.next);
    }
  }

  lemma {:induction false} InitializedBetween(r: Registry, m: Registry, p: Partition)
    requires Good(r) && Good(m) && Knows(r, p) && r.accounts[p.scope].state == Allocated
    requires Precedes(Some(r), Some(m)) && Precedes(Some(m), Some(WithInitialized(r, p)))
    ensures m == r || m == WithInitialized(r, p)
  {
    var more := WithInitialized(r, p);
    assert m.next == r.next && m.accounts.Keys == r.accounts.Keys;
    assert forall t :: t in r.accounts && t != p.scope ==> m.accounts[t] == r.accounts[t];
    if m.accounts[p.scope].state == Initialized {
      assert m.accounts == more.accounts;
    } else {
      assert m.accounts == r.accounts;
    }
  }

  /** A registry that came after the one a caller loaded keeps everything when the caller renames its own into
      place exactly if it is the one loaded or already the one to be written. */
  lemma {:induction false} LosesNothingExactly(base: Option<Registry>, now: Option<Registry>, more: Registry)
    requires GoodIfAny(base) && GoodIfAny(now) && Good(more) && OneChange(base, more) && Precedes(base, now)
    ensures Precedes(now, Some(more)) <==> now == base || now == Some(more)
  {
    ChangePrecedes(base, more);
    if Precedes(now, Some(more)) && now.Some? {
      if base.None? {
        NothingBeforeFresh(now.value, more);
      } else if s :| Unknown(base.value, s) && more == WithEntry(base.value, s) {
        EntryBetween(base.value, now.value, s);
      } else {
        var p: Partition :|
          Knows(base.value, p) && base.value.accounts[p.scope].state == Allocated
          && more == WithInitialized(base.value, p);
        InitializedBetween(base.value, now.value, p);
      }
    }
  }

  // ---- every step ----

  // A step of `c` alone is sound if its own phase and the disk are.
  lemma {:induction false} OthersAreSound(s: State, t: State, c: Caller)
    requires Sound(s) && GoodIfAny(t.disk.metadata) && GoodPhase(At(t, c))
    requires forall other :: other != c ==> At(t, other) == At(s, other)
    ensures Sound(t)
  {
    forall other ensures GoodPhase(At(t, other)) {
      assert GoodPhase(At(s, other));
    }
  }

  lemma {:induction false} LoadedIsSound(s: State, c: Caller, r: Registry, task: Task)
    requires Sound(s) && s.disk.metadata == Some(r)
    ensures Sound(Loaded(s, c, r, task)) && Loaded(s, c, r, task).disk == s.disk
    ensures At(Loaded(s, c, r, task), c).Pending? ==> At(Loaded(s, c, r, task), c).base == s.disk.metadata
    ensures forall other :: other != c ==> At(Loaded(s, c, r, task), other) == At(s, other)
  {
    if task.Resolving? {
      var k := Scope(r.installKey, task.account);
      if Unknown(r, k) {
        EntryIsGood(r, k);
      }
    } else if Knows(r, task.p) {
      InitializedIsGood(r, task.p);
    }
    OthersAreSound(s, Loaded(s, c, r, task), c);
  }

  lemma {:induction false} LoadIsSound(s: State, c: Caller, task: Task, calls: Calls)
    requires Sound(s)
    ensures
      var t := LoadStep(s, c, task, calls);
      && Sound(t) && t.disk == s.disk
      && (At(t, c).Pending? ==> At(t, c).base == s.disk.metadata)
      && forall other :: other != c ==> At(t, other) == At(s, other)
  {
    if Load(s.disk, calls).Ok? {
      LoadedIsSound(s, c, s.disk.metadata.value, task);
    } else {
      OthersAreSound(s, LoadStep(s, c, task, calls), c);
    }
  }

  lemma {:induction false} FinishIsSound(s: State, c: Caller, writing: Writing)
    requires Sound(s) && At(s, c).Pending?
    ensures
      var (phase, t) := (At(s, c), Step(s, c, Finish(writing)));
      && Sound(t) && !At(t, c).Pending?
      && t.disk == (if writing == Unwritten then s.disk else s.disk.(metadata := Some(phase.more)))
      && forall other :: other != c ==> At(t, other) == At(s, other)
  {
    assert GoodPhase(At(s, c));
    OthersAreSound(s, Step(s, c, Finish(writing)), c);
  }

  lemma {:induction false} StartIsSound(s: State, c: Caller, task: Task, calls: Calls)
    requires Sound(s)
    ensures
      var t := StartStep(s, c, task, calls);
      && Sound(t) && t.disk == s.disk
      && (At(t, c).Pending? ==> At(t, c).base == s.disk.metadata)
      && forall other :: other != c ==> At(t, other) == At(s, other)
  {
    FreshIsGood(calls);
    LoadIsSound(s, c, task, calls);
    OthersAreSound(s, Reply(s, c, task, Failure(RecoveryRequired)), c);
    if s.disk.metadata.None? {
      OthersAreSound(s, Goto(s, c, Pending(None, Fresh(calls), task)), c);
    }
  }

  // A caller has the registry it loaded, or less, unless it loaded it in this very step.
  lemma {:induction false} StepIsSound(s: State, c: Caller, m: Move)
    requires Sound(s)
    ensures
      var t := Step(s, c, m);
      && Sound(t)
      && (At(t, c).Pending? ==> At(t, c) == At(s, c) || At(t, c).base == s.disk.metadata == t.disk.metadata)
      && forall other :: other != c ==> At(t, other) == At(s, other)
  {
    var phase := At(s, c);
    if phase.Idle? && m.Start? {
      StartIsSound(s, c, m.task, m.calls);
    } else if phase.Pending? && m.Finish? {
      FinishIsSound(s, c, m.writing);
    } else if phase.Reloading? && m.Reload? {
      LoadIsSound(s, c, phase.task, m.calls);
    } else if m.Crash? {
      OthersAreSound(s, Goto(s, c, Idle), c);
    }
  }

  lemma {:induction false} RunIsSound(events: seq<Event>)
    ensures Sound(Run(events))
  {
    if |events| > 0 {
      var before, e := Run(events[..|events| - 1]), events[|events| - 1];
      RunIsSound(events[..|events| - 1]);
      match e {
        case By(c, m) => StepIsSound(before, c, m);
        case Outside(_) =>
          assert GoodPhase(At(before, 0));
          OthersAreSound(before, Run(events), 0);
      }
    }
  }

  // ---- exactly when nothing is lost ----

  // The step renames a registry into place that was made from another one than it replaces.
  predicate Stale(s: State, e: Event) {
    && e.By? && e.m.Finish? && e.m.writing != Unwritten && At(s, e.c).Pending?
    && s.disk.metadata != At(s, e.c).base && s.disk.metadata != Some(At(s, e.c).more)
  }

  ghost predicate StaleAt(events: seq<Event>, i: nat)
    requires i < |events|
  {
    Stale(Run(events[..i]), events[i])
  }

  ghost predicate GrowsAt(events: seq<Event>, i: nat)
    requires i < |events|
  {
    Grows(Run(events[..i]).disk, Run(events[..i + 1]).disk)
  }

  ghost predicate NeverStale(events: seq<Event>) { forall i: nat :: i < |events| ==> !StaleAt(events, i) }

  // The registry only grows, step by step.
  ghost predicate OnlyGrows(events: seq<Event>) { forall i: nat :: i < |events| ==> GrowsAt(events, i) }

  // What callers loaded has only grown since.
  ghost predicate BasesPrecede(s: State) {
    forall c :: At(s, c).Pending? ==> Precedes(At(s, c).base, s.disk.metadata)
  }

  lemma {:induction false} StepGrowsExactly(s: State, e: Event)
    requires Sound(s) && BasesPrecede(s)
    ensures Grows(s.disk, Next(s, e).disk) <==> !Stale(s, e)
    ensures !Stale(s, e) ==> BasesPrecede(Next(s, e))
  {
    var t := Next(s, e);
    if e.By? {
      StepIsSound(s, e.c, e.m);
      DiskChanges(s, e.c, e.m);
      assert GoodPhase(At(s, e.c));
      if At(s, e.c).Pending? && e.m.Finish? && e.m.writing != Unwritten {
        LosesNothingExactly(At(s, e.c).base, s.disk.metadata, At(s, e.c).more);
      }
    }
    if !Stale(s, e) {
      forall c | At(t, c).Pending? ensures Precedes(At(t, c).base, t.disk.metadata) {
        if At(t, c) == At(s, c) {
          GrowthAdds(Disk(At(s, c).base, map[]), Disk(s.disk.metadata, map[]), Disk(t.disk.metadata, map[]));
        }
      }
    }
  }

  lemma {:induction false} DiskChanges(s: State, c: Caller, m: Move)
    requires Sound(s)
    ensures
      Step(s, c, m).disk ==
        if At(s, c).Pending? && m.Finish? && m.writing != Unwritten
        then s.disk.(metadata := Some(At(s, c).more)) else s.disk
  {
    var phase := At(s, c);
    if phase.Idle? && m.Start? {
      StartIsSound(s, c, m.task, m.calls);
    } else if phase.Pending? && m.Finish? {
      FinishIsSound(s, c, m.writing);
    } else if phase.Reloading? && m.Reload? {
      LoadIsSound(s, c, phase.task, m.calls);
    }
  }

  lemma {:induction false} SameEarlier(before: seq<Event>, e: Event, i: nat)
    requires i < |before|
    ensures StaleAt(before + [e], i) == StaleAt(before, i) && GrowsAt(before + [e], i) == GrowsAt(before, i)
  {
    assert (before + [e])[..i] == before[..i] && (before + [e])[..i + 1] == before[..i + 1];
  }

  lemma {:induction false} AtLast(before: seq<Event>, e: Event)
    ensures Run(before + [e]) == Next(Run(before), e)
    ensures StaleAt(before + [e], |before|) == Stale(Run(before), e)
    ensures GrowsAt(before + [e], |before|) == Grows(Run(before).disk, Run(before + [e]).disk)
  {
    var events := before + [e];
    assert events[..|before|] == before && events[..|before| + 1] == events;
  }

  lemma {:induction false} WithLast(before: seq<Event>, e: Event)
    ensures NeverStale(before + [e]) <==> NeverStale(before) && !Stale(Run(before), e)
    ensures OnlyGrows(before + [e]) <==> OnlyGrows(before) && Grows(Run(before).disk, Run(before + [e]).disk)
  {
    var events := before + [e];
    AtLast(before, e);
    forall i: nat | i < |before|
      ensures StaleAt(events, i) == StaleAt(before, i) && GrowsAt(events, i) == GrowsAt(before, i) {
      SameEarlier(before, e, i);
    }
  }

  lemma {:induction false} GrowsUntilStale(events: seq<Event>)
    ensures OnlyGrows(events) <==> NeverStale(events)
    ensures NeverStale(events) ==> BasesPrecede(Run(events))
  {
    if |events| > 0 {
      var before, e := events[..|events| - 1], events[|events| - 1];
      assert events == before + [e];
      GrowsUntilStale(before);
      WithLast(before, e);
      RunIsSound(before);
      AtLast(before, e);
      if NeverStale(before) {
        StepGrowsExactly(Run(before), e);
      }
    }
  }

  /** With any callers, failures, crashes and changes of directories, the registry never loses anything if and
      only if no caller renames its registry over one that is neither the one it loaded nor the same already. */
  lemma {:induction false} NothingIsLostUnlessStale(events: seq<Event>)
    ensures
      (forall i: nat :: i < |events| ==> GrowsAt(events, i)) <==>
      (forall i: nat :: i < |events| ==> !StaleAt(events, i))
  {
    GrowsUntilStale(events);
  }

  // ---- what callers are granted ----

  predicate AnswerBacked(d: Disk, answer: (Task, Outcome)) {
    answer.0.Resolving? && answer.1.Granted? ==> Backed(d, answer.0.account, answer.1.partition)
  }

  ghost predicate AllBacked(s: State) { forall i :: 0 <= i < |s.answers| ==> AnswerBacked(s.disk, s.answers[i]) }

  lemma {:induction false} StepAnswers(s: State, c: Caller, m: Move)
    requires Sound(s)
    ensures
      var t := Step(s, c, m);
      t.answers == s.answers || exists a :: t.answers == s.answers + [a] && AnswerBacked(t.disk, a)
  {
    var phase, t := At(s, c), Step(s, c, m);
    DiskChanges(s, c, m);
    assert GoodPhase(phase);
    if t.answers != s.answers {
      var a := t.answers[|s.answers|];
      assert t.answers == s.answers + [a];
      assert AnswerBacked(t.disk, a);
    }
  }

  lemma {:induction false} BackedStays(d: Disk, e: Disk, answer: (Task, Outcome))
    requires Grows(d, e) && AnswerBacked(d, answer)
    ensures AnswerBacked(e, answer)
  {
  }

  lemma {:induction false} GrantsStayBacked(events: seq<Event>)
    requires NeverStale(events)
    ensures AllBacked(Run(events))
  {
    if |events| > 0 {
      var before, e := events[..|events| - 1], events[|events| - 1];
      var s, t := Run(before), Run(events);
      assert events == before + [e];
      WithLast(before, e);
      GrantsStayBacked(before);
      GrowsUntilStale(events);
      RunIsSound(before);
      forall i | 0 <= i < |s.answers| ensures AnswerBacked(t.disk, s.answers[i]) {
        BackedStays(s.disk, t.disk, s.answers[i]);
      }
      if e.By? {
        StepAnswers(s, e.c, e.m);
      }
    }
  }

  /** Unless some caller overwrites a newer registry, all callers together are granted the same partition for
      the same account and different epochs for different ones. */
  lemma {:induction false} EpochsAreSharedByNone(events: seq<Event>, i: nat, j: nat)
    requires forall k: nat :: k < |events| ==> !StaleAt(events, k)
    requires i < |Run(events).answers| && j < |Run(events).answers|
    requires Run(events).answers[i].0.Resolving? && Run(events).answers[i].1.Granted?
    requires Run(events).answers[j].0.Resolving? && Run(events).answers[j].1.Granted?
    ensures
      var (a, b) := (Run(events).answers[i], Run(events).answers[j]);
      && (a.0.account == b.0.account <==> a.1.partition == b.1.partition)
      && (a.0.account != b.0.account ==> a.1.partition.epoch != b.1.partition.epoch)
  {
    GrantsStayBacked(events);
    RunIsSound(events);
    var s := Run(events);
    assert AnswerBacked(s.disk, s.answers[i]) && AnswerBacked(s.disk, s.answers[j]);
  }

  // ---- it happens ----

  const KEYS := Calls(Zeros(16), Zeros(32), Written, true, Written)

  lemma {:induction false} Then(events: seq<Event>, s: State, c: Caller, m: Move, t: State) returns (more: seq<Event>)
    requires Run(events) == s && Step(s, c, m) == t
    ensures more == events + [By(c, m)] && Run(more) == t
  {
    more := events + [By(c, m)];
    AtLast(events, By(c, m));
  }

  const EMPTY := Fresh(KEYS)

  function Given(account: nat): Registry { WithEntry(EMPTY, Scope(Zeros(32), account)) }

  function FirstOf(account: nat): (Task, Outcome) {
    (Resolving(account), Granted(AccountRegistry.Partition(Zeros(16), Scope(Zeros(32), account), 1)))
  }

  /** Two callers that both load the empty registry are both granted epoch 1, for different accounts, and the
      entry of the first is gone. */
  lemma {:induction false} TwoCallersShareAnEpoch() returns (events: seq<Event>)
    ensures Run(events).answers == [FirstOf(1), FirstOf(2)]
    ensures Run(events).disk.metadata == Some(Given(2))
  {
    var one, two := Pending(Some(EMPTY), Given(1), Resolving(1)), Pending(Some(EMPTY), Given(2), Resolving(2));
    var none, some := Disk(None, map[]), Disk(Some(EMPTY), map[]);
    FreshIsGood(KEYS);
    EntryIsGood(EMPTY, Scope(Zeros(32), 1));
    EntryIsGood(EMPTY, Scope(Zeros(32), 2));
    events := [];
    events := Then(events, INITIAL, 0, Start(Resolving(1), KEYS),
      State(none, map[0 := Pending(None, EMPTY, Resolving(1))], []));
    events := Then(events, Run(events), 0, Finish(Written), State(some, map[0 := Reloading(Resolving(1))], []));
    events := Then(events, Run(events), 0, Reload(KEYS), State(some, map[0 := one], []));
    events := Then(events, Run(events), 1, Start(Resolving(2), KEYS), State(some, map[0 := one, 1 := two], []));
    events := Then(events, Run(events), 0, Finish(Written),
      State(Disk(Some(Given(1)), map[]), map[0 := Idle, 1 := two], [FirstOf(1)]));
    events := Then(events, Run(events), 1, Finish(Written),
      State(Disk(Some(Given(2)), map[]), map[0 := Idle, 1 := Idle], [FirstOf(1), FirstOf(2)]));
  }
}
