/** Private app-server generations under a root lock and one owner lock each
    (src/app_server_sqlite.rs, lines 96-179, 256-331 and 526-717), as a state machine over the file
    system and lock steps of any number of callers, any of which may fail or crash between steps. */
module SqliteGenerations {
  import opened Basics

  // One call of prepare together with the handle it returns.
  type Caller = nat

  // A generation directory; names carry process, clock and counter, so none is used twice.
  type Generation = nat

  datatype Entry = Marker | OwnerLock | StateDb | OtherSqlite(id: nat)

  // What a removal belongs to: the recovery scan, a failed prepare, or cleanup by the owner.
  datatype Purpose = Resume(todo: set<Generation>, kept: set<Generation>, locked: bool) | Undo | CleanUp

  datatype Outcome = Prepared(g: Generation, kept: set<Generation>) | Cleaned(g: Generation) | Failed

  datatype Phase =
    | Idle
    | Opened(cleanup: Option<Generation>)
    | Recovering(todo: set<Generation>, kept: set<Generation>)
    | Entering(g: Generation, purpose: Purpose)
    | Removing(g: Generation, entries: set<Entry>, purpose: Purpose)
    | Making(before: set<Generation>)
    | Made(before: set<Generation>, g: Generation)
    | Filed(before: set<Generation>, g: Generation)
    | Locked(before: set<Generation>, g: Generation)
    | Marked(before: set<Generation>, g: Generation)
    | Copied(before: set<Generation>, g: Generation)
    | Cleaning(g: Generation)
    | Releasing(outcome: Outcome)
    | Live(g: Generation)
    | Returning(g: Generation)
    | Dead

  /** `owner` is who holds the lock on a generation's lock file, which it keeps even when the name of
      that file is gone. */
  datatype State = State(dirs: map<Generation, set<Entry>>, owner: map<Generation, Caller>,
                         root: Option<Caller>, rootFile: bool, used: set<Generation>, phases: map<Caller, Phase>)

  datatype Move =
    | OpenRoot | OpenForCleanup | LockRoot | Examine(g: Generation) | ListRoot
    | Validate | Unlink(e: Entry) | RemoveDirectory
    | MakeDirectory(g: Generation) | CreateLock | TakeLock | WriteMarker | CopyState | VerifyAll
    | Unlock(ok: bool) | Return | Drop | Fail | Crash
    | ChildWrites(g: Generation, id: nat) | ChildRemoves(g: Generation, id: nat)

  function At(s: State, p: Caller): Phase {
    if p in s.phases then s.phases[p] else Idle
  }

  function Goto(s: State, p: Caller, phase: Phase): State {
    s.(phases := s.phases[p := phase])
  }

  function Release(s: State, p: Caller, g: Generation): State {
    if g in s.owner && s.owner[g] == p then s.(owner := s.owner - {g}) else s
  }

  predicate Complete(entries: set<Entry>) { Marker in entries && OwnerLock in entries && StateDb in entries }

  predicate HasSqlite(entries: set<Entry>) { exists e :: e in entries && (e.StateDb? || e.OtherSqlite?) }

  // The shape check: everything present for an owner's own generation, no databases without a marker otherwise.
  predicate ShapeOk(entries: set<Entry>, requireState: bool) {
    if requireState then Complete(entries) else Marker in entries || !HasSqlite(entries)
  }

  // One name the shape check meets: a known entry that passes its own checks (file kind, ownership, marker
  // text) or does not, or a name that has no place in a generation.
  datatype Listed = Known(entry: Entry, sound: bool) | Foreign

  datatype Shape = Shape(entries: seq<Entry>, sawLock: bool)

  function Names(listing: seq<Listed>): set<Entry> {
    set i | 0 <= i < |listing| && listing[i].Known? :: listing[i].entry
  }

  predicate AllSound(listing: seq<Listed>) { forall i :: 0 <= i < |listing| ==> listing[i].Known? && listing[i].sound }

  /** The shape check succeeds exactly on a listing of sound entries of an acceptable shape, and returns
      them in the order listed. */
  method ValidateShape(listing: seq<Listed>, requireState: bool) returns (shape: Option<Shape>)
    ensures shape.Some? <==> AllSound(listing) && ShapeOk(Names(listing), requireState)
    ensures shape.Some? ==>
      && |shape.value.entries| == |listing|
      && (forall i :: 0 <= i < |listing| ==> shape.value.entries[i] == listing[i].entry)
      && (shape.value.sawLock <==> OwnerLock in Names(listing))
  {
    var entries: seq<Entry> := [];
    var sawMarker, sawLock, sawState, sawSqlite := false, false, false, false;
    for i := 0 to |listing|
      invariant AllSound(listing[..i])
      invariant |entries| == i && forall k :: 0 <= k < i ==> entries[k] == listing[k].entry
      invariant sawMarker <==> exists k :: 0 <= k < i && entries[k] == Marker
      invariant sawLock <==> exists k :: 0 <= k < i && entries[k] == OwnerLock
      invariant sawState <==> exists k :: 0 <= k < i && entries[k] == StateDb
      invariant sawSqlite <==> exists k :: 0 <= k < i && (entries[k].StateDb? || entries[k].OtherSqlite?)
    {
      if listing[i].Foreign? || !listing[i].sound {
        return None;
      }
      var name := listing[i].entry;
      if name == Marker {
        sawMarker := true;
      } else if name == OwnerLock {
        sawLock := true;
      } else {
        sawSqlite := true;
        sawState := sawState || name == StateDb;
      }
      entries := entries + [name];
    }
    assert listing[..|listing|] == listing;
    assert forall e :: e in Names(listing) <==> exists k :: 0 <= k < |entries| && entries[k] == e;
    if requireState {
      if !sawMarker || !sawLock || !sawState {
        return None;
      }
    } else if !sawMarker && sawSqlite {
      return None;
    }
    shape := Some(Shape(entries, sawLock));
  }

  // How a removal ends, whether it finished or failed: the scan's lock is dropped with its step, a failed
  // prepare drops its lock before the root lock, an owner keeps its lock until cleanup returns.
  function EndRemoval(s: State, p: Caller, g: Generation, purpose: Purpose, removed: bool): State {
    match purpose
    case Resume(todo, kept, _) =>
      Goto(Release(s, p, g), p, if removed then Recovering(todo, kept) else Releasing(Failed))
    case Undo => Goto(Release(s, p, g), p, Releasing(Failed))
    case CleanUp => Goto(s, p, Releasing(Cleaned(g)))
  }

  // An error return from where the caller stands.
  function FailAt(s: State, p: Caller): State {
    match At(s, p)
    case Opened(None) => Goto(s, p, Idle)
    case Opened(Some(g)) => Goto(Release(s, p, g), p, Idle)
    case Recovering(_, _) => Goto(s, p, Releasing(Failed))
    case Entering(g, purpose) => EndRemoval(s, p, g, purpose, false)
    case Removing(g, _, purpose) => EndRemoval(s, p, g, purpose, false)
    case Making(_) => Goto(s, p, Releasing(Failed))
    case Made(_, _) => Goto(s, p, Releasing(Failed))
    case Filed(_, _) => Goto(s, p, Releasing(Failed))
    case Locked(_, g) => Goto(s, p, Entering(g, Undo))
    case Marked(_, g) => Goto(s, p, Entering(g, Undo))
    case Copied(_, g) => Goto(s, p, Entering(g, Undo))
    case Cleaning(g) => Goto(s, p, Releasing(Cleaned(g)))
    case _ => s
  }

  // A caller that dies lets go of every lock and leaves its files where they are.
  function CrashOf(s: State, p: Caller): State {
    s.(owner := map g | g in s.owner && s.owner[g] != p :: s.owner[g],
       root := if s.root == Some(p) then None else s.root,
       phases := s.phases[p := Dead])
  }

  // Towards the root lock. A root that already has entries but no lock file is refused.
  function EnterStep(s: State, p: Caller, m: Move): State {
    match (m, At(s, p))
    case (OpenRoot, Idle) =>
      if s.rootFile || s.dirs == map[] then Goto(s.(rootFile := true), p, Opened(None)) else s
    case (OpenForCleanup, Live(g)) =>
      if s.rootFile then Goto(s, p, Opened(Some(g))) else Goto(Release(s, p, g), p, Idle)
    case (LockRoot, Opened(cleanup)) =>
      if s.root.Some? then FailAt(s, p)
      else Goto(s.(root := Some(p)), p, if cleanup.Some? then Cleaning(cleanup.value) else Recovering(s.dirs.Keys, {}))
    case _ => s
  }

  // Taking a generation away, entry by entry as listed when its shape was checked.
  function RemoveStep(s: State, p: Caller, m: Move): State {
    match (m, At(s, p))
    case (Validate, Cleaning(g)) =>
      if g in s.dirs && ShapeOk(s.dirs[g], true) then Goto(s, p, Removing(g, s.dirs[g], CleanUp)) else FailAt(s, p)
    case (Validate, Entering(g, purpose)) =>
      if g in s.dirs && ShapeOk(s.dirs[g], false) then Goto(s, p, Removing(g, s.dirs[g], purpose)) else FailAt(s, p)
    case (Unlink(e), Removing(g, entries, purpose)) =>
      if e !in entries then s
      else if g in s.dirs && e in s.dirs[g] then
        Goto(s.(dirs := s.dirs[g := s.dirs[g] - {e}]), p, Removing(g, entries - {e}, purpose))
      else FailAt(s, p)
    case (RemoveDirectory, Removing(g, entries, purpose)) =>
      if entries != {} then s
      else if g in s.dirs && s.dirs[g] == {} then EndRemoval(s.(dirs := s.dirs - {g}), p, g, purpose, true)
      else FailAt(s, p)
    case _ => s
  }

  // Making a new generation once the scan is over.
  function MakeStep(s: State, p: Caller, m: Move): State {
    match (m, At(s, p))
    case (ListRoot, Recovering(todo, _)) => if todo == {} then Goto(s, p, Making(s.dirs.Keys)) else s
    case (MakeDirectory(g), Making(before)) =>
      if g in s.used then FailAt(s, p)
      else Goto(s.(dirs := s.dirs[g := {}], used := s.used + {g}), p, Made(before, g))
    case (CreateLock, Made(before, g)) => AddEntry(s, p, g, OwnerLock, Filed(before, g))
    case (TakeLock, Filed(before, g)) =>
      if g in s.owner then FailAt(s, p) else Goto(s.(owner := s.owner[g := p]), p, Locked(before, g))
    case (WriteMarker, Locked(before, g)) => AddEntry(s, p, g, Marker, Marked(before, g))
    case (CopyState, Marked(before, g)) => AddEntry(s, p, g, StateDb, Copied(before, g))
    case (VerifyAll, Copied(before, g)) =>
      if g in s.dirs && ShapeOk(s.dirs[g], true) && s.dirs.Keys == before + {g}
      then Goto(s, p, Releasing(Prepared(g, before))) else FailAt(s, p)
    case _ => s
  }

  // Letting go: of the root lock, and of an owner lock.
  function LeaveStep(s: State, p: Caller, m: Move): State {
    match (m, At(s, p))
    case (Unlock(ok), Releasing(outcome)) => UnlockStep(s.(root := None), p, outcome, ok)
    case (Return, Returning(g)) => Goto(Release(s, p, g), p, Idle)
    case (Drop, Live(g)) => Goto(Release(s, p, g), p, Idle)
    case _ => s
  }

  // The child process of a generation makes and drops its own database files.
  function ChildStep(s: State, g: Generation, id: nat, writes: bool): State {
    if g !in s.dirs then s
    else
      var e := OtherSqlite(id);
      s.(dirs := s.dirs[g := if writes then s.dirs[g] + {e} else s.dirs[g] - {e}])
  }

  /** One step of caller `p`; a step that does not apply where the caller stands leaves the state. */
  function Step(s: State, p: Caller, m: Move): State {
    match m
    case OpenRoot => EnterStep(s, p, m)
    case OpenForCleanup => EnterStep(s, p, m)
    case LockRoot => EnterStep(s, p, m)
    case Examine(g) => if At(s, p).Recovering? then ExamineStep(s, p, g, At(s, p).todo, At(s, p).kept) else s
    case Validate => RemoveStep(s, p, m)
    case Unlink(_) => RemoveStep(s, p, m)
    case RemoveDirectory => RemoveStep(s, p, m)
    case Unlock(_) => LeaveStep(s, p, m)
    case Return => LeaveStep(s, p, m)
    case Drop => LeaveStep(s, p, m)
    case Fail => FailAt(s, p)
    case Crash => CrashOf(s, p)
    case ChildWrites(g, id) => ChildStep(s, g, id, true)
    case ChildRemoves(g, id) => ChildStep(s, g, id, false)
    case _ => MakeStep(s, p, m)
  }

  function AddEntry(s: State, p: Caller, g: Generation, e: Entry, next: Phase): State {
    if g in s.dirs && e !in s.dirs[g] then Goto(s.(dirs := s.dirs[g := s.dirs[g] + {e}]), p, next) else FailAt(s, p)
  }

  // One generation of the recovery scan: skip it when its lock is held, else take the lock (or find
  // none to take) and go on to remove it.
  function ExamineStep(s: State, p: Caller, g: Generation, todo: set<Generation>, kept: set<Generation>): State {
    if g !in todo then s
    else if g !in s.dirs || !ShapeOk(s.dirs[g], false) then FailAt(s, p)
    else if OwnerLock !in s.dirs[g] then Goto(s, p, Entering(g, Resume(todo - {g}, kept, false)))
    else if g in s.owner then Goto(s, p, Recovering(todo - {g}, kept + {g}))
    else Goto(s.(owner := s.owner[g := p]), p, Entering(g, Resume(todo - {g}, kept, true)))
  }

  // After the root lock is let go. A prepared generation whose unlock reports an error is still to be dropped.
  function UnlockStep(s: State, p: Caller, outcome: Outcome, ok: bool): State {
    match outcome
    case Prepared(g, _) => Goto(s, p, if ok then Live(g) else Returning(g))
    case Cleaned(g) => Goto(s, p, Returning(g))
    case Failed => Goto(s, p, Idle)
  }

  const INITIAL := State(map[], map[], None, false, {}, map[])

  function Run(moves: seq<(Caller, Move)>): State {
    if |moves| == 0 then INITIAL
    else
      var last := moves[|moves| - 1];
      Step(Run(moves[..|moves| - 1]), last.0, last.1)
  }

  /** The child process of a generation adds and removes any of its own database files at any time. */
  lemma {:induction false} ChildrenComeAndGo(s: State, p: Caller, g: Generation, id: nat)
    requires g in s.dirs && OtherSqlite(id) !in s.dirs[g]
    ensures
      var t := Step(s, p, ChildWrites(g, id));
      && OtherSqlite(id) in t.dirs[g] && s.dirs[g] <= t.dirs[g] && t.phases == s.phases
      && Step(t, p, ChildRemoves(g, id)) == s
  {
    var t := Step(s, p, ChildWrites(g, id));
    assert t.dirs[g] - {OtherSqlite(id)} == s.dirs[g];
    assert t.dirs[g := s.dirs[g]] == s.dirs;
  }

  /** A caller gets its generation only if letting the root lock go succeeds; otherwise the generation's lock is let
      go as well and its files are left to the next scan. */
  lemma {:induction false} FailedUnlockDrops(s: State, p: Caller, g: Generation, kept: set<Generation>)
    requires At(s, p) == Releasing(Prepared(g, kept)) && OwnerOf(s, g) == Some(p)
    ensures At(Step(s, p, Unlock(true)), p) == Live(g)
    ensures
      var t := Step(Step(s, p, Unlock(false)), p, Return);
      && !At(Step(s, p, Unlock(false)), p).Live? && At(t, p) == Idle && t.root == None
      && t.owner == s.owner - {g} && t.dirs == s.dirs
  {
  }

  // ---- the invariant ----

  predicate InRegion(phase: Phase) {
    !(phase.Idle? || phase.Opened? || phase.Live? || phase.Returning? || phase.Dead?)
  }

  function PurposeClaims(g: Generation, purpose: Purpose): Option<Generation> {
    if purpose.Resume? && !purpose.locked then None else Some(g)
  }

  // The generation whose lock a caller holds where it stands.
  function Claim(phase: Phase): Option<Generation> {
    match phase
    case Opened(cleanup) => cleanup
    case Entering(g, purpose) => PurposeClaims(g, purpose)
    case Removing(g, _, purpose) => PurposeClaims(g, purpose)
    case Locked(_, g) => Some(g)
    case Marked(_, g) => Some(g)
    case Copied(_, g) => Some(g)
    case Cleaning(g) => Some(g)
    case Releasing(Prepared(g, _)) => Some(g)
    case Releasing(Cleaned(g)) => Some(g)
    case Live(g) => Some(g)
    case Returning(g) => Some(g)
    case _ => None
  }

  // Where a caller's generation must be whole.
  predicate MustBeWhole(phase: Phase) {
    || phase.Live? || phase.Cleaning?
    || (phase.Opened? && phase.cleanup.Some?)
    || (phase.Releasing? && phase.outcome.Prepared?)
  }

  // What the caller inside the root lock knows about the directories.
  predicate Bookkeeping(dirs: map<Generation, set<Entry>>, phase: Phase) {
    match phase
    case Recovering(todo, kept) => dirs.Keys == todo + kept && todo !! kept
    case Entering(g, purpose) => RemovalKnows(dirs, g, purpose)
    case Removing(g, _, purpose) => RemovalKnows(dirs, g, purpose)
    case Making(before) => dirs.Keys == before
    case Made(before, g) => dirs.Keys == before + {g}
    case Filed(before, g) => dirs.Keys == before + {g} && OwnerLock in dirs[g]
    case Locked(before, g) => dirs.Keys == before + {g} && OwnerLock in dirs[g]
    case Marked(before, g) => dirs.Keys == before + {g} && OwnerLock in dirs[g]
    case Copied(before, g) => dirs.Keys == before + {g} && OwnerLock in dirs[g]
    case Releasing(Prepared(g, kept)) => dirs.Keys == kept + {g}
    case _ => true
  }

  predicate RemovalKnows(dirs: map<Generation, set<Entry>>, g: Generation, purpose: Purpose) {
    && g in dirs
    && (purpose.Resume? ==>
         && dirs.Keys == purpose.todo + purpose.kept + {g}
         && purpose.todo !! purpose.kept && g !in purpose.todo + purpose.kept
         && (!purpose.locked ==> OwnerLock !in dirs[g]))
  }

  // Exactly the caller that holds the root lock is between taking it and letting it go.
  ghost predicate Exclusive(s: State) {
    forall p: Caller :: InRegion(At(s, p)) <==> s.root == Some(p)
  }

  function OwnerOf(s: State, g: Generation): Option<Caller> {
    if g in s.owner then Some(s.owner[g]) else None
  }

  // Owner locks and the callers that stand where they hold one are the same relation.
  ghost predicate Owned(s: State) {
    forall p: Caller, g: Generation :: OwnerOf(s, g) == Some(p) <==> Claim(At(s, p)) == Some(g)
  }

  ghost predicate Whole(s: State) {
    forall p: Caller :: MustBeWhole(At(s, p)) ==>
      Claim(At(s, p)).Some? && Claim(At(s, p)).value in s.dirs && Complete(s.dirs[Claim(At(s, p)).value])
  }

  ghost predicate Booked(s: State) { forall p: Caller :: Bookkeeping(s.dirs, At(s, p)) }

  predicate NamesUsed(s: State) { s.dirs.Keys <= s.used && s.owner.Keys <= s.used }

  ghost predicate Inv(s: State) { Exclusive(s) && Owned(s) && Whole(s) && Booked(s) && NamesUsed(s) }

  // ---- one caller's step keeps it ----

  // What a step of `p` owes the others: their phases, their locks, and their whole generations.
  ghost predicate Considerate(s: State, t: State, p: Caller) {
    && (forall q: Caller :: q != p ==> At(t, q) == At(s, q))
    && (forall g: Generation ::
          OwnerOf(t, g) == OwnerOf(s, g) || (OwnerOf(s, g) in {None, Some(p)} && OwnerOf(t, g) in {None, Some(p)}))
    && (forall g: Generation :: OwnerOf(s, g) != Some(p) && g in s.dirs && Complete(s.dirs[g]) ==>
         g in t.dirs && Complete(t.dirs[g]))
    && (s.root == t.root || (s.root in {None, Some(p)} && t.root in {None, Some(p)}))
    && (t.dirs == s.dirs || s.root == Some(p))
  }

  // What it owes itself.
  ghost predicate Settled(t: State, p: Caller) {
    && (InRegion(At(t, p)) <==> t.root == Some(p))
    && (forall g: Generation :: OwnerOf(t, g) == Some(p) <==> Claim(At(t, p)) == Some(g))
    && (MustBeWhole(At(t, p)) ==>
         Claim(At(t, p)).Some? && Claim(At(t, p)).value in t.dirs && Complete(t.dirs[Claim(At(t, p)).value]))
    && Bookkeeping(t.dirs, At(t, p))
    && NamesUsed(t)
  }

  lemma {:induction false} SettledEach(s: State, p: Caller)
    requires Inv(s)
    ensures Settled(s, p)
  {
  }

  lemma {:induction false} KeptByEach(s: State, t: State, p: Caller)
    requires Inv(s) && Considerate(s, t, p) && Settled(t, p)
    ensures Inv(t)
  {
    assert Exclusive(t) by {
      forall q: Caller ensures InRegion(At(t, q)) <==> t.root == Some(q) {
        assert InRegion(At(s, q)) <==> s.root == Some(q);
      }
    }
    assert Owned(t) by {
      forall q: Caller, g: Generation ensures OwnerOf(t, g) == Some(q) <==> Claim(At(t, q)) == Some(g) {
        assert OwnerOf(s, g) == Some(q) <==> Claim(At(s, q)) == Some(g);
      }
    }
    assert Booked(t) by {
      forall q: Caller ensures Bookkeeping(t.dirs, At(t, q)) {
        assert Bookkeeping(s.dirs, At(s, q));
        assert InRegion(At(s, q)) <==> s.root == Some(q);
      }
    }
    forall q: Caller | MustBeWhole(At(t, q))
      ensures Claim(At(t, q)).Some? && Claim(At(t, q)).value in t.dirs && Complete(t.dirs[Claim(At(t, q)).value])
    {
      if q != p {
        assert MustBeWhole(At(s, q));
        var g := Claim(At(s, q)).value;
        assert OwnerOf(s, g) == Some(q);
      }
    }
  }

  // The next phase claims the same lock.
  lemma {:induction false} GotoKeeps(s: State, p: Caller, phase: Phase)
    requires Settled(s, p) && InRegion(phase) == InRegion(At(s, p)) && Claim(phase) == Claim(At(s, p))
    requires MustBeWhole(phase) ==>
        Claim(phase).Some? && Claim(phase).value in s.dirs && Complete(s.dirs[Claim(phase).value])
    requires Bookkeeping(s.dirs, phase)
    ensures Considerate(s, Goto(s, p, phase), p) && Settled(Goto(s, p, phase), p)
  {
  }

  // The next phase claims none.
  lemma {:induction false} ReleaseKeeps(s: State, p: Caller, g: Generation, phase: Phase)
    requires Settled(s, p) && InRegion(phase) == InRegion(At(s, p)) && Claim(At(s, p)) in {None, Some(g)}
    requires Claim(phase) == None && !MustBeWhole(phase) && Bookkeeping(s.dirs, phase)
    ensures Considerate(s, Goto(Release(s, p, g), p, phase), p) && Settled(Goto(Release(s, p, g), p, phase), p)
  {
  }

  // One directory of its own, or one nobody can hold whole, gets other entries.
  lemma {:induction false} EntriesKeep(s: State, p: Caller, g: Generation, entries: set<Entry>, phase: Phase)
    requires Settled(s, p) && s.root == Some(p) && InRegion(phase) && Claim(phase) == Claim(At(s, p))
    requires g in s.dirs && (OwnerOf(s, g) == Some(p) || !Complete(s.dirs[g]))
    requires !MustBeWhole(phase) && Bookkeeping(s.dirs[g := entries], phase)
    ensures Considerate(s, Goto(s.(dirs := s.dirs[g := entries]), p, phase), p)
    ensures Settled(Goto(s.(dirs := s.dirs[g := entries]), p, phase), p)
  {
  }

  lemma {:induction false} RemovalFails(s: State, p: Caller, g: Generation, purpose: Purpose)
    requires Settled(s, p) && InRegion(At(s, p)) && Claim(At(s, p)) == PurposeClaims(g, purpose)
    ensures Considerate(s, EndRemoval(s, p, g, purpose, false), p) && Settled(EndRemoval(s, p, g, purpose, false), p)
  {
    if purpose.CleanUp? {
      GotoKeeps(s, p, Releasing(Cleaned(g)));
    } else {
      ReleaseKeeps(s, p, g, Releasing(Failed));
    }
  }

  lemma {:induction false} RootTaken(s: State, p: Caller, phase: Phase)
    requires Settled(s, p) && s.root == None && InRegion(phase) && Claim(phase) == Claim(At(s, p))
    requires MustBeWhole(phase) ==> MustBeWhole(At(s, p))
    requires Bookkeeping(s.dirs, phase)
    ensures Considerate(s, Goto(s.(root := Some(p)), p, phase), p) && Settled(Goto(s.(root := Some(p)), p, phase), p)
  {
  }

  lemma {:induction false} RootFreed(s: State, p: Caller, phase: Phase)
    requires Settled(s, p) && s.root == Some(p) && !InRegion(phase) && Claim(phase) == Claim(At(s, p))
    requires MustBeWhole(phase) ==> MustBeWhole(At(s, p))
    ensures Considerate(s, Goto(s.(root := None), p, phase), p) && Settled(Goto(s.(root := None), p, phase), p)
  {
  }

  lemma {:induction false} EnterKeeps(s: State, p: Caller, m: Move)
    requires Settled(s, p)
    ensures Considerate(s, EnterStep(s, p, m), p) && Settled(EnterStep(s, p, m), p)
  {
    match (m, At(s, p)) {
      case (OpenRoot, Idle) => GotoKeeps(s, p, Opened(None));
      case (OpenForCleanup, Live(g)) => GotoKeeps(s, p, Opened(Some(g))); ReleaseKeeps(s, p, g, Idle);
      case (LockRoot, Opened(cleanup)) =>
        if s.root.Some? {
          FailKeeps(s, p);
        } else {
          RootTaken(s, p, if cleanup.Some? then Cleaning(cleanup.value) else Recovering(s.dirs.Keys, {}));
        }
      case _ =>
    }
  }

  lemma {:induction false} FailKeeps(s: State, p: Caller)
    requires Settled(s, p)
    ensures Considerate(s, FailAt(s, p), p) && Settled(FailAt(s, p), p)
  {
    match At(s, p) {
      case Entering(g, purpose) => RemovalFails(s, p, g, purpose);
      case Removing(g, _, purpose) => RemovalFails(s, p, g, purpose);
      case Opened(Some(g)) => ReleaseKeeps(s, p, g, Idle);
      case Locked(_, g) => GotoKeeps(s, p, Entering(g, Undo));
      case Marked(_, g) => GotoKeeps(s, p, Entering(g, Undo));
      case Copied(_, g) => GotoKeeps(s, p, Entering(g, Undo));
      case Cleaning(g) => GotoKeeps(s, p, Releasing(Cleaned(g)));
      case _ => OtherFailures(s, p);
    }
  }

  lemma {:induction false} OtherFailures(s: State, p: Caller)
    requires Settled(s, p)
    requires !(At(s, p).Entering? || At(s, p).Removing? || At(s, p).Locked? || At(s, p).Marked? || At(s, p).Copied?)
    requires !At(s, p).Cleaning? && !(At(s, p).Opened? && At(s, p).cleanup.Some?)
    ensures Considerate(s, FailAt(s, p), p) && Settled(FailAt(s, p), p)
  {
    match At(s, p) {
      case Opened(None) => GotoKeeps(s, p, Idle);
      case Recovering(_, _) => GotoKeeps(s, p, Releasing(Failed));
      case Making(_) => GotoKeeps(s, p, Releasing(Failed));
      case Made(_, _) => GotoKeeps(s, p, Releasing(Failed));
      case Filed(_, _) => GotoKeeps(s, p, Releasing(Failed));
      case _ =>
    }
  }

  lemma {:induction false} CrashKeeps(s: State, p: Caller)
    requires Settled(s, p)
    ensures Considerate(s, CrashOf(s, p), p) && Settled(CrashOf(s, p), p)
  {
  }

  lemma {:induction false} LeaveKeeps(s: State, p: Caller, m: Move)
    requires Settled(s, p)
    ensures Considerate(s, LeaveStep(s, p, m), p) && Settled(LeaveStep(s, p, m), p)
  {
    match (m, At(s, p)) {
      case (Return, Returning(g)) => ReleaseKeeps(s, p, g, Idle);
      case (Drop, Live(g)) => ReleaseKeeps(s, p, g, Idle);
      case (Unlock(ok), Releasing(Prepared(g, _))) => RootFreed(s, p, if ok then Live(g) else Returning(g));
      case (Unlock(_), Releasing(Cleaned(g))) => RootFreed(s, p, Returning(g));
      case (Unlock(_), Releasing(Failed)) => RootFreed(s, p, Idle);
      case _ =>
    }
  }

  lemma {:induction false} ExamineKeeps(s: State, p: Caller, g: Generation)
    requires Settled(s, p) && At(s, p).Recovering?
    ensures Considerate(s, ExamineStep(s, p, g, At(s, p).todo, At(s, p).kept), p)
    ensures Settled(ExamineStep(s, p, g, At(s, p).todo, At(s, p).kept), p)
  {
    var todo, kept := At(s, p).todo, At(s, p).kept;
    if g !in todo {
      GotoKeeps(s, p, At(s, p));
    } else if g !in s.dirs || !ShapeOk(s.dirs[g], false) {
      FailKeeps(s, p);
    } else if OwnerLock !in s.dirs[g] {
      GotoKeeps(s, p, Entering(g, Resume(todo - {g}, kept, false)));
    } else if g in s.owner {
      GotoKeeps(s, p, Recovering(todo - {g}, kept + {g}));
    } else {
      TakeKeeps(s, p, g, Entering(g, Resume(todo - {g}, kept, true)));
    }
  }

  lemma {:induction false} AddKeeps(s: State, p: Caller, g: Generation, e: Entry, next: Phase)
    requires Settled(s, p) && s.root == Some(p) && InRegion(next) && Claim(next) == Claim(At(s, p))
    requires !e.OtherSqlite? && !MustBeWhole(next)
    requires g in s.dirs ==> Bookkeeping(s.dirs[g := s.dirs[g] + {e}], next)
    ensures Considerate(s, AddEntry(s, p, g, e, next), p) && Settled(AddEntry(s, p, g, e, next), p)
  {
    if g in s.dirs && e !in s.dirs[g] {
      EntriesKeep(s, p, g, s.dirs[g] + {e}, next);
    } else {
      FailKeeps(s, p);
    }
  }

  lemma {:induction false} MakeKeeps(s: State, p: Caller, m: Move)
    requires Settled(s, p)
    ensures Considerate(s, MakeStep(s, p, m), p) && Settled(MakeStep(s, p, m), p)
  {
    var phase := At(s, p);
    if m.CreateLock? || m.WriteMarker? || m.CopyState? {
      FillKeeps(s, p, m);
    } else if m.ListRoot? && phase.Recovering? && phase.todo == {} {
      GotoKeeps(s, p, Making(s.dirs.Keys));
    } else if m.MakeDirectory? && phase.Making? && m.g !in s.used {
      DirectoryMade(s, p, m.g, phase.before);
    } else if m.TakeLock? && phase.Filed? && phase.g !in s.owner {
      TakeKeeps(s, p, phase.g, Locked(phase.before, phase.g));
    } else if m.VerifyAll? && phase.Copied? {
      VerifyKeeps(s, p, phase.before, phase.g);
    } else {
      FailKeeps(s, p);
      assert MakeStep(s, p, m) in {s, FailAt(s, p)};
    }
  }

  lemma {:induction false} VerifyKeeps(s: State, p: Caller, before: set<Generation>, g: Generation)
    requires Settled(s, p) && At(s, p) == Copied(before, g)
    ensures Considerate(s, MakeStep(s, p, VerifyAll), p) && Settled(MakeStep(s, p, VerifyAll), p)
  {
    if g in s.dirs && ShapeOk(s.dirs[g], true) && s.dirs.Keys == before + {g} {
      GotoKeeps(s, p, Releasing(Prepared(g, before)));
    } else {
      FailKeeps(s, p);
    }
  }

  lemma {:induction false} FillKeeps(s: State, p: Caller, m: Move)
    requires Settled(s, p) && (m.CreateLock? || m.WriteMarker? || m.CopyState?)
    ensures Considerate(s, MakeStep(s, p, m), p) && Settled(MakeStep(s, p, m), p)
  {
    var phase := At(s, p);
    if m.CreateLock? && phase.Made? {
      AddKeeps(s, p, phase.g, OwnerLock, Filed(phase.before, phase.g));
    } else if m.WriteMarker? {
      MarkerKeeps(s, p);
    } else if m.CopyState? {
      CopyKeeps(s, p);
    }
  }

  lemma {:induction false} MarkerKeeps(s: State, p: Caller)
    requires Settled(s, p)
    ensures Considerate(s, MakeStep(s, p, WriteMarker), p) && Settled(MakeStep(s, p, WriteMarker), p)
  {
    var phase := At(s, p);
    if phase.Locked? {
      assert MakeStep(s, p, WriteMarker) == AddEntry(s, p, phase.g, Marker, Marked(phase.before, phase.g));
      AddKeeps(s, p, phase.g, Marker, Marked(phase.before, phase.g));
    } else {
      assert MakeStep(s, p, WriteMarker) == s;
    }
  }

  lemma {:induction false} CopyKeeps(s: State, p: Caller)
    requires Settled(s, p)
    ensures Considerate(s, MakeStep(s, p, CopyState), p) && Settled(MakeStep(s, p, CopyState), p)
  {
    var phase := At(s, p);
    if phase.Marked? {
      assert MakeStep(s, p, CopyState) == AddEntry(s, p, phase.g, StateDb, Copied(phase.before, phase.g));
      AddKeeps(s, p, phase.g, StateDb, Copied(phase.before, phase.g));
    } else {
      assert MakeStep(s, p, CopyState) == s;
    }
  }

  // A free lock is taken.
  lemma {:induction false} TakeKeeps(s: State, p: Caller, g: Generation, phase: Phase)
    requires Settled(s, p) && s.root == Some(p) && Claim(At(s, p)) == None && g in s.dirs && g !in s.owner
    requires InRegion(phase) && Claim(phase) == Some(g) && !MustBeWhole(phase) && Bookkeeping(s.dirs, phase)
    ensures Considerate(s, Goto(s.(owner := s.owner[g := p]), p, phase), p)
    ensures Settled(Goto(s.(owner := s.owner[g := p]), p, phase), p)
  {
  }

  lemma {:induction false} DirectoryMade(s: State, p: Caller, g: Generation, before: set<Generation>)
    requires Settled(s, p) && At(s, p) == Making(before) && g !in s.used
    ensures Considerate(s, MakeStep(s, p, MakeDirectory(g)), p) && Settled(MakeStep(s, p, MakeDirectory(g)), p)
  {
  }

  lemma {:induction false} DirectoryRemoved(s: State, p: Caller, g: Generation, purpose: Purpose)
    requires Settled(s, p) && At(s, p) == Removing(g, {}, purpose) && g in s.dirs && s.dirs[g] == {}
    ensures Considerate(s, EndRemoval(s.(dirs := s.dirs - {g}), p, g, purpose, true), p)
    ensures Settled(EndRemoval(s.(dirs := s.dirs - {g}), p, g, purpose, true), p)
  {
    match purpose
    case Resume(todo, kept, _) => GenerationGone(s, p, g, Recovering(todo, kept));
    case Undo => GenerationGone(s, p, g, Releasing(Failed));
    case CleanUp =>
  }

  lemma {:induction false} GenerationGone(s: State, p: Caller, g: Generation, phase: Phase)
    requires Settled(s, p) && s.root == Some(p) && Claim(At(s, p)) in {None, Some(g)} && g in s.dirs && s.dirs[g] == {}
    requires InRegion(phase) && Claim(phase) == None && Bookkeeping(s.dirs - {g}, phase)
    ensures Considerate(s, Goto(Release(s.(dirs := s.dirs - {g}), p, g), p, phase), p)
    ensures Settled(Goto(Release(s.(dirs := s.dirs - {g}), p, g), p, phase), p)
  {
  }

  lemma {:induction false} RemoveKeeps(s: State, p: Caller, m: Move)
    requires Settled(s, p)
    ensures Considerate(s, RemoveStep(s, p, m), p) && Settled(RemoveStep(s, p, m), p)
  {
    match (m, At(s, p)) {
      case (Validate, Cleaning(g)) =>
        if g in s.dirs && ShapeOk(s.dirs[g], true) {
          GotoKeeps(s, p, Removing(g, s.dirs[g], CleanUp));
        } else {
          FailKeeps(s, p);
        }
      case (Validate, Entering(g, purpose)) =>
        if g in s.dirs && ShapeOk(s.dirs[g], false) {
          GotoKeeps(s, p, Removing(g, s.dirs[g], purpose));
        } else {
          FailKeeps(s, p);
        }
      case (Unlink(e), Removing(g, entries, purpose)) =>
        if e in entries {
          if g in s.dirs && e in s.dirs[g] {
            EntriesKeep(s, p, g, s.dirs[g] - {e}, Removing(g, entries - {e}, purpose));
          } else {
            FailKeeps(s, p);
          }
        }
      case (RemoveDirectory, Removing(g, entries, purpose)) =>
        if entries == {} {
          if g in s.dirs && s.dirs[g] == {} { DirectoryRemoved(s, p, g, purpose); } else { FailKeeps(s, p); }
        }
      case _ =>
    }
  }

  lemma {:induction false} ChildKeeps(s: State, p: Caller, g: Generation, id: nat, writes: bool)
    requires Inv(s)
    ensures Inv(ChildStep(s, g, id, writes))
  {
    var t := ChildStep(s, g, id, writes);
    assert forall q: Caller :: At(t, q) == At(s, q);
    assert forall h: Generation :: OwnerOf(t, h) == OwnerOf(s, h);
    assert t.dirs.Keys == s.dirs.Keys;
    assert forall h: Generation :: h in s.dirs ==> (OwnerLock in t.dirs[h] <==> OwnerLock in s.dirs[h]);
    assert forall h: Generation :: h in s.dirs ==> (Complete(t.dirs[h]) <==> Complete(s.dirs[h]));
    forall q: Caller ensures Bookkeeping(t.dirs, At(t, q)) {
      assert Bookkeeping(s.dirs, At(s, q));
    }
  }

  // Every move that is the caller's own.
  lemma {:induction false} StepMoves(s: State, p: Caller, m: Move)
    requires Settled(s, p) && !m.ChildWrites? && !m.ChildRemoves?
    ensures Considerate(s, Step(s, p, m), p) && Settled(Step(s, p, m), p)
  {
    var t := Step(s, p, m);
    if t == EnterStep(s, p, m) {
      EnterKeeps(s, p, m);
    } else if t == LeaveStep(s, p, m) {
      LeaveKeeps(s, p, m);
    } else if t == RemoveStep(s, p, m) {
      RemoveKeeps(s, p, m);
    } else if t == MakeStep(s, p, m) {
      MakeKeeps(s, p, m);
    } else if m.Examine? {
      ExamineKeeps(s, p, m.g);
    } else if m.Fail? {
      FailKeeps(s, p);
    } else {
      CrashKeeps(s, p);
    }
  }

  lemma {:induction false} OwnMoveKeepsInv(s: State, t: State, p: Caller, m: Move)
    requires Inv(s) && t == Step(s, p, m) && !m.ChildWrites? && !m.ChildRemoves?
    ensures Inv(t)
  {
    assert Considerate(s, t, p) && Settled(t, p) by {
      assert Settled(s, p) by { SettledEach(s, p); }
      StepMoves(s, p, m);
    }
    KeptByEach(s, t, p);
  }

  lemma {:induction false} StepKeepsInv(s: State, p: Caller, m: Move)
    requires Inv(s)
    ensures Inv(Step(s, p, m))
  {
    if m.ChildWrites? || m.ChildRemoves? {
      ChildKeeps(s, p, m.g, m.id, m.ChildWrites?);
    } else {
      OwnMoveKeepsInv(s, Step(s, p, m), p, m);
    }
  }

  lemma {:induction false} RunKeepsInv(moves: seq<(Caller, Move)>)
    ensures Inv(Run(moves))
  {
    if |moves| > 0 {
      RunKeepsInv(moves[..|moves| - 1]);
      var last := moves[|moves| - 1];
      StepKeepsInv(Run(moves[..|moves| - 1]), last.0, last.1);
    }
  }

  // ---- what every run guarantees ----

  /** At most one caller at a time is between taking the root lock and letting it go. */
  lemma {:induction false} OneInsideTheRootLock(moves: seq<(Caller, Move)>, p: Caller, q: Caller)
    requires InRegion(At(Run(moves), p)) && InRegion(At(Run(moves), q))
    ensures p == q && Run(moves).root == Some(p)
  {
    RunKeepsInv(moves);
  }

  // What a child process never makes or drops.
  function Core(entries: set<Entry>): set<Entry> { entries * {Marker, OwnerLock, StateDb} }

  predicate Untouched(s: State, t: State, g: Generation, m: Move) {
    && g in s.dirs && g in t.dirs && Core(s.dirs[g]) <= Core(t.dirs[g])
    && (!m.ChildRemoves? ==> s.dirs[g] <= t.dirs[g])
  }

  /** No step takes an owner's lock away, and none removes anything from a generation whose lock another
      caller holds through a lock file that still has its name. Without the name, the owner is one whose
      cleanup stopped halfway and has not returned yet. */
  lemma {:induction false} HeldGenerationsAreSafe(moves: seq<(Caller, Move)>, p: Caller, m: Move, g: Generation,
          q: Caller)
    requires OwnerOf(Run(moves), g) == Some(q) && q != p && g in Run(moves).dirs
    ensures OwnerOf(Step(Run(moves), p, m), g) == Some(q)
    ensures Untouched(Run(moves), Step(Run(moves), p, m), g, m) ||
            (OwnerLock !in Run(moves).dirs[g] && At(Run(moves), q) == Returning(g))
  {
    RunKeepsInv(moves);
    SettledEach(Run(moves), p);
    SettledEach(Run(moves), q);
    HeldInStep(Run(moves), p, m, g, q);
  }

  lemma {:induction false} HeldInStep(s: State, p: Caller, m: Move, g: Generation, q: Caller)
    requires Settled(s, p) && Settled(s, q) && OwnerOf(s, g) == Some(q) && q != p && g in s.dirs
    ensures OwnerOf(Step(s, p, m), g) == Some(q)
    ensures Untouched(s, Step(s, p, m), g, m) || (OwnerLock !in s.dirs[g] && At(s, q) == Returning(g))
  {
    if !m.ChildWrites? && !m.ChildRemoves? {
      HeldIsSafe(s, p, m, g, q);
    }
  }

  lemma {:induction false} HeldIsSafe(s: State, p: Caller, m: Move, g: Generation, q: Caller)
    requires Settled(s, p) && Settled(s, q) && OwnerOf(s, g) == Some(q) && q != p && g in s.dirs
    requires !m.ChildWrites? && !m.ChildRemoves?
    ensures OwnerOf(Step(s, p, m), g) == Some(q)
    ensures Untouched(s, Step(s, p, m), g, m) || (OwnerLock !in s.dirs[g] && At(s, q) == Returning(g))
  {
    assert OwnerOf(Step(s, p, m), g) == Some(q) by {
      StepMoves(s, p, m);
    }
    if At(s, p).Removing? && At(s, p).g == g {
      RemovedWithoutName(s, p, q, g);
    } else {
      OnlyRemovalsRemove(s, p, m, g);
    }
  }

  lemma {:induction false} RemovedWithoutName(s: State, p: Caller, q: Caller, g: Generation)
    requires Settled(s, p) && Settled(s, q) && p != q && OwnerOf(s, g) == Some(q)
    requires At(s, p).Removing? && At(s, p).g == g
    ensures g in s.dirs && OwnerLock !in s.dirs[g] && At(s, q) == Returning(g)
  {
    assert Claim(At(s, q)) == Some(g);
    assert Claim(At(s, p)) != Some(g);
    assert !InRegion(At(s, q));
  }

  lemma {:induction false} EndingLeavesDirectories(s: State, p: Caller, g: Generation, purpose: Purpose, removed: bool)
    ensures EndRemoval(s, p, g, purpose, removed).dirs == s.dirs
  {
  }

  lemma {:induction false} FailureLeavesDirectories(s: State, p: Caller)
    ensures FailAt(s, p).dirs == s.dirs
  {
    var phase := At(s, p);
    if phase.Entering? || phase.Removing? {
      EndingLeavesDirectories(s, p, phase.g, phase.purpose, false);
    }
  }

  lemma {:induction false} RemovingAnother(s: State, p: Caller, m: Move, g: Generation)
    requires g in s.dirs && !(At(s, p).Removing? && At(s, p).g == g)
    ensures g in RemoveStep(s, p, m).dirs && s.dirs[g] == RemoveStep(s, p, m).dirs[g]
  {
    FailureLeavesDirectories(s, p);
    var phase := At(s, p);
    if phase.Removing? && m.RemoveDirectory? {
      EndingLeavesDirectories(s.(dirs := s.dirs - {phase.g}), p, phase.g, phase.purpose, true);
    }
  }

  lemma {:induction false} MakingOnlyAdds(s: State, p: Caller, m: Move, g: Generation)
    requires g in s.dirs && NamesUsed(s)
    ensures g in MakeStep(s, p, m).dirs && s.dirs[g] <= MakeStep(s, p, m).dirs[g]
  {
    FailureLeavesDirectories(s, p);
  }

  lemma {:induction false} OtherMovesLeaveDirectories(s: State, p: Caller, m: Move)
    requires m.OpenRoot? || m.OpenForCleanup? || m.LockRoot? || m.Examine? || m.Unlock? || m.Return? || m.Drop? ||
        m.Fail? || m.Crash?
    ensures Step(s, p, m).dirs == s.dirs
  {
    FailureLeavesDirectories(s, p);
  }

  lemma {:induction false} OnlyRemovalsRemove(s: State, p: Caller, m: Move, g: Generation)
    requires Settled(s, p) && g in s.dirs && !m.ChildWrites? && !m.ChildRemoves?
    requires !(At(s, p).Removing? && At(s, p).g == g)
    ensures g in Step(s, p, m).dirs && s.dirs[g] <= Step(s, p, m).dirs[g]
  {
    if m.Validate? || m.Unlink? || m.RemoveDirectory? {
      RemovingAnother(s, p, m, g);
    } else if m.OpenRoot? || m.OpenForCleanup? || m.LockRoot? || m.Examine? || m.Unlock? || m.Return? || m.Drop? ||
        m.Fail? || m.Crash? {
      OtherMovesLeaveDirectories(s, p, m);
    } else {
      MakingOnlyAdds(s, p, m, g);
    }
  }

  /** The recovery scan passes a generation over exactly when its shape is acceptable and its lock is held
      under its name; with an acceptable shape otherwise it goes on to remove it, and without one it gives up. */
  lemma {:induction false} ScanSkipsExactlyTheHeld(moves: seq<(Caller, Move)>, p: Caller, g: Generation)
    requires At(Run(moves), p).Recovering? && g in At(Run(moves), p).todo
    ensures g in Run(moves).dirs
    ensures
      var (s, next) := (Run(moves), At(Step(Run(moves), p, Examine(g)), p));
      if !ShapeOk(s.dirs[g], false) then next == Releasing(Failed)
      else if g in s.owner && OwnerLock in s.dirs[g] then next.Recovering? && g in next.kept
      else next.Entering? && next.g == g
  {
    RunKeepsInv(moves);
    SettledEach(Run(moves), p);
  }

  // Some move of `p` itself takes something away from the generation.
  ghost predicate CanRemoveFrom(s: State, p: Caller, g: Generation) {
    exists m: Move :: !m.ChildWrites? && !m.ChildRemoves? && !Untouched(s, Step(s, p, m), g, m)
  }

  /** A scan that comes to a generation whose lock another caller holds goes on to remove from it exactly when
      the lock file has lost its name and what is left still has an acceptable shape. */
  lemma {:induction false} ScanRemovesExactly(moves: seq<(Caller, Move)>, p: Caller, g: Generation, q: Caller)
    requires OwnerOf(Run(moves), g) == Some(q) && q != p
    requires At(Run(moves), p).Recovering? && g in At(Run(moves), p).todo
    ensures g in Run(moves).dirs
    ensures
      var examined := Step(Step(Run(moves), p, Examine(g)), p, Validate);
      CanRemoveFrom(examined, p, g) <==>
        OwnerLock !in Run(moves).dirs[g] && ShapeOk(Run(moves).dirs[g], false)
  {
    var s := Run(moves);
    RunKeepsInv(moves);
    assert Settled(s, p) by { SettledEach(s, p); }
    var a := Step(s, p, Examine(g));
    var b := Step(a, p, Validate);
    if OwnerLock !in s.dirs[g] && ShapeOk(s.dirs[g], false) {
      UnnamedIsRemoved(s, p, g);
    } else {
      OthersAreLeft(s, p, g, q);
      forall m: Move | !m.ChildWrites? && !m.ChildRemoves? ensures Untouched(b, Step(b, p, m), g, m) {
        OnlyRemovalsRemove(b, p, m, g);
      }
    }
  }

  // The scan skips the generation, or gives up on it.
  lemma {:induction false} OthersAreLeft(s: State, p: Caller, g: Generation, q: Caller)
    requires Settled(s, p) && At(s, p).Recovering? && g in At(s, p).todo && OwnerOf(s, g) == Some(q) && q != p
    requires g in s.dirs && (OwnerLock in s.dirs[g] || !ShapeOk(s.dirs[g], false))
    ensures
      var b := Step(Step(s, p, Examine(g)), p, Validate);
      Settled(b, p) && !At(b, p).Removing? && b.dirs == s.dirs
  {
    var a := Step(s, p, Examine(g));
    assert a.dirs == s.dirs && (At(a, p).Recovering? || At(a, p).Releasing?);
    StepMoves(s, p, Examine(g));
    assert Step(a, p, Validate) == a;
  }

  lemma {:induction false} UnnamedIsRemoved(s: State, p: Caller, g: Generation)
    requires At(s, p).Recovering? && g in At(s, p).todo && g in s.dirs
    requires OwnerLock !in s.dirs[g] && ShapeOk(s.dirs[g], false)
    ensures CanRemoveFrom(Step(Step(s, p, Examine(g)), p, Validate), p, g)
  {
    var b := Step(Step(s, p, Examine(g)), p, Validate);
    assert At(b, p).Removing? && At(b, p).g == g && At(b, p).entries == b.dirs[g] == s.dirs[g];
    if e :| e in b.dirs[g] {
      assert e !in Step(b, p, Unlink(e)).dirs[g];
      assert !Untouched(b, Step(b, p, Unlink(e)), g, Unlink(e));
    } else {
      assert b.dirs[g] == {};
      assert g !in Step(b, p, RemoveDirectory).dirs;
      assert !Untouched(b, Step(b, p, RemoveDirectory), g, RemoveDirectory);
    }
  }

  // ---- what a finished prepare leaves in the root ----

  // The generations the scan of this prepare has left alone so far.
  function KeptSoFar(phase: Phase): set<Generation> {
    match phase
    case Recovering(_, kept) => kept
    case Entering(_, Resume(_, kept, _)) => kept
    case Removing(_, _, Resume(_, kept, _)) => kept
    case Making(before) => before
    case Made(before, _) => before
    case Filed(before, _) => before
    case Locked(before, _) => before
    case Marked(before, _) => before
    case Copied(before, _) => before
    case Releasing(Prepared(_, kept)) => kept
    case _ => {}
  }

  // Move `i` of the run is the scan step of `p` for `g`, taken while another caller held its lock, and `p`
  // has stayed inside the root lock ever since.
  ghost predicate HeldWhenReached(moves: seq<(Caller, Move)>, i: nat, p: Caller, g: Generation) {
    && i < |moves| && moves[i] == (p, Examine(g))
    && OwnerOf(Run(moves[..i]), g).Some? && OwnerOf(Run(moves[..i]), g) != Some(p)
    && forall j: nat :: i <= j <= |moves| ==> InRegion(At(Run(moves[..j]), p))
  }

  lemma {:induction false} KeptGrows(s: State, q: Caller, m: Move, p: Caller, g: Generation)
    requires Inv(s) && g in KeptSoFar(At(Step(s, q, m), p)) && g !in KeptSoFar(At(s, p))
    ensures q == p && m == Examine(g) && At(s, p).Recovering? && OwnerOf(s, g).Some? && OwnerOf(s, g) != Some(p)
  {
    if !m.ChildWrites? && !m.ChildRemoves? {
      SettledEach(s, q);
      StepMoves(s, q, m);
      if q == p {
        KeptGrowsInScan(s, p, m, g);
      }
    }
  }

  lemma {:induction false} FailureKeepsNoMore(s: State, p: Caller)
    ensures KeptSoFar(At(FailAt(s, p), p)) <= KeptSoFar(At(s, p))
  {
  }

  lemma {:induction false} RemovalKeepsNoMore(s: State, p: Caller, m: Move)
    ensures KeptSoFar(At(RemoveStep(s, p, m), p)) <= KeptSoFar(At(s, p))
  {
    FailureKeepsNoMore(s, p);
  }

  lemma {:induction false} MakingKeepsNoMore(s: State, p: Caller, m: Move)
    requires Bookkeeping(s.dirs, At(s, p))
    ensures KeptSoFar(At(MakeStep(s, p, m), p)) <= KeptSoFar(At(s, p))
  {
    FailureKeepsNoMore(s, p);
  }

  lemma {:induction false} KeptGrowsInScan(s: State, p: Caller, m: Move, g: Generation)
    requires Settled(s, p) && g in KeptSoFar(At(Step(s, p, m), p)) && g !in KeptSoFar(At(s, p))
    ensures m == Examine(g) && At(s, p).Recovering? && OwnerOf(s, g).Some? && OwnerOf(s, g) != Some(p)
  {
    if m.Examine? {
      FailureKeepsNoMore(s, p);
    } else {
      OthersKeepNoMore(s, p, m);
    }
  }

  lemma {:induction false} OthersKeepNoMore(s: State, p: Caller, m: Move)
    requires Settled(s, p) && !m.Examine?
    ensures KeptSoFar(At(Step(s, p, m), p)) <= KeptSoFar(At(s, p))
  {
    if m.Validate? || m.Unlink? || m.RemoveDirectory? {
      RemovalKeepsNoMore(s, p, m);
    } else if m.Fail? {
      FailureKeepsNoMore(s, p);
    } else {
      MakingKeepsNoMore(s, p, m);
    }
  }

  lemma {:induction false} HeldStaysReached(before: seq<(Caller, Move)>, last: (Caller, Move), i: nat, p: Caller,
          g: Generation)
    requires HeldWhenReached(before, i, p, g) && InRegion(At(Run(before + [last]), p))
    ensures HeldWhenReached(before + [last], i, p, g)
  {
    var moves := before + [last];
    assert moves[..i] == before[..i];
    forall j: nat | i <= j <= |moves| ensures InRegion(At(Run(moves[..j]), p)) {
      if j <= |before| {
        assert moves[..j] == before[..j];
      } else {
        assert moves[..j] == moves;
      }
    }
  }

  lemma {:induction false} HeldNow(before: seq<(Caller, Move)>, p: Caller, g: Generation)
    requires OwnerOf(Run(before), g).Some? && OwnerOf(Run(before), g) != Some(p)
    requires InRegion(At(Run(before), p)) && InRegion(At(Run(before + [(p, Examine(g))]), p))
    ensures HeldWhenReached(before + [(p, Examine(g))], |before|, p, g)
  {
    var moves := before + [(p, Examine(g))];
    assert moves[..|before|] == before;
    assert moves[..|moves|] == moves;
  }

  lemma {:induction false} OnlyInsideKeeps(phase: Phase)
    ensures KeptSoFar(phase) != {} ==> InRegion(phase)
  {
  }

  lemma {:induction false} KeptWasHeld(moves: seq<(Caller, Move)>, p: Caller, g: Generation)
    requires g in KeptSoFar(At(Run(moves), p))
    ensures exists i: nat :: HeldWhenReached(moves, i, p, g)
  {
    OnlyInsideKeeps(At(Run(moves), p));
    if |moves| > 0 {
      var before, last := moves[..|moves| - 1], moves[|moves| - 1];
      assert moves == before + [last];
      if g in KeptSoFar(At(Run(before), p)) {
        KeptWasHeld(before, p, g);
        var i: nat :| HeldWhenReached(before, i, p, g);
        HeldStaysReached(before, last, i, p, g);
      } else {
        assert last == (p, Examine(g)) && OwnerOf(Run(before), g).Some? && OwnerOf(Run(before), g) != Some(p)
          && At(Run(before), p).Recovering? by {
          RunKeepsInv(before);
          KeptGrows(Run(before), last.0, last.1, p, g);
        }
        HeldNow(before, p, g);
      }
    }
  }

  /** A prepare that succeeds leaves its own complete, locked generation and beside it only generations
      whose lock another caller held when this prepare's scan reached them: the abandoned ones are gone. */
  lemma {:induction false} PrepareLeavesOnlyTheHeld(moves: seq<(Caller, Move)>, p: Caller, g: Generation,
          kept: set<Generation>)
    requires At(Run(moves), p) == Releasing(Prepared(g, kept))
    ensures
      var t := Step(Run(moves), p, Unlock(true));
      At(t, p) == Live(g) && OwnerOf(t, g) == Some(p) && t.dirs.Keys == kept + {g} && Complete(t.dirs[g])
    ensures forall h: Generation :: h in kept ==> exists i: nat :: HeldWhenReached(moves, i, p, h)
  {
    assert Settled(Run(moves), p) by {
      RunKeepsInv(moves);
      SettledEach(Run(moves), p);
    }
    assert OwnerOf(Run(moves), g) == Some(p);
    forall h: Generation | h in kept ensures exists i: nat :: HeldWhenReached(moves, i, p, h) {
      KeptWasHeld(moves, p, h);
    }
  }

  // ---- a held generation can still lose entries once its lock file has lost its name ----

  lemma {:induction false} Then(moves: seq<(Caller, Move)>, s: State, p: Caller, m: Move, t: State)
      returns (next: seq<(Caller, Move)>)
    requires Run(moves) == s && Step(s, p, m) == t
    ensures Run(next) == t
  {
    next := moves + [(p, m)];
    assert next[..|next| - 1] == moves;
  }

  // A root whose one generation, 0, is held by caller 0 and has these entries.
  function Held(entries: set<Entry>, root: Option<Caller>, phases: map<Caller, Phase>): State {
    State(map[0 := entries], map[0 := 0], root, true, {0}, phases)
  }

  const NONE: set<Generation> := {}

  const FULL: set<Entry> := {Marker, OwnerLock, StateDb}

  const LEFT: set<Entry> := {Marker, StateDb}

  lemma {:induction false} RootOpened() returns (moves: seq<(Caller, Move)>)
    ensures Run(moves) == State(map[], map[], None, true, {}, map[0 := Opened(None)])
  {
    moves := [];
    var s := INITIAL;
    moves := Then(moves, s, 0, OpenRoot, State(map[], map[], None, true, {}, map[0 := Opened(None)]));
  }

  lemma {:induction false} RootLocked() returns (moves: seq<(Caller, Move)>)
    ensures Run(moves) == State(map[], map[], Some(0), true, {}, map[0 := Recovering(NONE, NONE)])
  {
    moves := RootOpened();
    var s := State(map[], map[], None, true, {}, map[0 := Opened(None)]);
    assert s.dirs.Keys == NONE;
    moves := Then(moves, s, 0, LockRoot, State(map[], map[], Some(0), true, {}, map[0 := Recovering(NONE, NONE)]));
  }

  lemma {:induction false} RootListed() returns (moves: seq<(Caller, Move)>)
    ensures Run(moves) == State(map[], map[], Some(0), true, {}, map[0 := Making(NONE)])
  {
    moves := RootLocked();
    var s := State(map[], map[], Some(0), true, {}, map[0 := Recovering(NONE, NONE)]);
    assert s.dirs.Keys == NONE;
    moves := Then(moves, s, 0, ListRoot, State(map[], map[], Some(0), true, {}, map[0 := Making(NONE)]));
  }

  lemma {:induction false} DirectoryMade0() returns (moves: seq<(Caller, Move)>)
    ensures Run(moves) == State(map[0 := {}], map[], Some(0), true, {0}, map[0 := Made(NONE, 0)])
  {
    moves := RootListed();
    var s := State(map[], map[], Some(0), true, {}, map[0 := Making(NONE)]);
    moves := Then(moves, s, 0, MakeDirectory(0),
        State(map[0 := {}], map[], Some(0), true, {0}, map[0 := Made(NONE, 0)]));
  }

  lemma {:induction false} LockFiled() returns (moves: seq<(Caller, Move)>)
    ensures Run(moves) == State(map[0 := {OwnerLock}], map[], Some(0), true, {0}, map[0 := Filed(NONE, 0)])
  {
    moves := DirectoryMade0();
    var s := State(map[0 := {}], map[], Some(0), true, {0}, map[0 := Made(NONE, 0)]);
    assert {} + {OwnerLock} == {OwnerLock};
    moves := Then(moves, s, 0, CreateLock,
        State(map[0 := {OwnerLock}], map[], Some(0), true, {0}, map[0 := Filed(NONE, 0)]));
  }

  lemma {:induction false} LockTaken() returns (moves: seq<(Caller, Move)>)
    ensures Run(moves) == Held({OwnerLock}, Some(0), map[0 := Locked(NONE, 0)])
  {
    moves := LockFiled();
    var s := State(map[0 := {OwnerLock}], map[], Some(0), true, {0}, map[0 := Filed(NONE, 0)]);
    moves := Then(moves, s, 0, TakeLock, Held({OwnerLock}, Some(0), map[0 := Locked(NONE, 0)]));
  }

  lemma {:induction false} MarkerWritten() returns (moves: seq<(Caller, Move)>)
    ensures Run(moves) == Held({OwnerLock, Marker}, Some(0), map[0 := Marked(NONE, 0)])
  {
    moves := LockTaken();
    var s := Held({OwnerLock}, Some(0), map[0 := Locked(NONE, 0)]);
    assert {OwnerLock} + {Marker} == {OwnerLock, Marker};
    moves := Then(moves, s, 0, WriteMarker, Held({OwnerLock, Marker}, Some(0), map[0 := Marked(NONE, 0)]));
  }

  lemma {:induction false} StateCopied() returns (moves: seq<(Caller, Move)>)
    ensures Run(moves) == Held(FULL, Some(0), map[0 := Copied(NONE, 0)])
  {
    moves := MarkerWritten();
    var s := Held({OwnerLock, Marker}, Some(0), map[0 := Marked(NONE, 0)]);
    assert {OwnerLock, Marker} + {StateDb} == FULL;
    moves := Then(moves, s, 0, CopyState, Held(FULL, Some(0), map[0 := Copied(NONE, 0)]));
  }

  lemma {:induction false} Verified() returns (moves: seq<(Caller, Move)>)
    ensures Run(moves) == Held(FULL, Some(0), map[0 := Releasing(Prepared(0, NONE))])
  {
    moves := StateCopied();
    var s := Held(FULL, Some(0), map[0 := Copied(NONE, 0)]);
    assert s.dirs.Keys == NONE + {0};
    moves := Then(moves, s, 0, VerifyAll, Held(FULL, Some(0), map[0 := Releasing(Prepared(0, NONE))]));
  }

  lemma {:induction false} MadeLive() returns (moves: seq<(Caller, Move)>)
    ensures Run(moves) == Held(FULL, None, map[0 := Live(0)])
  {
    moves := Verified();
    var s := Held(FULL, Some(0), map[0 := Releasing(Prepared(0, NONE))]);
    moves := Then(moves, s, 0, Unlock(true), Held(FULL, None, map[0 := Live(0)]));
  }

  lemma {:induction false} CleanupOpened() returns (moves: seq<(Caller, Move)>)
    ensures Run(moves) == Held(FULL, None, map[0 := Opened(Some(0))])
  {
    moves := MadeLive();
    var s := Held(FULL, None, map[0 := Live(0)]);
    moves := Then(moves, s, 0, OpenForCleanup, Held(FULL, None, map[0 := Opened(Some(0))]));
  }

  lemma {:induction false} CleanupLocked() returns (moves: seq<(Caller, Move)>)
    ensures Run(moves) == Held(FULL, Some(0), map[0 := Cleaning(0)])
  {
    moves := CleanupOpened();
    var s := Held(FULL, None, map[0 := Opened(Some(0))]);
    moves := Then(moves, s, 0, LockRoot, Held(FULL, Some(0), map[0 := Cleaning(0)]));
  }

  lemma {:induction false} CleanupChecked() returns (moves: seq<(Caller, Move)>)
    ensures Run(moves) == Held(FULL, Some(0), map[0 := Removing(0, FULL, CleanUp)])
  {
    moves := CleanupLocked();
    var s := Held(FULL, Some(0), map[0 := Cleaning(0)]);
    moves := Then(moves, s, 0, Validate, Held(FULL, Some(0), map[0 := Removing(0, FULL, CleanUp)]));
  }

  lemma {:induction false} NameUnlinked() returns (moves: seq<(Caller, Move)>)
    ensures Run(moves) == Held(LEFT, Some(0), map[0 := Removing(0, LEFT, CleanUp)])
  {
    moves := CleanupChecked();
    var s := Held(FULL, Some(0), map[0 := Removing(0, FULL, CleanUp)]);
    assert FULL - {OwnerLock} == LEFT;
    moves := Then(moves, s, 0, Unlink(OwnerLock), Held(LEFT, Some(0), map[0 := Removing(0, LEFT, CleanUp)]));
  }

  lemma {:induction false} CleanupFailed() returns (moves: seq<(Caller, Move)>)
    ensures Run(moves) == Held(LEFT, Some(0), map[0 := Releasing(Cleaned(0))])
  {
    moves := NameUnlinked();
    var s := Held(LEFT, Some(0), map[0 := Removing(0, LEFT, CleanUp)]);
    moves := Then(moves, s, 0, Fail, Held(LEFT, Some(0), map[0 := Releasing(Cleaned(0))]));
  }

  lemma {:induction false} RootReleased() returns (moves: seq<(Caller, Move)>)
    ensures Run(moves) == Held(LEFT, None, map[0 := Returning(0)])
  {
    moves := CleanupFailed();
    var s := Held(LEFT, Some(0), map[0 := Releasing(Cleaned(0))]);
    moves := Then(moves, s, 0, Unlock(true), Held(LEFT, None, map[0 := Returning(0)]));
  }

  lemma {:induction false} RescanOpened() returns (moves: seq<(Caller, Move)>)
    ensures Run(moves) == Held(LEFT, None, map[0 := Returning(0), 1 := Opened(None)])
  {
    moves := RootReleased();
    var s := Held(LEFT, None, map[0 := Returning(0)]);
    moves := Then(moves, s, 1, OpenRoot, Held(LEFT, None, map[0 := Returning(0), 1 := Opened(None)]));
  }

  lemma {:induction false} RescanLocked() returns (moves: seq<(Caller, Move)>)
    ensures Run(moves) == Held(LEFT, Some(1), map[0 := Returning(0), 1 := Recovering({0}, NONE)])
  {
    moves := RescanOpened();
    var s := Held(LEFT, None, map[0 := Returning(0), 1 := Opened(None)]);
    assert s.dirs.Keys == {0};
    moves := Then(moves, s, 1, LockRoot, Held(LEFT, Some(1), map[0 := Returning(0), 1 := Recovering({0}, NONE)]));
  }

  lemma {:induction false} RescanExamined() returns (moves: seq<(Caller, Move)>)
    ensures Run(moves) == Held(LEFT, Some(1), map[0 := Returning(0), 1 := Entering(0, Resume(NONE, NONE, false))])
  {
    moves := RescanLocked();
    var s := Held(LEFT, Some(1), map[0 := Returning(0), 1 := Recovering({0}, NONE)]);
    assert {0} - {0} == NONE;
    moves := Then(moves, s, 1, Examine(0),
        Held(LEFT, Some(1), map[0 := Returning(0), 1 := Entering(0, Resume(NONE, NONE, false))]));
  }

  lemma {:induction false} RescanChecked() returns (moves: seq<(Caller, Move)>)
    ensures Run(moves) == Held(LEFT, Some(1), map[0 := Returning(0), 1 := Removing(0, LEFT, Resume(NONE, NONE, false))])
  {
    moves := RescanExamined();
    var s := Held(LEFT, Some(1), map[0 := Returning(0), 1 := Entering(0, Resume(NONE, NONE, false))]);
    moves := Then(moves, s, 1, Validate,
        Held(LEFT, Some(1), map[0 := Returning(0), 1 := Removing(0, LEFT, Resume(NONE, NONE, false))]));
  }

  /** The exception is real: caller 0 stops its cleanup after unlinking the lock's name and lets go of the
      root lock before its owner lock, and in between caller 1 removes the marker of the generation that
      caller 0 still holds. */
  lemma {:induction false} HalfCleanedIsNotSafe() returns (moves: seq<(Caller, Move)>)
    ensures OwnerOf(Run(moves), 0) == Some(0) && 0 in Run(moves).dirs
    ensures !Untouched(Run(moves), Step(Run(moves), 1, Unlink(Marker)), 0, Unlink(Marker))
  {
    moves := RescanChecked();
    assert Marker !in Step(Run(moves), 1, Unlink(Marker)).dirs[0];
    assert Marker in Core(LEFT);
  }
}
