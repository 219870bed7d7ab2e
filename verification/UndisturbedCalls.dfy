/** Calls of prepare and cleanup that no failure and no other caller disturbs (src/app_server_sqlite.rs, lines
    96-179 and 620-717): they always go through, whatever the others hold meanwhile. */
module UndisturbedCalls {
  import opened Basics
  import opened SqliteGenerations

  // ---- prepare ----

  // An ordinary step of prepare that picks the name `g`, where it applies.
  predicate Prepares(s: State, p: Caller, g: Generation, m: Move) {
    && Step(s, p, m) != s
    && match m
       case MakeDirectory(name) => name == g
       case Unlock(ok) => ok
       case OpenForCleanup => false
       case Return => false
       case Drop => false
       case Fail => false
       case Crash => false
       case ChildWrites(_, _) => false
       case ChildRemoves(_, _) => false
       case _ => true
  }

  // The generations whose owner lock is held under its name.
  function HeldIn(s: State): set<Generation> { set g | g in s.dirs && g in s.owner && OwnerLock in s.dirs[g] }

  // Nobody holds the root lock, no directory has an unacceptable shape, and the name is new.
  ghost predicate CanPrepare(s: State, p: Caller, g: Generation) {
    && Inv(s) && At(s, p).Idle? && s.root == None && (s.rootFile || s.dirs == map[]) && g !in s.used
    && forall h :: h in s.dirs ==> ShapeOk(s.dirs[h], false)
  }

  predicate SameDirs(s: State, t: State, keys: set<Generation>) {
    forall h :: h in keys && h in s.dirs && h in t.dirs ==> t.dirs[h] == s.dirs[h]
  }

  ghost predicate OthersStay(s: State, t: State, p: Caller) { forall q: Caller :: q != p ==> At(t, q) == At(s, q) }

  // The scan has `todo` to go and has kept exactly the held ones it came to.
  predicate Scanned(s: State, t: State, todo: set<Generation>, kept: set<Generation>, more: set<Generation>) {
    && todo <= s.dirs.Keys && kept == HeldIn(s) - todo && more <= s.dirs.Keys - HeldIn(s) && more !! todo
    && t.dirs.Keys == todo + kept + more && SameDirs(s, t, todo + kept) && t.used == s.used
  }

  predicate ScanHolds(s: State, t: State, h: Generation, locked: bool, p: Caller) {
    if locked then h !in s.owner && t.owner == s.owner[h := p] else t.owner == s.owner
  }

  // The new generation has these entries beside the held ones.
  predicate Built(s: State, t: State, g: Generation, entries: set<Entry>) {
    && t.dirs.Keys == HeldIn(s) + {g} && SameDirs(s, t, HeldIn(s)) && t.dirs[g] == entries && t.used == s.used + {g}
  }

  // Where a prepare that began in state `s` stands in state `t`.
  ghost predicate OnTheWay(s: State, t: State, p: Caller, g: Generation) {
    && OthersStay(s, t, p) && (InRegion(At(t, p)) <==> t.root == Some(p)) && (t.root == None || t.root == Some(p))
    && match At(t, p)
       case Idle => t == s
       case Opened(cleanup) => cleanup == None && t.dirs == s.dirs && t.owner == s.owner && t.used == s.used
       case Recovering(todo, kept) => Scanned(s, t, todo, kept, {}) && t.owner == s.owner
       case Entering(h, Resume(todo, kept, locked)) =>
         Scanned(s, t, todo, kept, {h}) && t.dirs[h] == s.dirs[h] && ScanHolds(s, t, h, locked, p)
       case Removing(h, entries, Resume(todo, kept, locked)) =>
         Scanned(s, t, todo, kept, {h}) && t.dirs[h] == entries && ScanHolds(s, t, h, locked, p)
       case Making(before) => before == HeldIn(s) && Scanned(s, t, {}, before, {}) && t.owner == s.owner
       case Made(before, h) => h == g && before == HeldIn(s) && Built(s, t, g, {}) && t.owner == s.owner
       case Filed(before, h) => h == g && before == HeldIn(s) && Built(s, t, g, {OwnerLock}) && t.owner == s.owner
       case Locked(before, h) =>
         h == g && before == HeldIn(s) && Built(s, t, g, {OwnerLock}) && t.owner == s.owner[g := p]
       case Marked(before, h) =>
         h == g && before == HeldIn(s) && Built(s, t, g, {OwnerLock, Marker}) && t.owner == s.owner[g := p]
       case Copied(before, h) =>
         h == g && before == HeldIn(s) && Built(s, t, g, {OwnerLock, Marker, StateDb}) && t.owner == s.owner[g := p]
       case Releasing(outcome) =>
         && outcome == Prepared(g, HeldIn(s)) && Built(s, t, g, {OwnerLock, Marker, StateDb})
         && t.owner == s.owner[g := p]
       case Live(h) => h == g && Built(s, t, g, {OwnerLock, Marker, StateDb}) && t.owner == s.owner[g := p]
       case _ => false
  }

  // How far there still is to go; every step makes it less.
  function ToGo(s: State, p: Caller): (nat, nat, nat) {
    match At(s, p)
    case Idle => (11, 0, 0)
    case Opened(_) => (10, 0, 0)
    case Recovering(todo, _) => (9, |todo|, 0)
    case Entering(h, Resume(todo, _, _)) => (9, |todo|, if h in s.dirs then |s.dirs[h]| + 2 else 0)
    case Removing(_, entries, Resume(todo, _, _)) => (9, |todo|, |entries| + 1)
    case Making(_) => (8, 0, 0)
    case Made(_, _) => (7, 0, 0)
    case Filed(_, _) => (6, 0, 0)
    case Locked(_, _) => (5, 0, 0)
    case Marked(_, _) => (4, 0, 0)
    case Copied(_, _) => (3, 0, 0)
    case Releasing(_) => (2, 0, 0)
    case _ => (0, 0, 0)
  }

  predicate Less(a: (nat, nat, nat), b: (nat, nat, nat)) {
    a.0 < b.0 || (a.0 == b.0 && (a.1 < b.1 || (a.1 == b.1 && a.2 < b.2)))
  }

  lemma {:induction false} EnterGoes(s: State, t: State, p: Caller, g: Generation, m: Move)
    requires CanPrepare(s, p, g) && OnTheWay(s, t, p, g) && Prepares(t, p, g, m)
    requires m.OpenRoot? || m.LockRoot?
    ensures OnTheWay(s, Step(t, p, m), p, g) && Less(ToGo(Step(t, p, m), p), ToGo(t, p))
  {
    if m.LockRoot? {
      assert Scanned(s, t, s.dirs.Keys, {}, {});
    }
  }

  lemma {:induction false} ScanKeeps(s: State, t: State, todo: set<Generation>, kept: set<Generation>, h: Generation)
    requires Scanned(s, t, todo, kept, {}) && h in todo && h in HeldIn(s)
    ensures Scanned(s, t, todo - {h}, kept + {h}, {}) && |todo - {h}| < |todo|
  {
    assert todo == (todo - {h}) + {h};
  }

  lemma {:induction false} ScanTakes(s: State, t: State, todo: set<Generation>, kept: set<Generation>, h: Generation)
    requires Scanned(s, t, todo, kept, {}) && h in todo && h !in HeldIn(s)
    ensures Scanned(s, t, todo - {h}, kept, {h}) && t.dirs[h] == s.dirs[h] && |todo - {h}| < |todo|
  {
    assert todo == (todo - {h}) + {h};
  }

  lemma {:induction false} ScanRemoves(s: State, t: State, u: State, todo: set<Generation>, kept: set<Generation>,
          h: Generation)
    requires Scanned(s, t, todo, kept, {h}) && u.dirs == t.dirs - {h} && u.used == t.used
    ensures Scanned(s, u, todo, kept, {})
  {
    assert h !in todo + kept;
  }

  lemma {:induction false} ScanUnlinks(s: State, t: State, u: State, todo: set<Generation>, kept: set<Generation>,
          h: Generation, entries: set<Entry>)
    requires Scanned(s, t, todo, kept, {h}) && u.dirs == t.dirs[h := entries] && u.used == t.used
    ensures Scanned(s, u, todo, kept, {h}) && u.dirs[h] == entries
  {
    assert h !in todo + kept;
  }

  // The scan goes on to remove a generation, or is back from it.
  lemma {:induction false} ArrivesInScan(s: State, t: State, u: State, p: Caller, g: Generation, phase: Phase)
    requires OthersStay(s, t, p) && t.root == Some(p) && u.root == t.root && u.phases == t.phases[p := phase]
    requires
      || (phase.Recovering? && Scanned(s, u, phase.todo, phase.kept, {}) && u.owner == s.owner)
      || (phase.Entering? && phase.purpose.Resume? && phase.g in u.dirs && phase.g in s.dirs
          && Scanned(s, u, phase.purpose.todo, phase.purpose.kept, {phase.g}) && u.dirs[phase.g] == s.dirs[phase.g]
          && ScanHolds(s, u, phase.g, phase.purpose.locked, p))
    ensures OnTheWay(s, u, p, g)
  {
    forall q: Caller | q != p ensures At(u, q) == At(s, q) {
      assert At(t, q) == At(s, q);
    }
  }

  lemma {:induction false} ExamineGoes(s: State, t: State, p: Caller, g: Generation, h: Generation)
    requires CanPrepare(s, p, g) && OnTheWay(s, t, p, g) && Prepares(t, p, g, Examine(h))
    ensures OnTheWay(s, Step(t, p, Examine(h)), p, g) && Less(ToGo(Step(t, p, Examine(h)), p), ToGo(t, p))
  {
    var Recovering(todo, kept) := At(t, p);
    assert h in todo && h in s.dirs && t.dirs[h] == s.dirs[h] && ShapeOk(s.dirs[h], false);
    if h in HeldIn(s) {
      ScanKeeps(s, t, todo, kept, h);
      var phase := Recovering(todo - {h}, kept + {h});
      assert Step(t, p, Examine(h)) == Goto(t, p, phase);
      ArrivesInScan(s, t, Goto(t, p, phase), p, g, phase);
    } else {
      ScanTakes(s, t, todo, kept, h);
      EntersGeneration(s, t, p, g, h);
    }
  }

  lemma {:induction false} EntersGeneration(s: State, t: State, p: Caller, g: Generation, h: Generation)
    requires OnTheWay(s, t, p, g) && At(t, p).Recovering? && h in At(t, p).todo && h in s.dirs && h !in HeldIn(s)
    requires h in t.dirs && t.dirs[h] == s.dirs[h] && ShapeOk(s.dirs[h], false)
    requires Scanned(s, t, At(t, p).todo - {h}, At(t, p).kept, {h}) && |At(t, p).todo - {h}| < |At(t, p).todo|
    ensures OnTheWay(s, Step(t, p, Examine(h)), p, g) && Less(ToGo(Step(t, p, Examine(h)), p), ToGo(t, p))
  {
    var Recovering(todo, kept) := At(t, p);
    if OwnerLock !in t.dirs[h] {
      var phase := Entering(h, Resume(todo - {h}, kept, false));
      assert Step(t, p, Examine(h)) == Goto(t, p, phase);
      ArrivesInScan(s, t, Goto(t, p, phase), p, g, phase);
    } else {
      var phase := Entering(h, Resume(todo - {h}, kept, true));
      var u := Goto(t.(owner := t.owner[h := p]), p, phase);
      assert Step(t, p, Examine(h)) == u;
      ArrivesInScan(s, t, u, p, g, phase);
    }
  }

  lemma {:induction false} ValidateGoes(s: State, t: State, p: Caller, g: Generation)
    requires CanPrepare(s, p, g) && OnTheWay(s, t, p, g) && Prepares(t, p, g, Validate)
    ensures OnTheWay(s, Step(t, p, Validate), p, g) && Less(ToGo(Step(t, p, Validate), p), ToGo(t, p))
  {
    var Entering(h, purpose) := At(t, p);
    assert h in s.dirs && ShapeOk(s.dirs[h], false);
    assert Step(t, p, Validate) == Goto(t, p, Removing(h, t.dirs[h], purpose));
  }

  lemma {:induction false} UnlinkGoes(s: State, t: State, p: Caller, g: Generation, e: Entry)
    requires CanPrepare(s, p, g) && OnTheWay(s, t, p, g) && Prepares(t, p, g, Unlink(e))
    ensures OnTheWay(s, Step(t, p, Unlink(e)), p, g) && Less(ToGo(Step(t, p, Unlink(e)), p), ToGo(t, p))
  {
    var Removing(h, entries, purpose) := At(t, p);
    assert entries == (entries - {e}) + {e};
    var u := Goto(t.(dirs := t.dirs[h := t.dirs[h] - {e}]), p, Removing(h, entries - {e}, purpose));
    assert Step(t, p, Unlink(e)) == u;
    ScanUnlinks(s, t, u, purpose.todo, purpose.kept, h, entries - {e});
  }

  lemma {:induction false} RemoveDirectoryGoes(s: State, t: State, p: Caller, g: Generation)
    requires CanPrepare(s, p, g) && OnTheWay(s, t, p, g) && Prepares(t, p, g, RemoveDirectory)
    ensures OnTheWay(s, Step(t, p, RemoveDirectory), p, g)
    ensures Less(ToGo(Step(t, p, RemoveDirectory), p), ToGo(t, p))
  {
    var Removing(h, entries, purpose) := At(t, p);
    var phase := Recovering(purpose.todo, purpose.kept);
    var u := Goto(Release(t.(dirs := t.dirs - {h}), p, h), p, phase);
    assert Step(t, p, RemoveDirectory) == u;
    ScanRemoves(s, t, u, purpose.todo, purpose.kept, h);
    ScanLetsGo(s, t, p, h, purpose.locked);
    ArrivesInScan(s, t, u, p, g, phase);
  }

  lemma {:induction false} ScanLetsGo(s: State, t: State, p: Caller, h: Generation, locked: bool)
    requires Inv(s) && At(s, p).Idle? && ScanHolds(s, t, h, locked, p)
    ensures Release(t, p, h).owner == s.owner
  {
    assert OwnerOf(s, h) == Some(p) <==> Claim(At(s, p)) == Some(h);
  }

  lemma {:induction false} ListGoes(s: State, t: State, p: Caller, g: Generation)
    requires CanPrepare(s, p, g) && OnTheWay(s, t, p, g) && Prepares(t, p, g, ListRoot)
    ensures OnTheWay(s, Step(t, p, ListRoot), p, g) && Less(ToGo(Step(t, p, ListRoot), p), ToGo(t, p))
  {
    var u := Goto(t, p, Making(t.dirs.Keys));
    assert t.dirs.Keys == At(t, p).kept == HeldIn(s);
    assert Scanned(s, u, {}, t.dirs.Keys, {});
    assert Step(t, p, ListRoot) == u;
  }

  lemma {:induction false} MakeDirectoryGoes(s: State, t: State, p: Caller, g: Generation)
    requires CanPrepare(s, p, g) && OnTheWay(s, t, p, g) && Prepares(t, p, g, MakeDirectory(g))
    ensures OnTheWay(s, Step(t, p, MakeDirectory(g)), p, g)
    ensures Less(ToGo(Step(t, p, MakeDirectory(g)), p), ToGo(t, p))
  {
    assert g !in t.used && g !in s.dirs;
    var u := Goto(t.(dirs := t.dirs[g := {}], used := t.used + {g}), p, Made(At(t, p).before, g));
    assert Step(t, p, MakeDirectory(g)) == u;
    assert Built(s, u, g, {});
  }

  // An entry is added to the new generation.
  lemma {:induction false} AddGoes(s: State, t: State, g: Generation, e: Entry, entries: set<Entry>)
    requires Built(s, t, g, entries) && e !in entries && g !in s.dirs
    ensures Built(s, t.(dirs := t.dirs[g := t.dirs[g] + {e}]), g, entries + {e})
  {
  }

  lemma {:induction false} LockFileGoes(s: State, t: State, p: Caller, g: Generation)
    requires CanPrepare(s, p, g) && OnTheWay(s, t, p, g) && Prepares(t, p, g, CreateLock)
    ensures OnTheWay(s, Step(t, p, CreateLock), p, g) && Less(ToGo(Step(t, p, CreateLock), p), ToGo(t, p))
  {
    assert g !in s.dirs && t.dirs[g] == {};
    AddGoes(s, t, g, OwnerLock, {});
    assert {} + {OwnerLock} == {OwnerLock};
    assert Step(t, p, CreateLock)
      == Goto(t.(dirs := t.dirs[g := t.dirs[g] + {OwnerLock}]), p, Filed(At(t, p).before, g));
  }

  lemma {:induction false} MarkerGoes(s: State, t: State, p: Caller, g: Generation)
    requires CanPrepare(s, p, g) && OnTheWay(s, t, p, g) && Prepares(t, p, g, WriteMarker)
    ensures OnTheWay(s, Step(t, p, WriteMarker), p, g) && Less(ToGo(Step(t, p, WriteMarker), p), ToGo(t, p))
  {
    assert g !in s.dirs && t.dirs[g] == {OwnerLock};
    AddGoes(s, t, g, Marker, {OwnerLock});
    assert {OwnerLock} + {Marker} == {OwnerLock, Marker};
    assert Step(t, p, WriteMarker)
      == Goto(t.(dirs := t.dirs[g := t.dirs[g] + {Marker}]), p, Marked(At(t, p).before, g));
  }

  lemma {:induction false} CopyGoes(s: State, t: State, p: Caller, g: Generation)
    requires CanPrepare(s, p, g) && OnTheWay(s, t, p, g) && Prepares(t, p, g, CopyState)
    ensures OnTheWay(s, Step(t, p, CopyState), p, g) && Less(ToGo(Step(t, p, CopyState), p), ToGo(t, p))
  {
    assert g !in s.dirs && t.dirs[g] == {OwnerLock, Marker};
    AddGoes(s, t, g, StateDb, {OwnerLock, Marker});
    assert {OwnerLock, Marker} + {StateDb} == {OwnerLock, Marker, StateDb};
    assert Step(t, p, CopyState)
      == Goto(t.(dirs := t.dirs[g := t.dirs[g] + {StateDb}]), p, Copied(At(t, p).before, g));
  }

  lemma {:induction false} TakeLockGoes(s: State, t: State, p: Caller, g: Generation)
    requires CanPrepare(s, p, g) && OnTheWay(s, t, p, g) && Prepares(t, p, g, TakeLock)
    ensures OnTheWay(s, Step(t, p, TakeLock), p, g) && Less(ToGo(Step(t, p, TakeLock), p), ToGo(t, p))
  {
    assert g !in s.owner;
  }

  lemma {:induction false} VerifyGoes(s: State, t: State, p: Caller, g: Generation)
    requires CanPrepare(s, p, g) && OnTheWay(s, t, p, g) && Prepares(t, p, g, VerifyAll)
    ensures OnTheWay(s, Step(t, p, VerifyAll), p, g) && Less(ToGo(Step(t, p, VerifyAll), p), ToGo(t, p))
  {
    assert t.dirs.Keys == At(t, p).before + {g};
    assert Step(t, p, VerifyAll) == Goto(t, p, Releasing(Prepared(g, At(t, p).before)));
  }

  lemma {:induction false} UnlockGoes(s: State, t: State, p: Caller, g: Generation)
    requires CanPrepare(s, p, g) && OnTheWay(s, t, p, g) && Prepares(t, p, g, Unlock(true))
    ensures OnTheWay(s, Step(t, p, Unlock(true)), p, g) && Less(ToGo(Step(t, p, Unlock(true)), p), ToGo(t, p))
  {
    assert Step(t, p, Unlock(true)) == Goto(t.(root := None), p, Live(g));
  }

  lemma {:induction false} ScanGoes(s: State, t: State, p: Caller, g: Generation, m: Move)
    requires CanPrepare(s, p, g) && OnTheWay(s, t, p, g) && Prepares(t, p, g, m)
    requires m.Examine? || m.Validate? || m.Unlink? || m.RemoveDirectory? || m.ListRoot?
    ensures OnTheWay(s, Step(t, p, m), p, g) && Less(ToGo(Step(t, p, m), p), ToGo(t, p))
  {
    match m {
      case Examine(h) => ExamineGoes(s, t, p, g, h);
      case Validate => ValidateGoes(s, t, p, g);
      case Unlink(e) => UnlinkGoes(s, t, p, g, e);
      case RemoveDirectory => RemoveDirectoryGoes(s, t, p, g);
      case ListRoot => ListGoes(s, t, p, g);
    }
  }

  lemma {:induction false} MakingGoes(s: State, t: State, p: Caller, g: Generation, m: Move)
    requires CanPrepare(s, p, g) && OnTheWay(s, t, p, g) && Prepares(t, p, g, m)
    requires m.MakeDirectory? || m.CreateLock? || m.TakeLock? || m.WriteMarker? || m.CopyState? || m.VerifyAll?
    ensures OnTheWay(s, Step(t, p, m), p, g) && Less(ToGo(Step(t, p, m), p), ToGo(t, p))
  {
    match m {
      case MakeDirectory(_) => MakeDirectoryGoes(s, t, p, g);
      case CreateLock => LockFileGoes(s, t, p, g);
      case TakeLock => TakeLockGoes(s, t, p, g);
      case WriteMarker => MarkerGoes(s, t, p, g);
      case CopyState => CopyGoes(s, t, p, g);
      case VerifyAll => VerifyGoes(s, t, p, g);
    }
  }

  /** No ordinary step of an undisturbed prepare goes wrong, and each leaves less to do. */
  lemma {:induction false} PrepareGoes(s: State, t: State, p: Caller, g: Generation, m: Move)
    requires CanPrepare(s, p, g) && OnTheWay(s, t, p, g) && Prepares(t, p, g, m)
    ensures OnTheWay(s, Step(t, p, m), p, g) && Less(ToGo(Step(t, p, m), p), ToGo(t, p))
  {
    if m.OpenRoot? || m.LockRoot? {
      EnterGoes(s, t, p, g, m);
    } else if m.Examine? || m.Validate? || m.Unlink? || m.RemoveDirectory? || m.ListRoot? {
      ScanGoes(s, t, p, g, m);
    } else if m.Unlock? {
      UnlockGoes(s, t, p, g);
    } else {
      MakingGoes(s, t, p, g, m);
    }
  }

  // Unless it is done, a prepare can go on.
  lemma {:induction false} SomeStep(s: State, t: State, p: Caller, g: Generation) returns (m: Move)
    requires CanPrepare(s, p, g) && OnTheWay(s, t, p, g) && !At(t, p).Live?
    ensures Prepares(t, p, g, m)
  {
    match At(t, p) {
      case Idle => m := OpenRoot;
      case Opened(_) => m := LockRoot;
      case Recovering(todo, kept) => m := ScanStep(s, t, p, g);
      case Entering(_, _) => m := Validate;
      case Removing(_, _, _) => m := RemovalStep(s, t, p, g);
      case _ => m := BuildStep(s, t, p, g);
    }
    if At(t, p).Idle? || At(t, p).Opened? || At(t, p).Entering? {
      assert At(Step(t, p, m), p) != At(t, p);
    }
  }

  lemma {:induction false} ScanStep(s: State, t: State, p: Caller, g: Generation) returns (m: Move)
    requires CanPrepare(s, p, g) && OnTheWay(s, t, p, g) && At(t, p).Recovering?
    ensures Prepares(t, p, g, m)
  {
    var todo := At(t, p).todo;
    if todo == {} {
      m := ListRoot;
    } else {
      var h :| h in todo;
      m := Examine(h);
      if h in HeldIn(s) {
        assert At(Step(t, p, m), p) == Recovering(todo - {h}, At(t, p).kept + {h});
      }
    }
    assert At(Step(t, p, m), p) != At(t, p);
  }

  lemma {:induction false} RemovalStep(s: State, t: State, p: Caller, g: Generation) returns (m: Move)
    requires CanPrepare(s, p, g) && OnTheWay(s, t, p, g) && At(t, p).Removing?
    ensures Prepares(t, p, g, m)
  {
    var entries := At(t, p).entries;
    if entries == {} {
      m := RemoveDirectory;
    } else {
      var e :| e in entries;
      m := Unlink(e);
    }
    assert At(Step(t, p, m), p) != At(t, p);
  }

  lemma {:induction false} BuildStep(s: State, t: State, p: Caller, g: Generation) returns (m: Move)
    requires CanPrepare(s, p, g) && OnTheWay(s, t, p, g) && InRegion(At(t, p))
    requires !At(t, p).Recovering? && !At(t, p).Entering? && !At(t, p).Removing?
    ensures Prepares(t, p, g, m)
  {
    if At(t, p).Made? || At(t, p).Locked? || At(t, p).Marked? {
      m := FillStep(s, t, p, g);
    } else if At(t, p).Making? || At(t, p).Filed? {
      m := if At(t, p).Making? then MakeDirectory(g) else TakeLock;
      assert At(Step(t, p, m), p) != At(t, p);
    } else {
      m := LastStep(s, t, p, g);
    }
  }

  lemma {:induction false} LastStep(s: State, t: State, p: Caller, g: Generation) returns (m: Move)
    requires CanPrepare(s, p, g) && OnTheWay(s, t, p, g) && (At(t, p).Copied? || At(t, p).Releasing?)
    ensures Prepares(t, p, g, m)
  {
    m := if At(t, p).Copied? then VerifyAll else Unlock(true);
    assert At(Step(t, p, m), p) != At(t, p);
  }

  lemma {:induction false} FillStep(s: State, t: State, p: Caller, g: Generation) returns (m: Move)
    requires CanPrepare(s, p, g) && OnTheWay(s, t, p, g)
    requires At(t, p).Made? || At(t, p).Locked? || At(t, p).Marked?
    ensures Prepares(t, p, g, m)
  {
    m := if At(t, p).Made? then CreateLock else if At(t, p).Locked? then WriteMarker else CopyState;
    assert At(Step(t, p, m), p) != At(t, p);
  }

  function After(s: State, p: Caller, moves: seq<Move>): State {
    if |moves| == 0 then s else Step(After(s, p, moves[..|moves| - 1]), p, moves[|moves| - 1])
  }

  // Ordinary steps of one prepare, with nobody else in between.
  predicate Undisturbed(s: State, p: Caller, g: Generation, moves: seq<Move>) {
    |moves| == 0
    || (Undisturbed(s, p, g, moves[..|moves| - 1])
        && Prepares(After(s, p, moves[..|moves| - 1]), p, g, moves[|moves| - 1]))
  }

  // What a prepare that went through leaves: the held generations as they were, and its own, whole and locked.
  ghost predicate PreparedBeside(s: State, t: State, p: Caller, g: Generation) {
    && At(t, p) == Live(g) && t.root == None && t.owner == s.owner[g := p] && OthersStay(s, t, p)
    && t.dirs.Keys == HeldIn(s) + {g} && Complete(t.dirs[g])
    && forall h :: h in HeldIn(s) ==> t.dirs[h] == s.dirs[h]
  }

  /** From any state with a free root lock and acceptable directories, whoever holds which generations: a prepare
      that nobody disturbs can always go on until it is done, and then there are its own generation and exactly
      those that were held under their name. */
  lemma {:induction false} PrepareCannotFail(s: State, p: Caller, g: Generation, moves: seq<Move>)
    requires CanPrepare(s, p, g) && Undisturbed(s, p, g, moves)
    ensures PreparedBeside(s, After(s, p, moves), p, g) || exists m :: Prepares(After(s, p, moves), p, g, m)
  {
    StaysOnTheWay(s, p, g, moves);
    var t := After(s, p, moves);
    if !At(t, p).Live? {
      var m := SomeStep(s, t, p, g);
    }
  }

  lemma {:induction false} StaysOnTheWay(s: State, p: Caller, g: Generation, moves: seq<Move>)
    requires CanPrepare(s, p, g) && Undisturbed(s, p, g, moves)
    ensures OnTheWay(s, After(s, p, moves), p, g)
  {
    if |moves| > 0 {
      StaysOnTheWay(s, p, g, moves[..|moves| - 1]);
      PrepareGoes(s, After(s, p, moves[..|moves| - 1]), p, g, moves[|moves| - 1]);
    }
  }

  /** And it is done after finitely many steps. */
  lemma {:induction false} PrepareGoesThrough(s: State, p: Caller, g: Generation) returns (moves: seq<Move>)
    requires CanPrepare(s, p, g)
    ensures Undisturbed(s, p, g, moves) && PreparedBeside(s, After(s, p, moves), p, g)
  {
    moves := [];
    while !At(After(s, p, moves), p).Live?
      invariant Undisturbed(s, p, g, moves) && OnTheWay(s, After(s, p, moves), p, g)
      decreases ToGo(After(s, p, moves), p).0, ToGo(After(s, p, moves), p).1, ToGo(After(s, p, moves), p).2
    {
      var t := After(s, p, moves);
      var m := SomeStep(s, t, p, g);
      PrepareGoes(s, t, p, g, m);
      assert (moves + [m])[..|moves|] == moves;
      moves := moves + [m];
    }
  }

  // ---- cleanup ----

  // An ordinary step of cleanup, where it applies.
  predicate CleansUp(s: State, p: Caller, m: Move) {
    && Step(s, p, m) != s
    && match m
       case OpenForCleanup => true
       case LockRoot => true
       case Validate => true
       case Unlink(_) => true
       case RemoveDirectory => true
       case Unlock(ok) => ok
       case Return => true
       case _ => false
  }

  ghost predicate CanCleanUp(s: State, p: Caller, g: Generation) {
    Inv(s) && At(s, p) == Live(g) && s.root == None && s.rootFile
  }

  // Everything but generation `g` is as it was.
  predicate OthersKept(s: State, t: State, g: Generation) {
    t.dirs - {g} == s.dirs - {g} && t.used == s.used
  }

  // Where a cleanup that began in state `s` stands in state `t`.
  ghost predicate OnTheWayOut(s: State, t: State, p: Caller, g: Generation) {
    && OthersStay(s, t, p) && (InRegion(At(t, p)) <==> t.root == Some(p)) && (t.root == None || t.root == Some(p))
    && OthersKept(s, t, g)
    && match At(t, p)
       case Live(h) => t == s
       case Opened(cleanup) => cleanup == Some(g) && t.dirs == s.dirs && t.owner == s.owner
       case Cleaning(h) => h == g && t.dirs == s.dirs && t.owner == s.owner
       case Removing(h, entries, purpose) =>
         h == g && purpose == CleanUp && g in t.dirs && t.dirs[g] == entries && t.owner == s.owner
       case Releasing(outcome) => outcome == Cleaned(g) && g !in t.dirs && t.owner == s.owner
       case Returning(h) => h == g && g !in t.dirs && t.owner == s.owner
       case Idle => g !in t.dirs && t.owner == s.owner - {g}
       case _ => false
  }

  function ToClean(s: State, p: Caller): (nat, nat) {
    match At(s, p)
    case Live(_) => (6, 0)
    case Opened(_) => (5, 0)
    case Cleaning(_) => (4, 0)
    case Removing(_, entries, _) => (3, |entries|)
    case Releasing(_) => (2, 0)
    case Returning(_) => (1, 0)
    case _ => (0, 0)
  }

  ghost predicate GoesOut(s: State, t: State, u: State, p: Caller, g: Generation) {
    && OnTheWayOut(s, u, p, g)
    && (ToClean(u, p).0 < ToClean(t, p).0 || (ToClean(u, p).0 == ToClean(t, p).0 && ToClean(u, p).1 < ToClean(t, p).1))
  }

  lemma {:induction false} CleanupEnters(s: State, t: State, p: Caller, g: Generation, m: Move)
    requires CanCleanUp(s, p, g) && OnTheWayOut(s, t, p, g) && CleansUp(t, p, m)
    requires m.OpenForCleanup? || m.LockRoot?
    ensures GoesOut(s, t, Step(t, p, m), p, g)
  {
  }

  lemma {:induction false} CleanupRemoves(s: State, t: State, p: Caller, g: Generation, m: Move)
    requires CanCleanUp(s, p, g) && OnTheWayOut(s, t, p, g) && CleansUp(t, p, m)
    requires m.Validate? || m.Unlink? || m.RemoveDirectory?
    ensures GoesOut(s, t, Step(t, p, m), p, g)
  {
    SettledEach(s, p);
    if m.Unlink? {
      var Removing(h, entries, purpose) := At(t, p);
      assert entries == (entries - {m.e}) + {m.e};
      assert t.dirs[g := entries - {m.e}] - {g} == t.dirs - {g};
    } else if m.RemoveDirectory? {
      assert (t.dirs - {g}) - {g} == t.dirs - {g};
    }
  }

  lemma {:induction false} CleanupLeaves(s: State, t: State, p: Caller, g: Generation, m: Move)
    requires CanCleanUp(s, p, g) && OnTheWayOut(s, t, p, g) && CleansUp(t, p, m)
    requires m.Unlock? || m.Return?
    ensures GoesOut(s, t, Step(t, p, m), p, g)
  {
    SettledEach(s, p);
  }

  /** No ordinary step of an undisturbed cleanup goes wrong, and each leaves less to do. */
  lemma {:induction false} CleanupGoes(s: State, t: State, p: Caller, g: Generation, m: Move)
    requires CanCleanUp(s, p, g) && OnTheWayOut(s, t, p, g) && CleansUp(t, p, m)
    ensures GoesOut(s, t, Step(t, p, m), p, g)
  {
    if m.OpenForCleanup? || m.LockRoot? {
      CleanupEnters(s, t, p, g, m);
    } else if m.Unlock? || m.Return? {
      CleanupLeaves(s, t, p, g, m);
    } else {
      CleanupRemoves(s, t, p, g, m);
    }
  }

  lemma {:induction false} SomeCleanupStep(s: State, t: State, p: Caller, g: Generation) returns (m: Move)
    requires CanCleanUp(s, p, g) && OnTheWayOut(s, t, p, g) && !At(t, p).Idle?
    ensures CleansUp(t, p, m)
  {
    SettledEach(s, p);
    if At(t, p).Removing? {
      m := CleanupRemoval(s, t, p, g);
    } else if At(t, p).Live? || At(t, p).Opened? {
      m := if At(t, p).Live? then OpenForCleanup else LockRoot;
      assert At(Step(t, p, m), p) != At(t, p);
    } else {
      m := if At(t, p).Cleaning? then Validate else if At(t, p).Releasing? then Unlock(true) else Return;
      assert At(Step(t, p, m), p) != At(t, p);
    }
  }

  lemma {:induction false} CleanupRemoval(s: State, t: State, p: Caller, g: Generation) returns (m: Move)
    requires CanCleanUp(s, p, g) && OnTheWayOut(s, t, p, g) && At(t, p).Removing?
    ensures CleansUp(t, p, m)
  {
    var entries := At(t, p).entries;
    if entries == {} {
      m := RemoveDirectory;
    } else {
      var e :| e in entries;
      m := Unlink(e);
    }
    assert At(Step(t, p, m), p) != At(t, p);
  }

  predicate UndisturbedCleanup(s: State, p: Caller, moves: seq<Move>) {
    |moves| == 0
    || (UndisturbedCleanup(s, p, moves[..|moves| - 1])
        && CleansUp(After(s, p, moves[..|moves| - 1]), p, moves[|moves| - 1]))
  }

  // What a cleanup that went through leaves: no trace of its generation, and everything else as it was.
  ghost predicate CleanedAway(s: State, t: State, p: Caller, g: Generation) {
    && At(t, p).Idle? && t.root == None && g !in t.dirs && g !in t.owner
    && t.dirs == s.dirs - {g} && t.owner == s.owner - {g} && OthersStay(s, t, p)
  }

  /** A cleanup that nobody disturbs can always go on until it is done, and then its generation is gone. */
  lemma {:induction false} CleanupCannotFail(s: State, p: Caller, g: Generation, moves: seq<Move>)
    requires CanCleanUp(s, p, g) && UndisturbedCleanup(s, p, moves)
    ensures CleanedAway(s, After(s, p, moves), p, g) || exists m :: CleansUp(After(s, p, moves), p, m)
  {
    StaysOnTheWayOut(s, p, g, moves);
    var t := After(s, p, moves);
    if At(t, p).Idle? {
      assert t.dirs == t.dirs - {g};
    } else {
      var m := SomeCleanupStep(s, t, p, g);
    }
  }

  lemma {:induction false} StaysOnTheWayOut(s: State, p: Caller, g: Generation, moves: seq<Move>)
    requires CanCleanUp(s, p, g) && UndisturbedCleanup(s, p, moves)
    ensures OnTheWayOut(s, After(s, p, moves), p, g)
  {
    if |moves| > 0 {
      StaysOnTheWayOut(s, p, g, moves[..|moves| - 1]);
      CleanupGoes(s, After(s, p, moves[..|moves| - 1]), p, g, moves[|moves| - 1]);
    }
  }

  /** And it is done after finitely many steps. */
  lemma {:induction false} CleanupGoesThrough(s: State, p: Caller, g: Generation) returns (moves: seq<Move>)
    requires CanCleanUp(s, p, g)
    ensures UndisturbedCleanup(s, p, moves) && CleanedAway(s, After(s, p, moves), p, g)
  {
    moves := [];
    while !At(After(s, p, moves), p).Idle?
      invariant UndisturbedCleanup(s, p, moves) && OnTheWayOut(s, After(s, p, moves), p, g)
      decreases ToClean(After(s, p, moves), p).0, ToClean(After(s, p, moves), p).1
    {
      var t := After(s, p, moves);
      var m := SomeCleanupStep(s, t, p, g);
      CleanupGoes(s, t, p, g, m);
      assert (moves + [m])[..|moves|] == moves;
      moves := moves + [m];
    }
    CleanupCannotFail(s, p, g, moves);
    assert forall m :: !CleansUp(After(s, p, moves), p, m);
  }

  // ---- every reachable state ----

  // Before anybody made the root's lock file, nothing has happened.
  ghost predicate RootFirst(s: State) {
    !s.rootFile ==> s.dirs == map[] && forall p: Caller :: At(s, p).Idle? || At(s, p).Dead?
  }

  lemma {:induction false} RunMakesRootFirst(moves: seq<(Caller, Move)>)
    ensures RootFirst(Run(moves))
  {
    if |moves| > 0 {
      var before, last := Run(moves[..|moves| - 1]), moves[|moves| - 1];
      RunMakesRootFirst(moves[..|moves| - 1]);
      if !before.rootFile {
        assert At(before, last.0).Idle? || At(before, last.0).Dead?;
        FirstStep(before, last.0, last.1);
      } else {
        RootFileStays(before, last.0, last.1);
      }
    }
  }

  lemma {:induction false} FirstStep(s: State, p: Caller, m: Move)
    requires RootFirst(s) && !s.rootFile && (At(s, p).Idle? || At(s, p).Dead?)
    ensures RootFirst(Step(s, p, m))
  {
    forall q: Caller ensures Step(s, p, m).rootFile || At(Step(s, p, m), q).Idle? || At(Step(s, p, m), q).Dead? {
      assert At(s, q).Idle? || At(s, q).Dead?;
    }
  }

  lemma {:induction false} RootFileStays(s: State, p: Caller, m: Move)
    requires s.rootFile
    ensures Step(s, p, m).rootFile
  {
  }

  /** After any run, a new caller that finds the root lock free and acceptable directories gets its generation. */
  lemma {:induction false} AnyoneCanPrepare(before: seq<(Caller, Move)>, p: Caller, g: Generation)
      returns (moves: seq<Move>)
    requires At(Run(before), p).Idle? && Run(before).root == None && g !in Run(before).used
    requires forall h :: h in Run(before).dirs ==> ShapeOk(Run(before).dirs[h], false)
    ensures Undisturbed(Run(before), p, g, moves)
    ensures PreparedBeside(Run(before), After(Run(before), p, moves), p, g)
  {
    RunKeepsInv(before);
    RunMakesRootFirst(before);
    moves := PrepareGoesThrough(Run(before), p, g);
  }

  /** After any run, the owner of a live generation that finds the root lock free can clean it away. */
  lemma {:induction false} OwnersCanCleanUp(before: seq<(Caller, Move)>, p: Caller, g: Generation)
      returns (moves: seq<Move>)
    requires At(Run(before), p) == Live(g) && Run(before).root == None
    ensures UndisturbedCleanup(Run(before), p, moves)
    ensures CleanedAway(Run(before), After(Run(before), p, moves), p, g)
  {
    RunKeepsInv(before);
    RunMakesRootFirst(before);
    moves := CleanupGoesThrough(Run(before), p, g);
  }
}
