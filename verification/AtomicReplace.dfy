/** Replacing several files as one transaction (scripts/product_version.py, lines 456-544). Any call into the
    file system may fail; nobody else writes meanwhile. */
module AtomicReplace {
  import opened Basics

  type Path = nat

  type Data = seq<bv8>

  datatype File = File(data: Data, mode: nat)

  datatype Item = Item(path: Path, original: Data, replacement: Data, mode: nat)

  // What the caller of the transaction sees: success, the error that stopped it, a failed rollback, or an
  // interrupt that escaped from the rollback or the clean-up.
  datatype Result = Replaced | Stopped | RollbackFailed | Interrupted

  /** How a call turns out: it may fail with an error the program expects, or be cut short by an interrupt,
      and either may arrive before or after the call took effect. */
  datatype Fate = Fine | Error(after: bool) | Interrupt(after: bool)

  type Files = map<Path, File>

  // The fates of the calls in the order they are made; what is not listed goes well.
  type Fates = seq<Fate>

  predicate TookEffect(f: Fate) { f.Fine? || f.after }

  function At(fate: Fates, n: nat): Fate { if n < |fate| then fate[n] else Fine }

  // How far the program gets from some call on: how many calls were made by then, how many replacements were
  // begun, and whether everything up to there went well.
  datatype Course = Course(calls: nat, begun: nat, ok: bool)

  // Writing one temporary file: it is made, written, and removed again or noted.
  function Writing(fate: Fates, n: nat): Course {
    if !At(fate, n).Fine? then Course(n + 1, 0, false)
    else Course(n + 3, 0, At(fate, n + 1).Fine? && !At(fate, n + 2).Interrupt?)
  }

  // Both copies of one target.
  function WritingBoth(fate: Fates, n: nat): Course {
    var written := Writing(fate, n);
    if written.ok then Writing(fate, written.calls) else written
  }

  function Copying(fate: Fates, n: nat, targets: nat): Course
    decreases targets
  {
    if targets == 0 then Course(n, 0, true)
    else
      var written := WritingBoth(fate, n);
      if written.ok then Copying(fate, written.calls, targets - 1) else written
  }

  // Installing from target `i` on: each is read, compared with what was parsed, and replaced.
  function Installing(fate: Fates, n: nat, items: seq<Item>, before: Files, i: nat): Course
    requires i <= |items|
    decreases |items| - i
  {
    if i == |items| then Course(n, i, true)
    else if !At(fate, n).Fine? || !IsParsed(before, items[i]) then Course(n + 1, i, false)
    else if !At(fate, n + 1).Fine? then Course(n + 2, i + 1, false)
    else Installing(fate, n + 2, items, before, i + 1)
  }

  predicate IsParsed(before: Files, item: Item) { item.path in before && before[item.path].data == item.original }

  // Installing and verifying, where `sound` is whether the new files verify.
  function Trying(fate: Fates, n: nat, items: seq<Item>, before: Files, sound: bool): Course {
    var installed := Installing(fate, n, items, before, 0);
    if installed.ok then Course(installed.calls + 1, |items|, At(fate, installed.calls).Fine? && sound) else installed
  }

  // The transaction up to the point where it is complete or has to be undone.
  function Going(fate: Fates, n: nat, items: seq<Item>, before: Files, sound: bool): Course {
    var copied := Copying(fate, n, |items|);
    if copied.ok then Trying(fate, copied.calls, items, before, sound) else copied
  }

  // Whether everything is installed at some point, whatever comes of verifying it.
  predicate FullyInstalled(fate: Fates, n: nat, items: seq<Item>, before: Files) {
    var copied := Copying(fate, n, |items|);
    copied.ok && Installing(fate, copied.calls, items, before, 0).ok
  }

  // With every call fine and every target as it was parsed, the course is the full one.
  lemma {:induction false} GoingFine(fate: Fates, n: nat, items: seq<Item>, before: Files, sound: bool)
    requires forall k: nat :: n <= k < n + 8 * |items| + 1 ==> At(fate, k).Fine?
    requires AsParsed(before, items)
    ensures Going(fate, n, items, before, sound) == Course(n + 8 * |items| + 1, |items|, sound)
    ensures FullyInstalled(fate, n, items, before)
  {
    CopyingFine(fate, n, |items|);
    InstallingFine(fate, n + 6 * |items|, items, before, 0);
  }

  lemma {:induction false} CopyingFine(fate: Fates, n: nat, targets: nat)
    requires forall k: nat :: n <= k < n + 6 * targets ==> At(fate, k).Fine?
    ensures Copying(fate, n, targets) == Course(n + 6 * targets, 0, true)
    decreases targets
  {
    if targets > 0 {
      CopyingFine(fate, n + 6, targets - 1);
    }
  }

  lemma {:induction false} InstallingFine(fate: Fates, n: nat, items: seq<Item>, before: Files, i: nat)
    requires i <= |items| && AsParsed(before, items)
    requires forall k: nat :: n <= k < n + 2 * (|items| - i) ==> At(fate, k).Fine?
    ensures Installing(fate, n, items, before, i) == Course(n + 2 * (|items| - i), |items|, true)
    decreases |items| - i
  {
    if i < |items| {
      InstallingFine(fate, n + 2, items, before, i + 1);
    }
  }

  class FileSystem {
    var files: Files

    // Names from here on are unused.
    var next: nat

    // The fates of all calls, how many were made, and how many temporary files the program lost track of.
    const fate: Fates
    var calls: nat
    var strays: nat

    predicate Valid()
      reads this
    {
      forall p :: p in files ==> p < next
    }

    constructor (from: Files, unused: nat, fates: Fates)
      requires forall p :: p in from ==> p < unused
      ensures Valid() && files == from && next == unused && fate == fates && calls == 0 && strays == 0
    {
      files, next, fate, calls, strays := from, unused, fates, 0, 0;
    }

    ghost predicate FineFor(from: nat, count: nat) { forall n: nat :: from <= n < from + count ==> At(fate, n).Fine? }

    ghost predicate InterruptedIn(from: nat, to: nat) { exists n: nat :: from <= n < to && At(fate, n).Interrupt? }

    ghost predicate ErrorIn(from: nat, to: nat) { exists n: nat :: from <= n < to && At(fate, n).Error? }

    ghost predicate FailedIn(from: int, to: nat) { exists n: nat :: from <= n < to && !At(fate, n).Fine? }

    // What a course leads to when the rollback, if one is due, and the clean-up end with call `last`.
    ghost function Ending(course: Course, last: nat): Result {
      if InterruptedIn(course.calls, last) then Interrupted
      else if course.ok then Replaced
      else if ErrorIn(course.calls, course.calls + course.begun) then RollbackFailed
      else Stopped
    }

    method Next() returns (outcome: Fate)
      modifies this`calls
      ensures calls == old(calls) + 1 && outcome == At(fate, old(calls))
    {
      outcome := At(fate, calls);
      calls := calls + 1;
    }

    // A temporary file that cannot be written is removed again, if it can be; one that is made or finished
    // when an interrupt arrives, before its name is noted, is lost.
    method WriteStaged(data: Data, mode: nat) returns (temporary: Option<Path>)
      requires Valid()
      modifies this
      ensures Valid() && next >= old(next) && strays >= old(strays) && calls >= old(calls)
      ensures temporary.Some? ==>
        && old(next) <= temporary.value < next && strays == old(strays)
        && files == old(files)[temporary.value := File(data, mode)]
      ensures temporary.None? ==>
        Extends(old(files), files, old(next)) && (strays == old(strays) ==> files == old(files))
      ensures calls <= old(calls) + 3 && (strays > old(strays) ==> FailedIn(old(calls), calls))
      ensures Course(calls, 0, temporary.Some?) == Writing(fate, old(calls))
    {
      var name := next;
      var made := Next();
      if !made.Fine? {
        if TookEffect(made) {
          files, next, strays := files[name := File([], mode)], next + 1, strays + 1;
        }
        return None;
      }
      files, next := files[name := File([], mode)], next + 1;
      var written := Next();
      if !written.Fine? {
        var removed := Next();
        if TookEffect(removed) {
          files := files - {name};
          assert files == old(files);
        } else {
          strays := strays + 1;
        }
        return None;
      }
      files := files[name := File(data, mode)];
      var noted := Next();
      if noted.Interrupt? {
        strays := strays + 1;
        return None;
      }
      temporary := Some(name);
    }

    method Replace(from: Path, to: Path) returns (outcome: Fate)
      requires Valid() && to < next
      modifies this`files, this`calls
      ensures Valid() && calls == old(calls) + 1
      ensures outcome.Fine? ==> from in old(files)
      ensures files == if from in old(files) && TookEffect(outcome) then Moved(old(files), from, to) else old(files)
      ensures outcome.Interrupt? <==> At(fate, old(calls)).Interrupt?
      ensures from in old(files) ==> outcome == At(fate, old(calls))
    {
      outcome := Next();
      if from in files {
        if TookEffect(outcome) {
          files := Moved(files, from, to);
        }
      } else if outcome.Fine? {
        outcome := Error(false);
      }
    }

    // The bytes of a regular file.
    method ReadBytes(path: Path) returns (data: Option<Data>)
      modifies this`calls
      ensures calls == old(calls) + 1
      ensures data == if At(fate, old(calls)).Fine? && path in files then Some(files[path].data) else None
    {
      var read := Next();
      data := if !read.Fine? || path !in files then None else Some(files[path].data);
    }

    /** Removes what is left of these files; only an interrupt stops it. */
    method Cleanup(temporaries: seq<Path>) returns (interrupted: bool)
      requires Valid()
      modifies this
      ensures Valid() && next == old(next) && strays >= old(strays) && calls >= old(calls)
      ensures interrupted <==> InterruptedIn(old(calls), calls)
      ensures forall p :: p in files ==> p in old(files) && files[p] == old(files)[p]
      ensures forall p :: p in old(files) && p !in temporaries ==> p in files
      ensures interrupted ==> strays > old(strays)
      ensures strays == old(strays) ==> forall p :: p in temporaries ==> p !in files
      ensures calls <= old(calls) + |temporaries| && (strays > old(strays) ==> FailedIn(old(calls), calls))
    {
      for k := 0 to |temporaries|
        invariant Valid() && next == old(next) && strays >= old(strays) && calls >= old(calls)
        invariant !InterruptedIn(old(calls), calls)
        invariant calls == old(calls) + k && (strays > old(strays) ==> FailedIn(old(calls), calls))
        invariant forall p :: p in files ==> p in old(files) && files[p] == old(files)[p]
        invariant forall p :: p in old(files) && p !in temporaries ==> p in files
        invariant strays == old(strays) ==> forall i :: 0 <= i < k ==> temporaries[i] !in files
      {
        var removed := Next();
        if TookEffect(removed) {
          files := files - {temporaries[k]};
        }
        if removed.Interrupt? {
          strays := strays + 1;
          return true;
        }
        if temporaries[k] in files {
          strays := strays + 1;
        }
      }
      interrupted := false;
    }
  }

  function Moved(files: Files, from: Path, to: Path): Files
    requires from in files
  {
    (files - {from})[to := files[from]]
  }

  // A rename takes the file away from its old name and leaves every other name alone.
  lemma {:induction false} RenameIs(files: Files, from: Path, to: Path, p: Path)
    requires from in files && from != to
    ensures
      var after := Moved(files, from, to);
      && from !in after && to in after && after[to] == files[from]
      && (p != from && p != to ==> (p in after <==> p in files) && (p in files ==> after[p] == files[p]))
  {
  }

  // Nothing that was there changed; what is new has a name from `bound` on.
  predicate Extends(before: Files, after: Files, bound: nat) {
    && (forall p :: p in before ==> p in after && after[p] == before[p])
    && forall p :: p in after && p !in before ==> p >= bound
  }

  // ---- the transaction ----

  predicate IsTarget(items: seq<Item>, p: Path) { exists k :: 0 <= k < |items| && items[k].path == p }

  predicate DistinctPaths(items: seq<Item>) {
    forall i, j :: 0 <= i < j < |items| ==> items[i].path != items[j].path
  }

  // Temporary names: fresh, and each used once.
  predicate Names(news: seq<Path>, backups: seq<Path>, bound: nat, next: nat) {
    && (forall i :: 0 <= i < |news| ==> bound <= news[i] < next)
    && (forall i :: 0 <= i < |backups| ==> bound <= backups[i] < next)
    && (forall i, j :: 0 <= i < j < |news| ==> news[i] != news[j])
    && (forall i, j :: 0 <= i < j < |backups| ==> backups[i] != backups[j])
    && (forall i, j :: 0 <= i < |news| && 0 <= j < |backups| ==> news[i] != backups[j])
  }

  predicate Unchanged(before: Files, files: Files, p: Path) {
    (p in files <==> p in before) && (p in before ==> files[p] == before[p])
  }

  // Everything but the targets is as it was, except for these temporary files.
  predicate OthersKept(before: Files, files: Files, items: seq<Item>, news: seq<Path>, backups: seq<Path>,
          exact: bool, bound: nat) {
    && (forall p :: p in before && !IsTarget(items, p) ==> p in files && files[p] == before[p])
    && (forall p :: p in files && p !in before ==> p >= bound && (exact ==> p in news || p in backups))
  }

  predicate NewsStaged(files: Files, items: seq<Item>, news: seq<Path>, i: nat) {
    |news| == |items| && forall k :: i <= k < |items| ==>
        news[k] in files && files[news[k]] == File(items[k].replacement, items[k].mode)
  }

  predicate BackupsStaged(files: Files, items: seq<Item>, backups: seq<Path>, i: nat) {
    |backups| == |items| && forall k :: 0 <= k < |items| && k < i ==>
        backups[k] in files && files[backups[k]] == File(items[k].original, items[k].mode)
  }

  predicate Installed(before: Files, files: Files, items: seq<Item>, i: nat) {
    forall k :: 0 <= k < |items| && k < i ==>
      && items[k].path in before && before[items[k].path].data == items[k].original
      && items[k].path in files && files[items[k].path] == File(items[k].replacement, items[k].mode)
  }

  predicate Waiting(before: Files, files: Files, items: seq<Item>, i: nat) {
    forall k :: i <= k < |items| ==> Unchanged(before, files, items[k].path)
  }

  predicate AsParsed(before: Files, items: seq<Item>) {
    forall k :: 0 <= k < |items| ==> IsParsed(before, items[k])
  }

  // Under a rollback: old or new contents below `r`, old ones from there on.
  predicate Torn(before: Files, files: Files, items: seq<Item>, r: nat) {
    forall k :: 0 <= k < |items| ==>
      && (items[k].path in files <==> items[k].path in before)
      && (items[k].path in files ==>
           && (k < r ==> before[items[k].path].data == items[k].original)
           && (files[items[k].path].data == before[items[k].path].data ||
               (k < r && files[items[k].path].data == items[k].replacement)))
  }

  // What staging has done so far.
  ghost predicate Staging(before: Files, files: Files, items: seq<Item>, news: seq<Path>, backups: seq<Path>,
          bound: nat, next: nat) {
    && Extends(before, files, bound) && Names(news, backups, bound, next) && bound <= next
    && (forall k :: 0 <= k < |news| && k < |items| ==>
        news[k] in files && files[news[k]] == File(items[k].replacement, items[k].mode))
    && (forall k :: 0 <= k < |backups| && k < |items| ==>
        backups[k] in files && files[backups[k]] == File(items[k].original, items[k].mode))
  }

  predicate NoStrays(before: Files, files: Files, news: seq<Path>, backups: seq<Path>) {
    forall p :: p in files && p !in before ==> p in news || p in backups
  }

  lemma {:induction false} NewStaged(before: Files, files: Files, items: seq<Item>, news: seq<Path>, backups: seq<Path>,
                                     bound: nat, next: nat, name: Path, after: nat)
    requires Staging(before, files, items, news, backups, bound, next) && next <= name < after && |news| < |items|
    requires forall p :: p in files ==> p < next
    ensures
      var more := files[name := File(items[|news|].replacement, items[|news|].mode)];
      && Staging(before, more, items, news + [name], backups, bound, after)
      && (NoStrays(before, files, news, backups) ==> NoStrays(before, more, news + [name], backups))
  {
  }

  lemma {:induction false} BackupStaged(before: Files, files: Files, items: seq<Item>, news: seq<Path>,
          backups: seq<Path>, bound: nat, next: nat, name: Path, after: nat)
    requires Staging(before, files, items, news, backups, bound, next) && next <= name < after && |backups| < |items|
    requires forall p :: p in files ==> p < next
    ensures
      var more := files[name := File(items[|backups|].original, items[|backups|].mode)];
      && Staging(before, more, items, news, backups + [name], bound, after)
      && (NoStrays(before, files, news, backups) ==> NoStrays(before, more, news, backups + [name]))
  {
  }

  lemma {:induction false} StrayLeft(before: Files, files: Files, more: Files, items: seq<Item>, news: seq<Path>,
          backups: seq<Path>, bound: nat, next: nat, after: nat)
    requires Staging(before, files, items, news, backups, bound, next) && next <= after && Extends(files, more, next)
    ensures Staging(before, more, items, news, backups, bound, after)
  {
  }

  lemma {:induction false} NothingStaged(before: Files, items: seq<Item>, bound: nat)
    ensures Staging(before, before, items, [], [], bound, bound) && NoStrays(before, before, [], [])
  {
  }

  // Both copies of the next target.
  method StageNext(fs: FileSystem, items: seq<Item>, earlierNews: seq<Path>, earlierBackups: seq<Path>,
          ghost before: Files, ghost bound: nat)
      returns (news: seq<Path>, backups: seq<Path>, ok: bool)
    requires fs.Valid() && |earlierNews| == |earlierBackups| < |items|
    requires Staging(before, fs.files, items, earlierNews, earlierBackups, bound, fs.next)
    requires NoStrays(before, fs.files, earlierNews, earlierBackups)
    modifies fs
    ensures fs.Valid() && fs.strays >= old(fs.strays) && fs.next >= old(fs.next)
    ensures Staging(before, fs.files, items, news, backups, bound, fs.next)
    ensures fs.strays == old(fs.strays) ==> NoStrays(before, fs.files, news, backups)
    ensures fs.strays > old(fs.strays) ==> fs.FailedIn(old(fs.calls), fs.calls)
    ensures if ok then |news| == |backups| == |earlierNews| + 1 && fs.strays == old(fs.strays)
            else |earlierBackups| == |backups| <= |news| <= |earlierNews| + 1
    ensures fs.calls <= old(fs.calls) + 6 && Course(fs.calls, 0, ok) == WritingBoth(fs.fate, old(fs.calls))
  {
    news, backups := earlierNews, earlierBackups;
    var item := items[|news|];
    ghost var files, next := fs.files, fs.next;
    var temporary := fs.WriteStaged(item.replacement, item.mode);
    if temporary.None? {
      StrayLeft(before, files, fs.files, items, news, backups, bound, next, fs.next);
      return news, backups, false;
    }
    NewStaged(before, files, items, news, backups, bound, next, temporary.value, fs.next);
    news := news + [temporary.value];
    files, next := fs.files, fs.next;
    temporary := fs.WriteStaged(item.original, item.mode);
    if temporary.None? {
      StrayLeft(before, files, fs.files, items, news, backups, bound, next, fs.next);
      return news, backups, false;
    }
    BackupStaged(before, files, items, news, backups, bound, next, temporary.value, fs.next);
    backups := backups + [temporary.value];
    ok := true;
  }

  method StageAll(fs: FileSystem, items: seq<Item>) returns (news: seq<Path>, backups: seq<Path>, ok: bool)
    requires fs.Valid()
    modifies fs
    ensures fs.Valid() && fs.strays >= old(fs.strays) && fs.next >= old(fs.next)
    ensures Staging(old(fs.files), fs.files, items, news, backups, old(fs.next), fs.next)
    ensures fs.strays == old(fs.strays) ==> NoStrays(old(fs.files), fs.files, news, backups)
    ensures fs.strays > old(fs.strays) ==> fs.FailedIn(old(fs.calls), fs.calls)
    ensures |news| <= |items| && |backups| <= |items| && (ok ==> |news| == |backups| == |items|)
    ensures old(fs.calls) <= fs.calls <= old(fs.calls) + 6 * |items|
    ensures Course(fs.calls, 0, ok) == Copying(fs.fate, old(fs.calls), |items|)
  {
    news, backups := [], [];
    ghost var before, bound := fs.files, fs.next;
    NothingStaged(before, items, bound);
    for i := 0 to |items|
      invariant fs.Valid() && fs.next >= bound && |news| == |backups| == i
      invariant Staging(before, fs.files, items, news, backups, bound, fs.next)
      invariant fs.strays == old(fs.strays) && NoStrays(before, fs.files, news, backups)
      invariant old(fs.calls) <= fs.calls <= old(fs.calls) + 6 * i
      invariant Copying(fs.fate, fs.calls, |items| - i) == Copying(fs.fate, old(fs.calls), |items|)
    {
      var staged;
      news, backups, staged := StageNext(fs, items, news, backups, before, bound);
      if !staged {
        return news, backups, false;
      }
    }
    ok := true;
  }

  lemma {:induction false} InstallStep(before: Files, files: Files, items: seq<Item>, news: seq<Path>,
          backups: seq<Path>, i: nat, exact: bool, bound: nat, next: nat)
    requires i < |items| && DistinctPaths(items) && Names(news, backups, bound, next)
    requires forall k :: 0 <= k < |items| ==> items[k].path < bound
    requires forall p :: p in before ==> p < bound
    requires NewsStaged(files, items, news, i) && BackupsStaged(files, items, backups, |items|)
    requires Installed(before, files, items, i) && Waiting(before, files, items, i)
    requires OthersKept(before, files, items, news, backups, exact, bound)
    requires items[i].path in files && files[items[i].path].data == items[i].original
    ensures
      var after := Moved(files, news[i], items[i].path);
      && NewsStaged(after, items, news, i + 1) && BackupsStaged(after, items, backups, |items|)
      && Installed(before, after, items, i + 1) && Waiting(before, after, items, i + 1)
      && OthersKept(before, after, items, news, backups, exact, bound)
  {
    MoveKeepsOthers(before, files, items, news, backups, news[i], i, exact, bound);
    MoveKeepsStaged(files, items, news, backups, i, bound, next);
    MoveInstalls(before, files, items, news, i);
  }

  lemma {:induction false} MoveKeepsStaged(files: Files, items: seq<Item>, news: seq<Path>, backups: seq<Path>,
          i: nat, bound: nat, next: nat)
    requires i < |items| && Names(news, backups, bound, next) && items[i].path < bound
    requires NewsStaged(files, items, news, i) && BackupsStaged(files, items, backups, |items|)
    ensures NewsStaged(Moved(files, news[i], items[i].path), items, news, i + 1)
    ensures BackupsStaged(Moved(files, news[i], items[i].path), items, backups, |items|)
  {
  }

  lemma {:induction false} MoveInstalls(before: Files, files: Files, items: seq<Item>, news: seq<Path>, i: nat)
    requires i < |items| && DistinctPaths(items) && NewsStaged(files, items, news, i)
    requires forall k :: 0 <= k < |items| ==> items[k].path != news[i]
    requires Installed(before, files, items, i) && Waiting(before, files, items, i)
    requires items[i].path in files && files[items[i].path].data == items[i].original
    ensures Installed(before, Moved(files, news[i], items[i].path), items, i + 1)
    ensures Waiting(before, Moved(files, news[i], items[i].path), items, i + 1)
  {
    assert Unchanged(before, files, items[i].path);
    forall k | i < k < |items| ensures Unchanged(before, Moved(files, news[i], items[i].path), items[k].path) {
      assert Unchanged(before, files, items[k].path);
    }
  }

  lemma {:induction false} MoveKeepsOthers(before: Files, files: Files, items: seq<Item>, news: seq<Path>,
          backups: seq<Path>, from: Path, i: nat, exact: bool, bound: nat)
    requires i < |items| && from in files && from !in before && items[i].path in before
    requires OthersKept(before, files, items, news, backups, exact, bound)
    ensures OthersKept(before, Moved(files, from, items[i].path), items, news, backups, exact, bound)
  {
    assert IsTarget(items, items[i].path);
  }

  lemma {:induction false} InstalledIsTorn(before: Files, files: Files, items: seq<Item>, i: nat, r: nat)
    requires i <= |items| && i <= r <= i + 1 && r <= |items|
    requires Installed(before, files, items, i) && Waiting(before, files, items, i)
    requires r > i ==> items[i].path in files && files[items[i].path].data == items[i].original
    ensures Torn(before, files, items, r) && Waiting(before, files, items, r)
    ensures forall k :: 0 <= k < r ==> items[k].path in before
  {
    forall k | i <= k < |items| ensures Unchanged(before, files, items[k].path) {
    }
  }

  lemma {:induction false} MoveRestores(before: Files, files: Files, items: seq<Item>, backups: seq<Path>, i: nat)
    requires i < |items| && DistinctPaths(items) && items[i].path in before && i < |backups|
    requires forall k :: 0 <= k < |items| ==> items[k].path != backups[i]
    requires backups[i] in files && files[backups[i]].data == items[i].original && Torn(before, files, items, i + 1)
    ensures Torn(before, Moved(files, backups[i], items[i].path), items, i)
  {
  }

  // Whether or not the replacement that failed had taken effect, the rollback has to undo it.
  lemma {:induction false} InterruptedInstall(before: Files, files: Files, after: Files, items: seq<Item>,
          news: seq<Path>, backups: seq<Path>, i: nat, exact: bool, bound: nat, next: nat)
    requires i < |items| && DistinctPaths(items) && Names(news, backups, bound, next)
    requires forall k :: 0 <= k < |items| ==> items[k].path < bound
    requires forall p :: p in before ==> p < bound
    requires NewsStaged(files, items, news, i) && BackupsStaged(files, items, backups, |items|)
    requires Installed(before, files, items, i) && Waiting(before, files, items, i)
    requires OthersKept(before, files, items, news, backups, exact, bound)
    requires items[i].path in files && files[items[i].path].data == items[i].original
    requires after == files || after == Moved(files, news[i], items[i].path)
    ensures Torn(before, after, items, i + 1) && Waiting(before, after, items, i + 1)
    ensures BackupsStaged(after, items, backups, |items|)
    ensures OthersKept(before, after, items, news, backups, exact, bound)
    ensures forall k :: 0 <= k < i + 1 ==> items[k].path in before
  {
    if after == files {
      InstalledIsTorn(before, files, items, i, i + 1);
    } else {
      InstallStep(before, files, items, news, backups, i, exact, bound, next);
      InstalledIsTorn(before, after, items, i + 1, i + 1);
    }
  }

  // Replaces target `i`, which still is as it was parsed; `begun` counts the replacements begun so far.
  method ReplaceNext(fs: FileSystem, items: seq<Item>, news: seq<Path>, backups: seq<Path>, i: nat,
          ghost before: Files, ghost exact: bool, ghost bound: nat)
      returns (begun: nat, ok: bool)
    requires fs.Valid() && i < |items| && DistinctPaths(items) && Names(news, backups, bound, fs.next)
    requires bound <= fs.next && forall k :: 0 <= k < |items| ==> items[k].path < bound
    requires forall p :: p in before ==> p < bound
    requires NewsStaged(fs.files, items, news, i) && BackupsStaged(fs.files, items, backups, |items|)
    requires Installed(before, fs.files, items, i) && Waiting(before, fs.files, items, i)
    requires OthersKept(before, fs.files, items, news, backups, exact, bound)
    requires IsParsed(fs.files, items[i])
    modifies fs`files, fs`calls
    ensures fs.Valid() && begun == i + 1 && BackupsStaged(fs.files, items, backups, |items|)
    ensures OthersKept(before, fs.files, items, news, backups, exact, bound) && Waiting(before, fs.files, items, i + 1)
    ensures ok ==> Installed(before, fs.files, items, i + 1) && NewsStaged(fs.files, items, news, i + 1)
    ensures !ok ==> Torn(before, fs.files, items, i + 1) && forall k :: 0 <= k < i + 1 ==> items[k].path in before
    ensures fs.calls == old(fs.calls) + 1 && (ok <==> At(fs.fate, old(fs.calls)).Fine?)
  {
    ghost var files := fs.files;
    var moved := fs.Replace(news[i], items[i].path);
    if !moved.Fine? {
      InterruptedInstall(before, files, fs.files, items, news, backups, i, exact, bound, fs.next);
      return i + 1, false;
    }
    InstallStep(before, files, items, news, backups, i, exact, bound, fs.next);
    return i + 1, true;
  }

  // Installs the new file of target `i`.
  method InstallNext(fs: FileSystem, items: seq<Item>, news: seq<Path>, backups: seq<Path>, i: nat,
          ghost before: Files, ghost exact: bool, ghost bound: nat)
      returns (begun: nat, ok: bool)
    requires fs.Valid() && i < |items| && DistinctPaths(items) && Names(news, backups, bound, fs.next)
    requires bound <= fs.next && forall k :: 0 <= k < |items| ==> items[k].path < bound
    requires forall p :: p in before ==> p < bound
    requires NewsStaged(fs.files, items, news, i) && BackupsStaged(fs.files, items, backups, |items|)
    requires Installed(before, fs.files, items, i) && Waiting(before, fs.files, items, i)
    requires OthersKept(before, fs.files, items, news, backups, exact, bound)
    modifies fs`files, fs`calls
    ensures fs.Valid() && begun <= |items| && BackupsStaged(fs.files, items, backups, |items|)
    ensures OthersKept(before, fs.files, items, news, backups, exact, bound) && Waiting(before, fs.files, items, begun)
    ensures ok ==> begun == i + 1 && Installed(before, fs.files, items, i + 1)
    ensures ok ==> NewsStaged(fs.files, items, news, i + 1)
    ensures !ok ==> Torn(before, fs.files, items, begun) && forall k :: 0 <= k < begun ==> items[k].path in before
    ensures fs.calls >= old(fs.calls)
    ensures Installing(fs.fate, old(fs.calls), items, before, i) ==
      if ok then Installing(fs.fate, fs.calls, items, before, i + 1) else Course(fs.calls, begun, false)
  {
    assert Unchanged(before, fs.files, items[i].path);
    var current := fs.ReadBytes(items[i].path);
    if current != Some(items[i].original) {
      InstalledIsTorn(before, fs.files, items, i, i);
      return i, false;
    }
    begun, ok := ReplaceNext(fs, items, news, backups, i, before, exact, bound);
  }

  /** Installs the new files one by one; `replaced` counts the targets for which that was begun. */
  method InstallAll(fs: FileSystem, items: seq<Item>, news: seq<Path>, backups: seq<Path>, ghost before: Files,
          ghost exact: bool, ghost bound: nat)
      returns (replaced: nat, ok: bool)
    requires fs.Valid() && DistinctPaths(items) && Names(news, backups, bound, fs.next) && bound <= fs.next
    requires forall k :: 0 <= k < |items| ==> items[k].path < bound
    requires forall p :: p in before ==> p < bound
    requires NewsStaged(fs.files, items, news, 0) && BackupsStaged(fs.files, items, backups, |items|)
    requires Waiting(before, fs.files, items, 0) && OthersKept(before, fs.files, items, news, backups, exact, bound)
    modifies fs`files, fs`calls
    ensures fs.Valid() && replaced <= |items| && BackupsStaged(fs.files, items, backups, |items|)
    ensures OthersKept(before, fs.files, items, news, backups, exact, bound)
    ensures Torn(before, fs.files, items, replaced) && Waiting(before, fs.files, items, replaced)
    ensures forall k :: 0 <= k < replaced ==> items[k].path in before
    ensures ok ==> replaced == |items| && Installed(before, fs.files, items, |items|)
    ensures fs.calls >= old(fs.calls)
    ensures Course(fs.calls, replaced, ok) == Installing(fs.fate, old(fs.calls), items, before, 0)
  {
    for i := 0 to |items|
      invariant fs.Valid() && NewsStaged(fs.files, items, news, i) && BackupsStaged(fs.files, items, backups, |items|)
      invariant Installed(before, fs.files, items, i) && Waiting(before, fs.files, items, i)
      invariant OthersKept(before, fs.files, items, news, backups, exact, bound)
      invariant fs.calls >= old(fs.calls)
      invariant Installing(fs.fate, fs.calls, items, before, i) == Installing(fs.fate, old(fs.calls), items, before, 0)
    {
      replaced, ok := InstallNext(fs, items, news, backups, i, before, exact, bound);
      if !ok {
        return replaced, ok;
      }
    }
    InstalledIsTorn(before, fs.files, items, |items|, |items|);
    return |items|, true;
  }

  // The first `r` targets are as they were at that time.
  predicate SameBelow(past: Files, files: Files, items: seq<Item>, r: nat)
    requires r <= |items|
  {
    r == 0 || (SameBelow(past, files, items, r - 1) && Unchanged(past, files, items[r - 1].path))
  }

  lemma {:induction false} SameBelowAt(past: Files, files: Files, items: seq<Item>, r: nat, k: nat)
    requires k < r <= |items| && SameBelow(past, files, items, r)
    ensures Unchanged(past, files, items[k].path)
  {
    if k < r - 1 {
      SameBelowAt(past, files, items, r - 1, k);
    }
  }

  lemma {:induction false} SameAtFirst(files: Files, items: seq<Item>, r: nat)
    requires r <= |items|
    ensures SameBelow(files, files, items, r)
  {
    if r > 0 {
      SameAtFirst(files, items, r - 1);
    }
  }

  lemma {:induction false} MoveIsElsewhere(past: Files, files: Files, items: seq<Item>, from: Path, i: nat, r: nat)
    requires DistinctPaths(items) && r <= i < |items| && from in files && SameBelow(past, files, items, r)
    requires forall k :: 0 <= k < |items| ==> items[k].path != from
    ensures SameBelow(past, Moved(files, from, items[i].path), items, r)
  {
    if r > 0 {
      MoveIsElsewhere(past, files, items, from, i, r - 1);
    }
  }

  // The targets from `r` on are as they were.
  predicate OldFrom(before: Files, files: Files, items: seq<Item>, r: nat) {
    forall k :: r <= k < |items| ==>
      && (items[k].path in files <==> items[k].path in before)
      && (items[k].path in files ==> files[items[k].path].data == before[items[k].path].data)
  }

  // A rollback of the first `begun` targets has put back the last `m` of them if its first `m` calls went well.
  ghost predicate PutsBack(fate: Fates, first: nat, begun: nat, before: Files, files: Files, items: seq<Item>) {
    forall m: nat :: m <= begun && Well(fate, first, m) ==> OldFrom(before, files, items, begun - m)
  }

  // The `m` calls from `first` on go well.
  predicate Well(fate: Fates, first: nat, m: nat) {
    m == 0 || (Well(fate, first, m - 1) && At(fate, first + m - 1).Fine?)
  }

  lemma {:induction false} WellAt(fate: Fates, first: nat, m: nat, n: nat)
    requires Well(fate, first, m) && first <= n < first + m
    ensures At(fate, n).Fine?
  {
    if n < first + m - 1 {
      WellAt(fate, first, m - 1, n);
    }
  }

  // The rollback put back all but `left` targets, and then, unless none is left, its next call went wrong.
  predicate Undone(fate: Fates, first: nat, replaced: nat, result: Result, left: nat) {
    && left <= replaced && Well(fate, first, replaced - left)
    && if left == 0 then result == Stopped
       else
         && !At(fate, first + (replaced - left)).Fine?
         && result == if At(fate, first + (replaced - left)).Interrupt? then Interrupted else RollbackFailed
  }

  // `undone` targets were put back: all but `left`, and one more if the call that went wrong had taken effect.
  predicate Progress(fate: Fates, first: nat, replaced: nat, left: nat, undone: nat)
    requires left <= replaced
  {
    undone == replaced - left + if left > 0 && TookEffect(At(fate, first + (replaced - left))) then 1 else 0
  }

  // The files after the last `m` of the first `replaced` targets got their old contents back.
  function PutBack(files: Files, items: seq<Item>, backups: seq<Path>, replaced: nat, m: nat): Files
    requires m <= replaced <= |items| == |backups|
  {
    if m == 0 then files
    else
      var later := PutBack(files, items, backups, replaced, m - 1);
      if backups[replaced - m] in later then Moved(later, backups[replaced - m], items[replaced - m].path) else later
  }

  // The backup of each of the last `m` targets is there when its turn comes.
  predicate Restorable(files: Files, items: seq<Item>, backups: seq<Path>, replaced: nat, m: nat)
    requires m <= replaced <= |items| == |backups|
  {
    m == 0
    || (Restorable(files, items, backups, replaced, m - 1)
        && backups[replaced - m] in PutBack(files, items, backups, replaced, m - 1))
  }

  lemma {:induction false} RestorableAt(files: Files, items: seq<Item>, backups: seq<Path>, replaced: nat, m: nat,
          k: nat)
    requires k < m <= replaced <= |items| == |backups| && Restorable(files, items, backups, replaced, m)
    ensures backups[replaced - k - 1] in PutBack(files, items, backups, replaced, k)
  {
    if k < m - 1 {
      RestorableAt(files, items, backups, replaced, m - 1, k);
    }
  }

  /** Puts the old contents back, last target first, until an error or an interrupt stops it, before or
      after that call took effect. */
  method Rollback(fs: FileSystem, items: seq<Item>, backups: seq<Path>, replaced: nat)
      returns (result: Result, ghost left: nat, ghost undone: nat)
    requires fs.Valid() && replaced <= |items| == |backups| && forall k :: 0 <= k < |items| ==> items[k].path < fs.next
    requires Restorable(fs.files, items, backups, replaced, replaced)
    modifies fs`files, fs`calls
    ensures fs.Valid() && Undone(fs.fate, old(fs.calls), replaced, result, left)
    ensures fs.calls == old(fs.calls) + (replaced - left) + (if left > 0 then 1 else 0)
    ensures Progress(fs.fate, old(fs.calls), replaced, left, undone)
    ensures fs.files == PutBack(old(fs.files), items, backups, replaced, undone)
  {
    ghost var first, past := fs.calls, fs.files;
    for done := 0 to replaced
      invariant fs.Valid() && fs.files == PutBack(past, items, backups, replaced, done)
      invariant fs.calls == first + done && Well(fs.fate, first, done)
    {
      var index := replaced - done - 1;
      RestorableAt(past, items, backups, replaced, replaced, done);
      var moved := fs.Replace(backups[index], items[index].path);
      if !moved.Fine? {
        undone := if TookEffect(moved) then done + 1 else done;
        return if moved.Interrupt? then Interrupted else RollbackFailed, index + 1, undone;
      }
    }
    return Stopped, 0, replaced;
  }

  // Putting back `m` targets leaves the backups of the others where they are,
  lemma {:induction false} BackupsRemain(past: Files, items: seq<Item>, news: seq<Path>, backups: seq<Path>,
          replaced: nat, m: nat, bound: nat, next: nat)
    requires m <= replaced <= |items| && Names(news, backups, bound, next)
    requires forall k :: 0 <= k < |items| ==> items[k].path < bound
    requires BackupsStaged(past, items, backups, |items|)
    ensures BackupsStaged(PutBack(past, items, backups, replaced, m), items, backups, replaced - m)
  {
    if m > 0 {
      BackupsRemain(past, items, news, backups, replaced, m - 1, bound, next);
    }
  }

  // makes that many targets old again,
  lemma {:induction false} TargetsReturn(before: Files, past: Files, items: seq<Item>, news: seq<Path>,
          backups: seq<Path>, replaced: nat, m: nat, bound: nat, next: nat)
    requires m <= replaced <= |items| && DistinctPaths(items) && Names(news, backups, bound, next)
    requires forall k :: 0 <= k < |items| ==> items[k].path < bound
    requires BackupsStaged(past, items, backups, |items|)
    requires Torn(before, past, items, replaced) && forall k :: 0 <= k < replaced ==> items[k].path in before
    ensures Torn(before, PutBack(past, items, backups, replaced, m), items, replaced - m)
  {
    if m > 0 {
      TargetsReturn(before, past, items, news, backups, replaced, m - 1, bound, next);
      BackupsRemain(past, items, news, backups, replaced, m - 1, bound, next);
      MoveRestores(before, PutBack(past, items, backups, replaced, m - 1), items, backups, replaced - m);
    }
  }

  // leaves the others as they were,
  lemma {:induction false} RestRemains(past: Files, items: seq<Item>, news: seq<Path>, backups: seq<Path>,
          replaced: nat, m: nat, bound: nat, next: nat)
    requires m <= replaced <= |items| == |backups| && DistinctPaths(items) && Names(news, backups, bound, next)
    requires forall k :: 0 <= k < |items| ==> items[k].path < bound
    ensures SameBelow(past, PutBack(past, items, backups, replaced, m), items, replaced - m)
  {
    if m == 0 {
      SameAtFirst(past, items, replaced);
    } else {
      RestRemains(past, items, news, backups, replaced, m - 1, bound, next);
      var later := PutBack(past, items, backups, replaced, m - 1);
      if backups[replaced - m] in later {
        MoveIsElsewhere(past, later, items, backups[replaced - m], replaced - m, replaced - m);
      }
    }
  }

  // and touches no other file.
  lemma {:induction false} OthersRemain(before: Files, past: Files, items: seq<Item>, news: seq<Path>,
          backups: seq<Path>, replaced: nat, m: nat, exact: bool, bound: nat, next: nat)
    requires m <= replaced <= |items| == |backups| && Names(news, backups, bound, next)
    requires forall p :: p in before ==> p < bound
    requires OthersKept(before, past, items, news, backups, exact, bound)
    requires forall k :: 0 <= k < replaced ==> items[k].path in before
    ensures OthersKept(before, PutBack(past, items, backups, replaced, m), items, news, backups, exact, bound)
  {
    if m > 0 {
      OthersRemain(before, past, items, news, backups, replaced, m - 1, exact, bound, next);
      var later := PutBack(past, items, backups, replaced, m - 1);
      if backups[replaced - m] in later {
        MoveKeepsOthers(before, later, items, news, backups, backups[replaced - m], replaced - m, exact, bound);
      }
    }
  }

  lemma {:induction false} UndoneInterrupted(fs: FileSystem, first: nat, replaced: nat, result: Result, left: nat,
          last: nat)
    requires Undone(fs.fate, first, replaced, result, left)
    requires last == first + (replaced - left) + (if left > 0 then 1 else 0)
    ensures result == Interrupted <==> fs.InterruptedIn(first, last)
    ensures result == RollbackFailed <==> !fs.InterruptedIn(first, last) && fs.ErrorIn(first, first + replaced)
  {
    forall n: nat | first <= n < first + (replaced - left) ensures At(fs.fate, n).Fine? {
      WellAt(fs.fate, first, replaced - left, n);
    }
  }

  // The calls from `first` on go well for `m` calls, and the next one is interrupted before it takes effect.
  predicate StopsAt(fate: Fates, first: nat, m: nat) { Well(fate, first, m) && At(fate, first + m) == Interrupt(false) }

  lemma {:induction false} StopDecides(fate: Fates, first: nat, replaced: nat, result: Result, left: nat, m: nat)
    requires Undone(fate, first, replaced, result, left) && m < replaced && StopsAt(fate, first, m)
    ensures result == Interrupted && left == replaced - m && At(fate, first + (replaced - left)) == Interrupt(false)
  {
    if m < replaced - left {
      WellAt(fate, first, replaced - left, first + m);
    } else if m > replaced - left {
      WellAt(fate, first, m, first + (replaced - left));
    }
  }

  function Replacements(items: seq<Item>): seq<Data> {
    seq(|items|, i requires 0 <= i < |items| => items[i].replacement)
  }

  function Contents(files: Files, items: seq<Item>): seq<Data>
    requires forall k :: 0 <= k < |items| ==> items[k].path in files
  {
    seq(|items|, i requires 0 <= i < |items| => files[items[i].path].data)
  }

  lemma {:induction false} StagingKeepsOthers(before: Files, files: Files, items: seq<Item>, news: seq<Path>,
          backups: seq<Path>, bound: nat, next: nat, exact: bool)
    requires Staging(before, files, items, news, backups, bound, next)
    requires (exact ==> NoStrays(before, files, news, backups))
    requires forall k :: 0 <= k < |items| ==> items[k].path < bound
    ensures OthersKept(before, files, items, news, backups, exact, bound)
    ensures Waiting(before, files, items, 0) && Torn(before, files, items, 0)
    ensures |news| == |backups| == |items| ==>
        NewsStaged(files, items, news, 0) && BackupsStaged(files, items, backups, |items|)
  {
  }

  // Every target exists as it did and has its old contents.
  predicate AllOld(before: Files, files: Files, items: seq<Item>) { OldFrom(before, files, items, 0) }

  // Every target exists as it did and has its old contents or its new ones.
  predicate OldOrNew(before: Files, files: Files, items: seq<Item>) {
    forall k :: 0 <= k < |items| ==>
      && (items[k].path in files <==> items[k].path in before)
      && (items[k].path in files ==>
           files[items[k].path].data == before[items[k].path].data || files[items[k].path].data == items[k].replacement)
  }

  // The first `r` targets are new and the others old.
  predicate Split(before: Files, files: Files, items: seq<Item>, r: nat) {
    forall k :: 0 <= k < |items| ==>
      && items[k].path in before && items[k].path in files
      && files[items[k].path].data == if k < r then items[k].replacement else before[items[k].path].data
  }

  // What the transaction promises for each result.
  predicate Promise(result: Result, before: Files, files: Files, items: seq<Item>, verified: bool) {
    match result
    case Replaced => Installed(before, files, items, |items|) && verified
    case Stopped => AllOld(before, files, items)
    case RollbackFailed => OldOrNew(before, files, items)
    case Interrupted => OldOrNew(before, files, items)
  }

  lemma {:induction false} AllRestorable(past: Files, items: seq<Item>, news: seq<Path>, backups: seq<Path>,
          replaced: nat, m: nat, bound: nat, next: nat)
    requires m <= replaced <= |items| && Names(news, backups, bound, next)
    requires forall k :: 0 <= k < |items| ==> items[k].path < bound
    requires BackupsStaged(past, items, backups, |items|)
    ensures Restorable(past, items, backups, replaced, m)
  {
    if m > 0 {
      AllRestorable(past, items, news, backups, replaced, m - 1, bound, next);
      BackupsRemain(past, items, news, backups, replaced, m - 1, bound, next);
    }
  }

  // Together: however many targets are put back, each is old or new, and nothing else is touched.
  lemma {:induction false} PuttingBack(before: Files, past: Files, items: seq<Item>, news: seq<Path>,
          backups: seq<Path>, replaced: nat, m: nat, exact: bool, bound: nat, next: nat)
    requires m <= replaced <= |items| && DistinctPaths(items) && Names(news, backups, bound, next)
    requires forall k :: 0 <= k < |items| ==> items[k].path < bound
    requires forall p :: p in before ==> p < bound
    requires BackupsStaged(past, items, backups, |items|)
    requires OthersKept(before, past, items, news, backups, exact, bound)
    requires Torn(before, past, items, replaced) && forall k :: 0 <= k < replaced ==> items[k].path in before
    ensures
      var files := PutBack(past, items, backups, replaced, m);
      && OthersKept(before, files, items, news, backups, exact, bound)
      && OldOrNew(before, files, items) && (m == replaced ==> AllOld(before, files, items))
      && OldFrom(before, files, items, replaced - m)
  {
    OthersRemain(before, past, items, news, backups, replaced, m, exact, bound, next);
    TargetsReturn(before, past, items, news, backups, replaced, m, bound, next);
    TornIsOldOrNew(before, PutBack(past, items, backups, replaced, m), items, replaced - m);
  }

  lemma {:induction false} WellStops(fate: Fates, first: nat, replaced: nat, result: Result, left: nat, m: nat)
    requires Undone(fate, first, replaced, result, left) && m <= replaced && Well(fate, first, m)
    ensures m <= replaced - left
  {
    if m > replaced - left {
      WellAt(fate, first, m, first + (replaced - left));
    }
  }

  lemma {:induction false} PuttingBackInTurn(fate: Fates, first: nat, replaced: nat, result: Result, left: nat,
          undone: nat, before: Files, files: Files, items: seq<Item>)
    requires Undone(fate, first, replaced, result, left) && Progress(fate, first, replaced, left, undone)
    requires undone <= replaced && OldFrom(before, files, items, replaced - undone)
    ensures PutsBack(fate, first, replaced, before, files, items)
  {
    forall m: nat | m <= replaced && Well(fate, first, m) ensures OldFrom(before, files, items, replaced - m) {
      WellStops(fate, first, replaced, result, left, m);
    }
  }

  // The rollback after the targets below `replaced` were begun.
  method RollBackAll(fs: FileSystem, items: seq<Item>, news: seq<Path>, backups: seq<Path>, replaced: nat,
          ghost before: Files, ghost exact: bool, ghost bound: nat)
      returns (result: Result)
    requires fs.Valid() && DistinctPaths(items) && Names(news, backups, bound, fs.next) && bound <= fs.next
    requires forall k :: 0 <= k < |items| ==> items[k].path < bound
    requires forall p :: p in before ==> p < bound
    requires replaced <= |items| && BackupsStaged(fs.files, items, backups, |items|)
    requires Torn(before, fs.files, items, replaced) && forall k :: 0 <= k < replaced ==> items[k].path in before
    requires OthersKept(before, fs.files, items, news, backups, exact, bound)
    modifies fs`files, fs`calls
    ensures fs.Valid() && OthersKept(before, fs.files, items, news, backups, exact, bound)
    ensures fs.calls >= old(fs.calls) && result != Replaced
    ensures result == Interrupted <==> fs.InterruptedIn(old(fs.calls), fs.calls)
    ensures result == RollbackFailed <==>
      !fs.InterruptedIn(old(fs.calls), fs.calls) && fs.ErrorIn(old(fs.calls), old(fs.calls) + replaced)
    ensures OldOrNew(before, fs.files, items) && (result == Stopped ==> AllOld(before, fs.files, items))
    ensures PutsBack(fs.fate, old(fs.calls), replaced, before, fs.files, items)
    ensures replaced == |items| && Installed(before, old(fs.files), items, |items|) ==>
      TearsWhereStopped(fs.fate, old(fs.calls), result, before, fs.files, items)
  {
    ghost var late, past, left, undone := fs.calls, fs.files, 0, 0;
    AllRestorable(past, items, news, backups, replaced, replaced, bound, fs.next);
    result, left, undone := Rollback(fs, items, backups, replaced);
    RollbackMeans(fs, late, fs.calls, replaced, result, left, undone, before, past, fs.files, items, news, backups,
        exact, bound, fs.next);
  }

  lemma {:induction false} RollbackMeans(fs: FileSystem, late: nat, last: nat, replaced: nat, result: Result, left: nat,
          undone: nat, before: Files, past: Files, files: Files, items: seq<Item>, news: seq<Path>, backups: seq<Path>,
          exact: bool, bound: nat, next: nat)
    requires DistinctPaths(items) && Names(news, backups, bound, next)
    requires forall k :: 0 <= k < |items| ==> items[k].path < bound
    requires forall p :: p in before ==> p < bound
    requires replaced <= |items| && BackupsStaged(past, items, backups, |items|)
    requires Torn(before, past, items, replaced) && forall k :: 0 <= k < replaced ==> items[k].path in before
    requires OthersKept(before, past, items, news, backups, exact, bound)
    requires Undone(fs.fate, late, replaced, result, left) && undone <= replaced
    requires last == late + (replaced - left) + (if left > 0 then 1 else 0)
    requires Progress(fs.fate, late, replaced, left, undone)
    requires files == PutBack(past, items, backups, replaced, undone)
    ensures OthersKept(before, files, items, news, backups, exact, bound)
    ensures OldOrNew(before, files, items) && (result == Stopped ==> AllOld(before, files, items))
    ensures PutsBack(fs.fate, late, replaced, before, files, items)
    ensures replaced == |items| && Installed(before, past, items, |items|) ==>
      TearsWhereStopped(fs.fate, late, result, before, files, items)
    ensures result == Interrupted <==> fs.InterruptedIn(late, last)
    ensures result == RollbackFailed <==> !fs.InterruptedIn(late, last) && fs.ErrorIn(late, late + replaced)
  {
    UndoneInterrupted(fs, late, replaced, result, left, last);
    PuttingBack(before, past, items, news, backups, replaced, undone, exact, bound, next);
    PuttingBackInTurn(fs.fate, late, replaced, result, left, undone, before, files, items);
    if replaced == |items| && Installed(before, past, items, |items|) {
      TearingFollows(fs.fate, late, result, left, undone, before, past, items, news, backups, bound, next);
    }
  }

  lemma {:induction false} TornIsOldOrNew(before: Files, files: Files, items: seq<Item>, r: nat)
    requires Torn(before, files, items, r)
    ensures OldOrNew(before, files, items) && (r == 0 ==> AllOld(before, files, items))
  {
  }

  // Installs the new files and has them verified; an interrupt while verifying is a failed verification.
  method InstallAndVerify(fs: FileSystem, items: seq<Item>, verify: seq<Data> -> bool, news: seq<Path>,
          backups: seq<Path>, ghost before: Files, ghost exact: bool, ghost bound: nat)
      returns (replaced: nat, installed: bool, verified: bool)
    requires fs.Valid() && DistinctPaths(items) && Names(news, backups, bound, fs.next) && bound <= fs.next
    requires forall k :: 0 <= k < |items| ==> items[k].path < bound
    requires forall p :: p in before ==> p < bound
    requires NewsStaged(fs.files, items, news, 0) && BackupsStaged(fs.files, items, backups, |items|)
    requires Waiting(before, fs.files, items, 0) && OthersKept(before, fs.files, items, news, backups, exact, bound)
    modifies fs`files, fs`calls
    ensures fs.Valid() && replaced <= |items| && BackupsStaged(fs.files, items, backups, |items|)
    ensures OthersKept(before, fs.files, items, news, backups, exact, bound)
    ensures Torn(before, fs.files, items, replaced) && forall k :: 0 <= k < replaced ==> items[k].path in before
    ensures installed ==> replaced == |items| && Installed(before, fs.files, items, |items|)
    ensures verified ==> installed && verify(Replacements(items))
    ensures fs.calls >= old(fs.calls)
    ensures installed == Installing(fs.fate, old(fs.calls), items, before, 0).ok
    ensures Course(fs.calls, replaced, verified) ==
      Trying(fs.fate, old(fs.calls), items, before, verify(Replacements(items)))
  {
    replaced, installed := InstallAll(fs, items, news, backups, before, exact, bound);
    verified := false;
    if installed {
      InstalledContents(before, fs.files, items);
      var raised := fs.Next();
      verified := raised.Fine? && verify(Contents(fs.files, items));
    }
  }

  // Installs, verifies, and rolls back if that was not the end of it; `late` is the number of calls made when
  // a rollback began, or when none was needed.
  method InstallOrRollBack(fs: FileSystem, items: seq<Item>, verify: seq<Data> -> bool, news: seq<Path>,
          backups: seq<Path>, ghost before: Files, ghost exact: bool, ghost bound: nat)
      returns (result: Result, ghost late: nat)
    requires fs.Valid() && DistinctPaths(items) && Names(news, backups, bound, fs.next) && bound <= fs.next
    requires forall k :: 0 <= k < |items| ==> items[k].path < bound
    requires forall p :: p in before ==> p < bound
    requires NewsStaged(fs.files, items, news, 0) && BackupsStaged(fs.files, items, backups, |items|)
    requires Waiting(before, fs.files, items, 0) && OthersKept(before, fs.files, items, news, backups, exact, bound)
    modifies fs`files, fs`calls
    ensures fs.Valid() && old(fs.calls) <= late <= fs.calls
    ensures OthersKept(before, fs.files, items, news, backups, exact, bound)
    ensures Promise(result, before, fs.files, items, verify(Replacements(items)))
    ensures result == Interrupted <==> fs.InterruptedIn(late, fs.calls)
    ensures
      var course := Trying(fs.fate, old(fs.calls), items, before, verify(Replacements(items)));
      && late == course.calls && result == fs.Ending(course, fs.calls)
      && (!course.ok ==> PutsBack(fs.fate, late, course.begun, before, fs.files, items))
    ensures Installing(fs.fate, old(fs.calls), items, before, 0).ok && result != Replaced ==>
      TearsWhereStopped(fs.fate, late, result, before, fs.files, items)
  {
    var replaced, installed, verified := InstallAndVerify(fs, items, verify, news, backups, before, exact, bound);
    late := fs.calls;
    if verified {
      return Replaced, late;
    }
    result := RollBackAll(fs, items, news, backups, replaced, before, exact, bound);
  }

  lemma {:induction false} InstalledContents(before: Files, files: Files, items: seq<Item>)
    requires Installed(before, files, items, |items|)
    ensures forall k :: 0 <= k < |items| ==> items[k].path in files
    ensures Contents(files, items) == Replacements(items)
  {
  }

  // An interrupt that stops the rollback after `m` restored targets leaves those old and the others new.
  ghost predicate TearsWhereStopped(fate: Fates, late: nat, result: Result, before: Files, files: Files,
          items: seq<Item>) {
    forall m: nat :: m < |items| && StopsAt(fate, late, m) ==>
      result == Interrupted && Split(before, files, items, |items| - m)
  }

  lemma {:induction false} TearingFollows(fate: Fates, late: nat, result: Result, left: nat, undone: nat,
          before: Files, past: Files, items: seq<Item>, news: seq<Path>, backups: seq<Path>, bound: nat, next: nat)
    requires DistinctPaths(items) && Names(news, backups, bound, next)
    requires forall k :: 0 <= k < |items| ==> items[k].path < bound
    requires BackupsStaged(past, items, backups, |items|) && Installed(before, past, items, |items|)
    requires Undone(fate, late, |items|, result, left) && undone <= |items|
    requires Progress(fate, late, |items|, left, undone)
    ensures TearsWhereStopped(fate, late, result, before, PutBack(past, items, backups, |items|, undone), items)
  {
    forall m: nat | m < |items| && StopsAt(fate, late, m)
      ensures result == Interrupted && Split(before, PutBack(past, items, backups, |items|, undone), items, |items| - m)
    {
      StopDecides(fate, late, |items|, result, left, m);
      PartlyRestored(before, past, items, news, backups, m, bound, next);
    }
  }

  // Everything up to the clean-up of the temporary files.
  method Attempt(fs: FileSystem, items: seq<Item>, verify: seq<Data> -> bool)
      returns (result: Result, news: seq<Path>, backups: seq<Path>, ghost late: nat)
    requires fs.Valid() && DistinctPaths(items) && forall k :: 0 <= k < |items| ==> items[k].path < fs.next
    modifies fs
    ensures fs.Valid() && fs.strays >= old(fs.strays) && old(fs.calls) <= late <= fs.calls
    ensures OthersKept(old(fs.files), fs.files, items, news, backups, fs.strays == old(fs.strays), old(fs.next))
    ensures Names(news, backups, old(fs.next), fs.next) && |news| <= |items| && |backups| <= |items|
    ensures fs.strays > old(fs.strays) ==> fs.FailedIn(old(fs.calls), old(fs.calls) + 6 * |items|)
    ensures Promise(result, old(fs.files), fs.files, items, verify(Replacements(items)))
    ensures result == Interrupted <==> fs.InterruptedIn(late, fs.calls)
    ensures
      var course := Going(fs.fate, old(fs.calls), items, old(fs.files), verify(Replacements(items)));
      && late == course.calls && result == fs.Ending(course, fs.calls)
      && (!course.ok ==> PutsBack(fs.fate, late, course.begun, old(fs.files), fs.files, items))
    ensures FullyInstalled(fs.fate, old(fs.calls), items, old(fs.files)) && result != Replaced ==>
      TearsWhereStopped(fs.fate, late, result, old(fs.files), fs.files, items)
  {
    ghost var before, bound, strayed := fs.files, fs.next, fs.strays;
    var staged;
    news, backups, staged := StageAll(fs, items);
    late := fs.calls;
    ghost var exact := fs.strays == strayed;
    StagingKeepsOthers(before, fs.files, items, news, backups, bound, fs.next, exact);
    if !staged {
      return Stopped, news, backups, late;
    }
    result, late := InstallOrRollBack(fs, items, verify, news, backups, before, exact, bound);
  }

  lemma {:induction false} PartlyRestored(before: Files, past: Files, items: seq<Item>, news: seq<Path>,
          backups: seq<Path>, m: nat, bound: nat, next: nat)
    requires DistinctPaths(items) && Names(news, backups, bound, next) && m <= |items|
    requires forall k :: 0 <= k < |items| ==> items[k].path < bound
    requires BackupsStaged(past, items, backups, |items|) && Installed(before, past, items, |items|)
    ensures Split(before, PutBack(past, items, backups, |items|, m), items, |items| - m)
  {
    var files, r := PutBack(past, items, backups, |items|, m), |items| - m;
    InstalledIsTorn(before, past, items, |items|, |items|);
    TargetsReturn(before, past, items, news, backups, |items|, m, bound, next);
    RestRemains(past, items, news, backups, |items|, m, bound, next);
    forall k | 0 <= k < r ensures Unchanged(past, files, items[k].path) {
      SameBelowAt(past, files, items, r, k);
    }
  }

  /** Whatever fails, before or after taking effect, the transaction ends in one of three ways unless an
      interrupt escapes from the rollback or the clean-up: every target new and verified, every target as it
      was, or a reported rollback failure with every target old or new. Which one is settled by the fates of
      the calls: the rollback begins where `Going` stops, and whatever it began is put back in turn until a
      call of the rollback fails. No other file is touched, and no temporary file is left unless a call failed
      while staging, its first 6 calls a file, or while cleaning up, its last 2 calls a file; failing to
      install, to verify or to roll back leaves none. */
  method ReplaceAll(fs: FileSystem, items: seq<Item>, verify: seq<Data> -> bool)
      returns (result: Result, ghost late: nat)
    requires fs.Valid() && DistinctPaths(items) && forall k :: 0 <= k < |items| ==> items[k].path < fs.next
    modifies fs
    ensures fs.Valid() && fs.strays >= old(fs.strays) && old(fs.calls) <= late <= fs.calls
    ensures forall p :: p in old(fs.files) && !IsTarget(items, p) ==> p in fs.files && fs.files[p] == old(fs.files)[p]
    ensures fs.strays == old(fs.strays) ==> fs.files.Keys == old(fs.files).Keys
    ensures fs.strays > old(fs.strays) ==>
      || fs.FailedIn(old(fs.calls), old(fs.calls) + 6 * |items|)
      || fs.FailedIn(fs.calls - 2 * |items|, fs.calls)
    ensures Promise(result, old(fs.files), fs.files, items, verify(Replacements(items)))
    ensures result == Interrupted <==> fs.InterruptedIn(late, fs.calls)
    ensures
      var course := Going(fs.fate, old(fs.calls), items, old(fs.files), verify(Replacements(items)));
      && late == course.calls && result == fs.Ending(course, fs.calls)
      && (!course.ok ==> PutsBack(fs.fate, late, course.begun, old(fs.files), fs.files, items))
    ensures
      FullyInstalled(fs.fate, old(fs.calls), items, old(fs.files))
      && !Going(fs.fate, old(fs.calls), items, old(fs.files), verify(Replacements(items))).ok ==>
        TearsWhereStopped(fs.fate, late, result, old(fs.files), fs.files, items)
    ensures fs.FineFor(old(fs.calls), 8 * |items| + 1) && AsParsed(old(fs.files), items) ==>
      && late == old(fs.calls) + 8 * |items| + 1
      && if verify(Replacements(items)) then result == Replaced || fs.InterruptedIn(late, fs.calls)
         else TearsWhereStopped(fs.fate, late, result, old(fs.files), fs.files, items)
  {
    var news, backups;
    result, news, backups, late := Attempt(fs, items, verify);
    ghost var attempted := fs.files;
    var interrupted := fs.Cleanup(news);
    if !interrupted {
      interrupted := fs.Cleanup(backups);
    }
    CleanedUp(old(fs.files), attempted, fs.files, result, items, news, backups, verify(Replacements(items)),
              fs.strays == old(fs.strays), old(fs.next));
    if interrupted {
      result := Interrupted;
    }
    if fs.FineFor(old(fs.calls), 8 * |items| + 1) && AsParsed(old(fs.files), items) {
      GoingFine(fs.fate, old(fs.calls), items, old(fs.files), verify(Replacements(items)));
    }
  }

  // Some temporary files were removed, and nothing else.
  predicate Cleaned(attempted: Files, files: Files, news: seq<Path>, backups: seq<Path>) {
    && (forall p :: p in files ==> p in attempted && files[p] == attempted[p])
    && (forall p :: p in attempted && p !in news && p !in backups ==> p in files)
  }

  lemma {:induction false} CleanedUp(before: Files, attempted: Files, files: Files, result: Result, items: seq<Item>,
          news: seq<Path>, backups: seq<Path>, verified: bool, exact: bool, bound: nat)
    requires forall k :: 0 <= k < |items| ==> items[k].path < bound
    requires forall p :: p in before ==> p < bound
    requires forall p :: p in news || p in backups ==> p >= bound
    requires OthersKept(before, attempted, items, news, backups, exact, bound)
    requires Promise(result, before, attempted, items, verified) && Cleaned(attempted, files, news, backups)
    requires exact ==> forall p :: p in news || p in backups ==> p !in files
    ensures Promise(result, before, files, items, verified) && OldOrNew(before, files, items)
    ensures forall p :: p in before && !IsTarget(items, p) ==> p in files && files[p] == before[p]
    ensures exact ==> files.Keys == before.Keys
    ensures forall r: nat :: Split(before, attempted, items, r) ==> Split(before, files, items, r)
    ensures forall r: nat :: OldFrom(before, attempted, items, r) ==> OldFrom(before, files, items, r)
  {
    assert forall k :: 0 <= k < |items| ==> Unchanged(attempted, files, items[k].path);
    assert OldOrNew(before, attempted, items);
    if exact {
      forall p | p in before ensures p in files {
        if IsTarget(items, p) {
          var k :| 0 <= k < |items| && items[k].path == p;
          assert Unchanged(attempted, files, items[k].path);
        }
      }
    }
  }

  /** An interrupt that escapes from the rollback can leave neither the old files nor the new ones: with two
      targets, verification failing and the second restoring call interrupted, the first target stays new
      and the second is old again. */
  method RollbackCanBeInterrupted(a: Data, b: Data, c: Data, d: Data)
      returns (fs: FileSystem, items: seq<Item>, before: Files, result: Result)
    requires a != c && b != d
    ensures result == Interrupted && |items| == 2 && AsParsed(before, items)
    ensures fs.files.Keys >= {0, 1} && fs.files[0].data == c && fs.files[1].data == b
    ensures !AllOld(before, fs.files, items) && !Installed(before, fs.files, items, |items|)
  {
    before := map[0 := File(a, 0), 1 := File(b, 0)];
    items := [Item(0, a, c, 0), Item(1, b, d, 0)];
    fs := new FileSystem(before, 2, seq(18, _ => Fine) + [Interrupt(false)]);
    ghost var late;
    result, late := ReplaceAll(fs, items, contents => false);
    assert forall n: nat :: n < 18 ==> At(fs.fate, n).Fine?;
    assert Well(fs.fate, late, 0) && StopsAt(fs.fate, late, 1);
    assert Split(before, fs.files, items, 1);
    assert items[0].path == 0 && items[1].path == 1;
  }
}
