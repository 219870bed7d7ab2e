/** The account registry and its storage epochs (src/account_scope.rs, lines 514-660, 710-871 and 878-985). A call
    reads everything it uses from disk, so a restart between two calls changes nothing; directories may
    change in any way between calls. */
module AccountRegistry {
  import opened Basics

  const PROFILE_SCHEMA := "codex-info-profile-scope-v1"

  // Lower-case hex of this many bytes.
  predicate IsHex(s: string, bytes: nat) {
    |s| == 2 * bytes && forall i :: 0 <= i < |s| ==> '0' <= s[i] <= '9' || 'a' <= s[i] <= 'f'
  }

  function Zeros(bytes: nat): (s: string)
    ensures IsHex(s, bytes)
  {
    seq(2 * bytes, _ => '0')
  }

  type ProfileId = s: string | IsHex(s, 16) witness Zeros(16)

  type InstallKey = s: string | IsHex(s, 32) witness Zeros(32)

  // A scope id is the hex HMAC of an account under the install key, taken to be injective; a registry file
  // may also hold keys that are none.
  datatype Scope = Scope(installKey: string, account: nat) | Other(text: string)

  datatype RegistryState = Allocated | Initialized

  datatype Entry = Entry(epoch: nat, state: RegistryState)

  datatype Registry = Registry(schema: string, profile: string, installKey: string, next: nat,
                               accounts: map<Scope, Entry>)

  datatype Partition = Partition(profile: string, scope: Scope, epoch: nat)

  datatype Artifact = Database | Candidate | WriterLock | Sidecar | Backup | Foreign

  // The epoch directories of an account directory, with their entries.
  type AccountDirectory = map<nat, set<Artifact>>

  datatype Disk = Disk(metadata: Option<Registry>, directories: map<Scope, AccountDirectory>)

  datatype Error = InvalidMetadata | RecoveryRequired | Io

  datatype Outcome = Granted(partition: Partition) | Marked | Failure(error: Error)

  // A metadata write fails before its rename, after it, or not at all.
  datatype Writing = Unwritten | Renamed | Written

  const MAX_EPOCH: nat := 0xffff_ffff_ffff_ffff

  // ---- what a registry must satisfy to be read or written ----

  predicate ValidRegistry(r: Registry) {
    && r.schema == PROFILE_SCHEMA && r.next > 0 && IsHex(r.profile, 16) && IsHex(r.installKey, 32)
    && forall s :: s in r.accounts ==> ValidScope(s) && 0 < r.accounts[s].epoch < r.next
  }

  predicate ValidScope(s: Scope) { s.Other? ==> IsHex(s.text, 32) }

  method ValidateMetadata(r: Registry) returns (ok: bool)
    ensures ok <==> ValidRegistry(r)
  {
    if r.schema != PROFILE_SCHEMA || r.next == 0 {
      return false;
    }
    if !IsHex(r.profile, 16) || !IsHex(r.installKey, 32) {
      return false;
    }
    var left := r.accounts.Keys;
    var maximum := 0;
    while exists s :: s in left
      invariant left <= r.accounts.Keys
      invariant forall s :: s in r.accounts && s !in left ==> ValidScope(s) && 0 < r.accounts[s].epoch <= maximum
      invariant maximum == 0 || exists s :: s in r.accounts && r.accounts[s].epoch == maximum
      decreases |left|
    {
      var s :| s in left;
      left := left - {s};
      if !ValidScope(s) || r.accounts[s].epoch == 0 {
        return false;
      }
      if maximum < r.accounts[s].epoch {
        maximum := r.accounts[s].epoch;
      }
    }
    ok := r.next > maximum;
  }

  predicate OnlyHexDigits(s: string) { forall c :: c in s ==> c in "0123456789abcdef" }

  /** What a registry file must say to be accepted. */
  lemma {:induction false} ValidIff(r: Registry)
    ensures ValidRegistry(r) <==>
      && r.schema == "codex-info-profile-scope-v1" && r.next != 0
      && |r.profile| == 32 && OnlyHexDigits(r.profile) && |r.installKey| == 64 && OnlyHexDigits(r.installKey)
      && forall s :: s in r.accounts ==>
           && 1 <= r.accounts[s].epoch <= r.next - 1
           && (s.Other? ==> |s.text| == 64 && OnlyHexDigits(s.text))
  {
    HexDigitsAre(r.profile, 16);
    HexDigitsAre(r.installKey, 32);
    forall s | s in r.accounts && s.Other? ensures IsHex(s.text, 32) <==> |s.text| == 64 && OnlyHexDigits(s.text) {
      HexDigitsAre(s.text, 32);
    }
  }

  lemma {:induction false} HexDigitsAre(s: string, bytes: nat)
    ensures IsHex(s, bytes) <==> |s| == 2 * bytes && OnlyHexDigits(s)
  {
    forall i | 0 <= i < |s| ensures s[i] in "0123456789abcdef" <==> '0' <= s[i] <= '9' || 'a' <= s[i] <= 'f' {
      HexDigit(s[i]);
    }
  }

  lemma {:induction false} HexDigit(c: char)
    ensures c in "0123456789abcdef" <==> '0' <= c <= '9' || 'a' <= c <= 'f'
  {
    var digits := "0123456789abcdef";
    assert |digits| == 16;
    if '0' <= c <= '9' {
      assert digits[c as int - '0' as int] == c;
    } else if 'a' <= c <= 'f' {
      assert digits[10 + c as int - 'a' as int] == c;
    }
  }

  // What one registered account may have on disk.
  predicate EntryFits(entry: Entry, directories: map<Scope, AccountDirectory>, s: Scope) {
    if s !in directories then entry.state == Allocated
    else
      && directories[s].Keys <= {entry.epoch}
      && if entry.epoch !in directories[s] then entry.state == Allocated
         else
           && Foreign !in directories[s][entry.epoch]
           && (entry.state == Initialized ==> Database in directories[s][entry.epoch])
  }

  predicate ArtifactsFit(r: Registry, directories: map<Scope, AccountDirectory>) {
    && directories.Keys <= r.accounts.Keys
    && forall s :: s in r.accounts ==> EntryFits(r.accounts[s], directories, s)
  }

  method ValidateArtifacts(r: Registry, directories: map<Scope, AccountDirectory>) returns (ok: bool)
    ensures ok <==> ArtifactsFit(r, directories)
  {
    var names := directories.Keys;
    while exists s :: s in names
      invariant names <= directories.Keys
      invariant forall s :: s in directories && s !in names ==> s in r.accounts
      decreases |names|
    {
      var s :| s in names;
      names := names - {s};
      if s !in r.accounts {
        return false;
      }
    }
    var left := r.accounts.Keys;
    while exists s :: s in left
      invariant left <= r.accounts.Keys
      invariant forall s :: s in r.accounts && s !in left ==> EntryFits(r.accounts[s], directories, s)
      decreases |left|
    {
      var s :| s in left;
      left := left - {s};
      var fits := ValidateEntry(r.accounts[s], directories, s);
      if !fits {
        return false;
      }
    }
    ok := true;
  }

  method ValidateEntry(entry: Entry, directories: map<Scope, AccountDirectory>, s: Scope) returns (ok: bool)
    ensures ok <==> EntryFits(entry, directories, s)
  {
    if s !in directories {
      return entry.state != Initialized;
    }
    var epochs := directories[s].Keys;
    while exists epoch: nat :: epoch in epochs
      invariant epochs <= directories[s].Keys
      invariant forall epoch: nat :: epoch in directories[s] && epoch !in epochs ==> epoch == entry.epoch
      decreases |epochs|
    {
      var epoch: nat :| epoch in epochs;
      epochs := epochs - {epoch};
      if epoch != entry.epoch {
        return false;
      }
    }
    if entry.epoch !in directories[s] {
      return entry.state != Initialized;
    }
    var left := directories[s][entry.epoch];
    var databaseExists := false;
    while exists artifact :: artifact in left
      invariant left <= directories[s][entry.epoch]
      invariant Foreign in directories[s][entry.epoch] ==> Foreign in left
      invariant databaseExists <==> Database in directories[s][entry.epoch] && Database !in left
      decreases |left|
    {
      var artifact :| artifact in left;
      left := left - {artifact};
      if artifact == Foreign {
        return false;
      }
      databaseExists := databaseExists || artifact == Database;
    }
    ok := entry.state != Initialized || databaseExists;
  }

  // ---- the two operations ----

  /** How the calls of one operation turn out. `profile` and `installKey` are what a new registry would
      draw; `readable` is whether the disk can be read. */
  datatype Calls = Calls(profile: ProfileId, installKey: InstallKey, first: Writing, readable: bool, second: Writing)

  function Write(d: Disk, r: Registry, writing: Writing): (Disk, bool) {
    if !ValidRegistry(r) || writing == Unwritten then (d, false) else (d.(metadata := Some(r)), writing == Written)
  }

  function Load(d: Disk, calls: Calls): Result<Registry, Error> {
    if d.metadata.None? || !calls.readable then Err(Io)
    else if !ValidRegistry(d.metadata.value) then Err(InvalidMetadata)
    else Ok(d.metadata.value)
  }

  function LoadOrInitialize(d: Disk, calls: Calls): (Disk, Result<Registry, Error>) {
    if d.metadata.Some? then (d, Load(d, calls))
    else if d.directories != map[] then (d, Err(RecoveryRequired))
    else
      var (after, ok) := Write(d, Fresh(calls), calls.first);
      (after, if ok then Load(after, calls) else Err(Io))
  }

  // The state of the account's epoch directory must agree with its entry before it is handed out.
  function Grant(d: Disk, r: Registry, s: Scope, entry: Entry): Outcome {
    var artifacts := if s in d.directories && entry.epoch in d.directories[s] then d.directories[s][entry.epoch]
        else {};
    if if entry.state == Allocated then artifacts <= {Database, Candidate} else Database in artifacts
    then Granted(Partition(r.profile, s, entry.epoch)) else Failure(RecoveryRequired)
  }

  // The registry with the next epoch given to an account,
  function WithEntry(r: Registry, s: Scope): Registry {
    r.(next := r.next + 1, accounts := r.accounts[s := Entry(r.next, Allocated)])
  }

  // and with a partition's entry initialized.
  function WithInitialized(r: Registry, p: Partition): Registry {
    r.(accounts := r.accounts[p.scope := Entry(p.epoch, Initialized)])
  }

  predicate HasDatabase(d: Disk, p: Partition) {
    p.scope in d.directories && p.epoch in d.directories[p.scope] && Database in d.directories[p.scope][p.epoch]
  }

  // The registry knows the partition.
  predicate Knows(r: Registry, p: Partition) {
    r.profile == p.profile && p.scope in r.accounts && r.accounts[p.scope].epoch == p.epoch
  }

  function Fresh(calls: Calls): Registry { Registry(PROFILE_SCHEMA, calls.profile, calls.installKey, 1, map[]) }

  function ResolveIn(d: Disk, r: Registry, account: nat, calls: Calls): (Disk, Outcome) {
    var s := Scope(r.installKey, account);
    if !ArtifactsFit(r, d.directories) then (d, Failure(RecoveryRequired))
    else if s in r.accounts then (d, Grant(d, r, s, r.accounts[s]))
    else if r.next >= MAX_EPOCH then (d, Failure(RecoveryRequired))
    else
      var (after, ok) := Write(d, WithEntry(r, s), calls.second);
      (after, if ok then Grant(after, WithEntry(r, s), s, Entry(r.next, Allocated)) else Failure(Io))
  }

  function Resolve(d: Disk, account: nat, calls: Calls): (Disk, Outcome) {
    var (loaded, r) := LoadOrInitialize(d, calls);
    if r.Err? then (loaded, Failure(r.error)) else ResolveIn(loaded, r.value, account, calls)
  }

  function Mark(d: Disk, p: Partition, calls: Calls): (Disk, Outcome) {
    if !HasDatabase(d, p) then (d, Failure(RecoveryRequired))
    else
      var r := Load(d, calls);
      if r.Err? then (d, Failure(r.error))
      else if !Knows(r.value, p) then (d, Failure(RecoveryRequired))
      else if r.value.accounts[p.scope].state == Initialized then (d, Marked)
      else
        var (after, ok) := Write(d, WithInitialized(r.value, p), calls.second);
        (after, if ok then Marked else Failure(Io))
  }

  // ---- any sequence of operations ----

  datatype Operation =
    | ResolveOp(account: nat, calls: Calls)
    | MarkOp(partition: Partition, calls: Calls)
    | Outside(directories: map<Scope, AccountDirectory>)

  function Apply(d: Disk, op: Operation): (Disk, Outcome) {
    match op
    case ResolveOp(account, calls) => Resolve(d, account, calls)
    case MarkOp(partition, calls) => Mark(d, partition, calls)
    case Outside(directories) => (d.(directories := directories), Marked)
  }

  function After(ops: seq<Operation>): Disk {
    if |ops| == 0 then Disk(None, map[]) else Apply(After(ops[..|ops| - 1]), ops[|ops| - 1]).0
  }

  function OutcomeAt(ops: seq<Operation>, i: nat): Outcome
    requires i < |ops|
  {
    Apply(After(ops[..i]), ops[i]).1
  }

  // Epochs are given out once, below `next`, and only to accounts of this installation.
  predicate Consistent(d: Disk) {
    d.metadata.Some? ==>
      var r := d.metadata.value;
      && ValidRegistry(r) && r.next <= MAX_EPOCH
      && (forall s :: s in r.accounts ==> s.Scope? && s.installKey == r.installKey)
      && (forall s, t :: s in r.accounts && t in r.accounts && r.accounts[s].epoch == r.accounts[t].epoch ==> s == t)
  }

  // A registry only grows: ids stay, epochs stay, and an entry only moves from allocated to initialized.
  predicate Grows(d: Disk, e: Disk) {
    d.metadata.Some? ==>
      && e.metadata.Some?
      && var (r, q) := (d.metadata.value, e.metadata.value);
      && q.profile == r.profile && q.installKey == r.installKey && r.next <= q.next
      && forall s :: s in r.accounts ==>
           && s in q.accounts && q.accounts[s].epoch == r.accounts[s].epoch
           && (r.accounts[s].state == Initialized ==> q.accounts[s].state == Initialized)
  }

  // What a granted partition says is what the registry says.
  predicate Backed(d: Disk, account: nat, p: Partition) {
    && d.metadata.Some? && p.profile == d.metadata.value.profile
    && p.scope == Scope(d.metadata.value.installKey, account)
    && p.scope in d.metadata.value.accounts && d.metadata.value.accounts[p.scope].epoch == p.epoch
  }

  lemma {:induction false} LoadKeeps(d: Disk, calls: Calls)
    requires Consistent(d)
    ensures Consistent(LoadOrInitialize(d, calls).0) && Grows(d, LoadOrInitialize(d, calls).0)
    ensures LoadOrInitialize(d, calls).1.Ok? ==>
        LoadOrInitialize(d, calls).0.metadata == Some(LoadOrInitialize(d, calls).1.value)
  {
  }

  // The next epoch is free, and stays below the new `next`.
  lemma {:induction false} AllocationKeeps(d: Disk, r: Registry, s: Scope)
    requires Consistent(d) && d.metadata == Some(r) && s !in r.accounts
    requires s.Scope? && s.installKey == r.installKey && r.next < MAX_EPOCH
    ensures
      var more := WithEntry(r, s);
      ValidRegistry(more) && Consistent(d.(metadata := Some(more))) && Grows(d, d.(metadata := Some(more)))
  {
  }

  lemma {:induction false} ResolveInKeeps(d: Disk, r: Registry, account: nat, calls: Calls)
    requires Consistent(d) && d.metadata == Some(r)
    ensures Consistent(ResolveIn(d, r, account, calls).0) && Grows(d, ResolveIn(d, r, account, calls).0)
    ensures ResolveIn(d, r, account, calls).1.Granted? ==>
      Backed(ResolveIn(d, r, account, calls).0, account, ResolveIn(d, r, account, calls).1.partition)
  {
    var s := Scope(r.installKey, account);
    if s !in r.accounts && r.next < MAX_EPOCH {
      AllocationKeeps(d, r, s);
    }
  }

  lemma {:induction false} ResolveKeeps(d: Disk, account: nat, calls: Calls)
    requires Consistent(d)
    ensures Consistent(Resolve(d, account, calls).0) && Grows(d, Resolve(d, account, calls).0)
    ensures Resolve(d, account, calls).1.Granted? ==>
        Backed(Resolve(d, account, calls).0, account, Resolve(d, account, calls).1.partition)
  {
    var (loaded, r) := LoadOrInitialize(d, calls);
    LoadKeeps(d, calls);
    if r.Ok? {
      ResolveInKeeps(loaded, r.value, account, calls);
      GrowthAdds(d, loaded, ResolveIn(loaded, r.value, account, calls).0);
    }
  }

  lemma {:induction false} GrowthAdds(d: Disk, e: Disk, f: Disk)
    requires Grows(d, e) && Grows(e, f)
    ensures Grows(d, f)
  {
  }

  lemma {:induction false} MarkKeeps(d: Disk, p: Partition, calls: Calls)
    requires Consistent(d)
    ensures Consistent(Mark(d, p, calls).0) && Grows(d, Mark(d, p, calls).0)
  {
    if d.metadata.Some? && Knows(d.metadata.value, p) {
      MarkingKeeps(d, d.metadata.value, p);
    }
  }

  lemma {:induction false} MarkingKeeps(d: Disk, r: Registry, p: Partition)
    requires Consistent(d) && d.metadata == Some(r) && Knows(r, p)
    ensures
      var more := WithInitialized(r, p);
      ValidRegistry(more) && Consistent(d.(metadata := Some(more))) && Grows(d, d.(metadata := Some(more)))
  {
  }

  lemma {:induction false} RunIsConsistent(ops: seq<Operation>)
    ensures Consistent(After(ops))
  {
    if |ops| > 0 {
      RunIsConsistent(ops[..|ops| - 1]);
      var d := After(ops[..|ops| - 1]);
      match ops[|ops| - 1] {
        case ResolveOp(account, calls) => ResolveKeeps(d, account, calls);
        case MarkOp(partition, calls) => MarkKeeps(d, partition, calls);
        case Outside(_) =>
      }
    }
  }

  /** Along every run the registry only grows. */
  lemma {:induction false} RunOnlyGrows(ops: seq<Operation>, i: nat)
    requires i <= |ops|
    ensures Grows(After(ops[..i]), After(ops))
    decreases |ops| - i
  {
    if i == |ops| {
      assert ops[..i] == ops;
    } else {
      assert ops[..i + 1][..i] == ops[..i];
      RunIsConsistent(ops[..i]);
      match ops[i] {
        case ResolveOp(account, calls) => ResolveKeeps(After(ops[..i]), account, calls);
        case MarkOp(partition, calls) => MarkKeeps(After(ops[..i]), partition, calls);
        case Outside(_) =>
      }
      RunOnlyGrows(ops, i + 1);
      GrowthAdds(After(ops[..i]), After(ops[..i + 1]), After(ops));
    }
  }

  lemma {:induction false} GrantStaysBacked(ops: seq<Operation>, i: nat)
    requires i < |ops| && ops[i].ResolveOp? && OutcomeAt(ops, i).Granted?
    ensures Backed(After(ops), ops[i].account, OutcomeAt(ops, i).partition)
  {
    RunIsConsistent(ops[..i]);
    ResolveKeeps(After(ops[..i]), ops[i].account, ops[i].calls);
    assert ops[..i + 1][..i] == ops[..i];
    RunOnlyGrows(ops, i + 1);
  }

  /** Over any sequence of calls, restarts and failed writes, an account is always given the same partition,
      and two accounts never share an epoch. */
  lemma {:induction false} EpochsAreForever(ops: seq<Operation>, i: nat, j: nat)
    requires i < |ops| && ops[i].ResolveOp? && OutcomeAt(ops, i).Granted?
    requires j < |ops| && ops[j].ResolveOp? && OutcomeAt(ops, j).Granted?
    ensures ops[i].account == ops[j].account <==> OutcomeAt(ops, i).partition == OutcomeAt(ops, j).partition
    ensures ops[i].account != ops[j].account ==> OutcomeAt(ops, i).partition.epoch != OutcomeAt(ops, j).partition.epoch
    ensures After(ops).metadata.Some? && OutcomeAt(ops, i).partition.epoch < After(ops).metadata.value.next
  {
    GrantStaysBacked(ops, i);
    GrantStaysBacked(ops, j);
    RunIsConsistent(ops);
  }

  /** A registry that is gone is never replaced while any account directory is left. */
  lemma {:induction false} LostRegistryIsNotReplaced(d: Disk, account: nat, calls: Calls)
    requires d.metadata == None
    ensures d.directories != map[] ==> Resolve(d, account, calls) == (d, Failure(RecoveryRequired))
    ensures Resolve(d, account, calls).0.metadata.Some? <==> d.directories == map[] && calls.first != Unwritten
  {
  }

  /** A first call whose write fails after the rename reports the failure, and the next call is given the
      very epoch that the failed one allocated. */
  lemma {:induction false} LateFailureIsTakenUp(d: Disk, account: nat, calls: Calls, again: Calls)
    requires Consistent(d) && d.metadata.Some? && ArtifactsFit(d.metadata.value, d.directories)
    requires Scope(d.metadata.value.installKey, account) !in d.metadata.value.accounts
    requires d.metadata.value.next < MAX_EPOCH
    requires calls.readable && calls.second == Renamed && again.readable
    ensures Resolve(d, account, calls).1 == Failure(Io)
    ensures
      var r := d.metadata.value;
      Resolve(Resolve(d, account, calls).0, account, again) ==
        (Resolve(d, account, calls).0, Granted(Partition(r.profile, Scope(r.installKey, account), r.next)))
  {
    var r := d.metadata.value;
    var s := Scope(r.installKey, account);
    AllocationKeeps(d, r, s);
    var more := WithEntry(r, s);
    assert Resolve(d, account, calls).0 == d.(metadata := Some(more));
    assert ArtifactsFit(more, d.directories);
  }

  // The epoch directory of this account holds something that a first opening does not leave.
  predicate Littered(d: Disk, s: Scope, epoch: nat) {
    s in d.directories && epoch in d.directories[s]
    && exists artifact :: artifact in d.directories[s][epoch] && artifact != Database && artifact != Candidate
  }

  /** Whom a readable registry grants a partition: a registered account whose entry is initialized or whose epoch
      directory holds no more than database and candidate, and a new one if an epoch is left and the registry
      could be written; provided that the directories fit the registry at all. */
  lemma {:induction false} GrantedIff(d: Disk, account: nat, calls: Calls)
    requires Consistent(d) && d.metadata.Some? && calls.readable
    ensures
      var (r, outcome) := (d.metadata.value, Resolve(d, account, calls).1);
      var s := Scope(r.installKey, account);
      if !ArtifactsFit(r, d.directories) then outcome == Failure(RecoveryRequired)
      else if s in r.accounts then
        outcome == if r.accounts[s].state == Initialized || !Littered(d, s, r.accounts[s].epoch)
                   then Granted(Partition(r.profile, s, r.accounts[s].epoch)) else Failure(RecoveryRequired)
      else if r.next >= 0xffff_ffff_ffff_ffff then outcome == Failure(RecoveryRequired)
      else outcome == if calls.second == Written then Granted(Partition(r.profile, s, r.next)) else Failure(Io)
  {
    var r := d.metadata.value;
    var s := Scope(r.installKey, account);
    if s !in r.accounts && r.next < MAX_EPOCH {
      AllocationKeeps(d, r, s);
    }
    if s in r.accounts && s in d.directories && r.accounts[s].epoch in d.directories[s] {
      FewArtifacts(d, s, r.accounts[s].epoch);
    }
  }

  /** In an empty data root the first call makes a registry and gives out epoch 1, if both writes are completed. */
  lemma {:induction false} FirstIsGranted(d: Disk, account: nat, calls: Calls)
    requires d.metadata == None && d.directories == map[]
    ensures Resolve(d, account, calls).1 ==
      if calls.first == Written && calls.readable && calls.second == Written
      then Granted(Partition(calls.profile, Scope(calls.installKey, account), 1)) else Failure(Io)
  {
    var empty := Registry("codex-info-profile-scope-v1", calls.profile, calls.installKey, 1, map[]);
    if calls.first == Written && calls.readable {
      var made := d.(metadata := Some(empty));
      assert LoadOrInitialize(d, calls) == (made, Ok(empty));
      GrantedIff(made, account, calls);
    }
  }

  lemma {:induction false} FewArtifacts(d: Disk, s: Scope, epoch: nat)
    requires s in d.directories && epoch in d.directories[s]
    ensures d.directories[s][epoch] <= {Database, Candidate} <==> !Littered(d, s, epoch)
  {
  }

  /** Which partitions are marked: those with a database that the registry has under this profile and epoch, if
      the mark is there already or can be written. */
  lemma {:induction false} MarkedIff(d: Disk, p: Partition, calls: Calls)
    requires Consistent(d) && d.metadata.Some? && calls.readable
    ensures
      var (r, outcome) := (d.metadata.value, Mark(d, p, calls).1);
      if !(p.scope in d.directories && p.epoch in d.directories[p.scope]
           && Database in d.directories[p.scope][p.epoch])
         || !(p.scope in r.accounts && r.accounts[p.scope].epoch == p.epoch && r.profile == p.profile)
      then outcome == Failure(RecoveryRequired)
      else outcome == if r.accounts[p.scope].state == Initialized || calls.second == Written then Marked
                      else Failure(Io)
  {
    if Knows(d.metadata.value, p) {
      MarkingKeeps(d, d.metadata.value, p);
    }
  }

  /** Once a partition was marked, every later call for its account is given it, as long as the directories fit. */
  lemma {:induction false} MarkedIsGranted(d: Disk, account: nat, p: Partition, calls: Calls,
          directories: map<Scope, AccountDirectory>, again: Calls)
    requires Consistent(d) && d.metadata.Some? && p.scope == Scope(d.metadata.value.installKey, account)
    requires Mark(d, p, calls).1 == Marked && again.readable
    ensures
      var marked := Mark(d, p, calls).0.(directories := directories);
      && marked.metadata.Some?
      && (ArtifactsFit(marked.metadata.value, directories) ==> Resolve(marked, account, again).1 == Granted(p))
  {
    MarkKeeps(d, p, calls);
    var marked := Mark(d, p, calls).0.(directories := directories);
    GrantedIff(marked, account, again);
  }

  /** The checks on a registry file alone do not rule out a shared epoch; only the way it is written does. */
  lemma {:induction false} ValidationMissesSharedEpochs() returns (r: Registry)
    ensures ValidRegistry(r) && !Consistent(Disk(Some(r), map[]))
  {
    var key := Zeros(32);
    var (a, b) := (Scope(key, 1), Scope(key, 2));
    r := Registry(PROFILE_SCHEMA, Zeros(16), key, 2, map[a := Entry(1, Allocated), b := Entry(1, Allocated)]);
    assert a in r.accounts && b in r.accounts && a != b;
  }

  // ---- the calls as the program makes them ----

  class RegistryFiles {
    var disk: Disk

    method WriteMetadata(r: Registry, writing: Writing) returns (ok: bool)
      modifies this
      ensures (disk, ok) == Write(old(disk), r, writing)
    {
      var valid := ValidateMetadata(r);
      if !valid || writing == Unwritten {
        return false;
      }
      disk := disk.(metadata := Some(r));
      ok := writing == Written;
    }

    method LoadMetadata(calls: Calls) returns (r: Result<Registry, Error>)
      ensures r == Load(disk, calls)
    {
      if disk.metadata.None? || !calls.readable {
        return Err(Io);
      }
      var valid := ValidateMetadata(disk.metadata.value);
      r := if valid then Ok(disk.metadata.value) else Err(InvalidMetadata);
    }

    method LoadOrInitializeMetadata(calls: Calls) returns (r: Result<Registry, Error>)
      modifies this
      ensures (disk, r) == LoadOrInitialize(old(disk), calls)
    {
      if disk.metadata.None? {
        if disk.directories.Keys != {} {
          return Err(RecoveryRequired);
        }
        var written := WriteMetadata(Fresh(calls), calls.first);
        if !written {
          return Err(Io);
        }
      }
      r := LoadMetadata(calls);
    }

    /** Keeps the registry consistent and only lets it grow; what is granted is what the registry then says. */
    method ResolvePartition(account: nat, calls: Calls) returns (outcome: Outcome)
      modifies this
      ensures Consistent(old(disk)) ==> Consistent(disk) && Grows(old(disk), disk)
      ensures Consistent(old(disk)) && outcome.Granted? ==> Backed(disk, account, outcome.partition)
      ensures (disk, outcome) == Resolve(old(disk), account, calls)
    {
      if Consistent(disk) {
        ResolveKeeps(disk, account, calls);
      }
      var loaded := LoadOrInitializeMetadata(calls);
      if loaded.Err? {
        return Failure(loaded.error);
      }
      var metadata := loaded.value;
      var fits := ValidateArtifacts(metadata, disk.directories);
      if !fits {
        return Failure(RecoveryRequired);
      }
      var s := Scope(metadata.installKey, account);
      if s !in metadata.accounts {
        if metadata.next >= MAX_EPOCH {
          return Failure(RecoveryRequired);
        }
        metadata := WithEntry(metadata, s);
        var written := WriteMetadata(metadata, calls.second);
        if !written {
          return Failure(Io);
        }
      }
      outcome := Grant(disk, metadata, s, metadata.accounts[s]);
    }

    /** Keeps the registry consistent and only lets it grow; success means that the partition is initialized. */
    method MarkInitialized(p: Partition, calls: Calls) returns (outcome: Outcome)
      modifies this
      ensures Consistent(old(disk)) ==> Consistent(disk) && Grows(old(disk), disk)
      ensures outcome == Marked ==>
        disk.metadata.Some? && Knows(disk.metadata.value, p)
        && disk.metadata.value.accounts[p.scope].state == Initialized
      ensures (disk, outcome) == Mark(old(disk), p, calls)
    {
      if Consistent(disk) {
        MarkKeeps(disk, p, calls);
      }
      if !HasDatabase(disk, p) {
        return Failure(RecoveryRequired);
      }
      var loaded := LoadMetadata(calls);
      if loaded.Err? {
        return Failure(loaded.error);
      }
      var metadata := loaded.value;
      if !Knows(metadata, p) {
        return Failure(RecoveryRequired);
      }
      if metadata.accounts[p.scope].state != Initialized {
        metadata := WithInitialized(metadata, p);
        var written := WriteMetadata(metadata, calls.second);
        if !written {
          return Failure(Io);
        }
      }
      outcome := Marked;
    }
  }
}
