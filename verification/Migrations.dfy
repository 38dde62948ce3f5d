/** Forward-only migrations (api/postgres_migrations.py): any number of runners, one
    advisory lock, and failures at every point. */
module Migrations {
  import opened Wrappers
  import opened HashChain

  /** A migration file; the statement is named by its checksum. */
  datatype Migration = Migration(version: nat, name: string, checksum: Digest)

  datatype MigrationError = Integrity | NotUtf8 | Required | Failed

  // ----- Loading -----

  /** A file of the migration directory: its name, the hash of its content, and whether
      that is UTF-8. */
  datatype File = File(name: string, checksum: Digest, decodes: bool)

  predicate IsDigit(ch: char) { '0' <= ch <= '9' }

  predicate IsWord(ch: char) { 'a' <= ch <= 'z' || IsDigit(ch) || ch == '_' }

  function DigitOf(ch: char): (d: nat)
    requires IsDigit(ch)
    ensures d <= 9
  {
    ch as int - '0' as int
  }

  /** ^[0-9]{4}_[a-z0-9_]+\.sql$ */
  predicate WellNamed(name: string)
  {
    && |name| >= 10
    && (forall i :: 0 <= i < 4 ==> IsDigit(name[i])) && name[4] == '_'
    && (forall i :: 5 <= i < |name| - 4 ==> IsWord(name[i]))
    && name[|name| - 4..] == ".sql"
  }

  function VersionOf(name: string): nat
    requires WellNamed(name)
  {
    DigitOf(name[0]) * 1000 + DigitOf(name[1]) * 100 + DigitOf(name[2]) * 10 + DigitOf(name[3])
  }

  function MigrationOf(f: File): Migration
    requires WellNamed(f.name)
  {
    Migration(VersionOf(f.name), f.name[5..|f.name| - 4], f.checksum)
  }

  function DigitChar(d: nat): char
    requires d <= 9
  {
    ('0' as int + d) as char
  }

  /** 0001_name.sql: the version in four decimal digits. */
  function FileName(version: nat, name: string): string
    requires version < 10000
  {
    [DigitChar(version / 10 / 10 / 10), DigitChar(version / 10 / 10 % 10), DigitChar(version / 10 % 10), DigitChar(version % 10)]
    + "_" + name + ".sql"
  }

  lemma LastDigit(rest: nat, d: nat)
    requires d <= 9
    ensures (rest * 10 + d) / 10 == rest && (rest * 10 + d) % 10 == d
  {
  }

  lemma Digits(v: nat)
    requires v < 10000
    ensures v / 10 / 10 / 10 <= 9
    ensures v / 10 / 10 / 10 * 1000 + v / 10 / 10 % 10 * 100 + v / 10 % 10 * 10 + v % 10 == v
  {
  }

  lemma NameParts(name: string)
    requires WellNamed(name)
    ensures name == [name[0], name[1], name[2], name[3]] + "_" + name[5..|name| - 4] + ".sql"
  {
    assert name == name[..5] + name[5..|name| - 4] + name[|name| - 4..];
  }

  lemma VersionDigits(name: string)
    requires WellNamed(name)
    ensures var v := VersionOf(name);
            && v < 10000 && v / 10 / 10 / 10 <= 9
            && DigitChar(v / 10 / 10 / 10) == name[0] && DigitChar(v / 10 / 10 % 10) == name[1]
            && DigitChar(v / 10 % 10) == name[2] && DigitChar(v % 10) == name[3]
  {
    var a, b, c, d := DigitOf(name[0]), DigitOf(name[1]), DigitOf(name[2]), DigitOf(name[3]);
    LastDigit(a, b);
    LastDigit(a * 10 + b, c);
    LastDigit((a * 10 + b) * 10 + c, d);
    assert VersionOf(name) == ((a * 10 + b) * 10 + c) * 10 + d;
  }

  /** Version and name are what the file is called, and its content is what is hashed: the
      migration gives the name of its file back. */
  lemma MigrationNamesItsFile(f: File)
    requires WellNamed(f.name)
    ensures var m := MigrationOf(f); m.version < 10000 && FileName(m.version, m.name) == f.name && m.checksum == f.checksum
  {
    VersionDigits(f.name);
    NameParts(f.name);
    assert FileName(VersionOf(f.name), MigrationOf(f).name)
        == [f.name[0], f.name[1], f.name[2], f.name[3]] + "_" + MigrationOf(f).name + ".sql";
  }

  /** And every version of four digits with a name of lower-case words can be loaded. */
  lemma FileOfMigration(version: nat, name: string, checksum: Digest)
    requires version < 10000 && |name| > 0 && forall i :: 0 <= i < |name| ==> IsWord(name[i])
    ensures WellNamed(FileName(version, name))
    ensures MigrationOf(File(FileName(version, name), checksum, true)) == Migration(version, name, checksum)
  {
    var file := FileName(version, name);
    Digits(version);
    assert file[|file| - 4..] == ".sql";
    assert file[5..|file| - 4] == name;
  }

  /** Versions 1, 2, ... in order, and at least one. */
  predicate Contiguous(ms: seq<Migration>)
  {
    |ms| > 0 && forall i :: 0 <= i < |ms| ==> ms[i].version == i + 1
  }

  /** Order of file names by character code. */
  predicate Before(a: string, b: string)
  {
    exists k :: 0 <= k < |b| && k <= |a| && a[..k] == b[..k] && (k < |a| ==> a[k] < b[k])
  }

  predicate AllWellNamed(files: seq<File>) { forall i :: 0 <= i < |files| ==> WellNamed(files[i].name) }

  predicate AllDecode(files: seq<File>) { forall i :: 0 <= i < |files| ==> files[i].decodes }

  predicate Loads(files: seq<File>)
  {
    AllWellNamed(files) && forall i :: 0 <= i < |files| ==> VersionOf(files[i].name) == i + 1
  }

  /** The first file that is not well named or not UTF-8. */
  predicate StopsAt(files: seq<File>, i: nat)
    requires i < |files|
  {
    && (forall j :: 0 <= j < i ==> WellNamed(files[j].name) && files[j].decodes)
    && !(WellNamed(files[i].name) && files[i].decodes)
  }

  /** `load_migrations` over the sorted listing of the directory. */
  method LoadMigrations(files: seq<File>) returns (r: Result<seq<Migration>, MigrationError>)
    ensures r.Ok? ==> Contiguous(r.value) && |r.value| == |files|
                      && forall i :: 0 <= i < |files| ==> WellNamed(files[i].name) && r.value[i] == MigrationOf(files[i])
    ensures r.Ok? <==> |files| > 0 && Loads(files) && AllDecode(files)
    ensures r.Err? ==> r.error == Integrity || r.error == NotUtf8
    ensures r == Err(NotUtf8) <==> exists i :: 0 <= i < |files| && StopsAt(files, i) && WellNamed(files[i].name)
  {
    var migrations: seq<Migration> := [];
    for i := 0 to |files|
      invariant |migrations| == i
      invariant forall j :: 0 <= j < i ==> WellNamed(files[j].name) && files[j].decodes && migrations[j] == MigrationOf(files[j])
    {
      if !WellNamed(files[i].name) {
        assert StopsAt(files, i);
        return Err(Integrity);
      }
      if !files[i].decodes {
        assert StopsAt(files, i);
        return Err(NotUtf8);
      }
      migrations := migrations + [MigrationOf(files[i])];
    }
    if |migrations| == 0 {
      return Err(Integrity);
    }
    for i := 0 to |migrations|
      invariant forall j :: 0 <= j < i ==> migrations[j].version == j + 1
    {
      if migrations[i].version != i + 1 {
        return Err(Integrity);
      }
    }
    r := Ok(migrations);
  }

  /** `load_migrations` does not ask for this, the history table does. */
  predicate NamesDistinct(ms: seq<Migration>)
  {
    forall i, j :: 0 <= i < j < |ms| ==> ms[i].name != ms[j].name
  }

  lemma FirstNameParses()
    ensures WellNamed("0001_a.sql") && MigrationOf(File("0001_a.sql", 1, true)) == Migration(1, "a", 1)
  {
    assert "0001_a.sql"[6..] == ".sql" && "0001_a.sql"[5..6] == "a";
  }

  lemma SecondNameParses()
    ensures WellNamed("0002_a.sql") && MigrationOf(File("0002_a.sql", 2, true)) == Migration(2, "a", 2)
  {
    assert "0002_a.sql"[6..] == ".sql" && "0002_a.sql"[5..6] == "a";
  }

  lemma NamesInOrder()
    ensures Before("0001_a.sql", "0002_a.sql")
  {
    assert "0001_a.sql"[..3] == "000" == "0002_a.sql"[..3] && "0001_a.sql"[3] < "0002_a.sql"[3];
  }

  /** The input that fails: two files in order, of one name, load. */
  lemma RepeatedNameLoads() returns (files: seq<File>, ms: seq<Migration>)
    ensures |files| == |ms| == 2 && SortedByName(files) && Loads(files) && AllDecode(files)
    ensures ms == [MigrationOf(files[0]), MigrationOf(files[1])] && Contiguous(ms) && !NamesDistinct(ms)
  {
    FirstNameParses();
    SecondNameParses();
    NamesInOrder();
    var a, b := File("0001_a.sql", 1, true), File("0002_a.sql", 2, true);
    files := [a, b];
    ms := [MigrationOf(a), MigrationOf(b)];
    assert MigrationOf(a).version == VersionOf(a.name) && MigrationOf(b).version == VersionOf(b.name);
    assert ms[0].name == ms[1].name;
  }

  /** Versions have a fixed width, so names in order have versions in order. */
  lemma SortedNamesSortVersions(a: string, b: string)
    requires WellNamed(a) && WellNamed(b) && Before(a, b)
    ensures VersionOf(a) <= VersionOf(b)
  {
    var k :| 0 <= k < |b| && k <= |a| && a[..k] == b[..k] && (k < |a| ==> a[k] < b[k]);
    forall i | 0 <= i < k ensures a[i] == b[i] { assert a[..k][i] == b[..k][i]; }
  }

  function Versions(files: seq<File>): (r: seq<nat>)
    requires AllWellNamed(files)
    ensures |r| == |files|
  {
    seq(|files|, i requires 0 <= i < |files| => VersionOf(files[i].name))
  }

  predicate SortedByName(files: seq<File>)
  {
    forall i, j :: 0 <= i < j < |files| ==> Before(files[i].name, files[j].name)
  }

  predicate Ascending(vs: seq<nat>) { forall i, j :: 0 <= i < j < |vs| ==> vs[i] <= vs[j] }

  predicate HasAll(vs: seq<nat>) { forall v :: 1 <= v <= |vs| ==> v in vs }

  lemma {:induction false} NotEarlier(vs: seq<nat>, i: nat)
    requires Ascending(vs) && HasAll(vs) && i < |vs| && 1 <= vs[i] <= |vs|
    ensures i >= vs[i] - 1
    decreases vs[i]
  {
    if vs[i] > 1 {
      assert vs[i] - 1 in vs;
      var j :| 0 <= j < |vs| && vs[j] == vs[i] - 1;
      NotEarlier(vs, j);
    }
  }

  lemma {:induction false} NotLater(vs: seq<nat>, i: nat)
    requires Ascending(vs) && HasAll(vs) && i < |vs| && 1 <= vs[i] <= |vs|
    ensures i <= vs[i] - 1
    decreases |vs| - vs[i]
  {
    if vs[i] < |vs| {
      assert vs[i] + 1 in vs;
      var j :| 0 <= j < |vs| && vs[j] == vs[i] + 1;
      NotLater(vs, j);
    }
  }

  lemma AtItsPlace(vs: seq<nat>, i: nat)
    requires Ascending(vs) && HasAll(vs) && i < |vs|
    ensures vs[i] == i + 1
  {
    assert i + 1 in vs;
    var j :| 0 <= j < |vs| && vs[j] == i + 1;
    NotEarlier(vs, j);
    NotLater(vs, j);
  }

  /** A directory loads if and only if every file is well named and each version from 1 to
      the number of files occurs: the order of the listing does the rest. */
  lemma LoadsIffVersionsComplete(files: seq<File>)
    requires SortedByName(files)
    ensures Loads(files) <==> AllWellNamed(files) && HasAll(Versions(files))
  {
    if AllWellNamed(files) {
      var vs := Versions(files);
      forall i, j | 0 <= i < j < |vs| ensures vs[i] <= vs[j] { SortedNamesSortVersions(files[i].name, files[j].name); }
      if Loads(files) {
        forall v | 1 <= v <= |vs| ensures v in vs { assert vs[v - 1] == v; }
      } else if HasAll(vs) {
        forall i | 0 <= i < |files| ensures VersionOf(files[i].name) == i + 1 {
          AtItsPlace(vs, i);
          assert vs[i] == VersionOf(files[i].name);
        }
      }
    }
  }

  // ----- Validating the recorded history -----

  /** A row of the history table. */
  datatype Entry = Entry(version: nat, name: string, checksum: Digest)

  function EntryOf(m: Migration): Entry { Entry(m.version, m.name, m.checksum) }

  function Entries(ms: seq<Migration>): (r: seq<Entry>)
    ensures |r| == |ms|
  {
    seq(|ms|, i requires 0 <= i < |ms| => EntryOf(ms[i]))
  }

  /** `_validate_history` */
  function ValidateHistory(recorded: seq<Entry>, ms: seq<Migration>): Result<(), MigrationError>
  {
    if |recorded| > |ms| then Err(Integrity) else ValidateFrom(recorded, ms, 0)
  }

  function ValidateFrom(recorded: seq<Entry>, ms: seq<Migration>, i: nat): Result<(), MigrationError>
    requires i <= |recorded| <= |ms|
    decreases |recorded| - i
  {
    if i == |recorded| then Ok(())
    else if recorded[i].version != ms[i].version || recorded[i].name != ms[i].name then Err(Integrity)
    else if recorded[i].checksum != ms[i].checksum then Err(Integrity)
    else ValidateFrom(recorded, ms, i + 1)
  }

  lemma {:induction false} ValidateFromIff(recorded: seq<Entry>, ms: seq<Migration>, i: nat)
    requires i <= |recorded| <= |ms|
    ensures ValidateFrom(recorded, ms, i).Ok? <==> forall j :: i <= j < |recorded| ==> recorded[j] == Entries(ms)[j]
    ensures ValidateFrom(recorded, ms, i).Err? ==> ValidateFrom(recorded, ms, i).error == Integrity
    decreases |recorded| - i
  {
    if i < |recorded| {
      ValidateFromIff(recorded, ms, i + 1);
    }
  }

  /** A history is valid if and only if it is a prefix of the migrations. */
  lemma ValidIffPrefix(recorded: seq<Entry>, ms: seq<Migration>)
    ensures ValidateHistory(recorded, ms).Ok? <==> recorded <= Entries(ms)
    ensures ValidateHistory(recorded, ms).Err? ==> ValidateHistory(recorded, ms).error == Integrity
  {
    if |recorded| <= |ms| {
      ValidateFromIff(recorded, ms, 0);
    }
  }

  // ----- Runners -----

  type RunnerId = nat

  /** `applied` lists the versions this runner has committed. */
  datatype Phase =
    | Waiting
    | Locked
    | Bootstrapping
    | HasTable
    | Applying(next: nat, applied: seq<nat>)
    | InTransaction(next: nat, applied: seq<nat>)
    | Done(applied: seq<nat>)
    | Raised(error: MigrationError)

  /** `found` is how much history there was when the runner connected. */
  datatype Runner = Runner(ms: seq<Migration>, apply: bool, phase: Phase, found: nat)

  /** `executed` lists the statements whose transactions committed. */
  datatype State = State(history: Option<seq<Entry>>, executed: seq<Migration>, lock: Option<RunnerId>, runners: map<RunnerId, Runner>)

  datatype Step =
    | Connect(r: RunnerId, ms: seq<Migration>, apply: bool)
    | TakeLock(r: RunnerId)
    | Inspect(r: RunnerId)
    | Bootstrap(r: RunnerId)
    | Validate(r: RunnerId)
    | Execute(r: RunnerId)
    | Commit(r: RunnerId)
    | InsertConflicts(r: RunnerId)
    | Finish(r: RunnerId)
    | Fail(r: RunnerId)

  function Recorded(s: State): seq<Entry> { if s.history.Some? then s.history.value else [] }

  /** The keys of the history table. */
  predicate Conflicts(h: seq<Entry>, m: Migration)
  {
    exists i :: 0 <= i < |h| && (h[i].version == m.version || h[i].name == m.name)
  }

  predicate In(s: State, r: RunnerId, phase: Phase) { r in s.runners && s.runners[r].phase == phase }

  predicate Enabled(s: State, step: Step)
  {
    match step
    case Connect(r, _, _) => r !in s.runners
    case TakeLock(r) => In(s, r, Waiting) && s.lock.None?
    case Inspect(r) => In(s, r, Locked)
    case Bootstrap(r) => In(s, r, Bootstrapping)
    case Validate(r) => In(s, r, HasTable)
    case Execute(r) => r in s.runners && s.runners[r].phase.Applying? && s.runners[r].phase.next < |s.runners[r].ms|
    case Commit(r) => AboutToInsert(s, r) && !Conflicts(Recorded(s), s.runners[r].ms[s.runners[r].phase.next])
    case InsertConflicts(r) => AboutToInsert(s, r) && Conflicts(Recorded(s), s.runners[r].ms[s.runners[r].phase.next])
    case Finish(r) => r in s.runners && s.runners[r].phase.Applying? && s.runners[r].phase.next >= |s.runners[r].ms|
    case Fail(r) => r in s.runners && !s.runners[r].phase.Done? && !s.runners[r].phase.Raised?
  }

  predicate AboutToInsert(s: State, r: RunnerId)
  {
    r in s.runners && s.runners[r].phase.InTransaction? && s.runners[r].phase.next < |s.runners[r].ms|
  }

  function At(s: State, r: RunnerId, phase: Phase): State
    requires r in s.runners
  {
    s.(runners := s.runners[r := s.runners[r].(phase := phase)])
  }

  /** The runner ends: its transaction is rolled back and its session closed, which
      releases the lock. */
  function Ended(s: State, r: RunnerId, phase: Phase): State
    requires r in s.runners
  {
    At(s, r, phase).(lock := if s.lock == Some(r) then None else s.lock)
  }

  function AfterInspect(s: State, r: RunnerId): State
    requires r in s.runners
  {
    if s.history.Some? then At(s, r, HasTable)
    else if s.runners[r].apply then At(s, r, Bootstrapping)
    else Ended(s, r, Raised(Required))
  }

  function AfterValidate(s: State, r: RunnerId): State
    requires r in s.runners
  {
    var recorded := Recorded(s);
    match ValidateHistory(recorded, s.runners[r].ms)
    case Err(e) => Ended(s, r, Raised(e))
    case Ok(_) =>
      if |recorded| < |s.runners[r].ms| && !s.runners[r].apply then Ended(s, r, Raised(Required))
      else At(s, r, Applying(|recorded|, []))
  }

  function AfterCommit(s: State, r: RunnerId): State
    requires AboutToInsert(s, r)
  {
    var p := s.runners[r].phase;
    var m := s.runners[r].ms[p.next];
    At(s, r, Applying(p.next + 1, p.applied + [m.version])).(
      history := Some(Recorded(s) + [EntryOf(m)]), executed := s.executed + [m])
  }

  function Next(s: State, step: Step): State
    requires Enabled(s, step)
  {
    match step
    case Connect(r, ms, apply) => s.(runners := s.runners[r := Runner(ms, apply, Waiting, |Recorded(s)|)])
    case TakeLock(r) => At(s, r, Locked).(lock := Some(r))
    case Inspect(r) => AfterInspect(s, r)
    case Bootstrap(r) => At(s, r, HasTable).(history := Some(Recorded(s)))
    case Validate(r) => AfterValidate(s, r)
    case Execute(r) => At(s, r, InTransaction(s.runners[r].phase.next, s.runners[r].phase.applied))
    case Commit(r) => AfterCommit(s, r)
    case InsertConflicts(r) => Ended(s, r, Raised(Failed))
    case Finish(r) => Ended(s, r, Done(s.runners[r].phase.applied))
    case Fail(r) => Ended(s, r, Raised(Failed))
  }

  /** Runners of one code base: each knows the migrations up to its release. */
  predicate Allowed(all: seq<Migration>, s: State, step: Step)
  {
    Enabled(s, step) && (step.Connect? ==> Contiguous(step.ms) && step.ms <= all)
  }

  predicate Runs(all: seq<Migration>, s: State, steps: seq<Step>, t: State)
    decreases |steps|
  {
    if |steps| == 0 then s == t else Allowed(all, s, steps[0]) && Runs(all, Next(s, steps[0]), steps[1..], t)
  }

  // ----- Invariant -----

  predicate HoldsLock(p: Phase) { p.Locked? || p.Bootstrapping? || p.HasTable? || p.Applying? || p.InTransaction? }

  /** The versions a runner committed: those just before `next`, none of them found. */
  predicate AppliedOk(found: nat, next: nat, applied: seq<nat>)
  {
    && found + |applied| <= next
    && forall i :: 0 <= i < |applied| ==> applied[i] == next - |applied| + i + 1
  }

  predicate RunnerOk(all: seq<Migration>, s: State, r: RunnerId)
    requires r in s.runners
  {
    var x, n := s.runners[r], |Recorded(s)|;
    && Contiguous(x.ms) && x.ms <= all && x.found <= n
    && (HoldsLock(x.phase) <==> s.lock == Some(r))
    && match x.phase
       case Applying(next, applied) =>
         s.history.Some? && next == n <= |x.ms| && (x.apply || (next == |x.ms| && applied == [])) && AppliedOk(x.found, next, applied)
       case InTransaction(next, applied) =>
         s.history.Some? && next == n < |x.ms| && x.apply && AppliedOk(x.found, next, applied)
       case Bootstrapping => x.apply
       case HasTable => s.history.Some?
       case Done(applied) =>
         s.history.Some? && |x.ms| <= n && x.found <= |x.ms| && (x.apply || applied == []) && AppliedOk(x.found, |x.ms|, applied)
       case _ => true
  }

  /** The history is a prefix of the migrations, records what was executed, and repeats no
      name. */
  predicate HistoryOk(all: seq<Migration>, s: State)
  {
    |s.executed| <= |all| && s.executed == all[..|s.executed|] && Recorded(s) == Entries(s.executed)
    && NamesDistinct(s.executed)
  }

  ghost predicate Inv(all: seq<Migration>, s: State)
  {
    && HistoryOk(all, s) && (s.lock.Some? ==> s.lock.value in s.runners)
    && forall r :: r in s.runners ==> RunnerOk(all, s, r)
  }

  /** A step that leaves the history alone and changes one runner, and the lock only of it. */
  lemma OthersKeepInv(all: seq<Migration>, s: State, t: State, r: RunnerId)
    requires Inv(all, s) && r in t.runners && RunnerOk(all, t, r) && HistoryOk(all, t)
    requires t.runners == s.runners[r := t.runners[r]]
    requires Recorded(t) == Recorded(s) && (s.history.Some? ==> t.history.Some?)
    requires t.lock == s.lock || (t.lock.None? && s.lock == Some(r)) || (s.lock.None? && t.lock == Some(r))
    ensures Inv(all, t)
  {
    forall x | x in t.runners ensures RunnerOk(all, t, x) {
      if x != r { assert RunnerOk(all, s, x); }
    }
  }

  lemma CommitKeepsInv(all: seq<Migration>, s: State, r: RunnerId)
    requires Inv(all, s) && Enabled(s, Commit(r))
    ensures Inv(all, AfterCommit(s, r))
  {
    var t := AfterCommit(s, r);
    assert RunnerOk(all, s, r);
    var x := s.runners[r];
    assert x.ms[x.phase.next] == all[|s.executed|];
    assert t.executed == all[..|t.executed|];
    assert Recorded(t) == Entries(t.executed);
    assert NamesDistinct(t.executed) by {
      assert forall i :: 0 <= i < |s.executed| ==> Recorded(s)[i] == EntryOf(s.executed[i]);
    }
    forall y | y in t.runners ensures RunnerOk(all, t, y) {
      assert RunnerOk(all, s, y);
    }
  }

  lemma ValidateKeepsInv(all: seq<Migration>, s: State, r: RunnerId)
    requires Inv(all, s) && Enabled(s, Validate(r))
    ensures Inv(all, AfterValidate(s, r))
  {
    assert RunnerOk(all, s, r);
    ValidIffPrefix(Recorded(s), s.runners[r].ms);
    OthersKeepInv(all, s, AfterValidate(s, r), r);
  }

  lemma ConnectKeepsInv(all: seq<Migration>, s: State, r: RunnerId, ms: seq<Migration>, apply: bool)
    requires Inv(all, s) && r !in s.runners && Contiguous(ms) && ms <= all
    ensures Inv(all, Next(s, Connect(r, ms, apply)))
  {
    OthersKeepInv(all, s, Next(s, Connect(r, ms, apply)), r);
  }

  lemma BeginKeepsInv(all: seq<Migration>, s: State, step: Step)
    requires Inv(all, s) && Enabled(s, step) && (step.TakeLock? || step.Inspect? || step.Bootstrap? || step.Execute?)
    ensures Inv(all, Next(s, step))
  {
    assert RunnerOk(all, s, step.r);
    OthersKeepInv(all, s, Next(s, step), step.r);
  }

  lemma EndKeepsInv(all: seq<Migration>, s: State, step: Step)
    requires Inv(all, s) && Enabled(s, step) && (step.InsertConflicts? || step.Finish? || step.Fail?)
    ensures Inv(all, Next(s, step))
  {
    assert RunnerOk(all, s, step.r);
    OthersKeepInv(all, s, Next(s, step), step.r);
  }

  lemma StepKeepsInv(all: seq<Migration>, s: State, step: Step)
    requires Inv(all, s) && Allowed(all, s, step)
    ensures Inv(all, Next(s, step))
  {
    if step.Connect? {
      ConnectKeepsInv(all, s, step.r, step.ms, step.apply);
    } else if step.Validate? {
      ValidateKeepsInv(all, s, step.r);
    } else if step.Commit? {
      CommitKeepsInv(all, s, step.r);
    } else if step.InsertConflicts? || step.Finish? || step.Fail? {
      EndKeepsInv(all, s, step);
    } else {
      BeginKeepsInv(all, s, step);
    }
  }

  lemma {:induction false} RunKeepsInv(all: seq<Migration>, s: State, steps: seq<Step>, t: State)
    requires Inv(all, s) && Runs(all, s, steps, t)
    ensures Inv(all, t)
    decreases |steps|
  {
    if |steps| > 0 {
      StepKeepsInv(all, s, steps[0]);
      RunKeepsInv(all, Next(s, steps[0]), steps[1..], t);
    }
  }

  // ----- Safety -----

  /** No runner, and a history made by some prefix of the migrations. */
  predicate Initial(all: seq<Migration>, s: State)
  {
    HistoryOk(all, s) && s.lock.None? && s.runners == map[]
  }

  /** In every run with any number of runners and failures, the recorded history is a
      prefix of the migrations, and their statements were committed once each, in order. */
  lemma HistoryIsPrefix(all: seq<Migration>, s: State, steps: seq<Step>, t: State)
    requires Initial(all, s) && Runs(all, s, steps, t)
    ensures Recorded(t) <= Entries(all) && t.executed <= all && |t.executed| == |Recorded(t)|
  {
    RunKeepsInv(all, s, steps, t);
    assert Entries(t.executed) == Entries(all)[..|t.executed|];
  }

  /** At most one runner is between taking the lock and ending. */
  lemma OneRunnerAtATime(all: seq<Migration>, s: State, steps: seq<Step>, t: State, a: RunnerId, b: RunnerId)
    requires Initial(all, s) && Runs(all, s, steps, t)
    requires a in t.runners && HoldsLock(t.runners[a].phase) && b in t.runners && HoldsLock(t.runners[b].phase)
    ensures a == b
  {
    RunKeepsInv(all, s, steps, t);
    assert RunnerOk(all, t, a) && RunnerOk(all, t, b);
  }

  /** Only a runner that applies changes the database, and it only ever adds to it. */
  lemma CheckModeChangesNothing(all: seq<Migration>, s: State, step: Step)
    requires Inv(all, s) && Allowed(all, s, step)
    ensures s.executed <= Next(s, step).executed && Recorded(s) <= Recorded(Next(s, step))
    ensures s.history != Next(s, step).history || s.executed != Next(s, step).executed ==>
              step.r in s.runners && s.runners[step.r].apply
  {
    assert step.r in s.runners ==> RunnerOk(all, s, step.r);
  }

  /** Runners stay what they are, and whoever connects later finds at least this history. */
  ghost predicate Later(s: State, t: State)
  {
    && s.executed <= t.executed && |Recorded(s)| <= |Recorded(t)|
    && (forall r :: r in s.runners ==> r in t.runners && t.runners[r].found == s.runners[r].found)
    && (forall r :: r in t.runners && r !in s.runners ==> t.runners[r].found >= |Recorded(s)|)
  }

  lemma StepLater(all: seq<Migration>, s: State, step: Step)
    requires Inv(all, s) && Allowed(all, s, step)
    ensures Later(s, Next(s, step))
  {
    CheckModeChangesNothing(all, s, step);
  }

  lemma LaterTrans(s: State, t: State, u: State)
    requires Later(s, t) && Later(t, u)
    ensures Later(s, u)
  {
  }

  lemma {:induction false} HistoryGrows(all: seq<Migration>, s: State, steps: seq<Step>, t: State)
    requires Inv(all, s) && Runs(all, s, steps, t)
    ensures Later(s, t)
    decreases |steps|
  {
    if |steps| > 0 {
      StepLater(all, s, steps[0]);
      StepKeepsInv(all, s, steps[0]);
      HistoryGrows(all, Next(s, steps[0]), steps[1..], t);
      LaterTrans(s, Next(s, steps[0]), t);
    }
  }

  /** A runner that finished leaves all its migrations recorded and executed; the versions
      it reports are consecutive and end with its last one. */
  lemma FinishedMeansComplete(all: seq<Migration>, s: State, steps: seq<Step>, t: State, r: RunnerId)
    requires Initial(all, s) && Runs(all, s, steps, t) && r in t.runners && t.runners[r].phase.Done?
    ensures Entries(t.runners[r].ms) <= Recorded(t) && t.runners[r].ms <= t.executed
    ensures AppliedOk(t.runners[r].found, |t.runners[r].ms|, t.runners[r].phase.applied)
  {
    RunKeepsInv(all, s, steps, t);
    assert RunnerOk(all, t, r);
    var ms := t.runners[r].ms;
    assert ms == all[..|ms|];
    assert Entries(ms) == Recorded(t)[..|ms|];
  }

  /** Once the history is complete for its release, a runner that connects later and
      finishes has applied nothing. */
  lemma FurtherApplyIsEmpty(all: seq<Migration>, s: State, steps: seq<Step>, mid: State, more: seq<Step>, t: State, r: RunnerId)
    requires Initial(all, s) && Runs(all, s, steps, mid) && Runs(all, mid, more, t)
    requires r !in mid.runners && r in t.runners && t.runners[r].phase.Done?
    requires Entries(t.runners[r].ms) <= Recorded(mid)
    ensures t.runners[r].phase.applied == []
  {
    RunKeepsInv(all, s, steps, mid);
    RunKeepsInv(all, mid, more, t);
    HistoryGrows(all, mid, more, t);
    assert RunnerOk(all, t, r);
  }

  /** A check of a database without history table is refused; an apply makes the table. */
  lemma InspectionGives(s: State, r: RunnerId)
    requires Enabled(s, Inspect(r))
    ensures var x, phase := s.runners[r], Next(s, Inspect(r)).runners[r].phase;
            && (phase == Raised(Required) <==> s.history.None? && !x.apply)
            && (phase == HasTable <==> s.history.Some?)
            && (phase == Bootstrapping <==> s.history.None? && x.apply)
  {
  }

  /** Validation refuses a history that is no prefix of the migrations and, without leave to
      apply, an incomplete one; with a complete history nobody is refused. */
  lemma ValidationGives(s: State, r: RunnerId)
    requires Enabled(s, Validate(r))
    ensures var x, phase := s.runners[r], Next(s, Validate(r)).runners[r].phase;
            && (phase == Raised(Integrity) <==> !(Recorded(s) <= Entries(x.ms)))
            && (phase == Raised(Required) <==> Recorded(s) < Entries(x.ms) && !x.apply)
            && (phase.Applying? <==> Recorded(s) == Entries(x.ms) || (Recorded(s) < Entries(x.ms) && x.apply))
  {
    ValidIffPrefix(Recorded(s), s.runners[r].ms);
    LongPrefixIsAll(Recorded(s), Entries(s.runners[r].ms));
  }

  lemma LongPrefixIsAll(a: seq<Entry>, b: seq<Entry>)
    ensures a <= b && |a| >= |b| ==> a == b
  {
  }

  /** The runner has committed what comes after the first `n` migrations, so far. */
  predicate AppliedAfter(n: nat, x: Runner)
  {
    match x.phase
    case Applying(next, applied) => n + |applied| == next && Consecutive(n, applied)
    case InTransaction(next, applied) => n + |applied| == next && Consecutive(n, applied)
    case Done(applied) => n + |applied| == |x.ms| && Consecutive(n, applied)
    case Raised(_) => true
    case _ => false
  }

  predicate Consecutive(n: nat, applied: seq<nat>)
  {
    forall i :: 0 <= i < |applied| ==> applied[i] == n + i + 1
  }

  lemma StepKeepsApplied(all: seq<Migration>, s: State, step: Step, r: RunnerId, n: nat)
    requires Inv(all, s) && Allowed(all, s, step) && r in s.runners && AppliedAfter(n, s.runners[r])
    ensures r in Next(s, step).runners && AppliedAfter(n, Next(s, step).runners[r])
  {
    assert RunnerOk(all, s, r);
  }

  lemma {:induction false} RunKeepsApplied(all: seq<Migration>, s: State, steps: seq<Step>, t: State, r: RunnerId, n: nat)
    requires Inv(all, s) && Runs(all, s, steps, t) && r in s.runners && AppliedAfter(n, s.runners[r])
    ensures r in t.runners && AppliedAfter(n, t.runners[r])
    decreases |steps|
  {
    if |steps| > 0 {
      StepKeepsApplied(all, s, steps[0], r, n);
      StepKeepsInv(all, s, steps[0]);
      RunKeepsApplied(all, Next(s, steps[0]), steps[1..], t, r, n);
    }
  }

  /** A runner that finishes reports exactly the versions that were pending when it read the
      history: from the first that was not recorded to its last. */
  lemma ReportsThePending(all: seq<Migration>, s: State, steps: seq<Step>, mid: State, more: seq<Step>, t: State, r: RunnerId)
    requires Initial(all, s) && Runs(all, s, steps, mid) && Enabled(mid, Validate(r)) && Runs(all, Next(mid, Validate(r)), more, t)
    requires r in t.runners && t.runners[r].phase.Done?
    ensures var n, applied := |Recorded(mid)|, t.runners[r].phase.applied;
            n + |applied| == |t.runners[r].ms| && forall i :: 0 <= i < |applied| ==> applied[i] == n + i + 1
  {
    RunKeepsInv(all, s, steps, mid);
    ValidateKeepsInv(all, mid, r);
    RunKeepsApplied(all, Next(mid, Validate(r)), more, t, r, |Recorded(mid)|);
  }

  // ----- Progress -----

  ghost predicate CanReach(all: seq<Migration>, s: State, t: State)
  {
    exists steps :: Runs(all, s, steps, t)
  }

  /** What can be reached after a step can be reached. */
  lemma StepFirst(all: seq<Migration>, s: State, step: Step, t: State)
    requires Allowed(all, s, step) && CanReach(all, Next(s, step), t)
    ensures CanReach(all, s, t)
  {
    var steps :| Runs(all, Next(s, step), steps, t);
    assert ([step] + steps)[1..] == steps;
    assert Runs(all, s, [step] + steps, t);
  }

  /** The runner applies these migrations. */
  predicate Applies(s: State, r: RunnerId, ms: seq<Migration>)
  {
    r in s.runners && s.runners[r].ms == ms && s.runners[r].apply
  }

  /** A later state has these migrations applied by this runner. */
  ghost predicate Finishes(all: seq<Migration>, s: State, ms: seq<Migration>, r: RunnerId, t: State)
  {
    CanReach(all, s, t) && Applies(t, r, ms) && t.runners[r].phase.Done?
  }

  /** … and then the history records them and no more, the lock is free, and this runner is
      the only new one. */
  ghost predicate FinishesWhole(all: seq<Migration>, s: State, ms: seq<Migration>, r: RunnerId, t: State)
  {
    && Finishes(all, s, ms, r, t)
    && Inv(all, t) && t.history == Some(Entries(ms)) && t.lock.None? && t.runners.Keys == s.runners.Keys + {r}
  }

  /** What a runner needs to finish. */
  predicate MayFinish(all: seq<Migration>, s: State, ms: seq<Migration>)
  {
    Contiguous(ms) && ms <= all && NamesDistinct(ms) && |Recorded(s)| <= |ms|
  }

  lemma RecordedIsPrefix(all: seq<Migration>, s: State, ms: seq<Migration>)
    requires HistoryOk(all, s) && ms <= all && |Recorded(s)| <= |ms|
    ensures Recorded(s) <= Entries(ms) && s.executed == ms[..|s.executed|]
  {
    assert s.executed == ms[..|s.executed|];
    assert Recorded(s) == Entries(ms)[..|s.executed|];
  }

  lemma NoConflict(s: State, ms: seq<Migration>)
    requires Contiguous(ms) && NamesDistinct(ms) && |s.executed| < |ms| && s.executed == ms[..|s.executed|]
    requires Recorded(s) == Entries(s.executed)
    ensures !Conflicts(Recorded(s), ms[|s.executed|])
  {
    assert forall i :: 0 <= i < |s.executed| ==> Recorded(s)[i] == EntryOf(ms[i]);
  }

  /** The next migration, of a name that is not recorded, is executed and can be
      committed. */
  lemma NextCommits(all: seq<Migration>, s: State, ms: seq<Migration>, r: RunnerId)
    requires Inv(all, s) && MayFinish(all, s, ms) && Applies(s, r, ms) && s.runners[r].phase.Applying? && |Recorded(s)| < |ms|
    ensures Enabled(s, Execute(r)) && Enabled(Next(s, Execute(r)), Commit(r))
    ensures Inv(all, Next(s, Execute(r))) && Inv(all, Next(Next(s, Execute(r)), Commit(r)))
    ensures var t := Next(Next(s, Execute(r)), Commit(r));
            Applies(t, r, ms) && t.runners[r].phase.Applying? && |Recorded(t)| == |Recorded(s)| + 1
  {
    assert RunnerOk(all, s, r);
    RecordedIsPrefix(all, s, ms);
    BeginKeepsInv(all, s, Execute(r));
    NoConflict(Next(s, Execute(r)), ms);
    CommitKeepsInv(all, Next(s, Execute(r)), r);
  }

  lemma FinishesComplete(all: seq<Migration>, s: State, ms: seq<Migration>, r: RunnerId) returns (t: State)
    requires Inv(all, s) && MayFinish(all, s, ms) && Applies(s, r, ms) && s.runners[r].phase.Applying? && |ms| == |Recorded(s)|
    ensures FinishesWhole(all, s, ms, r, t)
  {
    assert RunnerOk(all, s, r);
    RecordedIsPrefix(all, s, ms);
    LongPrefixIsAll(Recorded(s), Entries(ms));
    EndKeepsInv(all, s, Finish(r));
    t := Next(s, Finish(r));
    assert Runs(all, t, [], t);
    StepFirst(all, s, Finish(r), t);
  }

  lemma {:induction false} FinishesFromApplying(all: seq<Migration>, s: State, ms: seq<Migration>, r: RunnerId) returns (t: State)
    requires Inv(all, s) && MayFinish(all, s, ms) && Applies(s, r, ms) && s.runners[r].phase.Applying?
    ensures FinishesWhole(all, s, ms, r, t)
    decreases |ms| - |Recorded(s)|
  {
    if |ms| == |Recorded(s)| {
      t := FinishesComplete(all, s, ms, r);
    } else {
      NextCommits(all, s, ms, r);
      var u := Next(s, Execute(r));
      t := FinishesFromApplying(all, Next(u, Commit(r)), ms, r);
      StepFirst(all, u, Commit(r), t);
      StepFirst(all, s, Execute(r), t);
    }
  }

  lemma FinishesFromTable(all: seq<Migration>, s: State, ms: seq<Migration>, r: RunnerId) returns (t: State)
    requires Inv(all, s) && MayFinish(all, s, ms) && Applies(s, r, ms) && s.runners[r].phase.HasTable?
    ensures FinishesWhole(all, s, ms, r, t)
  {
    RecordedIsPrefix(all, s, ms);
    ValidIffPrefix(Recorded(s), ms);
    ValidateKeepsInv(all, s, r);
    t := FinishesFromApplying(all, Next(s, Validate(r)), ms, r);
    StepFirst(all, s, Validate(r), t);
  }

  lemma FinishesFromLock(all: seq<Migration>, s: State, ms: seq<Migration>, r: RunnerId) returns (t: State)
    requires Inv(all, s) && MayFinish(all, s, ms) && Applies(s, r, ms) && s.runners[r].phase.Locked?
    ensures FinishesWhole(all, s, ms, r, t)
  {
    var u := Next(s, Inspect(r));
    BeginKeepsInv(all, s, Inspect(r));
    if u.runners[r].phase.Bootstrapping? {
      BeginKeepsInv(all, u, Bootstrap(r));
      t := FinishesFromTable(all, Next(u, Bootstrap(r)), ms, r);
      StepFirst(all, u, Bootstrap(r), t);
    } else {
      t := FinishesFromTable(all, u, ms, r);
    }
    StepFirst(all, s, Inspect(r), t);
  }

  lemma FinishesFromFreeLock(all: seq<Migration>, s: State, ms: seq<Migration>, r: RunnerId) returns (t: State)
    requires Inv(all, s) && MayFinish(all, s, ms) && s.lock.None? && r !in s.runners
    ensures FinishesWhole(all, s, ms, r, t)
  {
    var u := Next(s, Connect(r, ms, true));
    ConnectKeepsInv(all, s, r, ms, true);
    BeginKeepsInv(all, u, TakeLock(r));
    t := FinishesFromLock(all, Next(u, TakeLock(r)), ms, r);
    StepFirst(all, u, TakeLock(r), t);
    StepFirst(all, s, Connect(r, ms, true), t);
  }

  /** A runner that hangs with the lock fails first, which gives the lock back. */
  lemma NewRunnerFinishes(all: seq<Migration>, s: State, ms: seq<Migration>, r: RunnerId) returns (t: State)
    requires Inv(all, s) && MayFinish(all, s, ms) && r !in s.runners
    ensures FinishesWhole(all, s, ms, r, t)
  {
    if s.lock.Some? {
      var hung := s.lock.value;
      assert RunnerOk(all, s, hung);
      EndKeepsInv(all, s, Fail(hung));
      t := FinishesFromFreeLock(all, Next(s, Fail(hung)), ms, r);
      StepFirst(all, s, Fail(hung), t);
    } else {
      t := FinishesFromFreeLock(all, s, ms, r);
    }
  }

  lemma FinishedWasPossible(all: seq<Migration>, s: State, ms: seq<Migration>, r: RunnerId, t: State)
    requires Inv(all, s) && r !in s.runners && Finishes(all, s, ms, r, t)
    ensures NamesDistinct(ms) && |Recorded(s)| <= |ms|
  {
    var steps :| Runs(all, s, steps, t);
    RunKeepsInv(all, s, steps, t);
    HistoryGrows(all, s, steps, t);
    assert RunnerOk(all, t, r);
    assert ms == t.executed[..|ms|];
  }

  /** No crash wedges the migrations.  From every state that any runners, whatever has
      become of them, can have left, a new runner can finish applying its list if and only
      if no two of its migrations share a name and the history is not already longer. */
  lemma ApplyCanFinishIff(all: seq<Migration>, start: State, steps: seq<Step>, s: State, ms: seq<Migration>, r: RunnerId)
    requires Initial(all, start) && Runs(all, start, steps, s)
    requires r !in s.runners && Contiguous(ms) && ms <= all
    ensures NamesDistinct(ms) && |Recorded(s)| <= |ms| <==> exists t :: Finishes(all, s, ms, r, t)
  {
    RunKeepsInv(all, start, steps, s);
    if NamesDistinct(ms) && |Recorded(s)| <= |ms| {
      var t := NewRunnerFinishes(all, s, ms, r);
    }
    if t :| Finishes(all, s, ms, r, t) {
      FinishedWasPossible(all, s, ms, r, t);
    }
  }

  // ----- Checks -----

  /** A later state has this runner finished with a check of these migrations. */
  ghost predicate Checks(all: seq<Migration>, s: State, ms: seq<Migration>, r: RunnerId, t: State)
  {
    && CanReach(all, s, t)
    && r in t.runners && t.runners[r].ms == ms && !t.runners[r].apply && t.runners[r].phase.Done?
  }

  /** The history table records exactly these migrations. */
  predicate IsComplete(s: State, ms: seq<Migration>) { s.history == Some(Entries(ms)) }

  function CheckSteps(ms: seq<Migration>, r: RunnerId): seq<Step>
  {
    [Connect(r, ms, false), TakeLock(r), Inspect(r), Validate(r), Finish(r)]
  }

  predicate OnlyMoves(steps: seq<Step>, r: RunnerId) { forall i :: 0 <= i < |steps| ==> steps[i].r == r }

  /** The state in which the check has this phase. */
  function Checking(s: State, ms: seq<Migration>, r: RunnerId, phase: Phase): State
  {
    s.(lock := if HoldsLock(phase) then Some(r) else None,
       runners := s.runners[r := Runner(ms, false, phase, |Recorded(s)|)])
  }

  lemma CheckPasses(all: seq<Migration>, s: State, ms: seq<Migration>, r: RunnerId)
    requires IsComplete(s, ms) && s.lock.None? && r !in s.runners && Contiguous(ms) && ms <= all
    ensures Runs(all, s, CheckSteps(ms, r), Checking(s, ms, r, Done([])))
  {
    var n := |ms|;
    assert Runs(all, Checking(s, ms, r, Done([])), [], Checking(s, ms, r, Done([])));
    CheckEnds(all, s, ms, r);
    ThenRuns(all, Checking(s, ms, r, Locked), Inspect(r), Checking(s, ms, r, HasTable), [Validate(r), Finish(r)], Checking(s, ms, r, Done([])));
    ThenRuns(all, Checking(s, ms, r, Waiting), TakeLock(r), Checking(s, ms, r, Locked), [Inspect(r), Validate(r), Finish(r)], Checking(s, ms, r, Done([])));
    ThenRuns(all, s, Connect(r, ms, false), Checking(s, ms, r, Waiting), [TakeLock(r), Inspect(r), Validate(r), Finish(r)], Checking(s, ms, r, Done([])));
  }

  lemma CheckEnds(all: seq<Migration>, s: State, ms: seq<Migration>, r: RunnerId)
    requires IsComplete(s, ms)
    ensures Runs(all, Checking(s, ms, r, HasTable), [Validate(r), Finish(r)], Checking(s, ms, r, Done([])))
  {
    var done := Checking(s, ms, r, Done([]));
    ValidIffPrefix(Recorded(s), ms);
    assert Runs(all, done, [], done);
    ThenRuns(all, Checking(s, ms, r, Applying(|ms|, [])), Finish(r), done, [], done);
    ThenRuns(all, Checking(s, ms, r, HasTable), Validate(r), Checking(s, ms, r, Applying(|ms|, [])), [Finish(r)], done);
  }

  lemma ThenRuns(all: seq<Migration>, s: State, step: Step, t: State, steps: seq<Step>, u: State)
    requires Allowed(all, s, step) && t == Next(s, step) && Runs(all, t, steps, u)
    ensures Runs(all, s, [step] + steps, u)
  {
    assert ([step] + steps)[1..] == steps;
  }

  /** While only a checking runner moves the history stays, and it finishes on a complete one
      only. */
  predicate CheckOk(s: State, history: Option<seq<Entry>>, ms: seq<Migration>, r: RunnerId)
  {
    && s.history == history
    && (r in s.runners ==>
          && s.runners[r].ms == ms && !s.runners[r].apply && !s.runners[r].phase.Bootstrapping?
          && (s.runners[r].phase.Done? ==> IsComplete(s, ms)))
  }

  lemma StepKeepsCheck(all: seq<Migration>, s: State, step: Step, history: Option<seq<Entry>>, ms: seq<Migration>, r: RunnerId)
    requires Inv(all, s) && Allowed(all, s, step) && step.r == r && CheckOk(s, history, ms, r)
    requires step.Connect? ==> step.ms == ms && !step.apply
    ensures CheckOk(Next(s, step), history, ms, r)
  {
    if r in s.runners {
      assert RunnerOk(all, s, r);
      if step.Finish? {
        RecordedIsPrefix(all, s, ms);
        LongPrefixIsAll(Recorded(s), Entries(ms));
      }
    }
  }

  lemma {:induction false} RunKeepsCheck(all: seq<Migration>, s: State, steps: seq<Step>, t: State, ms: seq<Migration>, r: RunnerId)
    requires Inv(all, s) && Runs(all, s, steps, t) && OnlyMoves(steps, r) && CheckOk(s, s.history, ms, r)
    requires r !in s.runners ==> |steps| > 0 && steps[0] == Connect(r, ms, false)
    ensures CheckOk(t, s.history, ms, r)
    decreases |steps|
  {
    if |steps| > 0 {
      StepKeepsCheck(all, s, steps[0], s.history, ms, r);
      StepKeepsInv(all, s, steps[0]);
      RunKeepsCheck(all, Next(s, steps[0]), steps[1..], t, ms, r);
    }
  }

  /** A run of this runner alone, which checks and finishes. */
  predicate ChecksAlone(all: seq<Migration>, s: State, ms: seq<Migration>, r: RunnerId, steps: seq<Step>, t: State)
  {
    && Runs(all, s, steps, t) && OnlyMoves(steps, r) && |steps| > 0 && steps[0] == Connect(r, ms, false)
    && r in t.runners && t.runners[r].phase.Done?
  }

  /** With the lock free and nobody else moving, a new check finishes if and only if the
      history table exists and records exactly its migrations. */
  lemma CheckPassesIff(all: seq<Migration>, start: State, before: seq<Step>, s: State, ms: seq<Migration>, r: RunnerId)
    requires Initial(all, start) && Runs(all, start, before, s)
    requires s.lock.None? && r !in s.runners && Contiguous(ms) && ms <= all
    ensures IsComplete(s, ms) <==> exists steps, t :: ChecksAlone(all, s, ms, r, steps, t)
  {
    RunKeepsInv(all, start, before, s);
    if IsComplete(s, ms) {
      CheckPasses(all, s, ms, r);
      assert ChecksAlone(all, s, ms, r, CheckSteps(ms, r), Checking(s, ms, r, Done([])));
    }
    if steps, t :| ChecksAlone(all, s, ms, r, steps, t) {
      RunKeepsCheck(all, s, steps, t, ms, r);
    }
  }

  lemma NewId(ids: set<nat>) returns (r: nat)
    ensures r !in ids && forall x :: x in ids ==> x < r
    decreases |ids|
  {
    if ids == {} {
      r := 0;
    } else {
      var x :| x in ids;
      r := NewId(ids - {x});
      if r <= x { r := x + 1; }
      assert forall y :: y in ids ==> y == x || y in ids - {x};
    }
  }

  lemma ReachTrans(all: seq<Migration>, s: State, steps: seq<Step>, t: State, u: State)
    requires Runs(all, s, steps, t) && CanReach(all, t, u)
    ensures CanReach(all, s, u)
    decreases |steps|
  {
    if |steps| > 0 {
      ReachTrans(all, Next(s, steps[0]), steps[1..], t, u);
      StepFirst(all, s, steps[0], u);
    }
  }

  /** Somebody applies the migrations, and then the check passes. */
  lemma NewCheckFinishes(all: seq<Migration>, s: State, ms: seq<Migration>, r: RunnerId) returns (t: State)
    requires Inv(all, s) && MayFinish(all, s, ms) && r !in s.runners
    ensures Checks(all, s, ms, r, t)
  {
    var other := NewId(s.runners.Keys + {r});
    var u := NewRunnerFinishes(all, s, ms, other);
    CheckPasses(all, u, ms, r);
    t := Checking(u, ms, r, Done([]));
    var steps :| Runs(all, s, steps, u);
    ReachTrans(all, s, steps, u, t);
  }

  lemma CheckWasPossible(all: seq<Migration>, s: State, ms: seq<Migration>, r: RunnerId, t: State)
    requires Inv(all, s) && r !in s.runners && Checks(all, s, ms, r, t)
    ensures NamesDistinct(ms) && |Recorded(s)| <= |ms| && t.runners[r].phase.applied == []
  {
    var steps :| Runs(all, s, steps, t);
    RunKeepsInv(all, s, steps, t);
    HistoryGrows(all, s, steps, t);
    assert RunnerOk(all, t, r);
    assert ms == t.executed[..|ms|];
  }

  /** From every state that any runners can have left, a new check of a release can finish,
      whoever else moves, if and only if the history can become exactly that release: its
      names are distinct and the history is not already longer.  It then reports nothing. */
  lemma CheckCanFinishIff(all: seq<Migration>, start: State, steps: seq<Step>, s: State, ms: seq<Migration>, r: RunnerId)
    requires Initial(all, start) && Runs(all, start, steps, s)
    requires r !in s.runners && Contiguous(ms) && ms <= all
    ensures (exists t :: Checks(all, s, ms, r, t)) <==> exists u :: CanReach(all, s, u) && IsComplete(u, ms)
    ensures (exists t :: Checks(all, s, ms, r, t)) <==> NamesDistinct(ms) && |Recorded(s)| <= |ms|
    ensures forall t :: Checks(all, s, ms, r, t) ==> t.runners[r].phase.applied == []
  {
    RunKeepsInv(all, start, steps, s);
    forall t | Checks(all, s, ms, r, t) ensures NamesDistinct(ms) && |Recorded(s)| <= |ms| && t.runners[r].phase.applied == [] {
      CheckWasPossible(all, s, ms, r, t);
    }
    forall u | CanReach(all, s, u) && IsComplete(u, ms) ensures NamesDistinct(ms) && |Recorded(s)| <= |ms| {
      CompletionWasPossible(all, s, ms, u);
    }
    if NamesDistinct(ms) && |Recorded(s)| <= |ms| {
      var t := NewCheckFinishes(all, s, ms, r);
      var u := NewRunnerFinishes(all, s, ms, r);
    }
  }

  lemma CompletionWasPossible(all: seq<Migration>, s: State, ms: seq<Migration>, u: State)
    requires Inv(all, s) && ms <= all && CanReach(all, s, u) && IsComplete(u, ms)
    ensures NamesDistinct(ms) && |Recorded(s)| <= |ms|
  {
    var steps :| Runs(all, s, steps, u);
    RunKeepsInv(all, s, steps, u);
    HistoryGrows(all, s, steps, u);
    assert |u.executed| == |ms| && ms == u.executed[..|ms|];
  }
}
