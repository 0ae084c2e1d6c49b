/** The migration runner: ordered, recorded in the transaction that applies it, and
    resumable after any failure. */
module Migrations {
  import opened Domain

  datatype Migration = Migration(version: int, name: string, body: string)

  /** A directory entry: not a migration, a badly named one, or one. */
  datatype Entry = Other | BadName | Named(migration: Migration)

  /** What the database holds: the recorded versions, and every body it ever
      committed, in order. */
  datatype Schema = Schema(versions: set<int>, committed: seq<Migration>)

  // ------------------------------------------------------------- file names

  datatype File = File(isDir: bool, name: string, body: string)

  predicate IsDigit(c: char) { '0' <= c <= '9' }

  predicate AllDigits(s: string) { forall i | 0 <= i < |s| :: IsDigit(s[i]) }

  function ValueOf(digits: string): nat
    requires AllDigits(digits)
  {
    if digits == "" then 0
    else 10 * ValueOf(digits[..|digits| - 1]) + (digits[|digits| - 1] as int - '0' as int)
  }

  const MAX_INT := 0x7fff_ffff_ffff_ffff

  /** `strconv.Atoi`: an optional sign, digits, and a 64-bit value. */
  function Atoi(s: string): Option<int> {
    var signed := s != "" && (s[0] == '-' || s[0] == '+');
    var digits := if signed then s[1..] else s;
    if digits == "" || !AllDigits(digits) then None
    else
      var magnitude: int := ValueOf(digits);
      var value := if signed && s[0] == '-' then -magnitude else magnitude;
      if -MAX_INT - 1 <= value <= MAX_INT then Some(value) else None
  }

  /** `strings.Cut` at the first underscore: how long the part before it is. */
  function Cut(s: string): Option<nat> {
    if s == "" then None
    else if s[0] == '_' then Some(0)
    else match Cut(s[1..]) case None => None case Some(n) => Some(n + 1)
  }

  lemma {:induction false} CutFinds(s: string, rest: string)
    requires '_' !in s
    ensures Cut(s + "_" + rest) == Some(|s|)
  {
    if s == "" {
      assert s + "_" + rest == "_" + rest;
    } else {
      assert (s + "_" + rest)[1..] == s[1..] + "_" + rest;
      CutFinds(s[1..], rest);
    }
  }

  lemma {:induction false} CutIsBefore(s: string)
    ensures Cut(s).Some? ==> Cut(s).value < |s| && s[Cut(s).value] == '_' && '_' !in s[..Cut(s).value]
  {
    if s != "" && s[0] != '_' {
      CutIsBefore(s[1..]);
      if Cut(s).Some? {
        assert s[..Cut(s).value] == [s[0]] + s[1..][..Cut(s[1..]).value];
      }
    }
  }

  /** Directories and other files are skipped; "<version>_<name>.sql" is named. */
  function EntryOf(f: File): Entry {
    var n := |f.name|;
    if f.isDir || n < 4 || f.name[n - 4..] != ".sql" then Other
    else
      var base := f.name[..n - 4];
      CutIsBefore(base);
      match Cut(base)
      case None => BadName
      case Some(k) =>
        match Atoi(base[..k])
        case None => BadName
        case Some(version) => Named(Migration(version, base[k + 1..], f.body))
  }

  lemma NamedWith(f: File, prefix: string, name: string)
    requires !f.isDir && f.name == prefix + "_" + name + ".sql" && '_' !in prefix
    ensures EntryOf(f) == match Atoi(prefix) case None => BadName case Some(v) => Named(Migration(v, name, f.body))
  {
    var base := prefix + "_" + name;
    assert f.name == base + ".sql";
    assert f.name[..|base|] == base && f.name[|base|..] == ".sql";
    CutFinds(prefix, name);
    assert base[..|prefix|] == prefix && base[|prefix| + 1..] == name;
  }

  /** A file named as documented is the migration it says. */
  lemma WellNamed(digits: string, name: string, body: string)
    requires digits != "" && AllDigits(digits) && ValueOf(digits) <= MAX_INT
    ensures EntryOf(File(false, digits + "_" + name + ".sql", body)) == Named(Migration(ValueOf(digits), name, body))
  {
    NamedWith(File(false, digits + "_" + name + ".sql", body), digits, name);
    assert IsDigit(digits[0]);
  }

  /** The text is a 64-bit integer: digits, after a sign or none. */
  ghost predicate IsVersion(s: string, v: int) {
    && -MAX_INT - 1 <= v <= MAX_INT
    && exists digits ::
         && AllDigits(digits) && digits != ""
         && (|| (s == digits && v == ValueOf(digits))
             || (s == "+" + digits && v == ValueOf(digits))
             || (s == "-" + digits && -v == ValueOf(digits)))
  }

  lemma AtoiReads(s: string, v: int)
    ensures Atoi(s) == Some(v) <==> IsVersion(s, v)
  {
    if Atoi(s) == Some(v) {
      var digits := if s[0] == '-' || s[0] == '+' then s[1..] else s;
      assert AllDigits(digits) && (s == digits || s == [s[0]] + digits);
    }
    if IsVersion(s, v) {
      var digits :| && AllDigits(digits) && digits != ""
                    && (|| (s == digits && v == ValueOf(digits))
                        || (s == "+" + digits && v == ValueOf(digits))
                        || (s == "-" + digits && -v == ValueOf(digits)));
      assert IsDigit(digits[0]);
      assert s == digits || s[1..] == digits;
    }
  }

  function Decimal(n: nat): string {
    if n < 10 then [n as char + '0'] else Decimal(n / 10) + [(n % 10) as char + '0']
  }

  function Zeros(k: nat): string { seq(k, _ => '0') }

  /** A number reads as itself, with any zeros before it. */
  lemma {:induction false} DecimalReads(k: nat, n: nat)
    ensures AllDigits(Zeros(k) + Decimal(n)) && ValueOf(Zeros(k) + Decimal(n)) == n
  {
    var s := Zeros(k) + Decimal(n);
    if n < 10 {
      ZerosRead(k);
      assert s[..|s| - 1] == Zeros(k);
    } else {
      DecimalReads(k, n / 10);
      assert s[..|s| - 1] == Zeros(k) + Decimal(n / 10);
    }
  }

  lemma {:induction false} ZerosRead(k: nat)
    ensures AllDigits(Zeros(k)) && ValueOf(Zeros(k)) == 0
  {
    if k > 0 {
      ZerosRead(k - 1);
      assert Zeros(k)[..k - 1] == Zeros(k - 1);
    }
  }

  /** What has no ".sql" at its end is skipped, and so is a directory. */
  lemma SkippedIff(f: File)
    ensures EntryOf(f) == Other <==> f.isDir || !exists base: string :: f.name == base + ".sql"
  {
    var n := |f.name|;
    if n >= 4 && f.name[n - 4..] == ".sql" {
      assert f.name == f.name[..n - 4] + ".sql";
    }
    forall base: string | f.name == base + ".sql" ensures n >= 4 && f.name[n - 4..] == ".sql" {}
  }

  /** A file is a migration exactly when it is named as documented: what is left
      after these two is refused. */
  lemma MigrationIff(f: File, m: Migration)
    ensures EntryOf(f) == Named(m) <==>
            && !f.isDir && m.body == f.body
            && exists prefix :: f.name == prefix + "_" + m.name + ".sql" && '_' !in prefix && IsVersion(prefix, m.version)
  {
    var n := |f.name|;
    if EntryOf(f) == Named(m) {
      var base := f.name[..n - 4];
      CutIsBefore(base);
      var prefix := base[..Cut(base).value];
      AtoiReads(prefix, m.version);
      assert base == prefix + "_" + m.name && f.name == base + ".sql";
    }
    if !f.isDir && m.body == f.body {
      forall prefix | f.name == prefix + "_" + m.name + ".sql" && '_' !in prefix && IsVersion(prefix, m.version)
        ensures EntryOf(f) == Named(m)
      {
        NamedWith(f, prefix, m.name);
        AtoiReads(prefix, m.version);
      }
    }
  }

  function Entries(files: seq<File>): seq<Entry> {
    seq(|files|, i requires 0 <= i < |files| => EntryOf(files[i]))
  }

  // ------------------------------------------------------------------ loading

  ghost predicate Ascending(ms: seq<Migration>) {
    forall i, j | 0 <= i < j < |ms| :: ms[i].version < ms[j].version
  }

  ghost predicate Distinct(ms: seq<Migration>) {
    forall i, j | 0 <= i < j < |ms| :: ms[i].version != ms[j].version
  }

  function Insert(m: Migration, ms: seq<Migration>): seq<Migration> {
    if ms == [] || m.version < ms[0].version then [m] + ms
    else [ms[0]] + Insert(m, ms[1..])
  }

  /** `sort.Slice` by version. */
  function SortByVersion(ms: seq<Migration>): seq<Migration> {
    if ms == [] then [] else Insert(ms[|ms| - 1], SortByVersion(ms[..|ms| - 1]))
  }

  lemma {:induction false} InsertKeepsAscending(m: Migration, ms: seq<Migration>)
    requires Ascending(ms) && forall x | x in ms :: x.version != m.version
    ensures Ascending(Insert(m, ms)) && |Insert(m, ms)| == |ms| + 1
    ensures forall x :: x in Insert(m, ms) <==> x == m || x in ms
  {
    if ms != [] && ms[0].version <= m.version {
      var rest := Insert(m, ms[1..]);
      InsertKeepsAscending(m, ms[1..]);
      assert ms == [ms[0]] + ms[1..];
      forall j | 0 <= j < |rest| ensures ms[0].version < rest[j].version {
        assert rest[j] == m || rest[j] in ms[1..];
      }
    }
  }

  lemma {:induction false} SortsDistinct(ms: seq<Migration>)
    requires Distinct(ms)
    ensures Ascending(SortByVersion(ms)) && |SortByVersion(ms)| == |ms|
    ensures forall x :: x in SortByVersion(ms) <==> x in ms
  {
    if ms != [] {
      var init, last := ms[..|ms| - 1], ms[|ms| - 1];
      SortsDistinct(init);
      assert ms == init + [last];
      InsertKeepsAscending(last, SortByVersion(init));
    }
  }

  function Listed(entries: seq<Entry>): seq<Migration> {
    if entries == [] then []
    else Listed(entries[..|entries| - 1])
         + match entries[|entries| - 1] { case Named(m) => [m] case _ => [] }
  }

  lemma {:induction false} ListedPrefix(entries: seq<Entry>, i: nat)
    requires i <= |entries|
    ensures Listed(entries[..i]) <= Listed(entries)
  {
    if i < |entries| {
      ListedPrefix(entries[..|entries| - 1], i);
      assert entries[..|entries| - 1][..i] == entries[..i];
    } else {
      assert entries[..i] == entries;
    }
  }

  /** Succeeds if and only if every migration is well named and no version occurs
      twice; then it returns all of them in strictly ascending order. */
  method LoadMigrations(files: seq<File>) returns (r: Result<seq<Migration>>)
    ensures r.Ok? <==> BadName !in Entries(files) && Distinct(Listed(Entries(files)))
    ensures r.Ok? ==> Ascending(r.value) && |r.value| == |Listed(Entries(files))|
                      && forall m :: m in r.value <==> m in Listed(Entries(files))
  {
    r := LoadEntries(Entries(files));
  }

  method LoadEntries(entries: seq<Entry>) returns (r: Result<seq<Migration>>)
    ensures r.Ok? <==> BadName !in entries && Distinct(Listed(entries))
    ensures r.Ok? ==> Ascending(r.value) && |r.value| == |Listed(entries)|
                      && forall m :: m in r.value <==> m in Listed(entries)
  {
    var migrations: seq<Migration> := [];
    var seen: set<int> := {};
    for i := 0 to |entries|
      invariant BadName !in entries[..i]
      invariant migrations == Listed(entries[..i]) && Distinct(migrations)
      invariant seen == set m | m in migrations :: m.version
    {
      assert entries[..i + 1][..i] == entries[..i];
      ListedPrefix(entries, i + 1);
      match entries[i] {
        case Other =>
        case BadName =>
          return Err(ErrValidation);
        case Named(m) =>
          if m.version in seen {
            var j :| 0 <= j < |migrations| && migrations[j].version == m.version;
            assert Listed(entries[..i + 1]) == migrations + [m];
            assert Listed(entries)[j] == migrations[j] && Listed(entries)[|migrations|] == m;
            return Err(ErrValidation);
          }
          forall j | 0 <= j < |migrations| ensures migrations[j].version != m.version {
            assert migrations[j] in migrations;
          }
          migrations := migrations + [m];
          seen := seen + {m.version};
      }
    }
    assert entries[..|entries|] == entries;
    SortsDistinct(migrations);
    r := Ok(SortByVersion(migrations));
  }

  // ----------------------------------------------------------------- one run

  function VersionsOf(ms: seq<Migration>): set<int> {
    set m | m in ms :: m.version
  }

  function Pending(ms: seq<Migration>, done: set<int>): seq<Migration> {
    if ms == [] then []
    else if ms[0].version in done then Pending(ms[1..], done)
    else [ms[0]] + Pending(ms[1..], done)
  }

  /** How many of them succeed before the first that fails. */
  function Reached(ms: seq<Migration>, failing: set<int>): (n: nat)
    ensures n <= |ms|
    ensures forall i | 0 <= i < n :: ms[i].version !in failing
    ensures n < |ms| ==> ms[n].version in failing
  {
    if ms == [] || ms[0].version in failing then 0 else 1 + Reached(ms[1..], failing)
  }

  function RunOnce(s: Schema, ms: seq<Migration>, failing: set<int>): Schema {
    var pending := Pending(ms, s.versions);
    var applied := pending[..Reached(pending, failing)];
    Schema(s.versions + VersionsOf(applied), s.committed + applied)
  }

  lemma {:induction false} PendingConcat(a: seq<Migration>, b: seq<Migration>, done: set<int>)
    ensures Pending(a + b, done) == Pending(a, done) + Pending(b, done)
  {
    if a == [] {
      assert a + b == b;
    } else {
      assert (a + b)[1..] == a[1..] + b;
      PendingConcat(a[1..], b, done);
    }
  }

  lemma {:induction false} ReachedStops(good: seq<Migration>, rest: seq<Migration>, failing: set<int>)
    requires forall m | m in good :: m.version !in failing
    requires rest == [] || rest[0].version in failing
    ensures Reached(good + rest, failing) == |good|
  {
    if good == [] {
      assert good + rest == rest;
    } else {
      assert (good + rest)[1..] == good[1..] + rest;
      ReachedStops(good[1..], rest, failing);
    }
  }

  /** The loop at migration `i`: what it applied is what was pending before. */
  lemma PendingAt(ms: seq<Migration>, i: nat, done: set<int>)
    requires i < |ms|
    ensures ms[i].version in done ==> Pending(ms[..i + 1], done) == Pending(ms[..i], done)
    ensures ms[i].version !in done ==>
              && Pending(ms[..i + 1], done) == Pending(ms[..i], done) + [ms[i]]
              && Pending(ms, done) == Pending(ms[..i], done) + ([ms[i]] + Pending(ms[i + 1..], done))
  {
    assert ms[..i + 1] == ms[..i] + [ms[i]];
    assert ms == ms[..i] + ms[i..];
    PendingConcat(ms[..i], [ms[i]], done);
    PendingConcat(ms[..i], ms[i..], done);
  }

  lemma StopsAt(s: Schema, ms: seq<Migration>, good: seq<Migration>, rest: seq<Migration>, failing: set<int>)
    requires Pending(ms, s.versions) == good + rest
    requires forall m | m in good :: m.version !in failing
    requires rest == [] || rest[0].version in failing
    ensures RunOnce(s, ms, failing) == Schema(s.versions + VersionsOf(good), s.committed + good)
  {
    ReachedStops(good, rest, failing);
    assert (good + rest)[..|good|] == good;
  }

  class Database {
    var versions: set<int>
    var committed: seq<Migration>

    function Snapshot(): Schema
      reads this
    {
      Schema(versions, committed)
    }

    /** One migration in its own transaction: body and record, or neither. */
    method ApplyOne(m: Migration, fails: bool) returns (ok: bool)
      modifies this
      ensures ok == !fails
      ensures Snapshot() == if ok then Schema(old(versions) + {m.version}, old(committed) + [m]) else old(Snapshot())
    {
      if fails {
        return false;
      }
      committed := committed + [m];
      versions := versions + {m.version};
      ok := true;
    }

    /** One run under the advisory lock; the environment makes some migrations
        fail. Stops at the first failure and reports what it applied. */
    method Migrate(migrations: seq<Migration>, failing: set<int>) returns (applied: seq<Migration>, ok: bool)
      requires Ascending(migrations)
      modifies this
      ensures Snapshot() == RunOnce(old(Snapshot()), migrations, failing)
      ensures committed == old(committed) + applied
      ensures ok <==> applied == Pending(migrations, old(versions))
    {
      var done := versions;
      ghost var start := Snapshot();
      applied := [];
      for i := 0 to |migrations|
        invariant applied == Pending(migrations[..i], done)
        invariant Snapshot() == Schema(done + VersionsOf(applied), start.committed + applied)
        invariant forall m | m in applied :: m.version !in failing
      {
        var m := migrations[i];
        PendingAt(migrations, i, done);
        if m.version !in done {
          ok := ApplyOne(m, m.version in failing);
          if !ok {
            StopsAt(start, migrations, applied, [m] + Pending(migrations[i + 1..], done), failing);
            return;
          }
          assert VersionsOf(applied + [m]) == VersionsOf(applied) + {m.version};
          applied := applied + [m];
        }
      }
      assert migrations[..|migrations|] == migrations;
      assert applied + [] == applied;
      StopsAt(start, migrations, applied, [], failing);
      ok := true;
    }
  }

  // -------------------------------------------------------------- many runs

  ghost function Runs(s: Schema, ms: seq<Migration>, failures: seq<set<int>>): Schema
    decreases |failures|
  {
    if failures == [] then s else Runs(RunOnce(s, ms, failures[0]), ms, failures[1..])
  }

  lemma {:induction false} PendingOnlyListed(ms: seq<Migration>, done: set<int>, v: int)
    requires forall m | m in ms :: m.version != v
    ensures Pending(ms, done + {v}) == Pending(ms, done)
  {
    if ms != [] {
      PendingOnlyListed(ms[1..], done, v);
    }
  }

  lemma VersionsJoin(a: seq<Migration>, b: seq<Migration>)
    ensures VersionsOf(a + b) == VersionsOf(a) + VersionsOf(b)
  {
  }

  lemma SplitHead(m: Migration, p: seq<Migration>, a: seq<Migration>, rest: seq<Migration>)
    requires [m] + p == a + rest && a != []
    ensures a == [m] + a[1..] && p == a[1..] + rest
  {
    assert (a + rest)[0] == a[0] && ([m] + p)[0] == m;
    assert ([m] + p)[1..] == p && (a + rest)[1..] == a[1..] + rest;
  }

  /** Once a prefix of what is pending is done, the rest is pending. */
  lemma {:induction false} PendingRest(ms: seq<Migration>, done: set<int>, applied: seq<Migration>, rest: seq<Migration>)
    requires Ascending(ms) && Pending(ms, done) == applied + rest
    ensures Pending(ms, done + VersionsOf(applied)) == rest
  {
    if applied == [] {
      assert done + VersionsOf([]) == done && [] + rest == rest;
    } else if ms[0].version in done {
      PendingRest(ms[1..], done, applied, rest);
    } else {
      SplitHead(ms[0], Pending(ms[1..], done), applied, rest);
      PendingRest(ms[1..], done, applied[1..], rest);
      VersionsJoin([ms[0]], applied[1..]);
      assert done + VersionsOf(applied) == done + VersionsOf(applied[1..]) + {ms[0].version};
      PendingOnlyListed(ms[1..], done + VersionsOf(applied[1..]), ms[0].version);
    }
  }

  /** What committing `applied`, a prefix of the pending migrations, leaves behind;
      `rest` is still pending. */
  ghost predicate After(s: Schema, ms: seq<Migration>, applied: seq<Migration>, rest: seq<Migration>, t: Schema) {
    && Pending(ms, s.versions) == applied + rest
    && t == Schema(s.versions + VersionsOf(applied), s.committed + applied)
    && Pending(ms, t.versions) == rest
  }

  lemma NothingRun(s: Schema, ms: seq<Migration>)
    ensures After(s, ms, [], Pending(ms, s.versions), s)
  {
    assert s.versions + VersionsOf([]) == s.versions && s.committed + [] == s.committed;
    assert [] + Pending(ms, s.versions) == Pending(ms, s.versions);
  }

  lemma OneRun(s: Schema, ms: seq<Migration>, failing: set<int>) returns (applied: seq<Migration>, rest: seq<Migration>)
    requires Ascending(ms)
    ensures After(s, ms, applied, rest, RunOnce(s, ms, failing))
    ensures rest == [] || rest[0].version in failing
  {
    var pending := Pending(ms, s.versions);
    var n := Reached(pending, failing);
    applied, rest := pending[..n], pending[n..];
    assert pending == applied + rest;
    PendingRest(ms, s.versions, applied, rest);
  }

  lemma Join(s: Schema, a: seq<Migration>, b: seq<Migration>)
    ensures (s.versions + VersionsOf(a)) + VersionsOf(b) == s.versions + VersionsOf(a + b)
    ensures (s.committed + a) + b == s.committed + (a + b)
  {
    VersionsJoin(a, b);
  }

  lemma AfterBoth(s: Schema, ms: seq<Migration>, a: seq<Migration>, t: Schema, b: seq<Migration>, rest: seq<Migration>, u: Schema)
    requires After(s, ms, a, b + rest, t) && After(t, ms, b, rest, u)
    ensures After(s, ms, a + b, rest, u)
  {
    Join(s, a, b);
    assert a + (b + rest) == (a + b) + rest;
  }

  /** Over any sequence of interrupted runs, what was committed is a prefix of what
      was pending at the start: in ascending order, each body exactly once. */
  lemma {:induction false} RunsCommitAPrefix(s: Schema, ms: seq<Migration>, failures: seq<set<int>>)
    returns (applied: seq<Migration>, rest: seq<Migration>)
    requires Ascending(ms)
    ensures After(s, ms, applied, rest, Runs(s, ms, failures))
    ensures Ascending(applied + rest)
    decreases |failures|
  {
    if failures == [] {
      applied, rest := [], Pending(ms, s.versions);
      NothingRun(s, ms);
    } else {
      var t := RunOnce(s, ms, failures[0]);
      var first, left := OneRun(s, ms, failures[0]);
      var more;
      more, rest := RunsCommitAPrefix(t, ms, failures[1..]);
      applied := first + more;
      AfterBoth(s, ms, first, t, more, rest, Runs(t, ms, failures[1..]));
    }
    PendingAscends(ms, s.versions);
  }

  lemma {:induction false} PendingMembers(ms: seq<Migration>, done: set<int>)
    ensures forall m :: m in Pending(ms, done) <==> m in ms && m.version !in done
  {
    if ms != [] {
      PendingMembers(ms[1..], done);
      assert ms == [ms[0]] + ms[1..];
    }
  }

  lemma HeadKeepsAscending(m: Migration, ms: seq<Migration>)
    requires Ascending(ms) && forall x | x in ms :: m.version < x.version
    ensures Ascending([m] + ms)
  {
  }

  lemma HeadIsLeast(ms: seq<Migration>)
    requires Ascending(ms) && ms != []
    ensures Ascending(ms[1..]) && forall x | x in ms[1..] :: ms[0].version < x.version
  {
    forall x | x in ms[1..] ensures ms[0].version < x.version {
      var k :| 0 <= k < |ms| - 1 && ms[k + 1] == x;
    }
  }

  lemma {:induction false} PendingAscends(ms: seq<Migration>, done: set<int>)
    requires Ascending(ms)
    ensures Ascending(Pending(ms, done))
  {
    if ms != [] {
      HeadIsLeast(ms);
      PendingAscends(ms[1..], done);
      PendingMembers(ms[1..], done);
      HeadKeepsAscending(ms[0], Pending(ms[1..], done));
    }
  }

  /** They converge: the first run nothing fails in leaves every migration
      recorded and committed exactly once, whatever came before, and every later
      run applies nothing. */
  lemma RunsConverge(s: Schema, ms: seq<Migration>, before: seq<set<int>>, failing: set<int>, after: set<int>)
    requires Ascending(ms)
    requires forall m | m in Pending(ms, Runs(s, ms, before).versions) :: m.version !in failing
    ensures var t := RunOnce(Runs(s, ms, before), ms, failing);
            && t.committed == s.committed + Pending(ms, s.versions)
            && VersionsOf(ms) <= t.versions
            && RunOnce(t, ms, after) == t
  {
    var mid := Runs(s, ms, before);
    var applied, left := RunsCommitAPrefix(s, ms, before);
    var last, rest := OneRun(mid, ms, failing);
    NoneFailsInTail(last, rest, failing);
    AfterBoth(s, ms, applied, mid, last, rest, RunOnce(mid, ms, failing));
    assert (applied + last) + [] == applied + last;
    NothingPending(RunOnce(mid, ms, failing), ms, after);
  }

  lemma NoneFailsInTail(a: seq<Migration>, b: seq<Migration>, failing: set<int>)
    requires forall m | m in a + b :: m.version !in failing
    ensures forall i | 0 <= i < |b| :: b[i].version !in failing
  {
    forall i | 0 <= i < |b| ensures b[i].version !in failing {
      assert (a + b)[|a| + i] == b[i];
    }
  }

  lemma NothingPending(t: Schema, ms: seq<Migration>, failing: set<int>)
    requires Pending(ms, t.versions) == []
    ensures VersionsOf(ms) <= t.versions && RunOnce(t, ms, failing) == t
  {
    PendingMembers(ms, t.versions);
    assert t.versions + VersionsOf([]) == t.versions && t.committed + [] == t.committed;
  }
}
