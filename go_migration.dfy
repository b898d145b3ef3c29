/**
 * The Go command `migration generate` / `migration validate`: list the
 * migrations directory, keep the `.sql` files, read a version off each name,
 * sort by version, emit the Rust file, and check versions for duplicates.
 */
module GoMigration {
  import opened Wrappers
  import opened Text
  import opened Numbers
  import opened Migrations

  // ---------------------------------------------------------------------------
  // Names
  // ---------------------------------------------------------------------------

  /**
   * Where `filepath.Ext` starts: the last `.` of the final path element,
   * scanning back from the end and stopping at a `/`.
   */
  function ExtStart(path: string): (r: Option<nat>)
    ensures r.Some? ==> r.value < |path| && path[r.value] == '.'
    ensures r.Some? ==> '.' !in path[r.value + 1..] && '/' !in path[r.value + 1..]
    ensures r.None? && '/' !in path ==> '.' !in path
  {
    if |path| == 0 || path[|path| - 1] == '/' then None
    else if path[|path| - 1] == '.' then Some(|path| - 1)
    else
      var init := path[..|path| - 1];
      var r := ExtStart(init);
      assert path == init + [path[|path| - 1]];
      if r.Some? then assert path[r.value + 1..] == init[r.value + 1..] + [path[|path| - 1]]; r else r
  }

  /** `filepath.Ext`: the suffix from the last dot of the final element, or empty. */
  function Ext(path: string): (e: string)
    ensures EndsWith(path, e)
    ensures e == [] || (e[0] == '.' && '.' !in e[1..] && '/' !in e)
  {
    match ExtStart(path)
    case None => ""
    case Some(i) => assert path[i..][1..] == path[i + 1..]; path[i..]
  }

  /** `strings.TrimSuffix`. */
  function TrimSuffix(s: string, suffix: string): (r: string)
    ensures EndsWith(s, suffix) ==> r + suffix == s
    ensures !EndsWith(s, suffix) ==> r == s
  {
    if EndsWith(s, suffix) then s[..|s| - |suffix|] else s
  }

  /**
   * `extractVersionFromFilename`: the text before the first `_` of the name
   * without its extension, read by `strconv.Atoi`; anything Atoi rejects is 0.
   * (`strings.Split` never returns an empty slice, so the length guard in the
   * source is dead code.)
   */
  function ExtractVersionFromFilename(filename: string): int {
    var stem := TrimSuffix(filename, Ext(filename));
    Atoi(Split(stem, '_')[0]).GetOr(0)
  }

  /** The first `_`-separated piece of a name. */
  function FirstPart(s: string): string {
    Split(s, '_')[0]
  }

  /** For a name ending in `.sql`, the extension is exactly `.sql` and the stem is the rest. */
  lemma {:induction false} SqlExt(base: string)
    requires '/' !in base
    ensures Ext(base + ".sql") == ".sql"
    ensures TrimSuffix(base + ".sql", ".sql") == base
  {
    var s := base + ".sql";
    assert s[|s| - 1] == 'l' && s[|s| - 2] == 'q' && s[|s| - 3] == 's' && s[|s| - 4] == '.';
    assert s[..|s| - 1][..|s| - 2] == s[..|s| - 2];
    assert s[..|s| - 2][..|s| - 3] == s[..|s| - 3];
    assert ExtStart(s) == Some(|s| - 4);
    assert s[|s| - 4..] == ".sql";
  }

  /** The version of `<base>.sql` is Atoi of the part of `base` before its first `_`, or 0. */
  lemma {:induction false} VersionOfSqlName(base: string)
    requires '/' !in base
    ensures ExtractVersionFromFilename(base + ".sql") == Atoi(FirstPart(base)).GetOr(0)
  {
    SqlExt(base);
  }

  /** A numeric prefix is the version: `0003_adorable_eternals.sql` has version 3. */
  lemma {:induction false} NumericPrefixIsVersion(digits: string, rest: string)
    requires |digits| > 0 && AllDigits(digits) && DigitsValue(digits) <= Int64Max
    requires '/' !in rest
    ensures ExtractVersionFromFilename(digits + "_" + rest + ".sql") == DigitsValue(digits)
  {
    var base := digits + "_" + rest;
    assert '_' !in digits by { assert forall i :: 0 <= i < |digits| ==> IsDigit(digits[i]); }
    assert '/' !in digits by { assert forall i :: 0 <= i < |digits| ==> IsDigit(digits[i]); }
    assert '/' !in base;
    VersionOfSqlName(base);
    SplitAfter(digits, '_', rest);
    assert base == digits + ['_'] + rest;
    AtoiAgreesWithParseInt(digits);
  }

  /** A name with no numeric prefix gets version 0: `init_schema.sql`. */
  lemma {:induction false} NonNumericPrefixIsZero(base: string)
    requires '/' !in base
    requires Atoi(FirstPart(base)).None?
    ensures ExtractVersionFromFilename(base + ".sql") == 0
  {
    VersionOfSqlName(base);
  }

  // ---------------------------------------------------------------------------
  // Reading the directory
  // ---------------------------------------------------------------------------

  /** The entries `readMigrationFiles` keeps: anything but a directory, with extension exactly `.sql`. */
  predicate IsSqlEntry(e: DirEntry) {
    e.kind != Directory && Ext(e.name) == ".sql"
  }

  /** The migration made from a kept entry: its name is both file name and description. */
  function ToMigration(e: DirEntry): (m: Migration)
    ensures m.filename == e.name && m.description == e.name
    ensures m.version == ExtractVersionFromFilename(e.name)
  {
    Migration(e.name, ExtractVersionFromFilename(e.name), e.name)
  }

  /** The kept entries as migrations, in listing order. */
  function Collect(entries: seq<DirEntry>): (ms: seq<Migration>)
    ensures |ms| <= |entries|
    ensures forall i :: 0 <= i < |ms| ==> ms[i].description == ms[i].filename && Ext(ms[i].filename) == ".sql"
  {
    if entries == [] then []
    else
      var last := entries[|entries| - 1];
      Collect(entries[..|entries| - 1]) + (if IsSqlEntry(last) then [ToMigration(last)] else [])
  }

  /** Only kept entries make it into the list … */
  lemma {:induction false} CollectOnlyKept(entries: seq<DirEntry>, m: Migration)
    requires m in Collect(entries)
    ensures exists e :: e in entries && IsSqlEntry(e) && m == ToMigration(e)
  {
    var init := entries[..|entries| - 1];
    var last := entries[|entries| - 1];
    assert entries == init + [last];
    if m in Collect(init) {
      CollectOnlyKept(init, m);
      var e :| e in init && IsSqlEntry(e) && m == ToMigration(e);
      assert e in entries;
    } else {
      assert IsSqlEntry(last) && m == ToMigration(last);
    }
  }

  /** … and every kept entry does. */
  lemma {:induction false} CollectKeepsAll(entries: seq<DirEntry>, e: DirEntry)
    requires e in entries && IsSqlEntry(e)
    ensures ToMigration(e) in Collect(entries)
  {
    var init := entries[..|entries| - 1];
    var last := entries[|entries| - 1];
    assert entries == init + [last];
    if e != last {
      assert e in init;
      CollectKeepsAll(init, e);
    }
  }

  /**
   * `readMigrationFiles` after a successful `os.ReadDir`: collect the kept
   * entries, then sort by version. `sort.Slice` is not stable, so all the
   * caller may rely on is order by version and the same migrations.
   */
  method ReadMigrationFiles(entries: seq<DirEntry>) returns (migrations: seq<Migration>)
    ensures SortedByVersion(migrations)
    ensures multiset(migrations) == multiset(Collect(entries))
    ensures forall m :: m in migrations ==> m.description == m.filename && Ext(m.filename) == ".sql"
  {
    migrations := [];
    var i := 0;
    while i < |entries|
      invariant 0 <= i <= |entries|
      invariant migrations == Collect(entries[..i])
    {
      assert entries[..i + 1][..i] == entries[..i];
      var entry := entries[i];
      if IsSqlEntry(entry) {
        migrations := migrations + [ToMigration(entry)];
      }
      i := i + 1;
    }
    assert entries[..|entries|] == entries;
    ghost var collected := migrations;
    migrations := SortByVersion(migrations);
    forall m | m in migrations ensures m.description == m.filename && Ext(m.filename) == ".sql" {
      assert m in multiset(collected);
    }
  }

  // ---------------------------------------------------------------------------
  // Duplicate versions
  // ---------------------------------------------------------------------------

  predicate DistinctVersions(ms: seq<Migration>) {
    DistinctUpTo(ms, |ms|)
  }

  /** No two of the first `n` migrations share a version. */
  predicate DistinctUpTo(ms: seq<Migration>, n: nat)
    requires n <= |ms|
  {
    forall a, b :: 0 <= a < b < n ==> ms[a].version != ms[b].version
  }

  /** Version `v` occurs among the first `n` migrations. */
  predicate SeenBefore(ms: seq<Migration>, n: nat, v: int)
    requires n <= |ms|
  {
    exists k :: 0 <= k < n && ms[k].version == v
  }

  /** The version of migration `n` does not occur before it. */
  predicate FirstOfVersion(ms: seq<Migration>, n: nat)
    requires n < |ms|
  {
    forall j :: 0 <= j < n ==> ms[j].version != ms[n].version
  }

  /** One reported duplicate: the version, the file kept for it, and the later file. */
  datatype Duplicate = Duplicate(version: int, kept: string, duplicate: string)

  /**
   * The duplicate check of `runMigrationValidate`: walk the list, remember the
   * first file seen for each version, report every later file with a version
   * already seen. Validation passes exactly when the versions are distinct.
   */
  method ValidateVersions(ms: seq<Migration>) returns (ok: bool, versionMap: map<int, string>, dups: seq<Duplicate>)
    ensures ok <==> DistinctVersions(ms)
    ensures ok <==> dups == []
    ensures forall v :: v in versionMap <==> SeenBefore(ms, |ms|, v)
    ensures forall i :: 0 <= i < |ms| ==> ms[i].version in versionMap
    ensures forall i :: 0 <= i < |ms| && FirstOfVersion(ms, i) ==> versionMap[ms[i].version] == ms[i].filename
  {
    versionMap := map[];
    dups := [];
    var duplicates := false;
    var i := 0;
    while i < |ms|
      invariant 0 <= i <= |ms|
      invariant duplicates <==> !DistinctUpTo(ms, i)
      invariant duplicates <==> dups != []
      invariant forall v :: v in versionMap <==> SeenBefore(ms, i, v)
      invariant forall k :: 0 <= k < i ==> ms[k].version in versionMap
      invariant forall k :: 0 <= k < i && FirstOfVersion(ms, k) ==> versionMap[ms[k].version] == ms[k].filename
    {
      var m := ms[i];
      if m.version in versionMap {
        assert SeenBefore(ms, i, m.version);
        dups := dups + [Duplicate(m.version, versionMap[m.version], m.filename)];
        duplicates := true;
      } else {
        assert FirstOfVersion(ms, i);
        versionMap := versionMap[m.version := m.filename];
      }
      assert forall v :: SeenBefore(ms, i + 1, v) <==> SeenBefore(ms, i, v) || v == m.version;
      i := i + 1;
    }
    ok := !duplicates;
  }

  // ---------------------------------------------------------------------------
  // The commands
  // ---------------------------------------------------------------------------

  /** `src-tauri/migrations` under the project root (the working directory). */
  function MigrationsDir(root: string): string {
    root + "/src-tauri/migrations"
  }

  function OutFile(root: string): string {
    MigrationsDir(root) + "/generated_migrations.rs"
  }

  /** What `runMigrationGenerate` ends with. */
  datatype GenerateOutcome =
    | Failed(message: string)
    | AlreadyGenerated          // output exists and --force was not given: success, nothing written
    | NoMigrations              // no SQL files: success, nothing written
    | Generated(path: string, content: string)

  /**
   * `runMigrationGenerate`. The file system is described by its answers:
   * whether the migrations directory and the output file exist, what
   * `os.ReadDir` returns, and whether `os.WriteFile` fails.
   */
  method RunMigrationGenerate(root: string, dirExists: bool, outExists: bool, force: bool,
                              listing: Result<seq<DirEntry>, string>, writeError: Option<string>)
    returns (outcome: GenerateOutcome, migrations: seq<Migration>)
    ensures !dirExists ==> outcome == Failed("migrations directory not found: " + MigrationsDir(root))
    ensures dirExists && outExists && !force ==> outcome == AlreadyGenerated
    ensures dirExists && (!outExists || force) && listing.Err? ==>
      outcome == Failed("failed to read migration files: " + listing.error)
    ensures dirExists && (!outExists || force) && listing.Ok? ==>
      SortedByVersion(migrations) && multiset(migrations) == multiset(Collect(listing.value))
    ensures dirExists && (!outExists || force) && listing.Ok? && migrations == [] ==> outcome == NoMigrations
    ensures dirExists && (!outExists || force) && listing.Ok? && migrations != [] ==>
      outcome == (match writeError
                  case Some(e) => Failed("failed to write generated file: " + e)
                  case None => Generated(OutFile(root), Rendered(migrations)))
  {
    migrations := [];
    if !dirExists {
      return Failed("migrations directory not found: " + MigrationsDir(root)), migrations;
    }
    if outExists && !force {
      return AlreadyGenerated, migrations;
    }
    if listing.Err? {
      return Failed("failed to read migration files: " + listing.error), migrations;
    }
    migrations := ReadMigrationFiles(listing.value);
    if |migrations| == 0 {
      return NoMigrations, migrations;
    }
    var content := RenderRust(migrations);
    match writeError {
      case Some(e) => outcome := Failed("failed to write generated file: " + e);
      case None => outcome := Generated(OutFile(root), content);
    }
  }

  /**
   * `runMigrationValidate`: a missing directory or an unreadable listing is an
   * error, no migrations is success, otherwise duplicates are an error.
   */
  method RunMigrationValidate(root: string, dirExists: bool, listing: Result<seq<DirEntry>, string>)
    returns (result: Result<nat, string>, migrations: seq<Migration>)
    ensures !dirExists ==> result == Err("migrations directory not found: " + MigrationsDir(root))
    ensures dirExists && listing.Err? ==> result == Err("failed to read migration files: " + listing.error)
    ensures dirExists && listing.Ok? ==> multiset(migrations) == multiset(Collect(listing.value))
    ensures dirExists && listing.Ok? ==> (result.Ok? <==> DistinctVersions(migrations))
    ensures dirExists && listing.Ok? && result.Ok? ==> result.value == |migrations|
    ensures result.Err? && dirExists && listing.Ok? ==> result.error == "validation failed: duplicate version numbers found"
  {
    migrations := [];
    if !dirExists {
      return Err("migrations directory not found: " + MigrationsDir(root)), migrations;
    }
    if listing.Err? {
      return Err("failed to read migration files: " + listing.error), migrations;
    }
    migrations := ReadMigrationFiles(listing.value);
    if |migrations| == 0 {
      return Ok(0), migrations;
    }
    var ok, _, _ := ValidateVersions(migrations);
    if !ok {
      return Err("validation failed: duplicate version numbers found"), migrations;
    }
    result := Ok(|migrations|);
  }
}
