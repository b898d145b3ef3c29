/**
 * The two Node copies of the migration generator (`MigrationGenerator` in
 * `generate-migrations.ts` and `generate-migrations.js`), and how they compare
 * with each other and with the Go command.
 */
module NodeMigration {
  import opened Wrappers
  import opened Text
  import opened Numbers
  import opened Migrations
  import GoMigration

  /** Which copy: they differ in the description and the output directory. */
  datatype Variant = TypeScriptCopy | JavaScriptCopy

  const MigrationsDir: string := "./src-tauri/migrations"

  /** `outDir`: the TypeScript copy writes next to the SQL files, the JavaScript copy elsewhere. */
  function OutDir(v: Variant): string {
    match v
    case TypeScriptCopy => "./src-tauri/migrations"
    case JavaScriptCopy => "./rust-migrations"
  }

  /** `path.join(outDir, 'generated_migrations.rs')`, which drops the leading `./`. */
  function OutFile(v: Variant): (p: string)
    ensures EndsWith(p, "/generated_migrations.rs")
  {
    match v
    case TypeScriptCopy => "src-tauri/migrations/generated_migrations.rs"
    case JavaScriptCopy => "rust-migrations/generated_migrations.rs"
  }

  /**
   * `path.parse(name).name` for a name without `/`: the name without its
   * extension, where a leading dot (`.sql`) and the name `..` have none.
   */
  function ParsedName(name: string): (stem: string)
    ensures stem <= name
  {
    match LastIndexOf(name, '.')
    case None => name
    case Some(k) => if k == 0 || name == ".." then name else name[..k]
  }

  /** `extractVersion`: `parseInt` of the text before the first `_` of the parsed name; NaN is 0. */
  function ExtractVersion(filename: string): int {
    ParseInt(Split(ParsedName(filename), '_')[0]).GetOr(0)
  }

  /** Kept entries: regular files whose name ends in `.sql`. */
  predicate IsSqlFile(e: DirEntry) {
    e.kind == RegularFile && EndsWith(e.name, ".sql")
  }

  /** The description field: the file name in the TypeScript copy, always `init` in the JavaScript copy. */
  function Description(v: Variant, filename: string): (d: string)
    ensures v == TypeScriptCopy ==> d == filename
    ensures v == JavaScriptCopy ==> d == "init"
  {
    match v
    case TypeScriptCopy => filename
    case JavaScriptCopy => "init"
  }

  function ToMigration(v: Variant, e: DirEntry): Migration {
    Migration(e.name, ExtractVersion(e.name), Description(v, e.name))
  }

  /** The kept entries as migrations, in listing order (before sorting). */
  function Collect(v: Variant, entries: seq<DirEntry>): seq<Migration> {
    if entries == [] then []
    else
      var last := entries[|entries| - 1];
      Collect(v, entries[..|entries| - 1]) + (if IsSqlFile(last) then [ToMigration(v, last)] else [])
  }

  /**
   * Every collected migration comes from a kept `.sql` entry, carries the
   * version read from its name and the variant's description, and no more
   * migrations than entries are collected.
   */
  lemma {:induction false} CollectKeepsSqlFiles(v: Variant, entries: seq<DirEntry>)
    ensures |Collect(v, entries)| <= |entries|
    ensures forall m :: m in Collect(v, entries) ==>
              EndsWith(m.filename, ".sql") && m.version == ExtractVersion(m.filename)
              && m.description == Description(v, m.filename)
  {
    if entries != [] {
      CollectKeepsSqlFiles(v, entries[..|entries| - 1]);
    }
  }

  lemma {:induction false} CollectSnoc(v: Variant, entries: seq<DirEntry>, i: nat)
    requires i < |entries|
    ensures Collect(v, entries[..i + 1])
            == Collect(v, entries[..i]) + (if IsSqlFile(entries[i]) then [ToMigration(v, entries[i])] else [])
  {
    assert entries[..i + 1][..i] == entries[..i];
  }

  /**
   * `readMigrations`: no directory means no migrations; otherwise push every
   * kept entry, then sort by version with the stable `Array.prototype.sort`.
   */
  method ReadMigrations(v: Variant, dirExists: bool, entries: seq<DirEntry>) returns (migrations: seq<Migration>)
    ensures !dirExists ==> migrations == []
    ensures dirExists ==> migrations == SortByVersion(Collect(v, entries))
  {
    if !dirExists {
      return [];
    }
    migrations := [];
    var i := 0;
    while i < |entries|
      invariant 0 <= i <= |entries|
      invariant migrations == Collect(v, entries[..i])
    {
      var entry := entries[i];
      CollectSnoc(v, entries, i);
      if IsSqlFile(entry) {
        migrations := migrations + [ToMigration(v, entry)];
      }
      i := i + 1;
    }
    assert entries[..|entries|] == entries;
    migrations := SortByVersion(migrations);
  }

  /** What `generate` ends with. */
  datatype GenerateOutcome =
    | Exited(code: int, message: string)   // error caught: logged, then process.exit(1)
    | NoMigrations                         // nothing written
    | Generated(path: string, content: string)

  /**
   * `generate`: create the output directory if it is missing, read the
   * migrations, stop without writing when there are none, else write the
   * Rust file. A failing `readdirSync` or `writeFileSync` exits with code 1.
   * `createdDir` is the directory `ensureOutputDir` created, if any.
   */
  method Generate(v: Variant, outDirExists: bool, migrationsDirExists: bool,
                  listing: Result<seq<DirEntry>, string>, writeError: Option<string>)
    returns (createdDir: Option<string>, outcome: GenerateOutcome)
    requires v == TypeScriptCopy ==> outDirExists == migrationsDirExists
    ensures createdDir == (if outDirExists then None else Some(OutDir(v)))
    ensures outcome.Generated? ==> outcome.path == OutFile(v)
    ensures outcome.Generated? ==> listing.Ok? && migrationsDirExists && writeError.None?
    ensures outcome.Generated? ==> outcome.content == Rendered(SortByVersion(Collect(v, listing.value)))
    ensures migrationsDirExists && listing.Ok? && Collect(v, listing.value) != [] && writeError.None? ==> outcome.Generated?
    ensures outcome == NoMigrations <==>
      !migrationsDirExists || (listing.Ok? && Collect(v, listing.value) == [])
    ensures outcome.Exited? ==> outcome.code == 1
  {
    createdDir := if outDirExists then None else Some(OutDir(v));
    // In the TypeScript copy the output directory is the migrations directory,
    // so a missing one has just been created, empty.
    var dirExists := migrationsDirExists || v == TypeScriptCopy;
    var entries: seq<DirEntry> := [];
    if migrationsDirExists {
      if listing.Err? {
        return createdDir, Exited(1, "Error during generation: " + listing.error);
      }
      entries := listing.value;
    }
    var migrations := ReadMigrations(v, dirExists, entries);
    if |migrations| == 0 {
      return createdDir, NoMigrations;
    }
    var content := RenderRust(migrations);
    match writeError {
      case Some(e) => outcome := Exited(1, "Error during generation: " + e);
      case None => outcome := Generated(OutFile(v), content);
    }
  }

  // ---------------------------------------------------------------------------
  // The two Node copies against each other
  // ---------------------------------------------------------------------------

  /** The copies keep the same files with the same versions; only the descriptions differ. */
  lemma {:induction false} CopiesDifferOnlyInDescription(entries: seq<DirEntry>)
    ensures Collect(JavaScriptCopy, entries) == Relabel(Collect(TypeScriptCopy, entries), "init")
  {
    if entries != [] {
      var init := entries[..|entries| - 1];
      CopiesDifferOnlyInDescription(init);
      var last := entries[|entries| - 1];
      var t := Collect(TypeScriptCopy, init);
      var tail := if IsSqlFile(last) then [ToMigration(TypeScriptCopy, last)] else [];
      RelabelAppend(t, tail, "init");
    }
  }

  lemma {:induction false} RelabelAppend(a: seq<Migration>, b: seq<Migration>, d: string)
    ensures Relabel(a + b, d) == Relabel(a, d) + Relabel(b, d)
  {
    if a != [] {
      assert (a + b)[1..] == a[1..] + b;
      RelabelAppend(a[1..], b, d);
    } else {
      assert a + b == b;
    }
  }

  /** So the generated lists are the same list, relabelled: same files, same versions, same order. */
  lemma {:induction false} SortedCopiesAgree(entries: seq<DirEntry>)
    ensures SortByVersion(Collect(JavaScriptCopy, entries))
         == Relabel(SortByVersion(Collect(TypeScriptCopy, entries)), "init")
  {
    CopiesDifferOnlyInDescription(entries);
    SortRelabel(Collect(TypeScriptCopy, entries), "init");
  }

  // ---------------------------------------------------------------------------
  // Against the Go command
  // ---------------------------------------------------------------------------

  lemma {:induction false} ParsedNameOfSql(base: string)
    requires base != []
    ensures ParsedName(base + ".sql") == base
  {
    var s := base + ".sql";
    assert s[|s| - 4] == '.' && s[|s| - 4 + 1..] == "sql";
    var r := LastIndexOf(s, '.');
    assert r == Some(|s| - 4) by {
      assert '.' !in s[|s| - 3..];
    }
    assert s != "..";
    assert s[..|s| - 4] == base;
  }

  /** Node reads `parseInt` where Go reads `strconv.Atoi`, of the same text. */
  lemma {:induction false} VersionOfSqlName(base: string)
    requires base != []
    ensures ExtractVersion(base + ".sql") == ParseInt(GoMigration.FirstPart(base)).GetOr(0)
  {
    ParsedNameOfSql(base);
  }

  /** On a plain numeric prefix such as `0003_…`, the Go command and the Node copies agree. */
  lemma {:induction false} VersionsAgreeOnNumericPrefix(digits: string, rest: string)
    requires |digits| > 0 && AllDigits(digits) && DigitsValue(digits) <= Int64Max
    requires '/' !in rest
    ensures ExtractVersion(digits + "_" + rest + ".sql") == DigitsValue(digits)
    ensures GoMigration.ExtractVersionFromFilename(digits + "_" + rest + ".sql") == DigitsValue(digits)
  {
    GoMigration.NumericPrefixIsVersion(digits, rest);
    var base := digits + "_" + rest;
    assert '_' !in digits by { assert forall i :: 0 <= i < |digits| ==> IsDigit(digits[i]); }
    VersionOfSqlName(base);
    SplitAfter(digits, '_', rest);
    assert base == digits + ['_'] + rest;
    AtoiAgreesWithParseInt(digits);
  }

  /**
   * They part ways on a prefix whose digit is followed by other text, such as
   * `1a_…`: Node reads the leading digit, Go's `Atoi` fails and the version is 0.
   */
  lemma {:induction false} VersionsDifferOnTrailingText(prefix: string, rest: string)
    requires |prefix| >= 2 && IsDigit(prefix[0]) && !IsDigit(prefix[1])
    requires '_' !in prefix && '/' !in prefix && '/' !in rest
    ensures ExtractVersion(prefix + "_" + rest + ".sql") == prefix[0] as int - '0' as int
    ensures GoMigration.ExtractVersionFromFilename(prefix + "_" + rest + ".sql") == 0
  {
    var base := prefix + "_" + rest;
    assert base == prefix + ['_'] + rest;
    SplitAfter(prefix, '_', rest);
    assert GoMigration.FirstPart(base) == prefix;
    DigitThenNonDigit(prefix);
    VersionOfSqlName(base);
    assert '/' !in base;
    GoMigration.NonNumericPrefixIsZero(base);
  }

  /** Go's `filepath.Ext(name) == ".sql"` and Node's `name.endsWith('.sql')` agree on names without `/`. */
  lemma {:induction false} SqlSuffixTestsAgree(name: string)
    requires '/' !in name
    ensures GoMigration.Ext(name) == ".sql" <==> EndsWith(name, ".sql")
  {
    if EndsWith(name, ".sql") {
      var base := name[..|name| - 4];
      assert name == base + ".sql";
      GoMigration.SqlExt(base);
    }
  }

  /**
   * The filters differ only on entries that are neither files nor directories
   * (symbolic links): Go keeps `link.sql`, Node drops it.
   */
  lemma {:induction false} FiltersAgreeOnFilesAndDirectories(e: DirEntry)
    requires '/' !in e.name
    ensures e.kind != OtherEntry ==> (GoMigration.IsSqlEntry(e) <==> IsSqlFile(e))
    ensures e.kind == OtherEntry && EndsWith(e.name, ".sql") ==> GoMigration.IsSqlEntry(e) && !IsSqlFile(e)
  {
    SqlSuffixTestsAgree(e.name);
  }
}
