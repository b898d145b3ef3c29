/**
 * `copy-build-files-to-release`: read the options, then copy a finished build
 * into `release/<version>/`, write the update manifest, the index and the
 * README from its template, and check the bundle. Every failure ends the run
 * with exit code 1.
 */
module CopyRelease {
  import opened Wrappers
  import opened Text
  import opened ReleaseShared

  // ---------------------------------------------------------------------------
  // parseArgs
  // ---------------------------------------------------------------------------

  /** The options; `None` is JavaScript's `undefined`, which `args[++i]` past the end yields. */
  datatype CopyOptions = CopyOptions(domain: Option<string>, version: Option<string>, force: bool)

  const Defaults: CopyOptions := CopyOptions(Some(DefaultDomain), None, false)


  /** What the option loop does with the remaining arguments. */
  function ParseFrom(args: seq<Option<string>>, opts: CopyOptions): ParseOutcome<CopyOptions>
    decreases |args|
  {
    if args == [] then Parsed(opts)
    else
      var a := args[0];
      if a == Some("-d") || a == Some("--domain") then ParseFrom(Rest(args, 2), opts.(domain := Arg(args, 1)))
      else if a == Some("-v") || a == Some("--version") then ParseFrom(Rest(args, 2), opts.(version := Arg(args, 1)))
      else if a == Some("-f") || a == Some("--force") then ParseFrom(args[1..], opts.(force := true))
      else if a == Some("-h") || a == Some("--help") then ShowHelp
      else UnknownOption(a)
  }

  /** `parseArgs`: the `for`/`switch` loop over `process.argv.slice(2)`. */
  method ParseArgs(argv: seq<Option<string>>) returns (r: ParseOutcome<CopyOptions>)
    ensures r == ParseFrom(Rest(argv, 2), Defaults)
  {
    var args := Rest(argv, 2);
    var options := Defaults;
    var i := 0;
    while i < |args|
      invariant 0 <= i <= |args| + 1
      invariant ParseFrom(Rest(args, i), options) == ParseFrom(args, Defaults)
      decreases |args| - i
    {
      var a := args[i];
      assert Rest(args, i)[0] == a;
      if a == Some("-d") || a == Some("--domain") {
        assert Rest(Rest(args, i), 2) == Rest(args, i + 2) && Arg(Rest(args, i), 1) == Arg(args, i + 1);
        i := i + 1;
        options := options.(domain := Arg(args, i));
      } else if a == Some("-v") || a == Some("--version") {
        assert Rest(Rest(args, i), 2) == Rest(args, i + 2) && Arg(Rest(args, i), 1) == Arg(args, i + 1);
        i := i + 1;
        options := options.(version := Arg(args, i));
      } else if a == Some("-f") || a == Some("--force") {
        assert Rest(args, i)[1..] == Rest(args, i + 1);
        options := options.(force := true);
      } else if a == Some("-h") || a == Some("--help") {
        return ShowHelp;
      } else {
        return UnknownOption(a);
      }
      i := i + 1;
    }
    return Parsed(options);
  }

  /** The options as a command line writes them, one flag at a time. */
  datatype CopyFlag = DomainFlag(domain: Option<string>) | VersionFlag(version: Option<string>) | ForceFlag

  function RenderFlag(f: CopyFlag): seq<Option<string>> {
    match f
    case DomainFlag(d) => [Some("-d"), d]
    case VersionFlag(v) => [Some("-v"), v]
    case ForceFlag => [Some("-f")]
  }

  function Render(flags: seq<CopyFlag>): seq<Option<string>> {
    if flags == [] then [] else RenderFlag(flags[0]) + Render(flags[1..])
  }

  /** Rendering works flag by flag: the rendering of a concatenation is the concatenation of the renderings. */
  lemma {:induction false} RenderAppend(a: seq<CopyFlag>, b: seq<CopyFlag>)
    ensures Render(a + b) == Render(a) + Render(b)
    decreases |a|
  {
    if a == [] {
      assert a + b == b;
    } else {
      assert (a + b)[0] == a[0] && (a + b)[1..] == a[1..] + b;
      RenderAppend(a[1..], b);
    }
  }

  /** The flags' effect, left to right. */
  function Apply(opts: CopyOptions, flags: seq<CopyFlag>): CopyOptions
    decreases |flags|
  {
    if flags == [] then opts
    else
      var next := match flags[0]
        case DomainFlag(d) => opts.(domain := d)
        case VersionFlag(v) => opts.(version := v)
        case ForceFlag => opts.(force := true);
      Apply(next, flags[1..])
  }

  /** Parsing a rendered command line gives the flags' effect: every value is consumed as a value, whatever its text. */
  lemma {:induction false} ParseRender(flags: seq<CopyFlag>, opts: CopyOptions)
    ensures ParseFrom(Render(flags), opts) == Parsed(Apply(opts, flags))
    decreases |flags|
  {
    if flags != [] {
      var r := Render(flags[1..]);
      var args := Render(flags);
      assert args == RenderFlag(flags[0]) + r;
      match flags[0]
      case DomainFlag(d) =>
        assert Rest(args, 2) == r;
        ParseRender(flags[1..], opts.(domain := d));
      case VersionFlag(v) =>
        assert Rest(args, 2) == r;
        ParseRender(flags[1..], opts.(version := v));
      case ForceFlag =>
        assert args[1..] == r;
        ParseRender(flags[1..], opts.(force := true));
    }
  }

  lemma {:induction false} ApplyAppend(opts: CopyOptions, a: seq<CopyFlag>, b: seq<CopyFlag>)
    ensures Apply(opts, a + b) == Apply(Apply(opts, a), b)
    decreases |a|
  {
    if a != [] {
      assert (a + b)[1..] == a[1..] + b;
      assert (a + b)[0] == a[0];
      match a[0]
      case DomainFlag(d) => ApplyAppend(opts.(domain := d), a[1..], b);
      case VersionFlag(v) => ApplyAppend(opts.(version := v), a[1..], b);
      case ForceFlag => ApplyAppend(opts.(force := true), a[1..], b);
    } else {
      assert a + b == b;
    }
  }

  lemma {:induction false} ApplyKeepsDomain(opts: CopyOptions, b: seq<CopyFlag>)
    requires forall i :: 0 <= i < |b| ==> !b[i].DomainFlag?
    ensures Apply(opts, b).domain == opts.domain
    decreases |b|
  {
    if b != [] {
      match b[0]
      case VersionFlag(v) => ApplyKeepsDomain(opts.(version := v), b[1..]);
      case ForceFlag => ApplyKeepsDomain(opts.(force := true), b[1..]);
    }
  }

  /** A later `-d` overrides an earlier one: the domain is the value of the last `-d`. */
  lemma {:induction false} LastDomainWins(a: seq<CopyFlag>, d: Option<string>, b: seq<CopyFlag>)
    requires forall i :: 0 <= i < |b| ==> !b[i].DomainFlag?
    ensures var r := ParseFrom(Render(a + [DomainFlag(d)] + b), Defaults);
      r.Parsed? && r.options.domain == d
  {
    ParseRender(a + [DomainFlag(d)] + b, Defaults);
    ApplyAppend(Defaults, a + [DomainFlag(d)], b);
    ApplyAppend(Defaults, a, [DomainFlag(d)]);
    ApplyKeepsDomain(Apply(Defaults, a + [DomainFlag(d)]), b);
  }

  /** `-h` stops the loop at once, and anything not listed is an unknown option. */
  lemma {:induction false} HelpAndUnknown(args: seq<Option<string>>, opts: CopyOptions)
    requires args != []
    ensures args[0] == Some("-h") ==> ParseFrom(args, opts) == ShowHelp
    ensures !(args[0] in [Some("-d"), Some("--domain"), Some("-v"), Some("--version"),
                          Some("-f"), Some("--force"), Some("-h"), Some("--help")])
            ==> ParseFrom(args, opts) == UnknownOption(args[0])
  {
  }

  // ---------------------------------------------------------------------------
  // updateReadme
  // ---------------------------------------------------------------------------

  /** The date part of an ISO 8601 timestamp: the text before the first `T`. */
  function ReleaseDate(isoTimestamp: string): string {
    Split(isoTimestamp, 'T')[0]
  }

  lemma {:induction false} ReleaseDateOfTimestamp(date: string, time: string)
    requires 'T' !in date
    ensures ReleaseDate(date + "T" + time) == date
  {
    SplitAfter(date, 'T', time);
    assert date + "T" + time == date + ['T'] + time;
  }

  /**
   * The README replacements, in the order the object literal lists them. The
   * sizes are `formatBytes` of the DMG, of the archive and of their sum.
   */
  function ReadmeReplacements(version: string, domain: Option<string>, isoTimestamp: string,
                              dmgSize: string, appBundleSize: string, totalSize: string): (r: seq<(string, string)>)
    ensures |r| == 6 && r[0].0 == "VERSION" && r[1].0 == "DOMAIN" && r[2].0 == "RELEASE_DATE"
    ensures r[3].0 == "DMG_SIZE" && r[4].0 == "APP_BUNDLE_SIZE" && r[5].0 == "TOTAL_SIZE"
  {
    [("VERSION", version), ("DOMAIN", Shown(domain)), ("RELEASE_DATE", ReleaseDate(isoTimestamp)),
     ("DMG_SIZE", dmgSize), ("APP_BUNDLE_SIZE", appBundleSize), ("TOTAL_SIZE", totalSize)]
  }

  function TemplatePath(root: string): string {
    Slash(Slash(Slash(root, "scripts"), "templates"), "copy-build-files-to-release.template.md")
  }

  /** `updateReadme`: fill the template and write `README.md` at the top of the release tree. */
  method UpdateReadme(fs: FileSystem, root: string, version: string, domain: Option<string>, w: CopyWorld)
    returns (r: Result<(), string>)
    modifies fs
    ensures r.Ok? <==> w.template.Ok? && w.readmeWriteError.None?
    ensures r.Err? ==> fs.entries == old(fs.entries)
    ensures r.Ok? ==> fs.entries == old(fs.entries)[ReadmePath(root) := TextFile(ReadmeText(w.template.value, version, domain, w))]
    ensures r.Err? ==> r.error == FinishError(root, w)
  {
    var replacements := ReadmeReplacements(version, domain, w.readmeTime,
                                           w.dmgSizeText, w.appBundleSizeText, w.totalSizeText);
    var readme := ProcessTemplate(TemplatePath(root), w.template, replacements);
    if readme.Err? {
      return Err(readme.error);
    }
    r := fs.WriteText(ReadmePath(root), readme.value, "Failed to update README: ", w.readmeWriteError);
  }

  /** The README text: the template with the six placeholders filled in turn. */
  function ReadmeText(template: string, version: string, domain: Option<string>, w: CopyWorld): string {
    ApplyReplacements(template, ReadmeReplacements(version, domain, w.readmeTime,
                                                   w.dmgSizeText, w.appBundleSizeText, w.totalSizeText))
  }

  /** Text without `{` holds no placeholder. */
  lemma {:induction false} PlainTextHasNoPlaceholder(s: string, key: string)
    requires '{' !in s
    ensures NotIn(s, Placeholder(key))
  {
    forall i | 0 <= i < |s| ensures !(Placeholder(key) <= s[i..]) {
      assert s[i..][0] == s[i];
    }
  }

  lemma {:induction false} JoinWithoutBrace(pieces: seq<string>, v: string)
    requires forall i :: 0 <= i < |pieces| ==> '{' !in pieces[i]
    requires '{' !in v
    ensures '{' !in Join(pieces, v)
    decreases |pieces|
  {
    if |pieces| > 1 {
      JoinWithoutBrace(pieces[1..], v);
    }
  }

  /** Once the text has no `{` left, the later replacements leave it alone. */
  lemma {:induction false} LaterReplacementsKeep(c: string, reps: seq<(string, string)>, m: nat)
    requires 1 <= m <= |reps|
    requires '{' !in ApplyReplacements(c, reps[..1])
    ensures ApplyReplacements(c, reps[..m]) == ApplyReplacements(c, reps[..1])
  {
    if m > 1 {
      LaterReplacementsKeep(c, reps, m - 1);
      assert reps[..m][..m - 1] == reps[..m - 1];
      PlainTextHasNoPlaceholder(ApplyReplacements(c, reps[..1]), reps[m - 1].0);
      ReplaceAllAbsent(ApplyReplacements(c, reps[..1]), Placeholder(reps[m - 1].0), reps[m - 1].1);
    }
  }

  /**
   * A template whose only placeholder is `{{VERSION}}` gets the version
   * everywhere it appears and is otherwise copied through.
   */
  lemma {:induction false} ReadmeFillsVersion(pieces: seq<string>, version: string, domain: Option<string>, w: CopyWorld)
    requires forall i :: 0 <= i < |pieces| ==> '{' !in pieces[i]
    requires '{' !in version
    ensures ReadmeText(Join(pieces, Placeholder("VERSION")), version, domain, w) == Join(pieces, version)
  {
    var t := Join(pieces, Placeholder("VERSION"));
    var reps := ReadmeReplacements(version, domain, w.readmeTime, w.dmgSizeText, w.appBundleSizeText, w.totalSizeText);
    assert reps[..1] == [("VERSION", version)];
    assert ApplyReplacements(t, reps[..1]) == ReplaceAll(t, Placeholder("VERSION"), version) by {
      assert reps[..1][..0] == [];
    }
    FillsEveryPlaceholder(pieces, "VERSION", version);
    JoinWithoutBrace(pieces, version);
    LaterReplacementsKeep(t, reps, 6);
    assert reps[..6] == reps;
  }

  // ---------------------------------------------------------------------------
  // main
  // ---------------------------------------------------------------------------

  datatype CopyStep = ParseArguments | ValidateStructure | ResolveVersion | CheckArtifacts | CreateBundle
                    | CopyFiles | WriteManifest | WriteIndex | WriteReadme | ValidateBundle | Summary

  /** The steps of `main`, in order, grouped as the methods below take them. */
  const PreflightSteps: seq<CopyStep> := [ParseArguments, ValidateStructure, ResolveVersion, CheckArtifacts]
  const FinishSteps: seq<CopyStep> := [WriteReadme, ValidateBundle, Summary]
  const IndexSteps: seq<CopyStep> := [WriteIndex] + FinishSteps
  const RecordSteps: seq<CopyStep> := [WriteManifest] + IndexSteps
  const BundleSteps: seq<CopyStep> := [CreateBundle, CopyFiles] + RecordSteps
  const CopyPipeline: seq<CopyStep> := PreflightSteps + BundleSteps


  /**
   * What the outside world answers during a run: file reads, sizes, write
   * failures and the clock, which is read three times: for the manifest, for
   * the index and for the README's release date.
   */
  datatype CopyWorld = CopyWorld(
    root: string, config: ConfigRead, mkdirError: Option<string>, copyError: Option<string>,
    signature: Result<string, string>, manifestTime: string, indexTime: string, appBundleSize: nat,
    manifestWriteError: Option<string>, indexWriteError: Option<string>,
    dmgSizeText: string, appBundleSizeText: string, totalSizeText: string,
    readmeTime: string, template: Result<string, string>, readmeWriteError: Option<string>)

  /** The README is read and written. */
  predicate FinishWrites(w: CopyWorld) { w.template.Ok? && w.readmeWriteError.None? }

  /** The config is read again and the index written, and so is the README. */
  predicate IndexWrites(w: CopyWorld) { w.config.ConfigParsed? && w.indexWriteError.None? && FinishWrites(w) }

  /** The signature is read and the manifest written, and so are the index and the README. */
  predicate RecordWrites(w: CopyWorld) { w.signature.Ok? && w.manifestWriteError.None? && IndexWrites(w) }

  /** Every write of the run succeeds: the directories, the copies and the records. */
  predicate BundleWrites(w: CopyWorld) { w.mkdirError.None? && w.copyError.None? && RecordWrites(w) }

  /** The message of the README step when it fails: the template read comes first. */
  function FinishError(root: string, w: CopyWorld): string
    requires !FinishWrites(w)
  {
    if w.template.Err? then "Failed to process template " + TemplatePath(root) + ": " + w.template.error
    else "Failed to update README: " + w.readmeWriteError.value
  }

  /**
   * How the run ends at the first failure from the index on: the config read
   * throws out of `main`, every other failure exits 1 with its message.
   */
  function IndexExit(root: string, w: CopyWorld): Exit
    requires !IndexWrites(w)
  {
    if !w.config.ConfigParsed? then Threw(ConfigReadError(TauriConf(root), w.config))
    else if w.indexWriteError.Some? then Exited(1, "Failed to update index: " + w.indexWriteError.value)
    else Exited(1, FinishError(root, w))
  }

  /** How the run ends at the first failure from the manifest on. */
  function RecordExit(root: string, w: CopyWorld): Exit
    requires !RecordWrites(w)
  {
    if w.signature.Err? then Threw(w.signature.error)
    else if w.manifestWriteError.Some? then Exited(1, "Failed to create update manifest: " + w.manifestWriteError.value)
    else IndexExit(root, w)
  }

  /**
   * How the run ends at its first failure: it throws exactly when the first
   * failure is one of the two unguarded reads, the signature or the config.
   */
  function BundleExit(root: string, w: CopyWorld): (r: Exit)
    requires !BundleWrites(w)
    ensures r != Completed
    ensures r.Exited? ==> r.code == 1
    ensures r.Threw? <==> WritesThrow(w)
    ensures r.Threw? ==> r.error == ThrownError(root, w)
  {
    if w.mkdirError.Some? then Exited(1, "Failed to create directory structure: " + w.mkdirError.value)
    else if w.copyError.Some? then Exited(1, w.copyError.value)
    else RecordExit(root, w)
  }

  /**
   * The directories and copies are made and then an unguarded read fails:
   * the copied signature, or, after the manifest is written, the config read
   * again for the index.
   */
  predicate WritesThrow(w: CopyWorld) {
    && w.mkdirError.None? && w.copyError.None?
    && (w.signature.Err? || (w.manifestWriteError.None? && !w.config.ConfigParsed?))
  }

  /** The message of the error such a read throws. */
  function ThrownError(root: string, w: CopyWorld): string
    requires WritesThrow(w)
  {
    if w.signature.Err? then w.signature.error else ConfigReadError(TauriConf(root), w.config)
  }

  /** What the README step writes. */
  function ReadmeEntry(version: string, domainOption: Option<string>, w: CopyWorld): Entry
    requires FinishWrites(w)
  {
    TextFile(ReadmeText(w.template.value, version, domainOption, w))
  }

  /** What the index step writes. */
  function IndexEntry(version: string, domainOption: Option<string>, w: CopyWorld): Entry
    requires w.config.ConfigParsed?
  {
    IndexFile(IndexFor(version, Shown(domainOption), w.indexTime, w.appBundleSize, w.config.pubkey))
  }

  /** What the manifest step writes. */
  function ManifestEntry(version: string, domainOption: Option<string>, w: CopyWorld): Entry
    requires w.signature.Ok?
  {
    ManifestFile(UpdateManifestFor(version, Shown(domainOption), w.signature.value, w.manifestTime))
  }

  /** `m` with the entry at `from`, if there is one, also stored at `to`. */
  function BackUp<K, V>(m: map<K, V>, from: K, to: K): map<K, V> {
    if from in m then m[to := m[from]] else m
  }

  /** Writing `mp`, backing `ip` up to `bp`, then writing `ip` and `rp`, on four separate keys. */
  lemma {:induction false} UpdateChain<K, V>(stage: map<K, V>, mp: K, ip: K, bp: K, rp: K, mv: V, iv: V, rv: V)
    requires mp != ip && mp != bp && mp != rp && ip != bp && ip != rp && bp != rp
    ensures var after := BackUp(stage[mp := mv], ip, bp)[ip := iv][rp := rv];
      && after.Keys == stage.Keys + {mp, ip, rp} + (if ip in stage then {bp} else {})
      && mp in after && after[mp] == mv && ip in after && after[ip] == iv && rp in after && after[rp] == rv
      && (ip in stage ==> bp in after && after[bp] == stage[ip])
      && (forall p :: p in stage && p != mp && p != ip && p != rp && (p == bp ==> ip !in stage) ==> p in after && after[p] == stage[p])
  {
  }

  /** The three `mkdir -p` calls of the bundle step. */
  function BundleDirs(before: map<string, Entry>, root: string, version: string): map<string, Entry> {
    EnsureDir(EnsureDir(EnsureDir(before, BundleDir(root)), VersionDir(root, version)), MacosDir(root, version))
  }

  /** The release tree after the README is written over `before`. */
  function ReadmeWritten(before: map<string, Entry>, root: string, version: string, domainOption: Option<string>,
                         w: CopyWorld): map<string, Entry>
    requires FinishWrites(w)
  {
    before[ReadmePath(root) := ReadmeEntry(version, domainOption, w)]
  }

  /** The release tree after the old index is backed up, the new one written, and then the README. */
  function IndexWritten(before: map<string, Entry>, root: string, version: string, domainOption: Option<string>,
                        w: CopyWorld): map<string, Entry>
    requires IndexWrites(w)
  {
    ReadmeWritten(BackUp(before, IndexPath(root), IndexBackupPath(root))[IndexPath(root) := IndexEntry(version, domainOption, w)],
                  root, version, domainOption, w)
  }

  /** The release tree after the update manifest is written, and then the index and the README. */
  function RecordsWritten(before: map<string, Entry>, root: string, version: string, domainOption: Option<string>,
                          w: CopyWorld): map<string, Entry>
    requires RecordWrites(w)
  {
    IndexWritten(before[ManifestPath(root, version) := ManifestEntry(version, domainOption, w)], root, version, domainOption, w)
  }

  /** The release tree after a whole run: the three directories, the four copies and the records. */
  function BundleWritten(before: map<string, Entry>, root: string, version: string, domainOption: Option<string>,
                         w: CopyWorld): map<string, Entry>
    requires RecordWrites(w)
  {
    RecordsWritten(BundleDirs(before, root, version) + CopiedEntries(root, version), root, version, domainOption, w)
  }

  /** What the run stands on once the checks before any write have passed. */
  datatype Plan = Plan(options: CopyOptions, version: string)

  /** The plan the checks after the options reach, if they all pass. */
  function PlanWith(options: CopyOptions, existing: set<string>, w: CopyWorld): Option<Plan> {
    if ValidateProjectStructure(w.root, existing).Err? then None
    else
      var version := GetVersion(options.version, TauriConf(w.root), w.config);
      if version.Err? || !(forall c :: c in ArtifactChecks(ArtifactPaths(w.root, version.value)) ==> c.1 in existing)
      then None
      else Some(Plan(options, version.value))
  }

  /** The plan the checks reach, if they all pass. */
  function PlanFor(argv: seq<Option<string>>, existing: set<string>, w: CopyWorld): Option<Plan> {
    var parsed := ParseFrom(Rest(argv, 2), Defaults);
    if !parsed.Parsed? then None else PlanWith(parsed.options, existing, w)
  }

  /**
   * What a completed run leaves in the release tree: the copies, the manifest,
   * the index and the README hold what the run wrote, the three directories
   * exist, an earlier index survives as the backup, and every other path is as
   * it was. The one assumption is that the version directory is not the index
   * file itself, which only the version `index.json` breaks.
   */
  lemma {:induction false} BundleWrittenContents(before: map<string, Entry>, root: string, version: string,
                                                 domainOption: Option<string>, w: CopyWorld)
    requires RecordWrites(w) && VersionDir(root, version) != IndexPath(root)
    ensures var after := BundleWritten(before, root, version, domainOption, w);
      && after.Keys == before.Keys + {BundleDir(root), VersionDir(root, version), MacosDir(root, version)}
                       + CopiedFiles(root, version) + {ManifestPath(root, version), IndexPath(root), ReadmePath(root)}
                       + (if IndexPath(root) in before then {IndexBackupPath(root)} else {})
      && (forall p :: p in CopiedEntries(root, version) ==> p in after && after[p] == CopiedEntries(root, version)[p])
      && ManifestPath(root, version) in after && after[ManifestPath(root, version)] == ManifestEntry(version, domainOption, w)
      && IndexPath(root) in after && after[IndexPath(root)] == IndexEntry(version, domainOption, w)
      && ReadmePath(root) in after && after[ReadmePath(root)] == ReadmeEntry(version, domainOption, w)
      && (IndexPath(root) in before ==> IndexBackupPath(root) in after && after[IndexBackupPath(root)] == before[IndexPath(root)])
      && (forall p :: p in before && p !in CopiedFiles(root, version)
                      && p != ManifestPath(root, version) && p != IndexPath(root) && p != ReadmePath(root)
                      && (p == IndexBackupPath(root) ==> IndexPath(root) !in before)
                      ==> p in after && after[p] == before[p])
  {
    BundleKeys(before, root, version, domainOption, w);
    BundleRecords(before, root, version, domainOption, w);
    BundleCopies(before, root, version, domainOption, w);
    BundleBackup(before, root, version, domainOption, w);
    BundleKeepsOthers(before, root, version, domainOption, w);
  }

  /** The records stage finds the old index where the run found it: the bundle step does not write `index.json`. */
  lemma {:induction false} IndexUntouchedBeforeRecords(before: map<string, Entry>, root: string, version: string)
    requires VersionDir(root, version) != IndexPath(root)
    ensures var stage := BundleDirs(before, root, version) + CopiedEntries(root, version);
      && (IndexPath(root) in stage <==> IndexPath(root) in before)
      && (IndexPath(root) in before ==> stage[IndexPath(root)] == before[IndexPath(root)])
  {
    CopiedEntriesKeys(root, version);
    CopiesAreNotRecords(root, version);
    assert |ManifestPath(root, version)| > |IndexPath(root)| > |BundleDir(root)|;
    assert IndexPath(root) != MacosDir(root, version) by {
      var m := MacosDir(root, version);
      assert m[|m| - 1] == 's' && IndexPath(root)[|IndexPath(root)| - 1] == 'n';
    }
  }

  lemma {:induction false} BundleKeys(before: map<string, Entry>, root: string, version: string,
                                      domainOption: Option<string>, w: CopyWorld)
    requires RecordWrites(w) && VersionDir(root, version) != IndexPath(root)
    ensures BundleWritten(before, root, version, domainOption, w).Keys
         == before.Keys + {BundleDir(root), VersionDir(root, version), MacosDir(root, version)}
            + CopiedFiles(root, version) + {ManifestPath(root, version), IndexPath(root), ReadmePath(root)}
            + (if IndexPath(root) in before then {IndexBackupPath(root)} else {})
  {
    IndexUntouchedBeforeRecords(before, root, version);
    CopiedEntriesKeys(root, version);
  }

  lemma {:induction false} BundleRecords(before: map<string, Entry>, root: string, version: string,
                                         domainOption: Option<string>, w: CopyWorld)
    requires RecordWrites(w)
    ensures var after := BundleWritten(before, root, version, domainOption, w);
      && ManifestPath(root, version) in after && after[ManifestPath(root, version)] == ManifestEntry(version, domainOption, w)
      && IndexPath(root) in after && after[IndexPath(root)] == IndexEntry(version, domainOption, w)
      && ReadmePath(root) in after && after[ReadmePath(root)] == ReadmeEntry(version, domainOption, w)
  {
    RecordsWrite(BundleDirs(before, root, version) + CopiedEntries(root, version), root, version, domainOption, w);
  }

  /** The records stage writes the manifest, the index and the README, whatever it starts from. */
  lemma {:induction false} RecordsWrite(stage: map<string, Entry>, root: string, version: string,
                                        domainOption: Option<string>, w: CopyWorld)
    requires RecordWrites(w)
    ensures var after := RecordsWritten(stage, root, version, domainOption, w);
      && ManifestPath(root, version) in after && after[ManifestPath(root, version)] == ManifestEntry(version, domainOption, w)
      && IndexPath(root) in after && after[IndexPath(root)] == IndexEntry(version, domainOption, w)
      && ReadmePath(root) in after && after[ReadmePath(root)] == ReadmeEntry(version, domainOption, w)
  {
    var m, i, b, r := ManifestPath(root, version), IndexPath(root), IndexBackupPath(root), ReadmePath(root);
    assert |m| > |i| && |i| > |r| && |b| > |i|;
    assert m != b by {
      if |m| == |b| {
        assert m[|m| - 1] == 'n' && b[|b| - 1] == 'k';
      }
    }
    UpdateChain(stage, m, i, b, r, ManifestEntry(version, domainOption, w), IndexEntry(version, domainOption, w),
                ReadmeEntry(version, domainOption, w));
  }

  /** The records stage leaves every path it does not write as it was. */
  lemma {:induction false} RecordsKeep(stage: map<string, Entry>, root: string, version: string,
                                       domainOption: Option<string>, w: CopyWorld)
    requires RecordWrites(w)
    ensures var after := RecordsWritten(stage, root, version, domainOption, w);
      forall p :: p in stage && p != ManifestPath(root, version) && p != IndexPath(root) && p != ReadmePath(root)
                  && (p == IndexBackupPath(root) ==> IndexPath(root) !in stage)
                  ==> p in after && after[p] == stage[p]
  {
    var m, i, b, r := ManifestPath(root, version), IndexPath(root), IndexBackupPath(root), ReadmePath(root);
    assert |m| > |i| && |i| > |r| && |b| > |i|;
    assert m != b by {
      if |m| == |b| {
        assert m[|m| - 1] == 'n' && b[|b| - 1] == 'k';
      }
    }
    UpdateChain(stage, m, i, b, r, ManifestEntry(version, domainOption, w), IndexEntry(version, domainOption, w),
                ReadmeEntry(version, domainOption, w));
  }

  /** No copy lands on one of the records. */
  lemma {:induction false} CopiesAreNotRecords(root: string, version: string)
    ensures forall p :: p in CopiedFiles(root, version) ==>
      p != ManifestPath(root, version) && p != IndexPath(root) && p != IndexBackupPath(root) && p != ReadmePath(root)
  {
  }

  lemma {:induction false} BundleCopies(before: map<string, Entry>, root: string, version: string,
                                        domainOption: Option<string>, w: CopyWorld)
    requires RecordWrites(w)
    ensures var after := BundleWritten(before, root, version, domainOption, w);
      forall p :: p in CopiedEntries(root, version) ==> p in after && after[p] == CopiedEntries(root, version)[p]
  {
    var stage := BundleDirs(before, root, version) + CopiedEntries(root, version);
    CopiedEntriesKeys(root, version);
    CopiesAreNotRecords(root, version);
    RecordsKeep(stage, root, version, domainOption, w);
  }

  lemma {:induction false} BundleBackup(before: map<string, Entry>, root: string, version: string,
                                        domainOption: Option<string>, w: CopyWorld)
    requires RecordWrites(w) && VersionDir(root, version) != IndexPath(root)
    ensures var after := BundleWritten(before, root, version, domainOption, w);
      IndexPath(root) in before ==> IndexBackupPath(root) in after && after[IndexBackupPath(root)] == before[IndexPath(root)]
  {
    IndexUntouchedBeforeRecords(before, root, version);
    RecordsBackUp(BundleDirs(before, root, version) + CopiedEntries(root, version), root, version, domainOption, w);
  }

  /** The records stage keeps an index it finds as the backup. */
  lemma {:induction false} RecordsBackUp(stage: map<string, Entry>, root: string, version: string,
                                         domainOption: Option<string>, w: CopyWorld)
    requires RecordWrites(w)
    ensures var after := RecordsWritten(stage, root, version, domainOption, w);
      IndexPath(root) in stage ==> IndexBackupPath(root) in after && after[IndexBackupPath(root)] == stage[IndexPath(root)]
  {
    var m, i, b, r := ManifestPath(root, version), IndexPath(root), IndexBackupPath(root), ReadmePath(root);
    assert |m| > |i| && |i| > |r| && |b| > |i|;
    assert m != b by {
      if |m| == |b| {
        assert m[|m| - 1] == 'n' && b[|b| - 1] == 'k';
      }
    }
    UpdateChain(stage, m, i, b, r, ManifestEntry(version, domainOption, w), IndexEntry(version, domainOption, w),
                ReadmeEntry(version, domainOption, w));
  }

  lemma {:induction false} BundleKeepsOthers(before: map<string, Entry>, root: string, version: string,
                                             domainOption: Option<string>, w: CopyWorld)
    requires RecordWrites(w) && VersionDir(root, version) != IndexPath(root)
    ensures var after := BundleWritten(before, root, version, domainOption, w);
      forall p :: p in before && p !in CopiedFiles(root, version)
                  && p != ManifestPath(root, version) && p != IndexPath(root) && p != ReadmePath(root)
                  && (p == IndexBackupPath(root) ==> IndexPath(root) !in before)
                  ==> p in after && after[p] == before[p]
  {
    var stage := BundleDirs(before, root, version) + CopiedEntries(root, version);
    IndexUntouchedBeforeRecords(before, root, version);
    StageKeepsBefore(before, root, version);
    RecordsKeep(stage, root, version, domainOption, w);
  }

  /** The bundle step leaves every path it does not copy to as it was: `mkdir -p` keeps what exists. */
  lemma {:induction false} StageKeepsBefore(before: map<string, Entry>, root: string, version: string)
    ensures var stage := BundleDirs(before, root, version) + CopiedEntries(root, version);
      forall p :: p in before && p !in CopiedFiles(root, version) ==> p in stage && stage[p] == before[p]
  {
    CopiedEntriesKeys(root, version);
  }

  /**
   * A run completes: the checks pass, the version directory is new or
   * `--force` is given, and every write succeeds.
   */
  predicate CopySucceeds(argv: seq<Option<string>>, before: map<string, Entry>, w: CopyWorld) {
    ParseFrom(Rest(argv, 2), Defaults).Parsed? && RunSucceeds(ParseFrom(Rest(argv, 2), Defaults).options, before, w)
  }

  /** The same, once the command line has given `options`. */
  predicate RunSucceeds(options: CopyOptions, before: map<string, Entry>, w: CopyWorld) {
    var plan := PlanWith(options, before.Keys, w);
    && plan.Some?
    && !(VersionDir(w.root, plan.value.version) in before && !options.force)
    && BundleWrites(w)
  }

  /**
   * A run with `options` over the release tree `before` gets past the checks
   * and the existing-bundle guard and then throws at an unguarded read.
   */
  predicate RunThrows(options: CopyOptions, before: map<string, Entry>, w: CopyWorld) {
    var plan := PlanWith(options, before.Keys, w);
    plan.Some? && !(VersionDir(w.root, plan.value.version) in before && !options.force) && WritesThrow(w)
  }

  /**
   * A throwing run never completes and ends in exactly that throw. The config
   * read for the index can throw only when the version came from
   * `--version`: without one, `getVersion` reads the same config and exits on
   * a failed read before any write.
   */
  lemma {:induction false} ThrowsOnlyWithOverride(options: CopyOptions, before: map<string, Entry>, w: CopyWorld)
    requires RunThrows(options, before, w)
    ensures w.signature.Ok? ==> options.version.Some? && options.version.value != ""
    ensures !RunSucceeds(options, before, w)
    ensures forall e :: RunExit(options, before, w, e) <==> e == Threw(ThrownError(w.root, w))
  {
  }

  /** `e` reports the first artifact check that fails for `version`. */
  predicate ArtifactMissing(root: string, version: string, existing: set<string>, e: Exit) {
    var checks := ArtifactChecks(ArtifactPaths(root, version));
    exists k :: 0 <= k < 4 && checks[k].1 !in existing && (forall j :: 0 <= j < k ==> checks[j].1 in existing)
                && e == Exited(1, checks[k].0 + " not found: " + checks[k].1)
  }

  /**
   * `e` is how the checks after the options stop: the project check, the
   * version and then the artifacts, each exiting 1 with its message.
   */
  predicate ChecksExit(options: CopyOptions, existing: set<string>, w: CopyWorld, e: Exit) {
    if ValidateProjectStructure(w.root, existing).Err? then e == Exited(1, ValidateProjectStructure(w.root, existing).error)
    else
      var version := GetVersion(options.version, TauriConf(w.root), w.config);
      if version.Err? then e == Exited(1, version.error)
      else ArtifactMissing(w.root, version.value, existing, e)
  }

  /** `e` is how the checks before any write stop: help exits 0, an unknown option 1, and then the checks. */
  predicate PreflightExit(argv: seq<Option<string>>, existing: set<string>, w: CopyWorld, e: Exit) {
    var parsed := ParseFrom(Rest(argv, 2), Defaults);
    if parsed.ShowHelp? then e == Exited(0, "")
    else if parsed.UnknownOption? then e == Exited(1, "Unknown option: " + Shown(parsed.arg))
    else ChecksExit(parsed.options, existing, w, e)
  }

  /**
   * `e` is how a run with `options` over the release tree `before` ends:
   * the checks, then an existing bundle without `--force`, then the first
   * failing write, and otherwise completion.
   */
  predicate RunExit(options: CopyOptions, before: map<string, Entry>, w: CopyWorld, e: Exit) {
    var plan := PlanWith(options, before.Keys, w);
    if plan.None? then ChecksExit(options, before.Keys, w, e) else PlanExit(plan.value, before, w, e)
  }

  /**
   * `e` is how the writing half of a run with `plan` ends: an existing bundle
   * without `--force`, then the first failing write, and otherwise completion.
   */
  predicate PlanExit(plan: Plan, before: map<string, Entry>, w: CopyWorld, e: Exit) {
    if VersionDir(w.root, plan.version) in before && !plan.options.force then
      e == Exited(1, "Bundle for version " + plan.version + " already exists")
    else if !BundleWrites(w) then e == BundleExit(w.root, w)
    else e == Completed
  }

  /**
   * The first half of `main`: read the options, check the project, resolve
   * the version and check the build artifacts. Nothing is written.
   */
  method Preflight(argv: seq<Option<string>>, existing: set<string>, w: CopyWorld)
    returns (done: seq<CopyStep>, r: Result<Plan, Exit>)
    ensures done <= PreflightSteps
    ensures r.Ok? <==> done == PreflightSteps
    ensures r.Ok? <==> PlanFor(argv, existing, w).Some?
    ensures r.Ok? ==> r.value == PlanFor(argv, existing, w).value
    ensures r.Err? ==> r.error.Exited? && r.error.code == (if ParseFrom(Rest(argv, 2), Defaults) == ShowHelp then 0 else 1)
    ensures r.Err? ==> PreflightExit(argv, existing, w, r.error)
  {
    done := [];
    var parsed := ParseArgs(argv);
    if parsed.ShowHelp? {
      return done, Err(Exited(0, ""));
    } else if parsed.UnknownOption? {
      return done, Err(Exited(1, "Unknown option: " + Shown(parsed.arg)));
    }
    var options := parsed.options;
    done := done + [ParseArguments];

    var structure := ValidateProjectStructure(w.root, existing);
    if structure.Err? {
      return done, Err(Exited(1, structure.error));
    }
    done := done + [ValidateStructure];

    var resolved := GetVersion(options.version, TauriConf(w.root), w.config);
    if resolved.Err? {
      return done, Err(Exited(1, resolved.error));
    }
    var version := resolved.value;
    done := done + [ResolveVersion];

    var artifacts := CheckBuildArtifacts(w.root, version, existing);
    if artifacts.Err? {
      return done, Err(Exited(1, artifacts.error));
    }
    done := done + [CheckArtifacts];
    r := Ok(Plan(options, version));
  }

  /**
   * The second half of `main`: create the bundle directories and copy the
   * artifacts, then write the records.
   */
  method WriteBundle(fs: FileSystem, plan: Plan, w: CopyWorld) returns (done: seq<CopyStep>, exit: Exit)
    modifies fs
    ensures done <= BundleSteps
    ensures exit == Completed <==> done == BundleSteps
    ensures exit.Exited? ==> exit.code == 1
    ensures done == [] ==> fs.entries == old(fs.entries)
    ensures VersionDir(w.root, plan.version) in old(fs.entries) && !plan.options.force ==> done == []
    ensures WriteReadme in done ==> ValidateBundle in done
    ensures PlanExit(plan, old(fs.entries), w, exit)
    ensures exit == Completed ==>
              BundleWrites(w) && fs.entries == BundleWritten(old(fs.entries), w.root, plan.version, plan.options.domain, w)
  {
    var root, version := w.root, plan.version;
    done, exit := MakeBundle(fs, root, version, plan.options.force, w);
    if exit != Completed {
      return;
    }
    var rest;
    rest, exit := WriteRecords(fs, root, version, plan.options.domain, w);
    done := [CreateBundle, CopyFiles] + rest;
    BundleStepsAfterCopies(rest);
  }

  /** The records' steps after the two bundle steps are a prefix of the bundle's, and the README is still checked. */
  lemma {:induction false} BundleStepsAfterCopies(rest: seq<CopyStep>)
    requires rest <= RecordSteps
    requires WriteReadme in rest ==> ValidateBundle in rest
    ensures var done := [CreateBundle, CopyFiles] + rest;
      && done <= BundleSteps && (done == BundleSteps <==> rest == RecordSteps)
      && done != [] && (WriteReadme in done ==> ValidateBundle in done)
  {
    PrependPrefix([CreateBundle, CopyFiles], rest, RecordSteps);
  }

  /** Create the bundle directories, then copy the artifacts into them. */
  method MakeBundle(fs: FileSystem, root: string, version: string, force: bool, w: CopyWorld)
    returns (done: seq<CopyStep>, exit: Exit)
    modifies fs
    ensures exit == Completed <==> !(VersionDir(root, version) in old(fs.entries) && !force) && w.mkdirError.None? && w.copyError.None?
    ensures exit == Completed ==>
              done == [CreateBundle, CopyFiles] && fs.entries == BundleDirs(old(fs.entries), root, version) + CopiedEntries(root, version)
              && CopiedFiles(root, version) <= fs.entries.Keys
    ensures exit != Completed ==> exit.Exited? && done <= [CreateBundle] && exit.code == 1
    ensures done == [] ==> fs.entries == old(fs.entries)
    ensures VersionDir(root, version) in old(fs.entries) && !force ==>
              done == [] && exit == Exited(1, "Bundle for version " + version + " already exists")
    ensures !(VersionDir(root, version) in old(fs.entries) && !force) && (w.mkdirError.Some? || w.copyError.Some?) ==>
              exit == BundleExit(root, w)
  {
    done := [];
    var dirs := fs.CreateBundleStructure(root, version, force, w.mkdirError);
    if dirs.Err? {
      return done, Exited(1, dirs.error);
    }
    var copied := fs.CopyArtifacts(root, version, w.copyError);
    if copied.Err? {
      return [CreateBundle], Exited(1, copied.error);
    }
    done, exit := [CreateBundle, CopyFiles], Completed;
    CopiedEntriesKeys(root, version);
  }

  /** The update manifest, then the index and the rest. */
  method WriteRecords(fs: FileSystem, root: string, version: string, domainOption: Option<string>, w: CopyWorld)
    returns (done: seq<CopyStep>, exit: Exit)
    requires CopiedFiles(root, version) <= fs.entries.Keys
    modifies fs
    ensures done <= RecordSteps
    ensures exit == Completed <==> done == RecordSteps
    ensures exit.Exited? ==> exit.code == 1
    ensures WriteReadme in done ==> ValidateBundle in done
    ensures exit == Completed <==> RecordWrites(w)
    ensures exit == Completed ==> RecordWrites(w) && fs.entries == RecordsWritten(old(fs.entries), root, version, domainOption, w)
    ensures w.signature.Err? ==> done == [] && fs.entries == old(fs.entries)
    ensures exit != Completed ==> exit == RecordExit(root, w)
  {
    ghost var copied := CopiedFiles(root, version);
    var manifest := fs.CreateUpdateManifest(root, version, Shown(domainOption), w.signature, w.manifestTime,
                                            w.manifestWriteError);
    if manifest.Err? {
      return [], manifest.error;
    }
    assert copied + {ManifestPath(root, version)} <= fs.entries.Keys;
    var rest;
    rest, exit := WriteIndexAndReadme(fs, root, version, domainOption, w);
    done := [WriteManifest] + rest;
    PrependPrefix([WriteManifest], rest, IndexSteps);
  }

  /** The bundle index, then the README, the bundle check and the summary. */
  method WriteIndexAndReadme(fs: FileSystem, root: string, version: string, domainOption: Option<string>, w: CopyWorld)
    returns (done: seq<CopyStep>, exit: Exit)
    requires CopiedFiles(root, version) + {ManifestPath(root, version)} <= fs.entries.Keys
    modifies fs
    ensures done <= IndexSteps
    ensures exit == Completed <==> done == IndexSteps
    ensures exit.Exited? ==> exit.code == 1
    ensures WriteReadme in done ==> ValidateBundle in done
    ensures exit == Completed <==> IndexWrites(w)
    ensures exit == Completed ==> IndexWrites(w) && fs.entries == IndexWritten(old(fs.entries), root, version, domainOption, w)
    ensures !w.config.ConfigParsed? || w.indexWriteError.Some? ==> done == []
    ensures !w.config.ConfigParsed? ==> fs.entries == old(fs.entries)
    ensures exit != Completed ==> exit == IndexExit(root, w)
  {
    ghost var written := CopiedFiles(root, version) + {ManifestPath(root, version)};
    var index := fs.UpdateIndex(root, version, Shown(domainOption), w.indexTime, w.appBundleSize, w.config,
                                w.indexWriteError);
    if index.Err? {
      return [], index.error;
    }
    assert written + {IndexPath(root)} <= fs.entries.Keys;
    var rest;
    rest, exit := FinishBundle(fs, root, version, domainOption, w);
    done := [WriteIndex] + rest;
    PrependPrefix([WriteIndex], rest, FinishSteps);
  }

  /** The README, then the bundle check and the summary: the check cannot fail once the README is written. */
  method FinishBundle(fs: FileSystem, root: string, version: string, domainOption: Option<string>, w: CopyWorld)
    returns (done: seq<CopyStep>, exit: Exit)
    requires CopiedFiles(root, version) + {ManifestPath(root, version), IndexPath(root)} <= fs.entries.Keys
    modifies fs
    ensures done <= FinishSteps
    ensures exit == Completed <==> done == FinishSteps
    ensures exit.Exited? ==> exit.code == 1
    ensures WriteReadme in done ==> ValidateBundle in done
    ensures exit == Completed <==> FinishWrites(w)
    ensures exit == Completed ==> FinishWrites(w) && fs.entries == ReadmeWritten(old(fs.entries), root, version, domainOption, w)
    ensures exit != Completed ==> fs.entries == old(fs.entries) && exit == Exited(1, FinishError(root, w))
  {
    done := [];
    ghost var before := fs.entries;
    var written := UpdateReadme(fs, root, version, domainOption, w);
    if written.Err? {
      return done, Exited(1, written.error);
    }
    done := done + [WriteReadme];

    BundleComplete(root, version, before, fs.entries);
    var valid := ValidateBundleFiles(root, version, fs.entries.Keys);
    if valid.Err? {
      // Every required file was written above.
      assert false;
    }
    done := done + [ValidateBundle, Summary];
    exit := Completed;
  }

  /**
   * `main`. `done` lists the steps that completed: the run stops at the first
   * failing one, nothing is created before the bundle step, and an existing
   * version directory without `--force` stops the run with the file system
   * untouched.
   */
  method CopyMain(fs: FileSystem, argv: seq<Option<string>>, w: CopyWorld) returns (done: seq<CopyStep>, exit: Exit)
    modifies fs
    ensures done <= CopyPipeline
    ensures exit == Completed <==> done == CopyPipeline
    ensures exit.Exited? ==> exit.code == (if ParseFrom(Rest(argv, 2), Defaults) == ShowHelp then 0 else 1)
    ensures CreateBundle !in done ==> fs.entries == old(fs.entries)
    ensures var plan := PlanFor(argv, old(fs.entries.Keys), w);
      plan.Some? && VersionDir(w.root, plan.value.version) in old(fs.entries) && !plan.value.options.force
      ==> fs.entries == old(fs.entries) && exit.Exited? && exit.code == 1
    ensures exit == Completed <==> CopySucceeds(argv, old(fs.entries), w)
    ensures !ParseFrom(Rest(argv, 2), Defaults).Parsed? ==> PreflightExit(argv, old(fs.entries.Keys), w, exit)
    ensures ParseFrom(Rest(argv, 2), Defaults).Parsed? ==> RunExit(ParseFrom(Rest(argv, 2), Defaults).options, old(fs.entries), w, exit)
    ensures exit == Completed ==> var plan := PlanFor(argv, old(fs.entries.Keys), w);
      plan.Some? && BundleWrites(w)
      && fs.entries == BundleWritten(old(fs.entries), w.root, plan.value.version, plan.value.options.domain, w)
  {
    var first, checked := Preflight(argv, fs.entries.Keys, w);
    if checked.Err? {
      return first, checked.error;
    }
    var rest;
    rest, exit := WriteBundle(fs, checked.value, w);
    done := first + rest;
    PrependPrefix(first, rest, BundleSteps);
    assert CreateBundle !in first;
    if rest != [] {
      assert rest[0] == CreateBundle;
      assert done[4] == CreateBundle;
    }
  }

  /** After copying and writing, every file the bundle check requires is present. */
  lemma {:induction false} BundleComplete(root: string, version: string, afterIndex: map<string, Entry>, after: map<string, Entry>)
    requires CopiedFiles(root, version) + {ManifestPath(root, version), IndexPath(root)} <= afterIndex.Keys
    requires afterIndex.Keys + {ReadmePath(root)} <= after.Keys
    ensures forall j :: 0 <= j < 7 ==> RequiredFiles(root, version)[j].1 in after.Keys
  {
    RequiredFilesAreWritten(root, version);
  }
}
