/**
 * `build-tauri`: read the options, resolve the version, run the pre-flight
 * checks, install dependencies unless skipped, run `tauri build` for the
 * target, then check that every build artifact exists.
 */
module BuildTauri {
  import opened Wrappers
  import opened Text
  import opened ReleaseShared

  // ---------------------------------------------------------------------------
  // parseArgs
  // ---------------------------------------------------------------------------

  /** The options; `None` is `undefined`, which `args[++i]` past the end yields. */
  datatype BuildOptions = BuildOptions(version: Option<string>, skipDependencies: bool, target: Option<string>)

  const Defaults: BuildOptions := BuildOptions(None, false, Some(DefaultTarget))

  /** What the option loop does with the remaining arguments. */
  function ParseFrom(args: seq<Option<string>>, opts: BuildOptions): ParseOutcome<BuildOptions>
    decreases |args|
  {
    if args == [] then Parsed(opts)
    else
      var a := args[0];
      if a == Some("-v") || a == Some("--version") then ParseFrom(Rest(args, 2), opts.(version := Arg(args, 1)))
      else if a == Some("-t") || a == Some("--target") then ParseFrom(Rest(args, 2), opts.(target := Arg(args, 1)))
      else if a == Some("--skip-deps") then ParseFrom(args[1..], opts.(skipDependencies := true))
      else if a == Some("-h") || a == Some("--help") then ShowHelp
      else UnknownOption(a)
  }

  /** `parseArgs`: the `for`/`switch` loop over `process.argv.slice(2)`. */
  method ParseArgs(argv: seq<Option<string>>) returns (r: ParseOutcome<BuildOptions>)
    ensures r == ParseFrom(Rest(argv, 2), Defaults)
  {
    var args := Rest(argv, 2);
    var options := Defaults;
    var i := 0;
    while i < |args|
      invariant 0 <= i <= |args| + 1
      invariant ParseFrom(Rest(args, i), options) == ParseFrom(args, Defaults)
      decreases |args| - i
    {
      var a := args[i];
      assert Rest(args, i)[0] == a;
      if a == Some("-v") || a == Some("--version") {
        assert Rest(Rest(args, i), 2) == Rest(args, i + 2) && Arg(Rest(args, i), 1) == Arg(args, i + 1);
        i := i + 1;
        options := options.(version := Arg(args, i));
      } else if a == Some("-t") || a == Some("--target") {
        assert Rest(Rest(args, i), 2) == Rest(args, i + 2) && Arg(Rest(args, i), 1) == Arg(args, i + 1);
        i := i + 1;
        options := options.(target := Arg(args, i));
      } else if a == Some("--skip-deps") {
        assert Rest(args, i)[1..] == Rest(args, i + 1);
        options := options.(skipDependencies := true);
      } else if a == Some("-h") || a == Some("--help") {
        return ShowHelp;
      } else {
        return UnknownOption(a);
      }
      i := i + 1;
    }
    return Parsed(options);
  }

  /** The options as a command line writes them, one flag at a time. */
  datatype BuildFlag = VersionFlag(version: Option<string>) | TargetFlag(target: Option<string>) | SkipDepsFlag

  function RenderFlag(f: BuildFlag): seq<Option<string>> {
    match f
    case VersionFlag(v) => [Some("-v"), v]
    case TargetFlag(t) => [Some("-t"), t]
    case SkipDepsFlag => [Some("--skip-deps")]
  }

  function Render(flags: seq<BuildFlag>): seq<Option<string>> {
    if flags == [] then [] else RenderFlag(flags[0]) + Render(flags[1..])
  }

  /** Rendering works flag by flag: the rendering of a concatenation is the concatenation of the renderings. */
  lemma {:induction false} RenderAppend(a: seq<BuildFlag>, b: seq<BuildFlag>)
    ensures Render(a + b) == Render(a) + Render(b)
    decreases |a|
  {
    if a == [] {
      assert a + b == b;
    } else {
      assert (a + b)[0] == a[0] && (a + b)[1..] == a[1..] + b;
      RenderAppend(a[1..], b);
    }
  }

  /** The flags' effect, left to right: a later value overrides an earlier one. */
  function Apply(opts: BuildOptions, flags: seq<BuildFlag>): BuildOptions
    decreases |flags|
  {
    if flags == [] then opts
    else
      var next := match flags[0]
        case VersionFlag(v) => opts.(version := v)
        case TargetFlag(t) => opts.(target := t)
        case SkipDepsFlag => opts.(skipDependencies := true);
      Apply(next, flags[1..])
  }

  /** Parsing a rendered command line gives the flags' effect, whatever text the values hold. */
  lemma {:induction false} ParseRender(flags: seq<BuildFlag>, opts: BuildOptions)
    ensures ParseFrom(Render(flags), opts) == Parsed(Apply(opts, flags))
    decreases |flags|
  {
    if flags != [] {
      var r := Render(flags[1..]);
      var args := Render(flags);
      assert args == RenderFlag(flags[0]) + r;
      match flags[0]
      case VersionFlag(v) =>
        assert Rest(args, 2) == r;
        ParseRender(flags[1..], opts.(version := v));
      case TargetFlag(t) =>
        assert Rest(args, 2) == r;
        ParseRender(flags[1..], opts.(target := t));
      case SkipDepsFlag =>
        assert args[1..] == r;
        ParseRender(flags[1..], opts.(skipDependencies := true));
    }
  }

  lemma {:induction false} ApplyAppend(opts: BuildOptions, a: seq<BuildFlag>, b: seq<BuildFlag>)
    ensures Apply(opts, a + b) == Apply(Apply(opts, a), b)
    decreases |a|
  {
    if a != [] {
      assert (a + b)[1..] == a[1..] + b;
      assert (a + b)[0] == a[0];
      match a[0]
      case VersionFlag(v) => ApplyAppend(opts.(version := v), a[1..], b);
      case TargetFlag(t) => ApplyAppend(opts.(target := t), a[1..], b);
      case SkipDepsFlag => ApplyAppend(opts.(skipDependencies := true), a[1..], b);
    } else {
      assert a + b == b;
    }
  }

  /** `-h` stops the loop, an unlisted argument is an unknown option, and `-t` as the last argument leaves the target `undefined`. */
  lemma {:induction false} HelpUnknownAndMissingValue(args: seq<Option<string>>, opts: BuildOptions)
    requires args != []
    ensures args[0] == Some("-h") ==> ParseFrom(args, opts) == ShowHelp
    ensures !(args[0] in [Some("-v"), Some("--version"), Some("-t"), Some("--target"),
                          Some("--skip-deps"), Some("-h"), Some("--help")])
            ==> ParseFrom(args, opts) == UnknownOption(args[0])
    ensures args == [Some("-t")] ==> ParseFrom(args, opts) == Parsed(opts.(target := None))
  {
  }

  // ---------------------------------------------------------------------------
  // prepareDependencies, buildTauri
  // ---------------------------------------------------------------------------

  const InstallCommand: string := "pnpm install"
  const GenerateCommand: string := "pnpm db:generate"

  /** `tauri build --target ${target}`. */
  function BuildCommand(target: Option<string>): string {
    "tauri build --target " + Shown(target)
  }

  /** The shell splits the build command into four words, the last being the target, when the target has no space. */
  lemma {:induction false} BuildCommandWords(target: string)
    requires ' ' !in target
    ensures Split(BuildCommand(Some(target)), ' ') == ["tauri", "build", "--target", target]
  {
    BuildCommandSpaced(target);
    SplitFourWords("tauri", "build", "--target", target);
  }

  lemma {:induction false} BuildCommandSpaced(target: string)
    ensures BuildCommand(Some(target)) == "tauri" + [' '] + ("build" + [' '] + ("--target" + [' '] + target))
  {
    assert "tauri build --target " == "tauri" + [' '] + "build" + [' '] + "--target" + [' '];
  }

  lemma {:induction false} SplitFourWords(a: string, b: string, c: string, d: string)
    requires ' ' !in a && ' ' !in b && ' ' !in c && ' ' !in d
    ensures Split(a + [' '] + (b + [' '] + (c + [' '] + d)), ' ') == [a, b, c, d]
  {
    var tail := b + [' '] + (c + [' '] + d);
    SplitThreeWords(b, c, d);
    SplitAfter(a, ' ', tail);
    PrependOne(a, [b, c, d]);
  }

  lemma {:induction false} SplitThreeWords(b: string, c: string, d: string)
    requires ' ' !in b && ' ' !in c && ' ' !in d
    ensures Split(b + [' '] + (c + [' '] + d), ' ') == [b, c, d]
  {
    var tail := c + [' '] + d;
    SplitTwoWords(c, d);
    SplitAfter(b, ' ', tail);
    PrependOne(b, [c, d]);
  }

  lemma {:induction false} PrependOne(x: string, t: seq<string>)
    requires |t| == 2 || |t| == 3
    ensures |t| == 2 ==> [x] + t == [x, t[0], t[1]]
    ensures |t| == 3 ==> [x] + t == [x, t[0], t[1], t[2]]
  {
  }

  lemma {:induction false} SplitTwoWords(c: string, d: string)
    requires ' ' !in c && ' ' !in d
    ensures Split(c + [' '] + d, ' ') == [c, d]
  {
    assert Split(d, ' ') == [d];
    SplitAfter(c, ' ', d);
  }

  /** The commands a run executes, in order. */
  function Commands(skipDependencies: bool, target: Option<string>): seq<string> {
    (if skipDependencies then [] else [InstallCommand, GenerateCommand]) + [BuildCommand(target)]
  }

  /** `prepareDependencies`: install, then generate the database artifacts; the first failure stops. */
  method PrepareDependencies(failures: map<string, string>) returns (ran: seq<string>, r: Result<(), string>)
    ensures ran <= [InstallCommand, GenerateCommand] && ran != []
    ensures ran == (if InstallCommand in failures then [InstallCommand] else [InstallCommand, GenerateCommand])
    ensures r.Ok? <==> ran == [InstallCommand, GenerateCommand] && GenerateCommand !in failures && InstallCommand !in failures
    ensures r.Err? && ran == [InstallCommand] ==>
              InstallCommand in failures && r.error == "Installing dependencies failed: " + failures[InstallCommand]
    ensures r.Err? && ran != [InstallCommand] ==>
              GenerateCommand in failures && r.error == "Generating database artifacts failed: " + failures[GenerateCommand]
  {
    ran := [InstallCommand];
    r := ExecuteCommand(InstallCommand, "Installing dependencies", failures);
    if r.Err? {
      return;
    }
    ran := ran + [GenerateCommand];
    r := ExecuteCommand(GenerateCommand, "Generating database artifacts", failures);
  }

  /** `path.join` refuses `undefined`: the error `main` catches when the target is missing. */
  const UndefinedPathError: string := "The \"path\" argument must be of type string. Received undefined"

  /** The prefix `main`'s `catch` puts before the message of anything thrown inside its `try`. */
  const WorkflowFailed: string := "Build workflow failed: "

  /** What `buildTauri` tells the user it runs. */
  function BuildDescription(target: Option<string>): string {
    "Building Tauri application for " + Shown(target) + " (includes frontend)"
  }

  /** `buildTauri` passes: the build command succeeds and leaves the bundle directory with `dmg` and `macos`. */
  predicate AppBuilt(root: string, target: Option<string>, failures: map<string, string>, built: set<string>) {
    && BuildCommand(target) !in failures && target.Some?
    && TargetDir(root, target.value) in built
    && Slash(TargetDir(root, target.value), "dmg") in built
    && Slash(TargetDir(root, target.value), "macos") in built
  }

  /** The build command ran and the missing target reached `path.join`, which throws instead of exiting. */
  predicate Thrown(target: Option<string>, failures: map<string, string>) {
    BuildCommand(target) !in failures && target.None?
  }

  /** The message a failed `buildTauri` reports, in the order of its checks. */
  function AppError(root: string, target: Option<string>, failures: map<string, string>, built: set<string>): string {
    if BuildCommand(target) in failures then BuildDescription(target) + " failed: " + failures[BuildCommand(target)]
    else if target.None? then UndefinedPathError
    else if TargetDir(root, target.value) !in built then "Tauri build failed - target directory not found"
    else "Tauri build failed - bundle artifacts not found"
  }

  /**
   * `buildTauri`: run the build command, then require the bundle directory and
   * its `dmg` and `macos` subdirectories. `built` is the file system after the
   * build command.
   */
  method BuildApp(root: string, target: Option<string>, failures: map<string, string>, built: set<string>)
    returns (r: Result<(), string>)
    ensures r.Ok? <==> AppBuilt(root, target, failures, built)
    ensures r.Err? ==> r.error == AppError(root, target, failures, built)
    ensures BuildCommand(target) in failures ==> r == Err(BuildDescription(target) + " failed: " + failures[BuildCommand(target)])
    ensures Thrown(target, failures) ==> r == Err(UndefinedPathError)
    ensures BuildCommand(target) !in failures && target.Some? && TargetDir(root, target.value) !in built ==>
              r == Err("Tauri build failed - target directory not found")
  {
    r := ExecuteCommand(BuildCommand(target), BuildDescription(target), failures);
    if r.Err? {
      return;
    }
    if target.None? {
      return Err(UndefinedPathError);
    }
    var dir := TargetDir(root, target.value);
    if dir !in built {
      return Err("Tauri build failed - target directory not found");
    }
    if Slash(dir, "dmg") !in built || Slash(dir, "macos") !in built {
      return Err("Tauri build failed - bundle artifacts not found");
    }
  }

  // ---------------------------------------------------------------------------
  // validateBuildArtifacts
  // ---------------------------------------------------------------------------

  const ValidationError: string := "Build validation failed - missing artifacts"

  /** The expected paths that do not exist, in order. */
  function MissingOf(paths: seq<string>, existing: set<string>): seq<string> {
    if paths == [] then []
    else
      var last := paths[|paths| - 1];
      MissingOf(paths[..|paths| - 1], existing) + (if last in existing then [] else [last])
  }

  /** A path is reported if and only if it is expected and does not exist. */
  lemma {:induction false} MissingOfMeaning(paths: seq<string>, existing: set<string>)
    ensures forall p :: p in MissingOf(paths, existing) <==> p in paths && p !in existing
    ensures MissingOf(paths, existing) == [] <==> forall j :: 0 <= j < |paths| ==> paths[j] in existing
  {
    if paths != [] {
      var init := paths[..|paths| - 1];
      MissingOfMeaning(init, existing);
      assert paths == init + [paths[|paths| - 1]];
      if MissingOf(paths, existing) == [] {
        forall j | 0 <= j < |paths| ensures paths[j] in existing {
          if j < |init| {
            assert init[j] == paths[j];
          }
        }
      }
    }
  }

  /**
   * `validateBuildArtifacts`: check every expected artifact, report each
   * missing one, and fail afterwards if any was missing.
   */
  method ValidateBuildArtifacts(expected: seq<string>, built: set<string>)
    returns (missing: seq<string>, r: Result<(), string>)
    ensures missing == MissingOf(expected, built)
    ensures r.Ok? <==> missing == []
    ensures r.Err? ==> r.error == ValidationError
  {
    missing := [];
    var i := 0;
    while i < |expected|
      invariant 0 <= i <= |expected|
      invariant missing == MissingOf(expected[..i], built)
    {
      assert expected[..i + 1][..i] == expected[..i];
      if expected[i] !in built {
        missing := missing + [expected[i]];
      }
      i := i + 1;
    }
    assert expected[..|expected|] == expected;
    if missing != [] {
      return missing, Err(ValidationError);
    }
    r := Ok(());
  }

  /** The DMG file name as the artifact check writes it: the whole target triple. */
  function WrittenDmgName(version: string, target: string): string {
    Container + " " + "Kit_" + version + "_" + target + ".dmg"
  }

  /** The four paths the artifact check expects, as written. */
  function WrittenArtifacts(root: string, version: string, target: string): seq<string> {
    var dir := TargetDir(root, target);
    [Slash(Slash(dir, "dmg"), WrittenDmgName(version, target)), Slash(Slash(dir, "macos"), BundleArchive),
     Slash(Slash(dir, "macos"), SignatureName), Slash(Slash(dir, "macos"), AppDirName)]
  }

  /**
   * For the default target the check as written looks for
   * `Container Kit_<v>_aarch64-apple-darwin.dmg`, while the copy step looks in
   * the same directory for `Container Kit_<v>_aarch64.dmg`: no DMG passes both.
   */
  lemma {:induction false} WrittenDmgDisagreesWithCopyCheck(root: string, version: string)
    ensures WrittenArtifacts(root, version, DefaultTarget)[0] != ArtifactPaths(root, version).dmg
    ensures WrittenArtifacts(root, version, DefaultTarget)[1..]
         == [ArtifactPaths(root, version).appBundle, ArtifactPaths(root, version).signature, ArtifactPaths(root, version).appDir]
  {
    var written := WrittenDmgName(version, DefaultTarget);
    assert |written| == |DmgName(version)| + 13;
  }

  /** The architecture part of a target triple: the text before the first `-`. */
  function ArchLabel(target: string): string {
    Split(target, '-')[0]
  }

  lemma {:induction false} ArchLabelOf(arch: string, rest: string)
    requires '-' !in arch
    ensures ArchLabel(arch + "-" + rest) == arch
  {
    SplitAfter(arch, '-', rest);
    assert arch + "-" + rest == arch + ['-'] + rest;
  }

  /** The DMG name the bundler produces: the architecture, not the whole triple. */
  function DmgNameFor(version: string, target: string): string {
    Container + " " + "Kit_" + version + "_" + ArchLabel(target) + ".dmg"
  }

  /** The four paths the artifact check expects, with the DMG named after the architecture. */
  function ExpectedArtifacts(root: string, version: string, target: string): seq<string> {
    var dir := TargetDir(root, target);
    [Slash(Slash(dir, "dmg"), DmgNameFor(version, target)), Slash(Slash(dir, "macos"), BundleArchive),
     Slash(Slash(dir, "macos"), SignatureName), Slash(Slash(dir, "macos"), AppDirName)]
  }

  /** With the architecture label, the build check and the copy step expect the same four files for the default target. */
  lemma {:induction false} ExpectedArtifactsMatchCopyCheck(root: string, version: string)
    ensures var a := ArtifactPaths(root, version);
      ExpectedArtifacts(root, version, DefaultTarget) == [a.dmg, a.appBundle, a.signature, a.appDir]
  {
    DefaultDmgName(version, DefaultTarget);
  }

  lemma {:induction false} DefaultDmgName(version: string, target: string)
    requires target == DefaultTarget
    ensures DmgNameFor(version, target) == DmgName(version)
  {
    DmgNameForTriple(version, "aarch64", "apple-darwin");
    AarchDmgName(version);
  }

  lemma {:induction false} AarchDmgName(version: string)
    ensures Container + " " + "Kit_" + version + "_" + "aarch64" + ".dmg" == DmgName(version)
  {
    var head := Container + " " + "Kit_" + version;
    assert head + "_" + "aarch64" + ".dmg" == head + ("_" + "aarch64" + ".dmg");
    assert "_" + "aarch64" + ".dmg" == "_aarch64.dmg";
  }

  lemma {:induction false} DmgNameForTriple(version: string, arch: string, rest: string)
    requires '-' !in arch
    ensures DmgNameFor(version, arch + "-" + rest) == Container + " " + "Kit_" + version + "_" + arch + ".dmg"
  {
    ArchLabelOf(arch, rest);
  }

  // ---------------------------------------------------------------------------
  // main
  // ---------------------------------------------------------------------------

  datatype BuildStep = ParseArguments | ResolveVersion | PreflightChecks | InstallDependencies
                     | BuildApplication | ValidateArtifacts | Summary

  /** The steps of `main`, in order. */
  function BuildPipeline(skipDependencies: bool): seq<BuildStep> {
    [ParseArguments] + RunSteps(skipDependencies)
  }

  /** The steps inside `main`'s `try`. */
  function WorkflowSteps(skipDependencies: bool): seq<BuildStep> {
    (if skipDependencies then [] else [InstallDependencies]) + BuildSteps
  }

  const BuildSteps: seq<BuildStep> := [BuildApplication, ValidateArtifacts, Summary]

  /**
   * What the outside world answers: the configuration read, the paths that
   * exist before and after the build, the tool probes that succeed and the
   * commands that fail.
   */
  datatype BuildWorld = BuildWorld(root: string, config: ConfigRead, existing: set<string>, workingTools: set<string>,
                                   failures: map<string, string>, built: set<string>)

  /** The options `main` runs with, when the command line parses. */
  function OptionsOf(argv: seq<Option<string>>): Option<BuildOptions> {
    var p := ParseFrom(Rest(argv, 2), Defaults);
    if p.Parsed? then Some(p.options) else None
  }

  /** The dependency step passes: it is skipped, or both commands succeed. */
  predicate DependenciesPass(skipDependencies: bool, failures: map<string, string>) {
    skipDependencies || (InstallCommand !in failures && GenerateCommand !in failures)
  }

  /** The message of the dependency command that fails first. */
  function DependencyError(failures: map<string, string>): string
    requires InstallCommand in failures || GenerateCommand in failures
  {
    if InstallCommand in failures then "Installing dependencies failed: " + failures[InstallCommand]
    else "Generating database artifacts failed: " + failures[GenerateCommand]
  }

  /** Every artifact the check expects exists after the build. */
  predicate ArtifactsPresent(root: string, version: string, target: Option<string>, built: set<string>) {
    target.Some? && forall j :: 0 <= j < 4 ==> ExpectedArtifacts(root, version, target.value)[j] in built
  }

  /**
   * How a failed `buildTauri` ends the run: with its own message when it exits
   * itself, behind `main`'s prefix when `path.join` throws.
   */
  function AppExitMessage(root: string, target: Option<string>, failures: map<string, string>, built: set<string>): string {
    if Thrown(target, failures) then WorkflowFailed + AppError(root, target, failures, built)
    else AppError(root, target, failures, built)
  }

  /** How the steps inside `main`'s `try` end: the first failing step decides. */
  function WorkflowExit(root: string, version: string, options: BuildOptions, failures: map<string, string>,
                        built: set<string>): Exit
  {
    if !DependenciesPass(options.skipDependencies, failures) then Exited(1, DependencyError(failures))
    else if !AppBuilt(root, options.target, failures, built) then Exited(1, AppExitMessage(root, options.target, failures, built))
    else if !ArtifactsPresent(root, version, options.target, built) then Exited(1, ValidationError)
    else Completed
  }

  /** The checks before the workflow pass: a version is found, the project is laid out and every tool answers. */
  predicate PreflightPasses(options: BuildOptions, w: BuildWorld) {
    && GetVersion(options.version, TauriConf(w.root), w.config).Ok?
    && ValidateProjectStructure(w.root, w.existing).Ok?
    && forall j :: 0 <= j < |RequiredTools| ==> RequiredTools[j].1 in w.workingTools
  }

  /**
   * `e` is how a run with `options` ends once they are read: the version,
   * the project layout and the tools each stop it with their message, and
   * otherwise the workflow decides.
   */
  predicate RunExit(options: BuildOptions, w: BuildWorld, e: Exit) {
    var version := GetVersion(options.version, TauriConf(w.root), w.config);
    if version.Err? then e == Exited(1, version.error)
    else if ValidateProjectStructure(w.root, w.existing).Err? then e == Exited(1, ValidateProjectStructure(w.root, w.existing).error)
    else if !PreflightPasses(options, w) then e.Exited? && e.code == 1 && ToolMissing(w.workingTools, e.message)
    else e == WorkflowExit(w.root, version.value, options, w.failures, w.built)
  }

  /** A run with `options` completes: every check passes, every command succeeds and every artifact is there. */
  predicate BuildSucceeds(options: BuildOptions, w: BuildWorld) {
    && PreflightPasses(options, w)
    && DependenciesPass(options.skipDependencies, w.failures)
    && AppBuilt(w.root, options.target, w.failures, w.built)
    && ArtifactsPresent(w.root, GetVersion(options.version, TauriConf(w.root), w.config).value, options.target, w.built)
  }

  /**
   * `main`: the steps in order, stopping at the first failure with exit code
   * 1 (`--help` exits 0). `ran` lists the shell commands executed.
   */
  method BuildMain(argv: seq<Option<string>>, w: BuildWorld) returns (done: seq<BuildStep>, ran: seq<string>, exit: Exit)
    ensures OptionsOf(argv).None? ==> done == [] && ran == []
    ensures OptionsOf(argv).Some? ==>
      var o := OptionsOf(argv).value;
      && done <= BuildPipeline(o.skipDependencies)
      && ran <= Commands(o.skipDependencies, o.target)
      && (exit == Completed <==> done == BuildPipeline(o.skipDependencies))
      && (exit == Completed ==> ran == Commands(o.skipDependencies, o.target))
    ensures OptionsOf(argv).Some? ==> (exit == Completed <==> BuildSucceeds(OptionsOf(argv).value, w))
    ensures OptionsOf(argv).Some? ==> RunExit(OptionsOf(argv).value, w, exit)
    ensures ParseFrom(Rest(argv, 2), Defaults) == ShowHelp ==> exit == Exited(0, "")
    ensures ParseFrom(Rest(argv, 2), Defaults).UnknownOption? ==>
              exit == Exited(1, "Unknown option: " + Shown(ParseFrom(Rest(argv, 2), Defaults).arg))
    ensures exit.Exited? ==> exit.code == (if ParseFrom(Rest(argv, 2), Defaults) == ShowHelp then 0 else 1)
  {
    done, ran := [], [];
    var parsed := ParseArgs(argv);
    if parsed.ShowHelp? {
      return done, ran, Exited(0, "");
    } else if parsed.UnknownOption? {
      return done, ran, Exited(1, "Unknown option: " + Shown(parsed.arg));
    }
    var rest;
    rest, ran, exit := RunWith(parsed.options, w);
    done := [ParseArguments] + rest;
    PrependPrefix([ParseArguments], rest, RunSteps(parsed.options.skipDependencies));
  }

  /** The steps after the options are read. */
  function RunSteps(skipDependencies: bool): seq<BuildStep> {
    [ResolveVersion, PreflightChecks] + WorkflowSteps(skipDependencies)
  }

  /** `main` once the options are read: the version, the checks, then the workflow. */
  method RunWith(options: BuildOptions, w: BuildWorld) returns (done: seq<BuildStep>, ran: seq<string>, exit: Exit)
    ensures done <= RunSteps(options.skipDependencies)
    ensures ran <= Commands(options.skipDependencies, options.target)
    ensures exit == Completed <==> done == RunSteps(options.skipDependencies)
    ensures exit == Completed ==> ran == Commands(options.skipDependencies, options.target)
    ensures exit == Completed <==> BuildSucceeds(options, w)
    ensures RunExit(options, w, exit)
    ensures exit.Exited? ==> exit.code == 1
  {
    done, ran := [], [];
    var version := GetVersion(options.version, TauriConf(w.root), w.config);
    if version.Err? {
      return done, ran, Exited(1, version.error);
    }
    done := done + [ResolveVersion];

    var preflight := Preflight(w.root, w.existing, w.workingTools);
    if preflight.Err? {
      return done, ran, Exited(1, preflight.error);
    }
    done := done + [PreflightChecks];

    var rest;
    rest, ran, exit := Workflow(w.root, version.value, options, w.failures, w.built);
    done := done + rest;
    PrependPrefix([ResolveVersion, PreflightChecks], rest, WorkflowSteps(options.skipDependencies));
  }

  /** `preflightChecks`: the project layout, then the tools. The `.env` check only warns. */
  method Preflight(root: string, existing: set<string>, workingTools: set<string>) returns (r: Result<(), string>)
    ensures r.Ok? <==> ValidateProjectStructure(root, existing).Ok?
                       && forall j :: 0 <= j < |RequiredTools| ==> RequiredTools[j].1 in workingTools
    ensures ValidateProjectStructure(root, existing).Err? ==> r == ValidateProjectStructure(root, existing)
    ensures ValidateProjectStructure(root, existing).Ok? && r.Err? ==> ToolMissing(workingTools, r.error)
  {
    r := ValidateProjectStructure(root, existing);
    if r.Err? {
      return;
    }
    r := CheckRequiredTools(workingTools);
  }

  /** The steps inside `main`'s `try`: dependencies unless skipped, then the build and its checks. */
  method Workflow(root: string, version: string, options: BuildOptions, failures: map<string, string>, built: set<string>)
    returns (done: seq<BuildStep>, ran: seq<string>, exit: Exit)
    ensures done <= WorkflowSteps(options.skipDependencies)
    ensures ran <= Commands(options.skipDependencies, options.target)
    ensures exit == Completed <==> done == WorkflowSteps(options.skipDependencies)
    ensures exit == Completed ==> ran == Commands(options.skipDependencies, options.target)
    ensures exit == WorkflowExit(root, version, options, failures, built)
    ensures exit == Completed <==>
              DependenciesPass(options.skipDependencies, failures) && AppBuilt(root, options.target, failures, built)
              && ArtifactsPresent(root, version, options.target, built)
    ensures DependenciesPass(options.skipDependencies, failures) ==> ran == Commands(options.skipDependencies, options.target)
    ensures !DependenciesPass(options.skipDependencies, failures) ==>
              done == [] && ran == (if InstallCommand in failures then [InstallCommand] else [InstallCommand, GenerateCommand])
    ensures exit.Exited? ==> exit.code == 1
  {
    var deps: seq<string> := [];
    var installed: seq<BuildStep> := [];
    if !options.skipDependencies {
      var prepared;
      deps, prepared := PrepareDependencies(failures);
      if prepared.Err? {
        return [], deps, Exited(1, prepared.error);
      }
      installed := [InstallDependencies];
    }
    var rest;
    rest, exit := BuildAndValidate(root, version, options.target, failures, built);
    done := installed + rest;
    ran := deps + [BuildCommand(options.target)];
    PrependPrefix(installed, rest, BuildSteps);
  }

  /** `buildTauri`, then `validateBuildArtifacts` and the summary. */
  method BuildAndValidate(root: string, version: string, target: Option<string>, failures: map<string, string>,
                          built: set<string>)
    returns (done: seq<BuildStep>, exit: Exit)
    ensures done <= BuildSteps
    ensures exit == Completed <==> done == BuildSteps
    ensures exit == Completed <==> AppBuilt(root, target, failures, built) && ArtifactsPresent(root, version, target, built)
    ensures !AppBuilt(root, target, failures, built) ==>
              done == [] && exit == Exited(1, AppExitMessage(root, target, failures, built))
    ensures AppBuilt(root, target, failures, built) && !ArtifactsPresent(root, version, target, built) ==>
              done == [BuildApplication] && exit == Exited(1, ValidationError)
    ensures exit.Exited? ==> exit.code == 1
  {
    var app := BuildApp(root, target, failures, built);
    if app.Err? {
      // A failed command or a missing directory exits inside `buildTauri`;
      // only the throw from `path.join` reaches the `catch`.
      var message := if target.None? && BuildCommand(target) !in failures then WorkflowFailed + app.error else app.error;
      return [], Exited(1, message);
    }
    var missing, valid := ValidateBuildArtifacts(ExpectedArtifacts(root, version, target.value), built);
    MissingOfMeaning(ExpectedArtifacts(root, version, target.value), built);
    if valid.Err? {
      return [BuildApplication], Exited(1, valid.error);
    }
    return BuildSteps, Completed;
  }
}
