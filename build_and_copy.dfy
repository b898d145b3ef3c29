/**
 * `build-and-copy-to-release`: read the options, resolve the version, then
 * run the build script and the copy script in turn, each under a command line
 * of its own that `process.argv` holds while it runs.
 */
module BuildAndCopy {
  import opened Wrappers
  import opened ReleaseShared
  import BuildTauri
  import CopyRelease

  // ---------------------------------------------------------------------------
  // parseArgs
  // ---------------------------------------------------------------------------

  /** The options; `None` is `undefined`, which `args[++i]` past the end yields. */
  datatype ReleaseOptions = ReleaseOptions(domain: Option<string>, version: Option<string>, force: bool,
                                           skipBuild: bool, skipDependencies: bool, skipCopy: bool,
                                           target: Option<string>)

  const Defaults: ReleaseOptions := ReleaseOptions(Some(DefaultDomain), None, false, false, false, false, Some(DefaultTarget))

  /** What the option loop does with the remaining arguments. */
  function ParseFrom(args: seq<Option<string>>, opts: ReleaseOptions): ParseOutcome<ReleaseOptions>
    decreases |args|
  {
    if args == [] then Parsed(opts)
    else
      var a := args[0];
      if a == Some("-v") || a == Some("--version") then ParseFrom(Rest(args, 2), opts.(version := Arg(args, 1)))
      else if a == Some("-d") || a == Some("--domain") then ParseFrom(Rest(args, 2), opts.(domain := Arg(args, 1)))
      else if a == Some("-t") || a == Some("--target") then ParseFrom(Rest(args, 2), opts.(target := Arg(args, 1)))
      else if a == Some("-f") || a == Some("--force") then ParseFrom(args[1..], opts.(force := true))
      else if a == Some("--skip-build") then ParseFrom(args[1..], opts.(skipBuild := true))
      else if a == Some("--skip-deps") then ParseFrom(args[1..], opts.(skipDependencies := true))
      else if a == Some("--skip-copy") then ParseFrom(args[1..], opts.(skipCopy := true))
      else if a == Some("-h") || a == Some("--help") then ShowHelp
      else UnknownOption(a)
  }

  /** `parseArgs`: the `for`/`switch` loop over `process.argv.slice(2)`. */
  method ParseArgs(argv: seq<Option<string>>) returns (r: ParseOutcome<ReleaseOptions>)
    ensures r == ParseFrom(Rest(argv, 2), Defaults)
  {
    var args := Rest(argv, 2);
    var options := Defaults;
    var i := 0;
    while i < |args|
      invariant 0 <= i <= |args| + 1
      invariant ParseFrom(Rest(args, i), options) == ParseFrom(args, Defaults)
      decreases |args| - i
    {
      var a := args[i];
      ghost var here := Rest(args, i);
      assert here[0] == a;
      assert Rest(here, 2) == Rest(args, i + 2) && Arg(here, 1) == Arg(args, i + 1);
      assert here[1..] == Rest(args, i + 1);
      if a == Some("-v") || a == Some("--version") {
        assert ParseFrom(here, options) == ParseFrom(Rest(here, 2), options.(version := Arg(here, 1)));
        i := i + 1;
        options := options.(version := Arg(args, i));
      } else if a == Some("-d") || a == Some("--domain") {
        assert ParseFrom(here, options) == ParseFrom(Rest(here, 2), options.(domain := Arg(here, 1)));
        i := i + 1;
        options := options.(domain := Arg(args, i));
      } else if a == Some("-t") || a == Some("--target") {
        assert ParseFrom(here, options) == ParseFrom(Rest(here, 2), options.(target := Arg(here, 1)));
        i := i + 1;
        options := options.(target := Arg(args, i));
      } else if a == Some("-f") || a == Some("--force") {
        options := options.(force := true);
      } else if a == Some("--skip-build") {
        options := options.(skipBuild := true);
      } else if a == Some("--skip-deps") {
        options := options.(skipDependencies := true);
      } else if a == Some("--skip-copy") {
        options := options.(skipCopy := true);
      } else if a == Some("-h") || a == Some("--help") {
        return ShowHelp;
      } else {
        return UnknownOption(a);
      }
      i := i + 1;
    }
    return Parsed(options);
  }

  /** The options as a command line writes them, one flag at a time. */
  datatype ReleaseFlag =
    | VersionFlag(version: Option<string>) | DomainFlag(domain: Option<string>) | TargetFlag(target: Option<string>)
    | ForceFlag | SkipBuildFlag | SkipDepsFlag | SkipCopyFlag

  function RenderFlag(f: ReleaseFlag): seq<Option<string>> {
    match f
    case VersionFlag(v) => [Some("-v"), v]
    case DomainFlag(d) => [Some("-d"), d]
    case TargetFlag(t) => [Some("-t"), t]
    case ForceFlag => [Some("-f")]
    case SkipBuildFlag => [Some("--skip-build")]
    case SkipDepsFlag => [Some("--skip-deps")]
    case SkipCopyFlag => [Some("--skip-copy")]
  }

  function Render(flags: seq<ReleaseFlag>): seq<Option<string>> {
    if flags == [] then [] else RenderFlag(flags[0]) + Render(flags[1..])
  }

  function Step(opts: ReleaseOptions, f: ReleaseFlag): ReleaseOptions {
    match f
    case VersionFlag(v) => opts.(version := v)
    case DomainFlag(d) => opts.(domain := d)
    case TargetFlag(t) => opts.(target := t)
    case ForceFlag => opts.(force := true)
    case SkipBuildFlag => opts.(skipBuild := true)
    case SkipDepsFlag => opts.(skipDependencies := true)
    case SkipCopyFlag => opts.(skipCopy := true)
  }

  /** The flags' effect, left to right. */
  function Apply(opts: ReleaseOptions, flags: seq<ReleaseFlag>): ReleaseOptions
    decreases |flags|
  {
    if flags == [] then opts else Apply(Step(opts, flags[0]), flags[1..])
  }

  /** Parsing a rendered command line gives the flags' effect, whatever text the values hold. */
  lemma {:induction false} ParseRender(flags: seq<ReleaseFlag>, opts: ReleaseOptions)
    ensures ParseFrom(Render(flags), opts) == Parsed(Apply(opts, flags))
    decreases |flags|
  {
    if flags != [] {
      var r := Render(flags[1..]);
      var args := Render(flags);
      assert args == RenderFlag(flags[0]) + r;
      if flags[0].VersionFlag? || flags[0].DomainFlag? || flags[0].TargetFlag? {
        assert Rest(args, 2) == r;
      } else {
        assert args[1..] == r;
      }
      ParseRender(flags[1..], Step(opts, flags[0]));
    }
  }

  /** The option a value flag sets, read from a set of options. */
  function Carried(o: ReleaseOptions, f: ReleaseFlag): Option<string> {
    match f
    case VersionFlag(_) => o.version
    case DomainFlag(_) => o.domain
    case TargetFlag(_) => o.target
    case _ => None
  }

  predicate SameOption(f: ReleaseFlag, g: ReleaseFlag) {
    (f.VersionFlag? && g.VersionFlag?) || (f.DomainFlag? && g.DomainFlag?) || (f.TargetFlag? && g.TargetFlag?)
  }

  lemma {:induction false} ApplyAppend(opts: ReleaseOptions, a: seq<ReleaseFlag>, b: seq<ReleaseFlag>)
    ensures Apply(opts, a + b) == Apply(Apply(opts, a), b)
    decreases |a|
  {
    if a != [] {
      assert (a + b)[0] == a[0] && (a + b)[1..] == a[1..] + b;
      ApplyAppend(Step(opts, a[0]), a[1..], b);
    } else {
      assert a + b == b;
    }
  }

  lemma {:induction false} ApplyKeeps(opts: ReleaseOptions, b: seq<ReleaseFlag>, f: ReleaseFlag)
    requires forall i :: 0 <= i < |b| ==> !SameOption(b[i], f)
    ensures Carried(Apply(opts, b), f) == Carried(opts, f)
    decreases |b|
  {
    if b != [] {
      ApplyKeeps(Step(opts, b[0]), b[1..], f);
    }
  }

  /** `-v`, `-d` and `-t` take the value of their last occurrence. */
  lemma {:induction false} LastValueWins(a: seq<ReleaseFlag>, f: ReleaseFlag, b: seq<ReleaseFlag>)
    requires f.VersionFlag? || f.DomainFlag? || f.TargetFlag?
    requires forall i :: 0 <= i < |b| ==> !SameOption(b[i], f)
    ensures var r := ParseFrom(Render(a + [f] + b), Defaults);
      r.Parsed? && Carried(r.options, f) == RenderFlag(f)[1]
  {
    ParseRender(a + [f] + b, Defaults);
    ApplyAppend(Defaults, a + [f], b);
    ApplyAppend(Defaults, a, [f]);
    ApplyKeeps(Apply(Defaults, a + [f]), b, f);
  }

  /** Each switch sets its own option and nothing else. */
  lemma {:induction false} SwitchSetsOnlyItsOwn(opts: ReleaseOptions, args: seq<Option<string>>, f: ReleaseFlag)
    requires f.ForceFlag? || f.SkipBuildFlag? || f.SkipDepsFlag? || f.SkipCopyFlag?
    ensures ParseFrom(RenderFlag(f) + args, opts) == ParseFrom(args, Step(opts, f))
  {
    assert (RenderFlag(f) + args)[0] == RenderFlag(f)[0];
    assert (RenderFlag(f) + args)[1..] == args;
  }

  /** `-h` stops the loop, and anything unlisted is an unknown option. */
  lemma {:induction false} HelpAndUnknown(args: seq<Option<string>>, opts: ReleaseOptions)
    requires args != []
    ensures args[0] == Some("-h") ==> ParseFrom(args, opts) == ShowHelp
    ensures !(args[0] in [Some("-v"), Some("--version"), Some("-d"), Some("--domain"), Some("-t"), Some("--target"),
                          Some("-f"), Some("--force"), Some("--skip-build"), Some("--skip-deps"), Some("--skip-copy"),
                          Some("-h"), Some("--help")])
            ==> ParseFrom(args, opts) == UnknownOption(args[0])
  {
  }

  // ---------------------------------------------------------------------------
  // The sub-script command lines
  // ---------------------------------------------------------------------------

  /** The build script's flags: the version when there is one, the target only when it is not the default, and `--skip-deps`. */
  function BuildSubFlags(version: string, target: Option<string>, skipDependencies: bool): seq<BuildTauri.BuildFlag> {
    (if version != "" then [BuildTauri.VersionFlag(Some(version))] else [])
    + (if target != Some(DefaultTarget) then [BuildTauri.TargetFlag(target)] else [])
    + (if skipDependencies then [BuildTauri.SkipDepsFlag] else [])
  }

  /** The copy script's flags: the version, the domain only when it is not the default, and `-f` exactly when forced. */
  function CopySubFlags(version: string, domain: Option<string>, force: bool): seq<CopyRelease.CopyFlag> {
    (if version != "" then [CopyRelease.VersionFlag(Some(version))] else [])
    + (if domain != Some(DefaultDomain) then [CopyRelease.DomainFlag(domain)] else [])
    + (if force then [CopyRelease.ForceFlag] else [])
  }

  /** `buildArgs` in `executeBuildTauri`, pushed one group at a time. */
  method BuildArgs(version: string, target: Option<string>, skipDependencies: bool) returns (args: seq<Option<string>>)
    ensures args == [Some("node"), Some("build-tauri.ts")] + BuildTauri.Render(BuildSubFlags(version, target, skipDependencies))
  {
    args := [Some("node"), Some("build-tauri.ts")];
    ghost var flags: seq<BuildTauri.BuildFlag> := [];
    if version != "" {
      args := args + [Some("-v"), Some(version)];
      flags := flags + [BuildTauri.VersionFlag(Some(version))];
    }
    assert args == [Some("node"), Some("build-tauri.ts")] + BuildTauri.Render(flags);
    if target != Some(DefaultTarget) {
      BuildTauri.RenderAppend(flags, [BuildTauri.TargetFlag(target)]);
      args := args + [Some("-t"), target];
      flags := flags + [BuildTauri.TargetFlag(target)];
    }
    assert args == [Some("node"), Some("build-tauri.ts")] + BuildTauri.Render(flags);
    if skipDependencies {
      BuildTauri.RenderAppend(flags, [BuildTauri.SkipDepsFlag]);
      args := args + [Some("--skip-deps")];
      flags := flags + [BuildTauri.SkipDepsFlag];
    }
    assert flags == BuildSubFlags(version, target, skipDependencies);
  }

  /** `copyArgs` in `executeCopyBuildFiles`, pushed one group at a time. */
  method CopyArgs(version: string, domain: Option<string>, force: bool) returns (args: seq<Option<string>>)
    ensures args == [Some("node"), Some("copy-build-files-to-release.ts")] + CopyRelease.Render(CopySubFlags(version, domain, force))
  {
    args := [Some("node"), Some("copy-build-files-to-release.ts")];
    ghost var flags: seq<CopyRelease.CopyFlag> := [];
    if version != "" {
      args := args + [Some("-v"), Some(version)];
      flags := flags + [CopyRelease.VersionFlag(Some(version))];
    }
    assert args == [Some("node"), Some("copy-build-files-to-release.ts")] + CopyRelease.Render(flags);
    if domain != Some(DefaultDomain) {
      CopyRelease.RenderAppend(flags, [CopyRelease.DomainFlag(domain)]);
      args := args + [Some("-d"), domain];
      flags := flags + [CopyRelease.DomainFlag(domain)];
    }
    assert args == [Some("node"), Some("copy-build-files-to-release.ts")] + CopyRelease.Render(flags);
    if force {
      CopyRelease.RenderAppend(flags, [CopyRelease.ForceFlag]);
      args := args + [Some("-f")];
      flags := flags + [CopyRelease.ForceFlag];
    }
    assert flags == CopySubFlags(version, domain, force);
  }

  /** `version || undefined`: the version a sub-script is told, if any. */
  function Told(version: string): Option<string> {
    if version != "" then Some(version) else None
  }

  /**
   * The build script reads back exactly the options it was meant to get: an
   * omitted target is its own default, so it builds the same target.
   */
  lemma {:induction false} BuildScriptReadsItsOptions(version: string, target: Option<string>, skipDependencies: bool)
    ensures var argv := [Some("node"), Some("build-tauri.ts")] + BuildTauri.Render(BuildSubFlags(version, target, skipDependencies));
      BuildTauri.ParseFrom(Rest(argv, 2), BuildTauri.Defaults)
        == Parsed(BuildTauri.BuildOptions(Told(version), skipDependencies, target))
  {
    var flags := BuildSubFlags(version, target, skipDependencies);
    var argv := [Some("node"), Some("build-tauri.ts")] + BuildTauri.Render(flags);
    assert Rest(argv, 2) == BuildTauri.Render(flags);
    BuildTauri.ParseRender(flags, BuildTauri.Defaults);
    var v := if version != "" then [BuildTauri.VersionFlag(Some(version))] else [];
    var t := if target != Some(DefaultTarget) then [BuildTauri.TargetFlag(target)] else [];
    var s := if skipDependencies then [BuildTauri.SkipDepsFlag] else [];
    BuildTauri.ApplyAppend(BuildTauri.Defaults, v + t, s);
    BuildTauri.ApplyAppend(BuildTauri.Defaults, v, t);
  }

  /** The copy script reads back exactly the options it was meant to get, the default domain included. */
  lemma {:induction false} CopyScriptReadsItsOptions(version: string, domain: Option<string>, force: bool)
    ensures var argv := [Some("node"), Some("copy-build-files-to-release.ts")] + CopyRelease.Render(CopySubFlags(version, domain, force));
      CopyRelease.ParseFrom(Rest(argv, 2), CopyRelease.Defaults)
        == Parsed(CopyRelease.CopyOptions(domain, Told(version), force))
  {
    var flags := CopySubFlags(version, domain, force);
    var argv := [Some("node"), Some("copy-build-files-to-release.ts")] + CopyRelease.Render(flags);
    assert Rest(argv, 2) == CopyRelease.Render(flags);
    CopyRelease.ParseRender(flags, CopyRelease.Defaults);
    var v := if version != "" then [CopyRelease.VersionFlag(Some(version))] else [];
    var d := if domain != Some(DefaultDomain) then [CopyRelease.DomainFlag(domain)] else [];
    var f := if force then [CopyRelease.ForceFlag] else [];
    CopyRelease.ApplyAppend(CopyRelease.Defaults, v + d, f);
    CopyRelease.ApplyAppend(CopyRelease.Defaults, v, d);
  }

  /** A sub-script resolves the same version as the orchestrator: the one it is told, or the same configuration. */
  lemma {:induction false} SubScriptsResolveSameVersion(overrideVersion: Option<string>, confPath: string, read: ConfigRead)
    requires GetVersion(overrideVersion, confPath, read).Ok?
    ensures var version := GetVersion(overrideVersion, confPath, read).value;
      GetVersion(Told(version), confPath, read) == Ok(version)
  {
  }

  // ---------------------------------------------------------------------------
  // Running the sub-scripts
  // ---------------------------------------------------------------------------

  /** The process, whose `argv` the orchestrator replaces while a sub-script runs. */
  class Process {
    var argv: seq<Option<string>>

    constructor(argv: seq<Option<string>>)
      ensures this.argv == argv
    {
      this.argv := argv;
    }
  }

  /**
   * `executeBuildTauri`: run the build script under its own command line and
   * put the original one back when it returns. A failing build script exits
   * the process itself, with code 1. `ran` lists the shell commands it ran.
   */
  method ExecuteBuildTauri(proc: Process, version: string, target: Option<string>, skipDependencies: bool,
                           w: BuildTauri.BuildWorld)
    returns (ran: seq<string>, exit: Exit)
    modifies proc
    ensures exit.Exited? ==> exit.code == 1
    ensures exit == Completed ==> proc.argv == old(proc.argv)
    ensures ran <= BuildTauri.Commands(skipDependencies, target)
    ensures exit == Completed ==> ran == BuildTauri.Commands(skipDependencies, target)
    ensures exit == Completed <==> BuildTauri.BuildSucceeds(BuildTauri.BuildOptions(Told(version), skipDependencies, target), w)
    ensures BuildTauri.RunExit(BuildTauri.BuildOptions(Told(version), skipDependencies, target), w, exit)
  {
    var originalArgs := proc.argv;
    var buildArgs := BuildArgs(version, target, skipDependencies);
    proc.argv := buildArgs;
    BuildScriptReadsItsOptions(version, target, skipDependencies);
    var done;
    done, ran, exit := BuildTauri.BuildMain(buildArgs, w);
    if exit.Exited? {
      return;
    }
    proc.argv := originalArgs;
  }

  /**
   * `executeCopyBuildFiles`: run the copy script under its own command line
   * and put the original one back when it returns or throws. A copy script
   * that fails otherwise exits the process itself, with code 1.
   */
  method ExecuteCopyBuildFiles(proc: Process, fs: FileSystem, version: string, domain: Option<string>, force: bool,
                               w: CopyRelease.CopyWorld)
    returns (exit: Exit)
    modifies proc, fs
    ensures exit.Exited? ==> exit.code == 1
    ensures !exit.Exited? ==> proc.argv == old(proc.argv)
    ensures exit == Completed <==> CopyRelease.RunSucceeds(CopyRelease.CopyOptions(domain, Told(version), force), old(fs.entries), w)
    ensures CopyRelease.RunExit(CopyRelease.CopyOptions(domain, Told(version), force), old(fs.entries), w, exit)
    ensures exit == Completed && version != "" ==>
              CopyRelease.RecordWrites(w) && fs.entries == CopyRelease.BundleWritten(old(fs.entries), w.root, version, domain, w)
  {
    var originalArgs := proc.argv;
    var copyArgs := CopyArgs(version, domain, force);
    proc.argv := copyArgs;
    CopyScriptReadsItsOptions(version, domain, force);
    ghost var before := fs.entries;
    ghost var options := CopyRelease.CopyOptions(domain, Told(version), force);
    assert CopyRelease.ParseFrom(Rest(copyArgs, 2), CopyRelease.Defaults) == Parsed(options);
    assert CopyRelease.PlanFor(copyArgs, before.Keys, w) == CopyRelease.PlanWith(options, before.Keys, w);
    assert CopyRelease.CopySucceeds(copyArgs, before, w) == CopyRelease.RunSucceeds(options, before, w);
    var done;
    done, exit := CopyRelease.CopyMain(fs, copyArgs, w);
    if exit.Exited? {
      return;
    }
    if exit == Completed && version != "" {
      ToldPlan(options, version, before.Keys, w);
    }
    proc.argv := originalArgs;
  }

  /** A copy run told a version plans with that version. */
  lemma {:induction false} ToldPlan(options: CopyRelease.CopyOptions, version: string, existing: set<string>, w: CopyRelease.CopyWorld)
    requires version != "" && options.version == Told(version)
    requires CopyRelease.PlanWith(options, existing, w).Some?
    ensures CopyRelease.PlanWith(options, existing, w) == Some(CopyRelease.Plan(options, version))
  {
    assert GetVersion(Told(version), TauriConf(w.root), w.config) == Ok(version);
  }

  // ---------------------------------------------------------------------------
  // main
  // ---------------------------------------------------------------------------

  datatype ReleaseStep = ParseArguments | ResolveVersion | RunBuild | RunCopy | Summary

  /** The steps of `main`, in order: the build unless skipped, then the copy unless skipped. */
  function ReleasePipeline(skipBuild: bool, skipCopy: bool): seq<ReleaseStep> {
    [ParseArguments, ResolveVersion] + SubScriptSteps(skipBuild, skipCopy)
  }

  /** The steps inside `main`'s `try`. */
  function SubScriptSteps(skipBuild: bool, skipCopy: bool): seq<ReleaseStep> {
    (if skipBuild then [] else [RunBuild]) + (if skipCopy then [] else [RunCopy]) + [Summary]
  }

  /** The options `main` runs with, when the command line parses. */
  function OptionsOf(argv: seq<Option<string>>): Option<ReleaseOptions> {
    var p := ParseFrom(Rest(argv, 2), Defaults);
    if p.Parsed? then Some(p.options) else None
  }

  /**
   * `main`. Both sub-scripts see the same project root and configuration as
   * the orchestrator; `copyWorld` supplies the rest of what the copy script
   * meets.
   */
  method ReleaseMain(proc: Process, fs: FileSystem, w: BuildTauri.BuildWorld, copyWorld: CopyRelease.CopyWorld)
    returns (done: seq<ReleaseStep>, ran: seq<string>, exit: Exit)
    modifies proc, fs
    ensures OptionsOf(old(proc.argv)).None? ==> done == [] && ran == []
    ensures OptionsOf(old(proc.argv)).Some? ==>
      var o := OptionsOf(old(proc.argv)).value;
      && done <= ReleasePipeline(o.skipBuild, o.skipCopy)
      && (exit == Completed <==> done == ReleasePipeline(o.skipBuild, o.skipCopy))
      && (o.skipBuild ==> ran == [])
      && (!o.skipBuild && exit == Completed ==> ran == BuildTauri.Commands(o.skipDependencies, o.target))
      && (o.skipCopy ==> fs.entries == old(fs.entries))
    ensures OptionsOf(old(proc.argv)).Some? ==>
      var o := OptionsOf(old(proc.argv)).value;
      var version := GetVersion(o.version, TauriConf(w.root), w.config);
      var copied := copyWorld.(root := w.root, config := w.config);
      && (exit == Completed <==> version.Ok? && SubScriptsSucceed(version.value, o, w, old(fs.entries), copied))
      && (version.Err? ==> exit == Exited(1, version.error))
      && (version.Ok? ==> SubScriptsExit(version.value, o, w, old(fs.entries), copied, exit))
    ensures ParseFrom(Rest(old(proc.argv), 2), Defaults) == ShowHelp ==> exit == Exited(0, "")
    ensures ParseFrom(Rest(old(proc.argv), 2), Defaults).UnknownOption? ==>
              exit == Exited(1, "Unknown option: " + Shown(ParseFrom(Rest(old(proc.argv), 2), Defaults).arg))
    ensures !exit.Threw?
    ensures exit.Exited? ==> exit.code == (if ParseFrom(Rest(old(proc.argv), 2), Defaults) == ShowHelp then 0 else 1)
    ensures exit == Completed ==> proc.argv == old(proc.argv)
  {
    done, ran := [], [];
    var parsed := ParseArgs(proc.argv);
    if parsed.ShowHelp? {
      return done, ran, Exited(0, "");
    } else if parsed.UnknownOption? {
      return done, ran, Exited(1, "Unknown option: " + Shown(parsed.arg));
    }
    var rest;
    rest, ran, exit := RunRelease(proc, fs, parsed.options, w, copyWorld.(root := w.root, config := w.config));
    done := [ParseArguments] + rest;
    PrependPrefix([ParseArguments], rest, [ResolveVersion] + SubScriptSteps(parsed.options.skipBuild, parsed.options.skipCopy));
  }

  /** `main` once the options are read: resolve the version, then run the sub-scripts. */
  method RunRelease(proc: Process, fs: FileSystem, options: ReleaseOptions, w: BuildTauri.BuildWorld,
                    copied: CopyRelease.CopyWorld)
    returns (done: seq<ReleaseStep>, ran: seq<string>, exit: Exit)
    modifies proc, fs
    ensures done <= [ResolveVersion] + SubScriptSteps(options.skipBuild, options.skipCopy)
    ensures exit == Completed <==> done == [ResolveVersion] + SubScriptSteps(options.skipBuild, options.skipCopy)
    ensures options.skipBuild ==> ran == []
    ensures !options.skipBuild && exit == Completed ==> ran == BuildTauri.Commands(options.skipDependencies, options.target)
    ensures options.skipCopy ==> fs.entries == old(fs.entries)
    ensures var version := GetVersion(options.version, TauriConf(w.root), w.config);
      && (exit == Completed <==> version.Ok? && SubScriptsSucceed(version.value, options, w, old(fs.entries), copied))
      && (version.Err? ==> exit == Exited(1, version.error))
      && (version.Ok? ==> SubScriptsExit(version.value, options, w, old(fs.entries), copied, exit))
    ensures !exit.Threw?
    ensures exit.Exited? ==> exit.code == 1
    ensures exit == Completed ==> proc.argv == old(proc.argv)
  {
    done, ran := [], [];
    var resolved := GetVersion(options.version, TauriConf(w.root), w.config);
    if resolved.Err? {
      return done, ran, Exited(1, resolved.error);
    }
    var rest;
    rest, ran, exit := RunSubScripts(proc, fs, resolved.value, options, w, copied);
    done := [ResolveVersion] + rest;
    PrependPrefix([ResolveVersion], rest, SubScriptSteps(options.skipBuild, options.skipCopy));
  }

  /** The build sub-script, unless skipped, completes when told `version`. */
  predicate BuildStepSucceeds(version: string, options: ReleaseOptions, w: BuildTauri.BuildWorld) {
    !options.skipBuild ==> BuildTauri.BuildSucceeds(BuildTauri.BuildOptions(Told(version), options.skipDependencies, options.target), w)
  }

  /** The copy sub-script, unless skipped, completes over the release tree `before` when told `version`. */
  predicate CopyStepSucceeds(version: string, options: ReleaseOptions, before: map<string, Entry>, copied: CopyRelease.CopyWorld) {
    !options.skipCopy ==> CopyRelease.RunSucceeds(CopyRelease.CopyOptions(options.domain, Told(version), options.force), before, copied)
  }

  /** Both sub-scripts that are not skipped complete. */
  predicate SubScriptsSucceed(version: string, options: ReleaseOptions, w: BuildTauri.BuildWorld,
                              before: map<string, Entry>, copied: CopyRelease.CopyWorld)
  {
    BuildStepSucceeds(version, options, w) && CopyStepSucceeds(version, options, before, copied)
  }

  /** What `main`'s `catch` logs before it exits 1. */
  const ReleaseFailed: string := "Release workflow failed: "

  /**
   * `e` is how the sub-scripts end: as the build script's run if that fails,
   * then, if the copy script's run fails, through `main`'s `catch` when it
   * throws and as that run otherwise; and completed when both pass.
   */
  predicate SubScriptsExit(version: string, options: ReleaseOptions, w: BuildTauri.BuildWorld,
                           before: map<string, Entry>, copied: CopyRelease.CopyWorld, e: Exit)
  {
    if !BuildStepSucceeds(version, options, w) then
      BuildTauri.RunExit(BuildTauri.BuildOptions(Told(version), options.skipDependencies, options.target), w, e)
    else if !CopyStepSucceeds(version, options, before, copied) then
      var copyOptions := CopyRelease.CopyOptions(options.domain, Told(version), options.force);
      if CopyRelease.RunThrows(copyOptions, before, copied)
      then e == Exited(1, ReleaseFailed + CopyRelease.ThrownError(copied.root, copied))
      else CopyRelease.RunExit(copyOptions, before, copied, e)
    else e == Completed
  }

  /**
   * `main`'s `try` and `catch`: the build unless skipped, then the copy unless
   * skipped, then the summary; an error thrown out of them exits 1.
   */
  method RunSubScripts(proc: Process, fs: FileSystem, version: string, options: ReleaseOptions,
                       w: BuildTauri.BuildWorld, copied: CopyRelease.CopyWorld)
    returns (done: seq<ReleaseStep>, ran: seq<string>, exit: Exit)
    modifies proc, fs
    ensures done <= SubScriptSteps(options.skipBuild, options.skipCopy)
    ensures exit == Completed <==> done == SubScriptSteps(options.skipBuild, options.skipCopy)
    ensures exit == Completed <==> SubScriptsSucceed(version, options, w, old(fs.entries), copied)
    ensures SubScriptsExit(version, options, w, old(fs.entries), copied, exit)
    ensures options.skipBuild ==> ran == []
    ensures !options.skipBuild && exit == Completed ==> ran == BuildTauri.Commands(options.skipDependencies, options.target)
    ensures options.skipCopy ==> fs.entries == old(fs.entries)
    ensures !exit.Threw?
    ensures exit.Exited? ==> exit.code == 1
    ensures exit == Completed ==> proc.argv == old(proc.argv)
  {
    done, ran, exit := RunBuildStep(proc, version, options, w);
    if exit != Completed {
      return;
    }
    var built, rest := done, [];
    rest, exit := RunCopyStep(proc, fs, version, options, copied);
    if exit.Threw? {
      exit := Exited(1, ReleaseFailed + exit.error);
    }
    done := built + rest;
    PrependPrefix(built, rest, (if options.skipCopy then [] else [RunCopy]) + [Summary]);
  }

  /** The build unless skipped. */
  method RunBuildStep(proc: Process, version: string, options: ReleaseOptions, w: BuildTauri.BuildWorld)
    returns (done: seq<ReleaseStep>, ran: seq<string>, exit: Exit)
    modifies proc
    ensures done == (if options.skipBuild || exit.Exited? then [] else [RunBuild])
    ensures exit == Completed <==> BuildStepSucceeds(version, options, w)
    ensures !options.skipBuild ==>
              BuildTauri.RunExit(BuildTauri.BuildOptions(Told(version), options.skipDependencies, options.target), w, exit)
    ensures options.skipBuild ==> ran == [] && proc.argv == old(proc.argv)
    ensures !options.skipBuild && exit == Completed ==> ran == BuildTauri.Commands(options.skipDependencies, options.target)
    ensures exit.Exited? ==> exit.code == 1
    ensures exit == Completed ==> proc.argv == old(proc.argv)
  {
    done, ran, exit := [], [], Completed;
    if !options.skipBuild {
      ran, exit := ExecuteBuildTauri(proc, version, options.target, options.skipDependencies, w);
      if exit.Completed? {
        done := [RunBuild];
      }
    }
  }

  /** The copy unless skipped, then the summary. */
  method RunCopyStep(proc: Process, fs: FileSystem, version: string, options: ReleaseOptions, copied: CopyRelease.CopyWorld)
    returns (done: seq<ReleaseStep>, exit: Exit)
    modifies proc, fs
    ensures done <= (if options.skipCopy then [] else [RunCopy]) + [Summary]
    ensures exit == Completed <==> done == (if options.skipCopy then [] else [RunCopy]) + [Summary]
    ensures exit == Completed <==> CopyStepSucceeds(version, options, old(fs.entries), copied)
    ensures !options.skipCopy ==>
              CopyRelease.RunExit(CopyRelease.CopyOptions(options.domain, Told(version), options.force), old(fs.entries), copied, exit)
    ensures options.skipCopy ==> fs.entries == old(fs.entries) && proc.argv == old(proc.argv)
    ensures exit.Exited? ==> exit.code == 1
    ensures exit == Completed ==> proc.argv == old(proc.argv)
  {
    done := [];
    if !options.skipCopy {
      exit := ExecuteCopyBuildFiles(proc, fs, version, options.domain, options.force, copied);
      if exit != Completed {
        return;
      }
      done := [RunCopy];
    }
    done := done + [Summary];
    exit := Completed;
  }
}
