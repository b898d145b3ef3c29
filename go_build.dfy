/**
 * The Go `build` command: default the target, check that the working
 * directory is a Tauri project, then install the frontend dependencies, build
 * the frontend and build the Tauri application through `pnpm`, stopping at the
 * first failure.
 */
module GoBuild {
  import opened Wrappers

  /** The flag defaults. */
  const DefaultTarget: string := "aarch64-apple-darwin"
  const DefaultMode: string := "release"

  /** An empty `--target` falls back to the default target. */
  function EffectiveTarget(target: string): (t: string)
    ensures t != ""
    ensures target != "" ==> t == target
  {
    if target == "" then DefaultTarget else target
  }

  // ---------------------------------------------------------------------------
  // validateTauriProject
  // ---------------------------------------------------------------------------

  /** What `os.Stat` reports: only "does not exist" counts as missing; any other error passes. */
  datatype StatResult = Present | NotExist | StatFailed(message: string)

  const SrcTauri: string := "src-tauri"
  const TauriConfig: string := "src-tauri/tauri.conf.json"
  const PackageJson: string := "package.json"

  /** `validateTauriProject`: `src-tauri`, then its `tauri.conf.json`, then `package.json`. */
  function ValidateTauriProject(stat: string -> StatResult): (r: Option<string>)
    ensures r.None? <==> stat(SrcTauri) != NotExist && stat(TauriConfig) != NotExist && stat(PackageJson) != NotExist
    ensures stat(SrcTauri) == NotExist ==> r == Some("src-tauri directory not found")
    ensures stat(SrcTauri) != NotExist && stat(TauriConfig) == NotExist ==>
              r == Some("tauri.conf.json not found in src-tauri directory")
    ensures stat(SrcTauri) != NotExist && stat(TauriConfig) != NotExist && stat(PackageJson) == NotExist ==>
              r == Some("package.json not found - not a valid Node.js/Tauri project")
  {
    if stat(SrcTauri) == NotExist then Some("src-tauri directory not found")
    else if stat(TauriConfig) == NotExist then Some("tauri.conf.json not found in src-tauri directory")
    else if stat(PackageJson) == NotExist then Some("package.json not found - not a valid Node.js/Tauri project")
    else None
  }

  /** A stat error other than "does not exist", such as a permission error, lets the check pass. */
  lemma {:induction false} OtherStatErrorsPass(message: string)
    ensures ValidateTauriProject(p => StatFailed(message)) == None
  {
  }

  // ---------------------------------------------------------------------------
  // runBuild
  // ---------------------------------------------------------------------------

  /** A process to run: `exec.Command(name, args...)`. */
  datatype Command = Command(name: string, args: seq<string>)

  const InstallDependencies: Command := Command("pnpm", ["install"])
  const BuildFrontend: Command := Command("pnpm", ["run", "build"])

  /** Whether `--target` is passed: not for an empty target nor for `universal`. */
  predicate PassesTarget(target: string) {
    target != "" && target != "universal"
  }

  /** The `pnpm` arguments of the Tauri build: `tauri build`, then `--target <t>` and `--debug` when they apply. */
  function TauriArgs(target: string, mode: string): (args: seq<string>)
    ensures |args| == 2 + (if PassesTarget(target) then 2 else 0) + (if mode == "debug" then 1 else 0)
    ensures args[..2] == ["tauri", "build"]
    ensures PassesTarget(target) ==> args[2] == "--target" && args[3] == target
    ensures mode == "debug" ==> args[|args| - 1] == "--debug"
  {
    ["tauri", "build"]
    + (if PassesTarget(target) then ["--target", target] else [])
    + (if mode == "debug" then ["--debug"] else [])
  }

  /** `--target` appears exactly when the target is passed, and `--debug` exactly in debug mode when no target reads `--debug`. */
  lemma {:induction false} TauriArgsFlags(target: string, mode: string)
    requires target != "--debug" && target != "--target"
    ensures "--target" in TauriArgs(target, mode) <==> PassesTarget(target)
    ensures "--debug" in TauriArgs(target, mode) <==> mode == "debug"
  {
    var args := TauriArgs(target, mode);
    if PassesTarget(target) {
      assert args[2] == "--target";
    }
    if mode == "debug" {
      assert args[|args| - 1] == "--debug";
    }
  }

  /** With the defaults, the Tauri build is `pnpm tauri build --target aarch64-apple-darwin`. */
  lemma {:induction false} DefaultTauriBuild()
    ensures Command("pnpm", TauriArgs(EffectiveTarget(""), DefaultMode))
         == Command("pnpm", ["tauri", "build", "--target", "aarch64-apple-darwin"])
  {
  }

  /** The commands of a build, in order. */
  function BuildCommands(target: string, mode: string): seq<Command> {
    [InstallDependencies, BuildFrontend, Command("pnpm", TauriArgs(target, mode))]
  }

  /** The prefix `runBuild` puts before the error of each command. */
  function FailureContext(k: nat): string {
    if k == 0 then "failed to install frontend dependencies: "
    else if k == 1 then "failed to build frontend: "
    else "failed to build Tauri application: "
  }

  /**
   * `runBuild`: run the three commands in order; the first that fails ends
   * the build with its context and its error. `failures` maps each failing
   * command to its error text.
   */
  method RunBuild(target: string, mode: string, failures: map<Command, string>)
    returns (ran: seq<Command>, err: Option<string>)
    ensures ran <= BuildCommands(target, mode) && ran != []
    ensures forall k :: 0 <= k < |ran| - 1 ==> ran[k] !in failures
    ensures err.None? <==> ran == BuildCommands(target, mode) && ran[2] !in failures
    ensures err.Some? ==> ran[|ran| - 1] in failures
                          && err.value == FailureContext(|ran| - 1) + failures[ran[|ran| - 1]]
  {
    ran := [InstallDependencies];
    if InstallDependencies in failures {
      return ran, Some(FailureContext(0) + failures[InstallDependencies]);
    }
    ran := ran + [BuildFrontend];
    if BuildFrontend in failures {
      return ran, Some(FailureContext(1) + failures[BuildFrontend]);
    }
    var tauri := Command("pnpm", TauriArgs(target, mode));
    ran := ran + [tauri];
    if tauri in failures {
      return ran, Some(FailureContext(2) + failures[tauri]);
    }
    err := None;
  }

  /**
   * The command's `RunE`: default the target, validate the project (wrapping
   * its error), then build.
   */
  method Run(targetFlag: string, mode: string, stat: string -> StatResult, failures: map<Command, string>)
    returns (ran: seq<Command>, err: Option<string>)
    ensures ValidateTauriProject(stat).Some? ==>
              ran == [] && err == Some("not a valid Tauri project: " + ValidateTauriProject(stat).value)
    ensures ValidateTauriProject(stat).None? ==> ran <= BuildCommands(EffectiveTarget(targetFlag), mode) && ran != []
    ensures err.None? <==>
              ValidateTauriProject(stat).None? && ran == BuildCommands(EffectiveTarget(targetFlag), mode)
              && forall c :: c in ran ==> c !in failures
  {
    var target := EffectiveTarget(targetFlag);
    var invalid := ValidateTauriProject(stat);
    if invalid.Some? {
      return [], Some("not a valid Tauri project: " + invalid.value);
    }
    ran, err := RunBuild(target, mode, failures);
  }
}
