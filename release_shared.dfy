/**
 * The helpers shared by the release scripts: where things live, which version
 * is released, space-only URL encoding, `.env` parsing, `{{KEY}}` templates,
 * the checks on build artifacts and on the finished bundle, and the update
 * manifest and index records. The file system is a set of existing paths.
 */
module ReleaseShared {
  import opened Wrappers
  import opened Text

  // ---------------------------------------------------------------------------
  // Configuration
  // ---------------------------------------------------------------------------

  const DefaultDomain: string := "https://container-kit.ethercorps.io/release"

  /** `path.join(a, b)` for a clean `a` and a single segment `b`. */
  function Slash(a: string, b: string): string {
    a + "/" + b
  }

  function TauriConf(root: string): string { Slash(Slash(root, "src-tauri"), "tauri.conf.json") }
  function PackageJson(root: string): string { Slash(root, "package.json") }
  function BundleDir(root: string): string { Slash(root, "release") }

  /** `validateProjectStructure`: the Tauri configuration first, then `package.json`. */
  function ValidateProjectStructure(root: string, existing: set<string>): (r: Result<(), string>)
    ensures r.Ok? <==> TauriConf(root) in existing && PackageJson(root) in existing
    ensures TauriConf(root) !in existing ==> r == Err("Not in a Tauri project directory")
  {
    if TauriConf(root) !in existing then Err("Not in a Tauri project directory")
    else if PackageJson(root) !in existing then Err("package.json not found")
    else Ok(())
  }

  // ---------------------------------------------------------------------------
  // Command lines, tools and commands
  // ---------------------------------------------------------------------------

  /** What an option loop ends with: the options, `--help` (exit 0) or an unknown option (exit 1). */
  datatype ParseOutcome<O> = Parsed(options: O) | ShowHelp | UnknownOption(arg: Option<string>)

  /**
   * How a script run ends: it runs to the end, `process.exit(code)` after
   * logging `message`, or `main`'s promise rejects with an error whose
   * message is `error`.
   */
  datatype Exit = Completed | Exited(code: int, message: string) | Threw(error: string)

  /** The steps a run completed are a prefix of its plan, also after a common first part. */
  lemma {:induction false} PrependPrefix<T>(p: seq<T>, a: seq<T>, b: seq<T>)
    requires a <= b
    ensures p + a <= p + b
    ensures p + a == p + b <==> a == b
  {
    if p + a == p + b {
      assert a == (p + a)[|p|..] && b == (p + b)[|p|..];
    }
  }

  /** `args.slice(n)`. */
  function Rest(args: seq<Option<string>>, n: nat): seq<Option<string>> {
    if n <= |args| then args[n..] else []
  }

  /** `args[n]`, `undefined` past the end. */
  function Arg(args: seq<Option<string>>, n: nat): Option<string> {
    if n < |args| then args[n] else None
  }

  /** `${x}` in a template literal, and a replacement value: `undefined` prints as such. */
  function Shown(x: Option<string>): string {
    x.GetOr("undefined")
  }

  /** `checkRequiredTools`: each probe command with the tool name it reports. */
  const RequiredTools: seq<(string, string)> :=
    [("Node.js", "node --version"), ("pnpm", "pnpm --version"), ("Tauri CLI", "tauri --version")]

  /** `message` reports the first required tool that does not answer. */
  predicate ToolMissing(working: set<string>, message: string) {
    exists k :: 0 <= k < |RequiredTools| && RequiredTools[k].1 !in working
                && (forall j :: 0 <= j < k ==> RequiredTools[j].1 in working)
                && message == RequiredTools[k].0 + " is not available or not in PATH"
  }

  /** `checkRequiredTools`: the first probe that fails ends the run. `working` holds the probes that succeed. */
  method CheckRequiredTools(working: set<string>) returns (r: Result<(), string>)
    ensures r.Ok? <==> forall j :: 0 <= j < |RequiredTools| ==> RequiredTools[j].1 in working
    ensures r.Err? ==> ToolMissing(working, r.error)
  {
    var missing := FirstMissing(RequiredTools, working);
    if missing.Some? {
      return Err(RequiredTools[missing.value].0 + " is not available or not in PATH");
    }
    r := Ok(());
  }

  /**
   * `executeCommand`: run a shell command; a failure logs the description
   * and the error and exits 1. `failures` maps each failing command to its
   * error message.
   */
  method ExecuteCommand(command: string, description: string, failures: map<string, string>) returns (r: Result<(), string>)
    ensures r.Ok? <==> command !in failures
    ensures r.Err? ==> r.error == description + " failed: " + failures[command]
  {
    if command in failures {
      return Err(description + " failed: " + failures[command]);
    }
    r := Ok(());
  }

  // ---------------------------------------------------------------------------
  // getVersion
  // ---------------------------------------------------------------------------

  /**
   * What reading `tauri.conf.json` gives: no file, a read or parse error, or
   * its `version` field and its updater public key (`plugins.updater.pubkey`).
   */
  datatype ConfigRead = ConfigMissing | ConfigUnreadable(error: string)
                      | ConfigParsed(version: Option<string>, pubkey: Option<string>)

  /** The message of the error an unguarded read-and-parse of the config at `confPath` throws. */
  function ConfigReadError(confPath: string, read: ConfigRead): string
    requires !read.ConfigParsed?
  {
    match read
      case ConfigMissing => "ENOENT: no such file or directory, open '" + confPath + "'"
      case ConfigUnreadable(e) => e
  }

  /**
   * `getVersion`: a non-empty override wins without reading the file;
   * otherwise the configured version, and every failure is an exit.
   */
  function GetVersion(overrideVersion: Option<string>, confPath: string, read: ConfigRead): (r: Result<string, string>)
    ensures r.Ok? ==> r.value != ""
    ensures overrideVersion.Some? && overrideVersion.value != "" ==> r == Ok(overrideVersion.value)
    ensures r.Ok? <==>
      (overrideVersion.Some? && overrideVersion.value != "")
      || (read.ConfigParsed? && read.version.Some? && read.version.value != "")
  {
    if overrideVersion.Some? && overrideVersion.value != "" then Ok(overrideVersion.value)
    else match read
      case ConfigMissing => Err("tauri.conf.json not found at " + confPath)
      case ConfigUnreadable(e) => Err("Error reading tauri.conf.json: " + e)
      case ConfigParsed(v, _) =>
        if v.Some? && v.value != "" then Ok(v.value) else Err("Could not extract version from tauri.conf.json")
  }

  // ---------------------------------------------------------------------------
  // urlEncode
  // ---------------------------------------------------------------------------

  /** `urlEncode`: every space becomes `%20`; nothing else is escaped. */
  function UrlEncode(s: string): (r: string)
    ensures ' ' !in r
    ensures ' ' !in s ==> r == s
  {
    ReplaceChar(s, ' ', "%20")
  }

  /** Percent-decoding restricted to `%20`, the one escape `UrlEncode` produces. */
  function DecodeSpaces(s: string): string {
    if s == [] then []
    else if |s| >= 3 && s[..3] == "%20" then " " + DecodeSpaces(s[3..])
    else [s[0]] + DecodeSpaces(s[1..])
  }

  /** Encoding is undone by decoding, on text that has no `%` of its own. */
  lemma {:induction false} DecodeEncode(s: string)
    requires '%' !in s
    ensures DecodeSpaces(UrlEncode(s)) == s
  {
    if s != [] {
      var rest := UrlEncode(s[1..]);
      DecodeEncode(s[1..]);
      var e := UrlEncode(s);
      if s[0] == ' ' {
        assert e == "%20" + rest;
        assert e[..3] == "%20" && e[3..] == rest;
      } else {
        assert e == [s[0]] + rest;
        assert e[0] != '%';
        assert e[1..] == rest;
      }
    }
  }

  /** Each space grows by two characters. */
  lemma {:induction false} UrlEncodeLength(s: string)
    ensures |UrlEncode(s)| == |s| + 2 * Count(s, ' ')
  {
    ReplaceCharLength(s, ' ', "%20");
  }

  /** One space between two space-free parts. */
  lemma {:induction false} UrlEncodeOneSpace(a: string, b: string)
    requires ' ' !in a && ' ' !in b
    ensures UrlEncode(a + " " + b) == a + "%20" + b
  {
    var space := [' '];
    assert a + " " + b == a + space + b;
    ReplaceCharAppend(a + space, b, ' ', "%20");
    ReplaceCharAppend(a, space, ' ', "%20");
    assert space[1..] == [];
    assert ReplaceChar(space, ' ', "%20") == "%20";
  }

  // The product name is "Container Kit"; the file names are built around its one space.
  const Container: string := "Container"
  const ArchiveRest: string := "Kit.app.tar.gz"
  const BundleArchive: string := Container + " " + ArchiveRest

  lemma {:induction false} EncodedBundleArchive()
    ensures UrlEncode(BundleArchive) == "Container%20Kit.app.tar.gz"
  {
    assert ' ' !in Container by { forall k | 0 <= k < |Container| ensures Container[k] != ' ' { } }
    assert ' ' !in ArchiveRest by { forall k | 0 <= k < |ArchiveRest| ensures ArchiveRest[k] != ' ' { } }
    UrlEncodeOneSpace(Container, ArchiveRest);
    assert Container + "%20" + ArchiveRest == "Container%20Kit.app.tar.gz";
  }

  // ---------------------------------------------------------------------------
  // loadEnvironmentVariables
  // ---------------------------------------------------------------------------

  /**
   * One `.env` line: split on `=`; with a non-empty first piece and at least
   * one `=`, the trimmed first piece is the key and the trimmed rest, joined
   * back with `=`, the value.
   */
  function ParseEnvLine(line: string): Option<(string, string)> {
    var parts := Split(line, '=');
    if parts[0] != "" && |parts| > 1 then Some((Trim(parts[0]), Trim(Join(parts[1..], "="))))
    else None
  }

  /** The same rule read on the line itself: it hinges on the first `=`, which must not be the first character. */
  lemma {:induction false} ParseEnvLineMeaning(line: string)
    ensures ParseEnvLine(line).Some? <==> IndexOf(line, '=').Some? && IndexOf(line, '=').value > 0
    ensures ParseEnvLine(line).Some? ==>
      var i := IndexOf(line, '=').value;
      ParseEnvLine(line).value == (Trim(line[..i]), Trim(line[i + 1..]))
  {
    SplitFirst(line, '=');
    JoinSplitTail(line, '=');
  }

  /** Each line's entry, if it has one. */
  function ParsedLines(lines: seq<string>): (entries: seq<Option<(string, string)>>)
    ensures |entries| == |lines|
    ensures forall i :: 0 <= i < |lines| ==> entries[i] == ParseEnvLine(lines[i])
  {
    seq(|lines|, i requires 0 <= i < |lines| => ParseEnvLine(lines[i]))
  }

  /** Assigning the entries in order into an empty record; a later entry overwrites an earlier one. */
  function Assign(entries: seq<Option<(string, string)>>): map<string, string>
    decreases |entries|
  {
    if entries == [] then map[]
    else
      var m := Assign(entries[..|entries| - 1]);
      match entries[|entries| - 1]
      case None => m
      case Some(kv) => m[kv.0 := kv.1]
  }

  /** The variables of a `.env` text. */
  function EnvVars(content: string): map<string, string> {
    Assign(ParsedLines(Split(content, '\n')))
  }

  predicate SetsKey(e: Option<(string, string)>, k: string) {
    e.Some? && e.value.0 == k
  }

  /** A key is defined exactly when some entry sets it. */
  lemma {:induction false} AssignDefined(entries: seq<Option<(string, string)>>, k: string)
    ensures k in Assign(entries) <==> exists i :: 0 <= i < |entries| && SetsKey(entries[i], k)
    decreases |entries|
  {
    if entries != [] {
      var n := |entries| - 1;
      var init := entries[..n];
      AssignDefined(init, k);
      if !SetsKey(entries[n], k) {
        assert k in Assign(entries) <==> k in Assign(init);
        if exists i :: 0 <= i < |entries| && SetsKey(entries[i], k) {
          var i :| 0 <= i < |entries| && SetsKey(entries[i], k);
          assert init[i] == entries[i];
        }
        if exists i :: 0 <= i < |init| && SetsKey(init[i], k) {
          var i :| 0 <= i < |init| && SetsKey(init[i], k);
          assert init[i] == entries[i];
        }
      }
    }
  }

  /** A defined key has the value of the last entry that sets it. */
  lemma {:induction false} AssignLastWins(entries: seq<Option<(string, string)>>, k: string)
    requires k in Assign(entries)
    ensures exists i :: 0 <= i < |entries| && entries[i] == Some((k, Assign(entries)[k]))
                        && forall j :: i < j < |entries| ==> !SetsKey(entries[j], k)
    decreases |entries|
  {
    var n := |entries| - 1;
    var init := entries[..n];
    if SetsKey(entries[n], k) {
      assert entries[n] == Some((k, Assign(entries)[k]));
    } else {
      assert k in Assign(init) && Assign(entries)[k] == Assign(init)[k];
      AssignLastWins(init, k);
      var i :| 0 <= i < |init| && init[i] == Some((k, Assign(init)[k]))
               && forall j :: i < j < |init| ==> !SetsKey(init[j], k);
      assert entries[i] == init[i];
      assert forall j :: i < j < |entries| ==> !SetsKey(entries[j], k) by {
        forall j | i < j < |entries| ensures !SetsKey(entries[j], k) {
          if j < n { assert entries[j] == init[j]; }
        }
      }
    }
  }

  /** Parse the text of `.env`, one line at a time. */
  method ParseEnvFile(content: string) returns (vars: map<string, string>)
    ensures vars == EnvVars(content)
  {
    var lines := Split(content, '\n');
    ghost var entries := ParsedLines(lines);
    vars := map[];
    var i := 0;
    while i < |lines|
      invariant 0 <= i <= |lines|
      invariant vars == Assign(entries[..i])
    {
      assert entries[..i + 1][..i] == entries[..i];
      var entry := ParseEnvLine(lines[i]);
      if entry.Some? {
        vars := vars[entry.value.0 := entry.value.1];
      }
      i := i + 1;
    }
    assert entries[..|lines|] == entries;
  }

  /** The process environment. */
  class Environment {
    var vars: map<string, string>

    constructor (initial: map<string, string>)
      ensures vars == initial
    {
      vars := initial;
    }

    /** `loadEnvironmentVariables`: when `.env` exists, its variables override the current ones. */
    method LoadEnvironmentVariables(envFile: Option<string>)
      modifies this
      ensures envFile.None? ==> vars == old(vars)
      ensures envFile.Some? ==> vars == old(vars) + EnvVars(envFile.value)
    {
      if envFile.Some? {
        var parsed := ParseEnvFile(envFile.value);
        vars := vars + parsed;
      }
    }
  }

  // ---------------------------------------------------------------------------
  // processTemplate
  // ---------------------------------------------------------------------------

  function Placeholder(key: string): (p: string)
    ensures |p| > 0 && p[0] == '{'
  {
    "{{" + key + "}}"
  }

  /** Every replacement in order, each over the result of the previous ones. */
  function ApplyReplacements(content: string, replacements: seq<(string, string)>): string
    decreases |replacements|
  {
    if replacements == [] then content
    else
      var n := |replacements| - 1;
      ReplaceAll(ApplyReplacements(content, replacements[..n]), Placeholder(replacements[n].0), replacements[n].1)
  }

  /** `processTemplate`: read the template, then replace each `{{KEY}}` in turn; a read error exits. */
  method ProcessTemplate(templatePath: string, template: Result<string, string>, replacements: seq<(string, string)>)
    returns (r: Result<string, string>)
    ensures template.Err? ==> r == Err("Failed to process template " + templatePath + ": " + template.error)
    ensures template.Ok? ==> r == Ok(ApplyReplacements(template.value, replacements))
  {
    if template.Err? {
      return Err("Failed to process template " + templatePath + ": " + template.error);
    }
    var content := template.value;
    var i := 0;
    while i < |replacements|
      invariant 0 <= i <= |replacements|
      invariant content == ApplyReplacements(template.value, replacements[..i])
    {
      assert replacements[..i + 1][..i] == replacements[..i];
      var (key, value) := replacements[i];
      content := ReplaceAll(content, Placeholder(key), value);
      i := i + 1;
    }
    assert replacements[..|replacements|] == replacements;
    r := Ok(content);
  }

  /** Text without `{` is never the start of a placeholder, so it is copied through. */
  lemma {:induction false} ReplaceSkipsPlainText(piece: string, rest: string, pat: string, v: string)
    requires |pat| > 0 && pat[0] == '{' && '{' !in piece
    ensures ReplaceAll(piece + rest, pat, v) == piece + ReplaceAll(rest, pat, v)
  {
    if piece != [] {
      ReplaceSkipsPlainText(piece[1..], rest, pat, v);
      ReplaceSkipsStep(piece, rest, pat, v);
    } else {
      assert piece + rest == rest;
    }
  }

  /** One character other than `{` in front is copied through, given the rest of the piece is. */
  lemma {:induction false} ReplaceSkipsStep(piece: string, rest: string, pat: string, v: string)
    requires |pat| > 0 && pat[0] == '{' && |piece| > 0 && piece[0] != '{'
    requires ReplaceAll(piece[1..] + rest, pat, v) == piece[1..] + ReplaceAll(rest, pat, v)
    ensures ReplaceAll(piece + rest, pat, v) == piece + ReplaceAll(rest, pat, v)
  {
    var s, t, r := piece + rest, piece[1..], ReplaceAll(rest, pat, v);
    assert s[0] == piece[0] && s[1..] == t + rest;
    ReplaceAllPlainHead(s, pat, v);
    assert [piece[0]] + t == piece;
    AppendAssoc([piece[0]], t, r);
  }

  /**
   * A template made of plain text pieces separated by the placeholder comes
   * out as the same pieces separated by the value: every occurrence is
   * replaced and nothing else changes.
   */
  lemma {:induction false} FillsEveryPlaceholder(pieces: seq<string>, key: string, v: string)
    requires forall i :: 0 <= i < |pieces| ==> '{' !in pieces[i]
    ensures ReplaceAll(Join(pieces, Placeholder(key)), Placeholder(key), v) == Join(pieces, v)
  {
    var pat := Placeholder(key);
    if |pieces| == 1 {
      ReplaceSkipsPlainText(pieces[0], [], pat, v);
      assert pieces[0] + [] == pieces[0];
      assert ReplaceAll([], pat, v) == [];
    } else if |pieces| > 1 {
      var tail := Join(pieces[1..], pat);
      FillsEveryPlaceholder(pieces[1..], key, v);
      assert Join(pieces, pat) == pieces[0] + (pat + tail);
      ReplaceSkipsPlainText(pieces[0], pat + tail, pat, v);
      assert pat <= pat + tail;
      assert (pat + tail)[|pat|..] == tail;
    }
  }

  // ---------------------------------------------------------------------------
  // The build artifacts
  // ---------------------------------------------------------------------------

  /** `…/src-tauri/target/<target>/release/bundle`. */
  function TargetDir(root: string, target: string): string {
    Slash(Slash(Slash(Slash(Slash(root, "src-tauri"), "target"), target), "release"), "bundle")
  }

  const DefaultTarget: string := "aarch64" + "-" + "apple-darwin"
  const AppDirName: string := Container + " " + "Kit.app"
  const SignatureName: string := BundleArchive + ".sig"

  /** The DMG file name Tauri gives the Apple Silicon build. */
  function DmgName(version: string): string {
    Container + " " + "Kit_" + version + "_aarch64.dmg"
  }

  datatype BuildArtifacts = BuildArtifacts(dmg: string, appBundle: string, signature: string, appDir: string)

  function ArtifactPaths(root: string, version: string): BuildArtifacts {
    var dir := TargetDir(root, DefaultTarget);
    BuildArtifacts(Slash(Slash(dir, "dmg"), DmgName(version)), Slash(Slash(dir, "macos"), BundleArchive),
                   Slash(Slash(dir, "macos"), SignatureName), Slash(Slash(dir, "macos"), AppDirName))
  }

  /** The order of the checks, with the name each is reported under. */
  function ArtifactChecks(a: BuildArtifacts): seq<(string, string)> {
    [("DMG file", a.dmg), ("App bundle", a.appBundle), ("Signature file", a.signature), ("App directory", a.appDir)]
  }

  /** The first entry whose path is missing, if any. */
  method FirstMissing(checks: seq<(string, string)>, existing: set<string>) returns (missing: Option<nat>)
    ensures missing.None? <==> forall j :: 0 <= j < |checks| ==> checks[j].1 in existing
    ensures missing.Some? ==> missing.value < |checks| && checks[missing.value].1 !in existing
                              && forall j :: 0 <= j < missing.value ==> checks[j].1 in existing
  {
    var i := 0;
    while i < |checks|
      invariant 0 <= i <= |checks|
      invariant forall j :: 0 <= j < i ==> checks[j].1 in existing
    {
      if checks[i].1 !in existing {
        return Some(i);
      }
      i := i + 1;
    }
    return None;
  }

  /**
   * `checkBuildArtifacts`: the DMG, the app archive, its signature and the app
   * directory, in that order; the first one missing aborts the run.
   */
  method CheckBuildArtifacts(root: string, version: string, existing: set<string>) returns (r: Result<BuildArtifacts, string>)
    ensures r.Ok? <==> forall c :: c in ArtifactChecks(ArtifactPaths(root, version)) ==> c.1 in existing
    ensures r.Ok? ==> r.value == ArtifactPaths(root, version)
    ensures r.Err? ==> exists k :: 0 <= k < 4 && var checks := ArtifactChecks(ArtifactPaths(root, version));
              r.error == checks[k].0 + " not found: " + checks[k].1 && checks[k].1 !in existing
              && forall j :: 0 <= j < k ==> checks[j].1 in existing
  {
    var artifacts := ArtifactPaths(root, version);
    var checks := ArtifactChecks(artifacts);
    var missing := FirstMissing(checks, existing);
    if missing.Some? {
      var k := missing.value;
      return Err(checks[k].0 + " not found: " + checks[k].1);
    }
    r := Ok(artifacts);
  }

  // ---------------------------------------------------------------------------
  // The bundle
  // ---------------------------------------------------------------------------

  function VersionDir(root: string, version: string): string { Slash(BundleDir(root), version) }
  function MacosDir(root: string, version: string): string { Slash(VersionDir(root, version), "macos") }
  function ManifestPath(root: string, version: string): string { Slash(VersionDir(root, version), "update.json") }
  function IndexPath(root: string): string { Slash(BundleDir(root), "index.json") }
  function IndexBackupPath(root: string): string { Slash(BundleDir(root), "index.json.bak") }
  function ReadmePath(root: string): string { Slash(BundleDir(root), "README.md") }

  /** The files `copyArtifacts` puts in the bundle's `macos` directory. */
  function CopiedFiles(root: string, version: string): set<string> {
    var m := MacosDir(root, version);
    {Slash(m, DmgName(version)), Slash(m, BundleArchive), Slash(m, SignatureName), Slash(m, AppDirName)}
  }

  /** `validateBundle`'s list of required files, checked in this order. */
  function RequiredFiles(root: string, version: string): seq<(string, string)> {
    var m := MacosDir(root, version);
    [("", ManifestPath(root, version)), ("", Slash(m, BundleArchive)), ("", Slash(m, SignatureName)),
     ("", Slash(m, DmgName(version))), ("", Slash(m, AppDirName)), ("", IndexPath(root)), ("", ReadmePath(root))]
  }

  /** `validateBundle`'s existence check: the first missing file aborts. */
  method ValidateBundleFiles(root: string, version: string, existing: set<string>) returns (r: Result<(), string>)
    ensures r.Ok? <==> forall j :: 0 <= j < 7 ==> RequiredFiles(root, version)[j].1 in existing
    ensures r.Err? ==> exists k :: 0 <= k < 7 && r.error == "Missing required file: " + RequiredFiles(root, version)[k].1
                                   && RequiredFiles(root, version)[k].1 !in existing
                                   && forall j :: 0 <= j < k ==> RequiredFiles(root, version)[j].1 in existing
  {
    var files := RequiredFiles(root, version);
    var missing := FirstMissing(files, existing);
    if missing.Some? {
      return Err("Missing required file: " + files[missing.value].1);
    }
    r := Ok(());
  }

  /** Every file the bundle check asks for is one the earlier steps write. */
  lemma {:induction false} RequiredFilesAreWritten(root: string, version: string)
    ensures forall j :: 0 <= j < 7 ==>
      RequiredFiles(root, version)[j].1 in CopiedFiles(root, version) + {ManifestPath(root, version), IndexPath(root), ReadmePath(root)}
  {
  }

  // ---------------------------------------------------------------------------
  // The update manifest and the index
  // ---------------------------------------------------------------------------

  datatype UpdateManifest = UpdateManifest(version: string, notes: string, pubDate: string,
                                           platform: string, signature: string, url: string)

  const NotesTail: string := "\\n\\n🚀 What's New:\\n- Latest features and improvements\\n- Enhanced performance and stability\\n- Bug fixes and optimizations\\n\\n📦 Downloads:\\n- DMG installer for new installations\\n- Automatic updates for existing users\\n\\nFor detailed changelog, visit our releases page."

  /** The record `createUpdateManifest` writes; `signatureFile` is the text of the `.sig` file. */
  function UpdateManifestFor(version: string, domain: string, signatureFile: string, timestamp: string): UpdateManifest {
    UpdateManifest(version, "Container Kit v" + version + NotesTail, timestamp, "darwin-aarch64",
                   Trim(signatureFile), ArchiveUrl(domain, version))
  }

  /** Where the updater downloads a version's archive. */
  function ArchiveUrl(domain: string, version: string): string {
    domain + "/" + version + "/macos/" + UrlEncode(BundleArchive)
  }

  /** The manifest is for the released version and points at its archive, with the space escaped. */
  lemma {:induction false} ManifestContents(version: string, domain: string, signatureFile: string, timestamp: string)
    ensures var m := UpdateManifestFor(version, domain, signatureFile, timestamp);
      m.version == version && m.pubDate == timestamp && m.signature == Trim(signatureFile)
  {
  }

  /** The download URL is the version's archive, with the space escaped. */
  lemma {:induction false} ManifestUrl(version: string, domain: string)
    ensures ArchiveUrl(domain, version) == domain + "/" + version + "/macos/Container%20Kit.app.tar.gz"
  {
    var u := UrlEncode(BundleArchive);
    EncodedBundleArchive();
    var p := domain + "/" + version;
    assert "/macos/" + u == "/macos/Container%20Kit.app.tar.gz";
    assert p + "/macos/" + u == p + ("/macos/" + u);
  }

  /** The release notes open with the product name and the version. */
  lemma {:induction false} ManifestNotes(version: string, domain: string, signatureFile: string, timestamp: string)
    ensures "Container Kit v" + version <= UpdateManifestFor(version, domain, signatureFile, timestamp).notes
  {
    var p := "Container Kit v" + version;
    assert p + NotesTail == UpdateManifestFor(version, domain, signatureFile, timestamp).notes;
    assert (p + NotesTail)[..|p|] == p;
  }

  datatype VersionInfo = VersionInfo(releaseDate: string, manifestUrl: string, dmg: string, appBundle: string,
                                     appDirectory: string, platforms: seq<string>, fileSize: nat, changelog: seq<string>)

  datatype BundleIndex = BundleIndex(name: string, description: string, latestVersion: string,
                                     versions: map<string, VersionInfo>, endpoint: string, publicKey: string,
                                     created: string, lastUpdated: string, formatVersion: string)

  const Changelog: seq<string> := ["Latest features and improvements", "Enhanced performance and stability",
                                   "Bug fixes and optimizations", "Improved user experience",
                                   "Updated dependencies and security patches"]

  /**
   * The record `updateIndex` writes. It is rebuilt from scratch each time:
   * only the current version is listed. `pubkey` is the configured updater
   * key, when there is one; `appBundleSize` is 0 when the archive cannot be read.
   */
  function IndexFor(version: string, domain: string, timestamp: string, appBundleSize: nat, pubkey: Option<string>): BundleIndex {
    var prefix := "./" + version + "/macos/";
    var info := VersionInfo(timestamp, "./" + version + "/update.json",
                            prefix + UrlEncode(DmgName(version)), prefix + UrlEncode(BundleArchive),
                            prefix + UrlEncode(AppDirName), ["darwin-aarch64"], appBundleSize, Changelog);
    BundleIndex("Container Kit", "GUI for apple container CLI", version, map[version := info],
                domain + "/{version}/update.json", pubkey.GetOr(""), timestamp, timestamp, "1.0")
  }

  /**
   * The index names the version as the latest and as its only entry, created
   * and updated at the same instant, with the manifest next to the version.
   */
  lemma {:induction false} IndexContents(version: string, domain: string, timestamp: string, size: nat, pubkey: Option<string>)
    ensures var idx := IndexFor(version, domain, timestamp, size, pubkey);
      idx.latestVersion == version && idx.versions.Keys == {version}
      && idx.created == idx.lastUpdated == timestamp
      && idx.versions[version].manifestUrl == "./" + version + "/update.json"
      && idx.versions[version].fileSize == size
      && (pubkey.None? ==> idx.publicKey == "")
  {
  }

  /**
   * The updater endpoint keeps the text `{version}` as is: it is the same for
   * every release.
   */
  lemma {:induction false} EndpointIgnoresVersion(v1: string, v2: string, domain: string, timestamp: string, size: nat, pubkey: Option<string>)
    ensures IndexFor(v1, domain, timestamp, size, pubkey).endpoint == IndexFor(v2, domain, timestamp, size, pubkey).endpoint
  {
  }

  /** The DMG download link escapes the space in the product name. */
  lemma {:induction false} IndexDmgLink(version: string, domain: string, timestamp: string, size: nat, pubkey: Option<string>)
    requires ' ' !in version
    ensures IndexFor(version, domain, timestamp, size, pubkey).versions[version].dmg
         == "./" + version + "/macos/Container%20Kit_" + version + "_aarch64.dmg"
  {
    var b := "Kit_" + version + "_aarch64.dmg";
    assert ' ' !in Container by { forall k | 0 <= k < |Container| ensures Container[k] != ' ' { } }
    assert ' ' !in b by {
      var c := "_aarch64.dmg";
      assert ' ' !in c by { forall k | 0 <= k < |c| ensures c[k] != ' ' { } }
      assert ' ' !in "Kit_" by { forall k | 0 <= k < 4 ensures "Kit_"[k] != ' ' { } }
      assert b == "Kit_" + version + c;
    }
    assert DmgName(version) == Container + " " + b;
    UrlEncodeOneSpace(Container, b);
    assert "./" + version + "/macos/" + (Container + "%20" + b) == "./" + version + "/macos/Container%20Kit_" + version + "_aarch64.dmg";
  }

  // ---------------------------------------------------------------------------
  // The steps that write to the release directory
  // ---------------------------------------------------------------------------

  /** What a path holds. `Blob` is a file the scripts did not write. */
  datatype Entry = Dir | Blob | CopyOf(source: string) | ManifestFile(manifest: UpdateManifest)
                 | IndexFile(index: BundleIndex) | TextFile(text: string)

  /** `mkdir -p` of one directory: an existing path is left as it is. */
  function EnsureDir(entries: map<string, Entry>, p: string): (r: map<string, Entry>)
    ensures p in r && entries.Keys <= r.Keys
  {
    if p in entries then entries else entries[p := Dir]
  }

  /** The files `copyArtifacts` writes, each a copy of its build artifact. */
  function CopiedEntries(root: string, version: string): map<string, Entry> {
    var m := MacosDir(root, version);
    var a := ArtifactPaths(root, version);
    map[Slash(m, DmgName(version)) := CopyOf(a.dmg), Slash(m, BundleArchive) := CopyOf(a.appBundle),
        Slash(m, SignatureName) := CopyOf(a.signature), Slash(m, AppDirName) := CopyOf(a.appDir)]
  }

  lemma {:induction false} CopiedEntriesKeys(root: string, version: string)
    ensures CopiedEntries(root, version).Keys == CopiedFiles(root, version)
  {
  }

  /** The release tree. */
  class FileSystem {
    var entries: map<string, Entry>

    constructor (initial: map<string, Entry>)
      ensures entries == initial
    {
      entries := initial;
    }

    /**
     * `createBundleStructure`: refuse an existing version directory unless
     * `force`, before creating anything; then create `<version>/macos`.
     */
    method CreateBundleStructure(root: string, version: string, force: bool, mkdirError: Option<string>)
      returns (r: Result<(string, string), string>)
      modifies this
      ensures VersionDir(root, version) in old(entries) && !force ==>
                r == Err("Bundle for version " + version + " already exists") && entries == old(entries)
      ensures r.Ok? <==> !(VersionDir(root, version) in old(entries) && !force) && mkdirError.None?
      ensures !(VersionDir(root, version) in old(entries) && !force) && mkdirError.Some? ==>
                r == Err("Failed to create directory structure: " + mkdirError.value)
      ensures r.Err? ==> entries == old(entries)
      ensures r.Ok? ==> r.value == (VersionDir(root, version), MacosDir(root, version))
                        && entries == EnsureDir(EnsureDir(EnsureDir(old(entries), BundleDir(root)), VersionDir(root, version)), MacosDir(root, version))
    {
      var versionDir := VersionDir(root, version);
      var macosDir := MacosDir(root, version);
      if versionDir in entries && !force {
        return Err("Bundle for version " + version + " already exists");
      }
      if mkdirError.Some? {
        return Err("Failed to create directory structure: " + mkdirError.value);
      }
      entries := EnsureDir(EnsureDir(EnsureDir(entries, BundleDir(root)), versionDir), macosDir);
      r := Ok((versionDir, macosDir));
    }

    /** `copyArtifacts`: the DMG, the archive, its signature and the app into `macos`. */
    method CopyArtifacts(root: string, version: string, copyError: Option<string>) returns (r: Result<(), string>)
      modifies this
      ensures r.Ok? <==> copyError.None?
      ensures copyError.Some? ==> r == Err(copyError.value)
      ensures r.Err? ==> entries == old(entries)
      ensures r.Ok? ==> entries == old(entries) + CopiedEntries(root, version)
    {
      if copyError.Some? {
        return Err(copyError.value);
      }
      entries := entries + CopiedEntries(root, version);
      r := Ok(());
    }

    /**
     * `createUpdateManifest`: read the copied signature, then write
     * `update.json`. The read is not guarded, so a failed read throws; a
     * failed write exits 1.
     */
    method CreateUpdateManifest(root: string, version: string, domain: string, signature: Result<string, string>,
                                timestamp: string, writeError: Option<string>)
      returns (r: Result<UpdateManifest, Exit>)
      modifies this
      ensures r.Ok? <==> signature.Ok? && writeError.None?
      ensures r.Err? ==> entries == old(entries)
      ensures signature.Err? ==> r == Err(Threw(signature.error))
      ensures signature.Ok? && writeError.Some? ==> r == Err(Exited(1, "Failed to create update manifest: " + writeError.value))
      ensures r.Ok? ==> r.value == UpdateManifestFor(version, domain, signature.value, timestamp)
                        && entries == old(entries)[ManifestPath(root, version) := ManifestFile(r.value)]
    {
      if signature.Err? {
        return Err(Threw(signature.error));
      }
      var manifest := UpdateManifestFor(version, domain, signature.value, timestamp);
      if writeError.Some? {
        return Err(Exited(1, "Failed to create update manifest: " + writeError.value));
      }
      entries := entries[ManifestPath(root, version) := ManifestFile(manifest)];
      r := Ok(manifest);
    }

    /**
     * `updateIndex`: read the config again for the updater key, with no guard,
     * so a failing read rejects before anything is touched; then back up an
     * existing `index.json` and write a fresh one listing only this version.
     * The backup stays even when the write fails.
     */
    method UpdateIndex(root: string, version: string, domain: string, timestamp: string, appBundleSize: nat,
                       config: ConfigRead, writeError: Option<string>)
      returns (r: Result<BundleIndex, Exit>)
      modifies this
      ensures r.Ok? <==> config.ConfigParsed? && writeError.None?
      ensures !config.ConfigParsed? ==> entries == old(entries) && r == Err(Threw(ConfigReadError(TauriConf(root), config)))
      ensures var backedUp := if IndexPath(root) in old(entries)
                              then old(entries)[IndexBackupPath(root) := old(entries)[IndexPath(root)]]
                              else old(entries);
        && (config.ConfigParsed? && writeError.Some? ==>
              entries == backedUp && r == Err(Exited(1, "Failed to update index: " + writeError.value)))
        && (r.Ok? ==> entries == backedUp[IndexPath(root) := IndexFile(r.value)])
      ensures r.Ok? ==> r.value == IndexFor(version, domain, timestamp, appBundleSize, config.pubkey)
    {
      if !config.ConfigParsed? {
        return Err(Threw(ConfigReadError(TauriConf(root), config)));
      }
      if IndexPath(root) in entries {
        entries := entries[IndexBackupPath(root) := entries[IndexPath(root)]];
      }
      var index := IndexFor(version, domain, timestamp, appBundleSize, config.pubkey);
      if writeError.Some? {
        return Err(Exited(1, "Failed to update index: " + writeError.value));
      }
      entries := entries[IndexPath(root) := IndexFile(index)];
      r := Ok(index);
    }

    /** `fs.writeFileSync` of a text file, reporting a failure with `context`. */
    method WriteText(path: string, text: string, context: string, writeError: Option<string>) returns (r: Result<(), string>)
      modifies this
      ensures r.Ok? <==> writeError.None?
      ensures r.Err? ==> entries == old(entries) && r.error == context + writeError.value
      ensures r.Ok? ==> entries == old(entries)[path := TextFile(text)]
    {
      if writeError.Some? {
        return Err(context + writeError.value);
      }
      entries := entries[path := TextFile(text)];
      r := Ok(());
    }
  }
}
