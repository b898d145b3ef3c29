/**
 * The front end's wrappers around the `container` CLI: which argument vector
 * each operation sends, how it is run, and how the result is mapped. Running
 * a command is an abstract function from the invocation to its result.
 */
module ContainerCommands {
  import opened Wrappers
  import opened CommandOutput

  /** How a command is started. */
  datatype Invocation =
    | ContainerCommand(args: seq<string>)                 // createContainerCommand(args).execute()
    | Create(program: string, args: seq<string>)          // Command.create(program, args).execute()
    | WithStdin(args: seq<string>, stdin: string)         // commands.runContainerCommandWithStdin(args, stdin)
    | Elevated(program: string, args: seq<string>)        // commands.executeWithElevatedCommand(program, args)

  /** Runs a plain command to completion. */
  type Runner = Invocation -> ChildProcess

  /** Runs a native Tauri command, which can fail before producing a process result. */
  type NativeRunner = Invocation -> Result<ChildProcess, string>

  // ---------------------------------------------------------------------------
  // Containers
  // ---------------------------------------------------------------------------

  function ListContainersInvocation(): (c: Invocation)
    ensures c == ContainerCommand(["ls", "-a", "--format", "json"])
  {
    ContainerCommand(["ls", "-a", "--format", "json"])
  }

  /** `getAllContainers`. */
  function GetAllContainers(run: Runner): (r: Output)
    ensures r == ValidateCommandOutput(run(ContainerCommand(["ls", "-a", "--format", "json"])))
  {
    ValidateCommandOutput(run(ListContainersInvocation()))
  }

  /** The verb-and-id commands `start`, `stop` and `rm`. */
  datatype ContainerAction = Start | Stop | Remove

  function ActionVerb(a: ContainerAction): string {
    match a
    case Start => "start"
    case Stop => "stop"
    case Remove => "rm"
  }

  /** `startContainer`, `stopContainer`, `removeContainer`: the verb, then the id, nothing else. */
  function ContainerActionInvocation(a: ContainerAction, id: string): (c: Invocation)
    ensures c.ContainerCommand? && |c.args| == 2 && c.args[1] == id
    ensures c.args[0] == (if a == Start then "start" else if a == Stop then "stop" else "rm")
  {
    ContainerCommand([ActionVerb(a), id])
  }

  function RunContainerAction(a: ContainerAction, id: string, run: Runner): (r: Output)
    ensures r == ValidateCommandOutput(run(ContainerActionInvocation(a, id)))
  {
    ValidateCommandOutput(run(ContainerActionInvocation(a, id)))
  }

  /** Different actions on the same container never send the same command. */
  lemma {:induction false} ActionsDistinct(a: ContainerAction, b: ContainerAction, id: string)
    requires a != b
    ensures ContainerActionInvocation(a, id) != ContainerActionInvocation(b, id)
  {
    assert ActionVerb(a) != ActionVerb(b) by {
      assert "start"[2] != "stop"[2];
      assert "start"[0] != "rm"[0];
      assert "stop"[0] != "rm"[0];
    }
    assert ContainerActionInvocation(a, id).args[0] != ContainerActionInvocation(b, id).args[0];
  }

  // ---------------------------------------------------------------------------
  // Registry login and logout
  // ---------------------------------------------------------------------------

  datatype Scheme = Http | Https | Auto

  function SchemeText(s: Scheme): string {
    match s
    case Http => "http"
    case Https => "https"
    case Auto => "auto"
  }

  datatype LoginParams = LoginParams(username: string, password: string, scheme: Option<Scheme>, registry: string)

  /** `registry login --username U --password-stdin --scheme S R`, an unset scheme being `auto`. */
  function LoginArgs(o: LoginParams): (args: seq<string>)
    ensures |args| == 8
    ensures args[..3] == ["registry", "login", "--username"] && args[3] == o.username
    ensures args[4] == "--password-stdin" && args[5] == "--scheme" && args[7] == o.registry
    ensures o.scheme.None? ==> args[6] == "auto"
  {
    ["registry", "login", "--username", o.username, "--password-stdin", "--scheme",
     SchemeText(o.scheme.GetOr(Auto)), o.registry]
  }

  /** The password travels on standard input only. */
  function LoginInvocation(o: LoginParams): (c: Invocation)
    ensures c.WithStdin? && c.stdin == o.password && c.args == LoginArgs(o)
  {
    WithStdin(LoginArgs(o), o.password)
  }

  /** The argument vector does not depend on the password at all. */
  lemma {:induction false} PasswordNotInArgs(o: LoginParams, other: string)
    ensures LoginArgs(o.(password := other)) == LoginArgs(o)
  {
  }

  /** `registryLogin`: validated output on `ok`, the native-error record otherwise. */
  function RegistryLogin(o: LoginParams, run: NativeRunner): (r: Output)
    ensures run(LoginInvocation(o)).Ok? ==> r == ValidateCommandOutput(run(LoginInvocation(o)).value)
    ensures run(LoginInvocation(o)).Err? ==> r == NativeError(run(LoginInvocation(o)).error)
  {
    match run(LoginInvocation(o))
    case Ok(p) => ValidateCommandOutput(p)
    case Err(e) => NativeError(e)
  }

  /** `registryLogout`. */
  function LogoutInvocation(registry: string): (c: Invocation)
    ensures c == ContainerCommand(["registry", "logout", registry])
  {
    ContainerCommand(["registry", "logout", registry])
  }

  // ---------------------------------------------------------------------------
  // DNS
  // ---------------------------------------------------------------------------

  /** `createDns` runs `container s dns create <domain>` with elevated privileges. */
  function CreateDnsInvocation(domain: string): (c: Invocation)
    ensures c == Elevated("container", ["s", "dns", "create", domain])
  {
    Elevated("container", ["s", "dns", "create", domain])
  }

  function CreateDns(domain: string, run: NativeRunner): (r: Output)
    ensures run(CreateDnsInvocation(domain)).Ok? ==> r == ValidateCommandOutput(run(CreateDnsInvocation(domain)).value)
    ensures run(CreateDnsInvocation(domain)).Err? ==> r == NativeError(run(CreateDnsInvocation(domain)).error)
  {
    match run(CreateDnsInvocation(domain))
    case Ok(p) => ValidateCommandOutput(p)
    case Err(e) => NativeError(e)
  }

  /** `getAllDnsConfig`. */
  function ListDnsInvocation(): (c: Invocation)
    ensures c == ContainerCommand(["s", "dns", "ls"])
  {
    ContainerCommand(["s", "dns", "ls"])
  }

  /** A native failure is always reported as an error with empty stdout; a success never carries the native error. */
  lemma {:induction false} NativeFailureIsError(domain: string, o: LoginParams, run: NativeRunner)
    ensures run(CreateDnsInvocation(domain)).Err? ==> CreateDns(domain, run).error && CreateDns(domain, run).stdout == ""
    ensures run(LoginInvocation(o)).Err? ==> RegistryLogin(o, run).error && RegistryLogin(o, run).message.None?
    ensures !RegistryLogin(o, run).error ==> run(LoginInvocation(o)).Ok?
  {
  }

  // ---------------------------------------------------------------------------
  // Default registry and the system service
  // ---------------------------------------------------------------------------

  datatype DefaultRegistryAction = Inspect | Set(registry: string) | Unset(registry: string)

  /**
   * `getDefaultRegistry`, `setDefaultRegistry`, `unsetDefaultRegistry`
   * (`removeDefaultRegistry` and `clearDefaultRegistry` are the same function
   * as unset).
   */
  function DefaultRegistryInvocation(a: DefaultRegistryAction): (c: Invocation)
    ensures c.Create? && c.program == "container" && |c.args| >= 3 && c.args[..2] == ["registry", "default"]
    ensures a == Inspect ==> c.args == ["registry", "default", "inspect"]
    ensures a.Set? ==> c.args == ["registry", "default", "set", a.registry]
    ensures a.Unset? ==> c.args == ["registry", "default", "unset", a.registry]
  {
    match a
    case Inspect => Create("container", ["registry", "default", "inspect"])
    case Set(r) => Create("container", ["registry", "default", "set", r])
    case Unset(r) => Create("container", ["registry", "default", "unset", r])
  }

  datatype ServiceAction = StartService | StopService | ServiceStatus

  /** `startContainerization`, `stopContainerization`, `containerizationStatus`: `container s start|stop|status`. */
  function ServiceInvocation(a: ServiceAction): (c: Invocation)
    ensures c.Create? && c.program == "container" && |c.args| == 2 && c.args[0] == "s"
    ensures c.args[1] == (match a case StartService => "start" case StopService => "stop" case ServiceStatus => "status")
  {
    Create("container", ["s", match a case StartService => "start" case StopService => "stop" case ServiceStatus => "status"])
  }

  /** Every plain command's result is the validated output of running it. */
  function RunPlain(c: Invocation, run: Runner): (r: Output)
    ensures r.stdout == run(c).stdout && r.stderr == run(c).stderr
    ensures !r.error <==> run(c).code.Some? && run(c).stdout != ""
  {
    ValidateCommandOutput(run(c))
  }
}
