/**
 * The HTTP routes of the agent and what each request comes to: the health
 * probe, then for the three compose routes the pipeline authentication →
 * working-directory checks → argument vector → execution → response.
 *
 * Running the compose program, and asking the file system whether the
 * working directory exists, are not modelled: their results are inputs.
 * `Dispatch` settles everything that happens before the program runs; the
 * executor's outcome is consulted only when it returns `Run`.
 */
module Gateway {
  import opened Wrappers
  import opened Text
  import opened Auth
  import opened Commands

  /** The settings the handlers read; a field is `None` when the configuration file leaves it out. */
  datatype Config = Config(authToken: Option<string>, workingDirectory: Option<string>, composeCommand: Option<string>)

  function ComposeCommandOf(cfg: Config): string {
    cfg.composeCommand.GetOr(DefaultComposeCommand)
  }

  /**
   * The body of an "up" or "down" request as the handler meets it:
   * - `Parsed`: the options of a JSON object; an absent body, or a falsy
   *   JSON value, reads as the empty object `{}`;
   * - `NotAnObject`: a truthy JSON value that is not an object. Reading it
   *   succeeds; the handler fails only at its first `.get`, with the message
   *   of the `AttributeError` raised there;
   * - `Unreadable`: reading the body raises, with that exception's message.
   */
  datatype Payload<T> = Parsed(options: T) | NotAnObject(attributeError: string) | Unreadable(readError: string)

  /** The route a request reaches; "status" and the health probe read no body. */
  datatype Route =
    | Health
    | ComposeUp(upBody: Payload<UpOptions>)
    | ComposeDown(downBody: Payload<DownOptions>)
    | ComposeStatus

  datatype Request = Request(route: Route, authorization: Option<string>)

  datatype Body =
    | Healthy(status: string, message: string)
    | Error(error: string)
    | Report(success: bool, command: string, workingDirectory: string, stdout: string, stderr: string, returnCode: int)

  datatype Response = Response(status: int, body: Body)

  /** What the executor is asked to run: the argument vector, its working directory and its timeout in seconds. */
  datatype Invocation = Invocation(argv: seq<string>, cwd: string, timeout: nat)

  /** How running the compose program ended: it exited, it ran past its timeout, or it could not be run. */
  datatype ExecOutcome = Exited(code: int, stdout: string, stderr: string) | TimedOut | Failed(message: string)

  /** Either the response is settled before anything runs, or the invocation the executor performs. */
  datatype Step = Reply(response: Response) | Run(invocation: Invocation)

  const UpTimeout: nat := 300
  const DownTimeout: nat := 300
  const StatusTimeout: nat := 30

  const NotConfigured: Response := Response(500, Error("Docker working directory not configured"))
  const TimeoutResponse: Response := Response(500, Error("Command execution timed out"))

  /** The liveness probe; it needs no credentials. */
  function HealthCheck(): Response {
    Response(200, Healthy("healthy", "Local Docker Compose Agent is running"))
  }

  /** The rejection as an HTTP response: an error body, 401 for the caller's credentials, 500 for the server's configuration. */
  function Denied(outcome: Outcome): (r: Response)
    requires outcome != Valid
    ensures r.body.Error?
    ensures r.status == 401 <==> outcome != ServerMisconfigured
    ensures r.status == 500 <==> outcome == ServerMisconfigured
  {
    Response(Reject(outcome).status, Error(Reject(outcome).message))
  }

  /** Reading the body did not raise (always so for the routes that read none). */
  predicate BodyReadable(route: Route) {
    match route
    case ComposeUp(body) => !body.Unreadable?
    case ComposeDown(body) => !body.Unreadable?
    case _ => true
  }

  /** The body was read and is a JSON object (always so for the routes that read none). */
  predicate BodyIsObject(route: Route) {
    match route
    case ComposeUp(body) => body.Parsed?
    case ComposeDown(body) => body.Parsed?
    case _ => true
  }

  /** A compose handler after authentication: reading the body, the working-directory checks, the vector. */
  function Prepare(route: Route, cfg: Config, dirExists: bool): Step
    requires !route.Health?
  {
    var wd := cfg.workingDirectory;
    var cc := ComposeCommandOf(cfg);
    match route
    case ComposeUp(body) =>
      if body.Unreadable? then Reply(Response(500, Error(body.readError)))
      else if Blank(wd) then Reply(NotConfigured)
      else if !dirExists then Reply(Response(500, Error("Working directory does not exist: " + wd.value)))
      else if body.NotAnObject? then Reply(Response(500, Error(body.attributeError)))
      else Run(Invocation(UpCommand(cc, body.options), wd.value, UpTimeout))
    case ComposeDown(body) =>
      if body.Unreadable? then Reply(Response(500, Error(body.readError)))
      else if Blank(wd) then Reply(NotConfigured)
      else if body.NotAnObject? then Reply(Response(500, Error(body.attributeError)))
      else Run(Invocation(DownCommand(cc, body.options), wd.value, DownTimeout))
    case ComposeStatus =>
      if Blank(wd) then Reply(NotConfigured)
      else Run(Invocation(StatusCommand(cc), wd.value, StatusTimeout))
  }

  /** Everything decided before the compose program runs. */
  function Dispatch(req: Request, cfg: Config, dirExists: bool): Step {
    if req.route.Health? then Reply(HealthCheck())
    else
      var outcome := Authenticate(req.authorization, cfg.authToken);
      if outcome != Valid then Reply(Denied(outcome))
      else Prepare(req.route, cfg, dirExists)
  }

  /** The response built from the executor's outcome. */
  function Complete(inv: Invocation, outcome: ExecOutcome): Response {
    match outcome
    case Exited(code, out, err) =>
      Response(if code == 0 then 200 else 500, Report(code == 0, Join(inv.argv), inv.cwd, out, err, code))
    case TimedOut => TimeoutResponse
    case Failed(message) => Response(500, Error(message))
  }

  /** The response to a request, given whether the working directory exists and how the run would end. */
  function Handle(req: Request, cfg: Config, dirExists: bool, outcome: ExecOutcome): Response {
    match Dispatch(req, cfg, dirExists)
    case Reply(r) => r
    case Run(inv) => Complete(inv, outcome)
  }

  /** The health probe answers 200 "healthy" whatever the credentials and configuration. */
  lemma HealthIsUnauthenticated(header: Option<string>, cfg: Config, dirExists: bool, outcome: ExecOutcome)
    ensures var r := Handle(Request(Health, header), cfg, dirExists, outcome);
      r.status == 200 && r.body.Healthy? && r.body.status == "healthy"
  {
  }

  /**
   * Every compose route is guarded: unless the credentials are valid the
   * reply is the authenticator's rejection and nothing runs, and a 401 comes
   * from the caller's credentials and from nothing else.
   */
  lemma AuthGuardsComposeRoutes(req: Request, cfg: Config, dirExists: bool, outcome: ExecOutcome)
    requires !req.route.Health?
    ensures var a := Authenticate(req.authorization, cfg.authToken);
      && (a != Valid ==>
            Dispatch(req, cfg, dirExists).Reply? &&
            Handle(req, cfg, dirExists, outcome) == Response(Reject(a).status, Error(Reject(a).message)))
      && (Dispatch(req, cfg, dirExists).Run? ==> a == Valid)
      && (Handle(req, cfg, dirExists, outcome).status == 401 <==> a == Missing || a == Malformed || a == Invalid)
  {
  }

  /**
   * After authentication, a compose handler fails with 500 before anything
   * runs, in this order: when reading its body raises; when no working
   * directory is configured; for "up" only, when the directory does not
   * exist; and when the body is not a JSON object, which is noticed only
   * after the directory checks.
   */
  lemma WorkingDirectoryChecks(req: Request, cfg: Config, dirExists: bool, outcome: ExecOutcome)
    requires !req.route.Health? && Authenticate(req.authorization, cfg.authToken) == Valid
    ensures req.route.ComposeUp? && req.route.upBody.Unreadable? ==>
      Handle(req, cfg, dirExists, outcome) == Response(500, Error(req.route.upBody.readError))
    ensures req.route.ComposeDown? && req.route.downBody.Unreadable? ==>
      Handle(req, cfg, dirExists, outcome) == Response(500, Error(req.route.downBody.readError))
    ensures BodyReadable(req.route) && Blank(cfg.workingDirectory) ==>
      Handle(req, cfg, dirExists, outcome) == NotConfigured
    ensures req.route.ComposeUp? && BodyReadable(req.route) && !Blank(cfg.workingDirectory) && !dirExists ==>
      Handle(req, cfg, dirExists, outcome) ==
        Response(500, Error("Working directory does not exist: " + cfg.workingDirectory.value))
    ensures req.route.ComposeUp? && req.route.upBody.NotAnObject? && !Blank(cfg.workingDirectory) && dirExists ==>
      Handle(req, cfg, dirExists, outcome) == Response(500, Error(req.route.upBody.attributeError))
    ensures req.route.ComposeDown? && req.route.downBody.NotAnObject? && !Blank(cfg.workingDirectory) ==>
      Handle(req, cfg, dirExists, outcome) == Response(500, Error(req.route.downBody.attributeError))
    ensures !BodyIsObject(req.route) || Blank(cfg.workingDirectory) || (req.route.ComposeUp? && !dirExists) ==>
      Dispatch(req, cfg, dirExists).Reply?
  {
  }

  /** "down" and "status" never look at whether the working directory exists. */
  lemma OnlyUpChecksDirectoryExists(req: Request, cfg: Config, outcome: ExecOutcome)
    requires req.route.ComposeDown? || req.route.ComposeStatus?
    ensures Handle(req, cfg, true, outcome) == Handle(req, cfg, false, outcome)
  {
  }

  /**
   * The executor is consulted exactly when the credentials are valid, the
   * body is a JSON object, a working directory is configured and, for "up", exists;
   * it then runs the operation's vector in that directory with the
   * operation's timeout (300 s for up and down, 30 s for status).
   */
  lemma ExecutorConsulted(req: Request, cfg: Config, dirExists: bool)
    ensures Dispatch(req, cfg, dirExists).Run? <==>
      && !req.route.Health?
      && Authenticate(req.authorization, cfg.authToken) == Valid
      && BodyIsObject(req.route)
      && !Blank(cfg.workingDirectory)
      && (req.route.ComposeUp? ==> dirExists)
    ensures Dispatch(req, cfg, dirExists).Run? ==>
      var inv := Dispatch(req, cfg, dirExists).invocation;
      var cc := ComposeCommandOf(cfg);
      && inv.cwd == cfg.workingDirectory.value
      && (req.route.ComposeUp? ==> inv.argv == UpCommand(cc, req.route.upBody.options) && inv.timeout == 300)
      && (req.route.ComposeDown? ==> inv.argv == DownCommand(cc, req.route.downBody.options) && inv.timeout == 300)
      && (req.route.ComposeStatus? ==> inv.argv == StatusCommand(cc) && inv.timeout == 30)
  {
  }

  /** A settled reply does not depend on the executor: it is never consulted. */
  lemma RejectionsIgnoreExecutor(req: Request, cfg: Config, dirExists: bool, o1: ExecOutcome, o2: ExecOutcome)
    requires Dispatch(req, cfg, dirExists).Reply?
    ensures Handle(req, cfg, dirExists, o1) == Handle(req, cfg, dirExists, o2)
  {
  }

  /**
   * A run that exited is reported as it happened: success and status 200
   * exactly when the exit code is 0, output, error output and code copied
   * unchanged, the working directory, and the vector joined with spaces.
   */
  lemma ExitReported(inv: Invocation, code: int, out: string, err: string)
    ensures var r := Complete(inv, Exited(code, out, err));
      && (r.status == 200 <==> code == 0)
      && (r.status == 500 <==> code != 0)
      && r.body.Report?
      && (r.body.success <==> code == 0)
      && r.body.returnCode == code && r.body.stdout == out && r.body.stderr == err
      && r.body.workingDirectory == inv.cwd
      && r.body.command == Join(inv.argv)
  {
  }

  /** A run past its timeout, or one that could not start, is a 500 with an error message. */
  lemma ExecutionErrorsReported(inv: Invocation, message: string)
    ensures Complete(inv, TimedOut) == Response(500, Error("Command execution timed out"))
    ensures Complete(inv, Failed(message)) == Response(500, Error(message))
  {
  }

  /** The `command` reported for a run splits back into the vector that was run. */
  lemma ReportedCommandIsArgv(req: Request, cfg: Config, dirExists: bool, code: int, out: string, err: string)
    requires Dispatch(req, cfg, dirExists).Run?
    ensures Split(Handle(req, cfg, dirExists, Exited(code, out, err)).body.command)
      == Dispatch(req, cfg, dirExists).invocation.argv
  {
    var inv := Dispatch(req, cfg, dirExists).invocation;
    var cc := ComposeCommandOf(cfg);
    if req.route.ComposeUp? {
      CommandsAreWords(cc, req.route.upBody.options, EmptyDownOptions);
    } else if req.route.ComposeDown? {
      CommandsAreWords(cc, EmptyUpOptions, req.route.downBody.options);
    } else {
      CommandsAreWords(cc, EmptyUpOptions, EmptyDownOptions);
    }
    SplitJoin(inv.argv);
  }

  /**
   * Every response is 200, 401 or 500; a 200 is the health probe or a
   * successful run, and every other response carries an error message or
   * `success: false`.
   */
  lemma FailuresAreVisible(req: Request, cfg: Config, dirExists: bool, outcome: ExecOutcome)
    ensures var r := Handle(req, cfg, dirExists, outcome);
      && (r.status == 200 || r.status == 401 || r.status == 500)
      && (r.status == 200 <==> r.body.Healthy? || (r.body.Report? && r.body.success))
      && (r.status != 200 ==> r.body.Error? || (r.body.Report? && !r.body.success))
  {
  }

  /**
   * A configuration of the shape test_agent.py uses: a token that is a single
   * word, a working directory, and a compose command splitting into "docker compose".
   */
  predicate TestLike(cfg: Config, token: string, wd: string) {
    && IsWord(token) && cfg.authToken == Some(token)
    && cfg.workingDirectory == Some(wd) && wd != ""
    && Split(ComposeCommandOf(cfg)) == ["docker", "compose"]
  }

  /** The configuration test_agent.py loads. */
  const TestConfig := Config(Some("test-token-123"), Some("/tmp/test-docker"), Some("docker compose"))

  lemma TestConfigIsTestLike()
    ensures TestLike(TestConfig, "test-token-123", "/tmp/test-docker")
  {
    assert IsWord("test-token-123");
    SplitDockerCompose();
  }

  lemma JoinFour(a: string, b: string, c: string, d: string)
    ensures Join([a, b, c, d]) == a + " " + (b + " " + (c + " " + d))
  {
    assert [c, d][1..] == [d];
    assert Join([c, d]) == c + " " + d;
    assert [b, c, d][1..] == [c, d];
    assert Join([b, c, d]) == b + " " + Join([c, d]);
    assert [a, b, c, d][1..] == [b, c, d];
  }

  lemma JoinFive(a: string, b: string, c: string, d: string, e: string)
    ensures Join([a, b, c, d, e]) == a + " " + (b + " " + (c + " " + (d + " " + e)))
  {
    JoinFour(b, c, d, e);
    assert [a, b, c, d, e][1..] == [b, c, d, e];
  }

  lemma JoinUpScenario()
    ensures Join(["docker", "compose", "up", "-d"]) == "docker compose up -d"
  {
    JoinFour("docker", "compose", "up", "-d");
  }

  lemma JoinDownScenario()
    ensures Join(["docker", "compose", "down", "--remove-orphans"]) == "docker compose down --remove-orphans"
  {
    JoinFour("docker", "compose", "down", "--remove-orphans");
  }

  lemma JoinStatusScenario()
    ensures Join(["docker", "compose", "ps", "--format", "json"]) == "docker compose ps --format json"
  {
    JoinFive("docker", "compose", "ps", "--format", "json");
  }

  /** The vector of an "up" whose body leaves only "detached" on, under a compose command splitting into "docker compose". */
  lemma DetachedOnlyUp(cfg: Config, body: UpOptions)
    requires Split(ComposeCommandOf(cfg)) == ["docker", "compose"]
    requires Detached(body) && !Build(body) && !ForceRecreate(body)
    ensures UpCommand(ComposeCommandOf(cfg), body) == ["docker", "compose", "up", "-d"]
  {
    assert UpFlags(body) == ["-d"];
  }

  /**
   * test_agent.py: a successful "up" whose body turns on "detached" and leaves
   * "build" and "force_recreate" off or absent reports `docker compose up -d`.
   */
  lemma UpSucceedsScenario(cfg: Config, token: string, wd: string, body: UpOptions, out: string)
    requires TestLike(cfg, token, wd)
    requires Detached(body) && !Build(body) && !ForceRecreate(body)
    ensures Handle(Request(ComposeUp(Parsed(body)), Some("Bearer " + token)), cfg, true, Exited(0, out, ""))
      == Response(200, Report(true, "docker compose up -d", wd, out, "", 0))
  {
    BearerTokenExamples(token, "");
    DetachedOnlyUp(cfg, body);
    JoinUpScenario();
  }

  /** test_agent.py: an "up" whose program exits with code 1 is a 500 with `success: false` and the error output. */
  lemma UpFailsScenario(cfg: Config, token: string, wd: string, body: UpOptions, err: string)
    requires TestLike(cfg, token, wd)
    requires Detached(body) && !Build(body) && !ForceRecreate(body)
    ensures Handle(Request(ComposeUp(Parsed(body)), Some("Bearer " + token)), cfg, true, Exited(1, "", err))
      == Response(500, Report(false, "docker compose up -d", wd, "", err, 1))
  {
    BearerTokenExamples(token, "");
    DetachedOnlyUp(cfg, body);
    JoinUpScenario();
  }

  /** test_agent.py: "up" without a header, with a one-word header, and with the wrong token, is refused with 401. */
  lemma RefusedScenarios(cfg: Config, token: string, wd: string, word: string, wrong: string,
                         body: Payload<UpOptions>, dirExists: bool, outcome: ExecOutcome)
    requires TestLike(cfg, token, wd) && IsWord(word) && IsWord(wrong) && wrong != token
    ensures Handle(Request(ComposeUp(body), None), cfg, dirExists, outcome)
      == Response(401, Error("Missing authorization header"))
    ensures Handle(Request(ComposeUp(body), Some(word)), cfg, dirExists, outcome)
      == Response(401, Error("Invalid authorization format. Use: Bearer <token>"))
    ensures Handle(Request(ComposeUp(body), Some("Bearer " + wrong)), cfg, dirExists, outcome)
      == Response(401, Error("Invalid authorization token"))
  {
    SingleWordExample(word, cfg.authToken);
    BearerTokenExamples(wrong, token);
  }

  /** test_agent.py: a successful "down" with volumes off and remove_orphans on. */
  lemma DownSucceedsScenario(cfg: Config, token: string, wd: string, out: string)
    requires TestLike(cfg, token, wd)
    ensures Handle(Request(ComposeDown(Parsed(DownOptions(Some(false), Some(true)))), Some("Bearer " + token)),
                   cfg, true, Exited(0, out, ""))
      == Response(200, Report(true, "docker compose down --remove-orphans", wd, out, "", 0))
  {
    BearerTokenExamples(token, "");
    DockerComposeCommands(ComposeCommandOf(cfg));
    JoinDownScenario();
  }

  /** test_agent.py: a successful "status" runs `docker compose ps --format json`. */
  lemma StatusSucceedsScenario(cfg: Config, token: string, wd: string, out: string)
    requires TestLike(cfg, token, wd)
    ensures Handle(Request(ComposeStatus, Some("Bearer " + token)), cfg, true, Exited(0, out, ""))
      == Response(200, Report(true, "docker compose ps --format json", wd, out, "", 0))
  {
    BearerTokenExamples(token, "");
    DockerComposeCommands(ComposeCommandOf(cfg));
    JoinStatusScenario();
  }
}
