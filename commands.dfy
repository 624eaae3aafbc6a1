/**
 * The argument vectors the agent hands to the compose program, one per
 * operation. Each is the configured compose command split on whitespace,
 * then the operation's words, then literal flags chosen by the request's
 * booleans, in a fixed order. No value from the request is ever copied
 * into the vector.
 */
module Commands {
  import opened Wrappers
  import opened Text

  /** `compose_command` when the configuration does not set one. */
  const DefaultComposeCommand: string := "docker compose"

  /** The body of an "up" request; an absent field takes its default. */
  datatype UpOptions = UpOptions(detached: Option<bool>, build: Option<bool>, forceRecreate: Option<bool>)

  /** The body of a "down" request; an absent field takes its default. */
  datatype DownOptions = DownOptions(volumes: Option<bool>, removeOrphans: Option<bool>)

  const EmptyUpOptions := UpOptions(None, None, None)
  const EmptyDownOptions := DownOptions(None, None)

  predicate Detached(o: UpOptions) { o.detached.GetOr(true) }
  predicate Build(o: UpOptions) { o.build.GetOr(false) }
  predicate ForceRecreate(o: UpOptions) { o.forceRecreate.GetOr(false) }
  predicate Volumes(o: DownOptions) { o.volumes.GetOr(false) }
  predicate RemoveOrphans(o: DownOptions) { o.removeOrphans.GetOr(true) }

  function Optional(on: bool, flag: string): seq<string> {
    if on then [flag] else []
  }

  /** The flags of an "up" request: "-d", "--build", "--force-recreate", each when selected. */
  function UpFlags(o: UpOptions): seq<string> {
    Optional(Detached(o), "-d") + Optional(Build(o), "--build") + Optional(ForceRecreate(o), "--force-recreate")
  }

  /** The flags of a "down" request: "--volumes", "--remove-orphans", each when selected. */
  function DownFlags(o: DownOptions): seq<string> {
    Optional(Volumes(o), "--volumes") + Optional(RemoveOrphans(o), "--remove-orphans")
  }

  /** The "up" vector: the split compose command, "up", then the selected flags. */
  function UpCommand(composeCommand: string, o: UpOptions): seq<string> {
    Split(composeCommand) + ["up"] + UpFlags(o)
  }

  /** The "down" vector: the split compose command, "down", then the selected flags. */
  function DownCommand(composeCommand: string, o: DownOptions): seq<string> {
    Split(composeCommand) + ["down"] + DownFlags(o)
  }

  /** The "status" vector: prefix, then `ps --format json`; no request field affects it. */
  function StatusCommand(composeCommand: string): seq<string> {
    Split(composeCommand) + ["ps", "--format", "json"]
  }

  /** `a` is `b` with some elements left out, the rest kept in order. */
  predicate IsSubsequence(a: seq<string>, b: seq<string>)
    decreases |b|
  {
    if a == [] then true
    else if b == [] then false
    else if a[0] == b[0] then IsSubsequence(a[1..], b[1..])
    else IsSubsequence(a, b[1..])
  }

  /** Builds the "up" vector step by step, as the handler does with its list `cmd`. */
  method BuildUp(composeCommand: string, o: UpOptions) returns (cmd: seq<string>)
    ensures cmd == UpCommand(composeCommand, o)
  {
    cmd := Split(composeCommand);
    cmd := cmd + ["up"];
    if o.detached.GetOr(true) {
      cmd := cmd + ["-d"];
    }
    if o.build.GetOr(false) {
      cmd := cmd + ["--build"];
    }
    if o.forceRecreate.GetOr(false) {
      cmd := cmd + ["--force-recreate"];
    }
  }

  /** Builds the "down" vector step by step. */
  method BuildDown(composeCommand: string, o: DownOptions) returns (cmd: seq<string>)
    ensures cmd == DownCommand(composeCommand, o)
  {
    cmd := Split(composeCommand);
    cmd := cmd + ["down"];
    if o.volumes.GetOr(false) {
      cmd := cmd + ["--volumes"];
    }
    if o.removeOrphans.GetOr(true) {
      cmd := cmd + ["--remove-orphans"];
    }
  }

  /** Builds the "status" vector. */
  method BuildStatus(composeCommand: string) returns (cmd: seq<string>)
    ensures cmd == StatusCommand(composeCommand)
  {
    cmd := Split(composeCommand);
    cmd := cmd + ["ps", "--format", "json"];
  }

  /** Exactly the selected "up" flags, in the fixed order, each at most once. */
  lemma UpFlagsSelected(o: UpOptions)
    ensures "-d" in UpFlags(o) <==> Detached(o)
    ensures "--build" in UpFlags(o) <==> Build(o)
    ensures "--force-recreate" in UpFlags(o) <==> ForceRecreate(o)
    ensures IsSubsequence(UpFlags(o), ["-d", "--build", "--force-recreate"])
  {
    var all := ["-d", "--build", "--force-recreate"];
    var rest := Optional(Build(o), "--build") + Optional(ForceRecreate(o), "--force-recreate");
    var last := Optional(ForceRecreate(o), "--force-recreate");
    assert IsSubsequence(last, all[2..]);
    assert IsSubsequence(last, all[1..]);
    assert IsSubsequence(rest, all[1..]);
    assert IsSubsequence(rest, all);
    assert UpFlags(o) == Optional(Detached(o), "-d") + rest;
  }

  /** Exactly the selected "down" flags, in the fixed order, each at most once. */
  lemma DownFlagsSelected(o: DownOptions)
    ensures "--volumes" in DownFlags(o) <==> Volumes(o)
    ensures "--remove-orphans" in DownFlags(o) <==> RemoveOrphans(o)
    ensures IsSubsequence(DownFlags(o), ["--volumes", "--remove-orphans"])
  {
    var all := ["--volumes", "--remove-orphans"];
    var last := Optional(RemoveOrphans(o), "--remove-orphans");
    assert IsSubsequence(last, all[1..]);
    assert IsSubsequence(last, all);
  }

  /**
   * The "up" vector is the split compose command, then "up", then exactly
   * the selected flags among "-d", "--build", "--force-recreate", in that
   * order and each at most once; nothing else, so no request value.
   */
  lemma UpCommandShape(composeCommand: string, o: UpOptions)
    ensures var prefix := Split(composeCommand);
      var r := UpCommand(composeCommand, o);
      |r| > |prefix| && r[..|prefix|] == prefix && r[|prefix|] == "up" &&
      var flags := r[|prefix| + 1..];
      && ("-d" in flags <==> Detached(o))
      && ("--build" in flags <==> Build(o))
      && ("--force-recreate" in flags <==> ForceRecreate(o))
      && IsSubsequence(flags, ["-d", "--build", "--force-recreate"])
  {
    var prefix := Split(composeCommand);
    assert (prefix + ["up"] + UpFlags(o))[..|prefix|] == prefix;
    assert (prefix + ["up"] + UpFlags(o))[|prefix| + 1..] == UpFlags(o);
    UpFlagsSelected(o);
  }

  /**
   * The "down" vector is the split compose command, then "down", then exactly
   * the selected flags among "--volumes", "--remove-orphans", in that order.
   */
  lemma DownCommandShape(composeCommand: string, o: DownOptions)
    ensures var prefix := Split(composeCommand);
      var r := DownCommand(composeCommand, o);
      |r| > |prefix| && r[..|prefix|] == prefix && r[|prefix|] == "down" &&
      var flags := r[|prefix| + 1..];
      && ("--volumes" in flags <==> Volumes(o))
      && ("--remove-orphans" in flags <==> RemoveOrphans(o))
      && IsSubsequence(flags, ["--volumes", "--remove-orphans"])
  {
    var prefix := Split(composeCommand);
    assert (prefix + ["down"] + DownFlags(o))[..|prefix|] == prefix;
    assert (prefix + ["down"] + DownFlags(o))[|prefix| + 1..] == DownFlags(o);
    DownFlagsSelected(o);
  }

  /** An empty body: "up" detaches and nothing else; "down" removes orphans and keeps volumes. */
  lemma DefaultFlags(composeCommand: string)
    ensures UpCommand(composeCommand, EmptyUpOptions) == Split(composeCommand) + ["up", "-d"]
    ensures DownCommand(composeCommand, EmptyDownOptions) == Split(composeCommand) + ["down", "--remove-orphans"]
  {
  }

  /** The words the builders append after the compose command are whitespace-free and non-empty. */
  lemma OperationWords(up: UpOptions, down: DownOptions)
    ensures AllWords(["up"] + UpFlags(up))
    ensures AllWords(["down"] + DownFlags(down))
    ensures AllWords(["ps", "--format", "json"])
  {
    UpWords();
    DownWords();
    StatusWords();
  }

  lemma UpWords()
    ensures IsWord("up") && IsWord("-d") && IsWord("--build") && IsWord("--force-recreate")
  {
    assert IsWord("up") && IsWord("-d");
    assert IsWord("--build");
    assert IsWord("--force-recreate");
  }

  lemma DownWords()
    ensures IsWord("down") && IsWord("--volumes") && IsWord("--remove-orphans")
  {
    assert IsWord("down") && IsWord("--volumes");
    assert IsWord("--remove-orphans");
  }

  lemma StatusWords()
    ensures IsWord("ps") && IsWord("--format") && IsWord("json")
  {
    assert IsWord("ps") && IsWord("--format") && IsWord("json");
  }

  /** Every element of every vector is a whitespace-free non-empty word. */
  lemma CommandsAreWords(composeCommand: string, up: UpOptions, down: DownOptions)
    ensures AllWords(UpCommand(composeCommand, up))
    ensures AllWords(DownCommand(composeCommand, down))
    ensures AllWords(StatusCommand(composeCommand))
  {
    OperationWords(up, down);
    var prefix := Split(composeCommand);
    assert UpCommand(composeCommand, up) == prefix + (["up"] + UpFlags(up));
    AllWordsAppend(prefix, ["up"] + UpFlags(up));
    assert DownCommand(composeCommand, down) == prefix + (["down"] + DownFlags(down));
    AllWordsAppend(prefix, ["down"] + DownFlags(down));
    AllWordsAppend(prefix, ["ps", "--format", "json"]);
  }

  /**
   * The `command` string the agent reports (the vector joined with single
   * spaces) splits back into exactly the vector that was run.
   */
  lemma {:induction false} ReportedCommandRoundTrip(composeCommand: string, up: UpOptions, down: DownOptions)
    ensures Split(Join(UpCommand(composeCommand, up))) == UpCommand(composeCommand, up)
    ensures Split(Join(DownCommand(composeCommand, down))) == DownCommand(composeCommand, down)
    ensures Split(Join(StatusCommand(composeCommand))) == StatusCommand(composeCommand)
  {
    CommandsAreWords(composeCommand, up, down);
    SplitJoin(UpCommand(composeCommand, up));
    SplitJoin(DownCommand(composeCommand, down));
    SplitJoin(StatusCommand(composeCommand));
  }

  lemma SplitDockerCompose()
    ensures Split(DefaultComposeCommand) == ["docker", "compose"]
  {
    assert IsWord("docker") && IsWord("compose") && AllSpace(" ");
    SplitTwo("docker", " ", "compose");
    assert "docker" + " " + "compose" == DefaultComposeCommand;
  }

  /** The three vectors once the compose command splits into "docker" and "compose". */
  lemma DockerComposeCommands(composeCommand: string)
    requires Split(composeCommand) == ["docker", "compose"]
    ensures UpCommand(composeCommand, UpOptions(Some(true), Some(false), Some(false))) == ["docker", "compose", "up", "-d"]
    ensures DownCommand(composeCommand, DownOptions(Some(false), Some(true))) == ["docker", "compose", "down", "--remove-orphans"]
    ensures StatusCommand(composeCommand) == ["docker", "compose", "ps", "--format", "json"]
  {
  }

  /**
   * test_agent.py: with the default compose command, "up" with detached on and
   * the rest off, "down" with volumes off and remove_orphans on, and "status".
   */
  lemma DefaultCommandScenarios()
    ensures UpCommand(DefaultComposeCommand, UpOptions(Some(true), Some(false), Some(false)))
      == ["docker", "compose", "up", "-d"]
    ensures DownCommand(DefaultComposeCommand, DownOptions(Some(false), Some(true)))
      == ["docker", "compose", "down", "--remove-orphans"]
    ensures StatusCommand(DefaultComposeCommand) == ["docker", "compose", "ps", "--format", "json"]
  {
    SplitDockerCompose();
    DockerComposeCommands(DefaultComposeCommand);
  }
}
