# Local Docker Compose agent — a Dafny model

The agent is a small HTTP service. It lets an authenticated remote caller run
`docker compose up`, `docker compose down` and `docker compose ps` in a
configured directory on the local machine. This project models the decision
logic of `agent.py` and proves properties of it:

- **Bearer-token check** (`require_auth`). The `Authorization` header is split
  on whitespace the way Python's `str.split()` does it. It must consist of a
  `bearer` scheme in any letter case and exactly one token. That token must
  equal the configured one. Five outcomes are possible: missing header,
  malformed header, server without a token, wrong token, accepted.
- **Argument vectors.** Each operation builds the vector the compose program is
  run with: the configured compose command (default `docker compose`) split on
  whitespace, then the operation word, then fixed flags chosen by the request
  body's booleans, in a fixed order.
- **Request handling.** The health probe needs no credentials. For the three
  compose routes the order is: authentication, then reading the body, then the
  working-directory checks, then the run. The run's exit code, output and error
  output become the JSON report. A timeout or an error becomes `{error}` with
  status 500.

Modules:

- `Wrappers`: `Option`.
- `Text`: `str.split()`, `' '.join` and the ASCII case folding.
  - `SplitCharacterization` characterises `Split` completely: a string splits
    into `words` exactly when it is those words separated by whitespace gaps,
    the inner gaps non-empty.
- `Auth`: `require_auth`. Its outcomes are proved against the declarative
  predicates `PresentsToken` and `WellFormed`.
- `Commands`: the vectors. They are given as specification functions, plus
  step-by-step builder methods proved equal to them.
- `Gateway`: the routes, and `Dispatch`, `Complete` and `Handle`.
  - `Dispatch` settles everything up to the point where the compose program
    would run.
  - The program's outcome and the existence of the working directory are
    parameters. They are never computed.

Only "up" checks that the working directory exists (`agent.py:122-124`);
"down" and "status" check only that one is configured (`agent.py:195-197`,
`agent.py:255-257`). The model follows the code
(`Gateway.OnlyUpChecksDirectoryExists`).

A request body that is JSON but not an object (`[1]`, `"x"`, `5`) is read
without error; the handler fails only at its first `.get` (`agent.py:131`,
`agent.py:204`), after the working-directory checks. The model keeps that
order (`Gateway.Payload`, `Gateway.WorkingDirectoryChecks`).

## Model

| member | source | states |
|---|---|---|
| Text.IsSpace | agent.py:66 | the characters Python's `str.isspace()` accepts, on which `split()` separates; `Text.SplitCharacterization` states the split in terms of it |
| Text.Join | agent.py:153 | `' '.join(words)`; `Text.SplitJoin` proves that splitting it gives the words back |
| Text.LowerChar | agent.py:67 | lower-cases one ASCII letter and keeps any other character; `Text.LowerIsBearer` states its use |
| Text.Lower | agent.py:67 | `str.lower()` on the scheme, character by character; `Text.LowerIsBearer` characterises when it gives `bearer` |
| Text.Split | agent.py:66 | every piece of `header.split()` is non-empty and free of whitespace |
| Text.WordLength | agent.py:66 | the first piece of a split ends at the first whitespace character or at the end of the string |
| Text.SplitCharacterization | agent.py:66 | `s.split() == words` exactly when `s` is the words separated by whitespace-only gaps, the inner gaps non-empty (both directions) |
| Text.SplitInterleave | agent.py:66 | words joined by valid whitespace gaps split back into exactly those words |
| Text.Gaps | agent.py:66 | every string is its split words interleaved with whitespace gaps, which are non-empty between two words |
| Text.SplitSkipsSpace | agent.py:66 | leading whitespace does not change the split |
| Text.SplitJoin | agent.py:153 | `' '.join(words).split() == words` when every word is whitespace-free and non-empty |
| Text.LowerIsBearer | agent.py:67 | `s.lower() == 'bearer'` exactly when `s` spells bearer with each letter in either case |
| Auth.Authenticate | agent.py:55-83 | the outcome is missing exactly for a blank header; an accepted header splits into two words, the second being the configured non-empty token; `Auth.MissingHeader`, `Auth.MalformedHeader`, `Auth.MisconfiguredServer` and `Auth.TokenGate` characterise every outcome in both directions |
| Auth.Reject | agent.py:61-80 | the rejection for a server without a token has status 500, and every other rejection has status 401 |
| Auth.PresentsTokenIff | agent.py:66-78 | the header splits into a bearer scheme and then `token` exactly when it is optional whitespace, the scheme, whitespace, the token, optional whitespace |
| Auth.WellFormedIff | agent.py:66-69 | the format test passes exactly when the header presents some token |
| Auth.MissingHeader | agent.py:59-63 | an absent or empty header, and only that, is reported as missing (401), whatever the configuration |
| Auth.MalformedHeader | agent.py:65-69 | a present header is malformed exactly when it does not present a token, whatever the configuration |
| Auth.MisconfiguredServer | agent.py:71-76 | a well-formed header meets a server without a token, or with an empty one, exactly when the outcome is a 500 server fault |
| Auth.TokenGate | agent.py:71-83 | the handler runs exactly when the header presents the configured token; a well-formed header with a different token is invalid |
| Auth.NoHeaderExample | test_agent.py:64-71 | a request without a header, or with an empty one, is missing |
| Auth.SingleWordExample | test_agent.py:74-84 | a one-word header such as `InvalidFormat` is malformed |
| Auth.BearerTokenExamples | test_agent.py:87-123 | `Bearer <token>` is accepted with that token configured and invalid with another; with no token, or an empty one, it is a server fault |
| Auth.IrregularSpacingExample | agent.py:66-67 | the scheme may be in any case and be followed by any run of whitespace |
| Auth.ThirdWordExample | agent.py:67 | a header with a third word is malformed |
| Commands.UpFlags | agent.py:131-138 | the "up" flags chosen by the body; `Commands.UpFlagsSelected` proves which appear and in what order |
| Commands.DownFlags | agent.py:204-208 | the "down" flags chosen by the body; `Commands.DownFlagsSelected` proves which appear and in what order |
| Commands.UpCommand | agent.py:127-138 | the "up" vector; `Commands.UpCommandShape` gives its shape and `Commands.BuildUp` is proved equal to it |
| Commands.DownCommand | agent.py:200-208 | the "down" vector; `Commands.DownCommandShape` gives its shape and `Commands.BuildDown` is proved equal to it |
| Commands.StatusCommand | agent.py:260-261 | the "status" vector, which no request field affects; `Commands.BuildStatus` is proved equal to it |
| Commands.BuildUp | agent.py:127-138 | the vector built step by step is the split compose command, `up`, then the selected flags |
| Commands.BuildDown | agent.py:200-208 | the vector built step by step is the split compose command, `down`, then the selected flags |
| Commands.BuildStatus | agent.py:260-261 | the vector built is the split compose command, then `ps --format json` |
| Commands.UpFlagsSelected | agent.py:131-138 | `-d`, `--build` and `--force-recreate` each appear exactly when selected, with defaults on, off and off, in that order |
| Commands.DownFlagsSelected | agent.py:204-208 | `--volumes` and `--remove-orphans` each appear exactly when selected, with defaults off and on, in that order |
| Commands.UpCommandShape | agent.py:127-138 | the "up" vector is the split compose command, `up`, and exactly the selected flags in order, with nothing from the request copied |
| Commands.DownCommandShape | agent.py:200-208 | the "down" vector is the split compose command, `down`, and exactly the selected flags in order |
| Commands.DefaultFlags | agent.py:111 | an empty body gives `up -d` and `down --remove-orphans` |
| Commands.CommandsAreWords | agent.py:127-138 | every element of every vector is a non-empty whitespace-free word |
| Commands.ReportedCommandRoundTrip | agent.py:153 | the reported `command` string splits back into exactly the vector that ran |
| Commands.SplitDockerCompose | agent.py:116 | the default compose command splits into `docker` and `compose` |
| Commands.DefaultCommandScenarios | test_agent.py:126-226 | with the default compose command the vectors are `docker compose up -d`, `docker compose down --remove-orphans` and `docker compose ps --format json` |
| Gateway.HealthCheck | agent.py:88-94 | the probe's 200 `healthy` response; `Gateway.HealthIsUnauthenticated` proves it needs no credentials |
| Gateway.Denied | agent.py:61-80 | a rejection is an error body, with 401 exactly for the caller's credentials and 500 exactly for a server without a token |
| Gateway.Prepare | agent.py:110-148 | a compose handler after authentication: body, working-directory checks, then the invocation; `Gateway.WorkingDirectoryChecks` and `Gateway.ExecutorConsulted` state its cases |
| Gateway.Dispatch | agent.py:88-148 | everything decided before the program runs; `Gateway.ExecutorConsulted` proves it runs the program exactly when every check passes |
| Gateway.Complete | agent.py:151-172 | the response built from how the run ended; `Gateway.ExitReported` and `Gateway.ExecutionErrorsReported` state it |
| Gateway.Handle | agent.py:88-295 | the response to a request; `Gateway.FailuresAreVisible`, `Gateway.AuthGuardsComposeRoutes` and `Gateway.RejectionsIgnoreExecutor` state its properties |
| Gateway.HealthIsUnauthenticated | agent.py:88-94 | the health probe answers 200 `healthy` whatever the credentials and configuration |
| Gateway.AuthGuardsComposeRoutes | agent.py:97-99 | a compose route without valid credentials returns the authenticator's rejection and runs nothing; a 401 comes only from the credentials |
| Gateway.WorkingDirectoryChecks | agent.py:110-138 | after authentication, in this order: a body whose reading raises is a 500 with its message; an unset directory is 500 "not configured"; for "up" a missing directory is 500 "does not exist"; a body that is not a JSON object is a 500 with the `AttributeError` message, only after those checks |
| Gateway.OnlyUpChecksDirectoryExists | agent.py:187-197 | "down" and "status" make no existence check: for the same run outcome their answer does not depend on whether the directory exists; a missing directory reaches the caller only as the executor's failure |
| Gateway.ExecutorConsulted | agent.py:143-149 | the program runs exactly when all checks pass, with the operation's vector, the working directory, and timeouts of 300, 300 and 30 seconds |
| Gateway.RejectionsIgnoreExecutor | agent.py:118-124 | a reply settled before the run does not depend on the program's outcome |
| Gateway.ExitReported | agent.py:151-165 | an exit is reported as success with status 200 exactly when the code is 0; code, output, error output, directory and joined command are copied |
| Gateway.ExecutionErrorsReported | agent.py:167-172 | a timeout is 500 "Command execution timed out"; another error is 500 with its message |
| Gateway.ReportedCommandIsArgv | agent.py:151-158 | the `command` in a report splits back into the vector that was run |
| Gateway.FailuresAreVisible | agent.py:88-172 | every response is 200, 401 or 500; a 200 is the health probe or a successful run; anything else carries an error or `success: false` |
| Gateway.TestConfigIsTestLike | test_agent.py:24-43 | the test configuration has a one-word token, a working directory, and a compose command splitting into `docker compose` |
| Gateway.UpSucceedsScenario | test_agent.py:100-160 | an authenticated "up" with only `detached` on and exit code 0 is 200, `success: true`, with `command` `docker compose up -d` |
| Gateway.UpFailsScenario | test_agent.py:228-250 | the same "up" with exit code 1 is 500, `success: false`, `return_code` 1, with the error output |
| Gateway.RefusedScenarios | test_agent.py:64-97 | "up" with no header, a one-word header, or the wrong token is 401 with the matching error message |
| Gateway.DownSucceedsScenario | test_agent.py:163-196 | an authenticated "down" with volumes off and remove_orphans on, exiting 0, reports `docker compose down --remove-orphans` with 200 |
| Gateway.StatusSucceedsScenario | test_agent.py:198-226 | an authenticated "status" exiting 0 reports `docker compose ps --format json` with 200 |

## Left out

- Flask routing, request parsing and JSON serialisation are not modelled; a route and its body are inputs. A body is one of three cases: options read from a JSON object, a JSON value that is not an object, or a body whose reading raises. Each failure carries the exception's message, which the handlers' `except Exception` turns into the 500 `{error}` response.
- Logging (`logger.*` calls and the log-level setting) is not modelled; it has no effect on responses.
- `load_config` (reading YAML, `sys.exit` on a missing or broken file) is not modelled. The configuration is a record whose string fields are optional.
- Non-string configuration values are not modelled, for example a `compose_command: null` that makes `.split()` raise.
- `Path(working_dir).exists()` is not modelled; its answer is a parameter. The run's outcome is a separate parameter, so a "down" or "status" in a missing directory fails only if that outcome says so.
- `subprocess.run` is not modelled. How a run ends (exit with code and output, timeout, or an error with a message) is a parameter; no process is started.
- `main`, `app.run` and the server settings are not modelled.
- `ec2_integration_example.py` is a client of the API and is not part of this model.
- Concurrent requests are not modelled; each request is handled on its own.
- Text.Lower: folds only ASCII letters. Python's `str.lower()` also folds other letters, but none of them lowers to a letter of `bearer`, so the comparison with `'bearer'` comes out the same.
- Commands.UpFlagsSelected: the body's fields are modelled as booleans, so Python truthiness of other JSON values (`"detached": 0`, `"build": "yes"`) is not modelled. Neither is a body that is JSON `null` or empty, which `or {}` turns into the defaults; that is the same as an empty body here.
