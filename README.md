# grizzly launcher: start-up validation and port-retry lifecycle

This project models the command-line launcher of grizzly (`bin/grizzly.js`). Grizzly is a local HTTPS development proxy. It serves files from a document root, answers some requests from a stub, and forwards the rest to a backend host. The launcher contains two pieces of decision logic, and the model covers both.

- **Start-up validation** (module `Startup`, file `startup.dfy`). `Startup.Validate` maps the parsed flags and a filesystem predicate `onDisk` to one of three outcomes:
  - `Help`: print usage and exit 0.
  - `Err(failure)`: the first failing rule, which exits 1.
  - `Ok(options)`: the options record handed to the engine, with the parser defaults applied. The port defaults to 8443 and the backend to `secure.gooddata.com`.

  The document root is `Absent`, `Bool` (the bare switch) or `Str(path)`. `stub`, `cert` and `key` are optional strings. JavaScript truthiness is written out: an empty string counts as not given.
- **Port-retry lifecycle** (module `Lifecycle`, file `lifecycle.dfy`). The engine emits `error` and `start` events. `Supervision` is the launcher's state as a value: the options record it shares with the engine, plus a trace of its observable actions. Those actions are `start()` calls with their port, port-switch warnings, error reports and started messages. `Launch`, `HandleError`, `HandleStart` and `Run` give the effect of start-up, of each handler and of a sequence of events. The class `Orchestrator` holds the same state in place. Its `options` field is reassigned when the port is bumped, and its `trace` field is ghost. Its constructor and its `OnError` and `OnStart` methods are proved to follow those functions.

The model keeps these properties of the code:
- The retry has no ceiling (`RetryChain` holds for every k).
- Nothing deduplicates `start` events: every one prints the started message again (`RunCounts`).
- Only the document root's existence is checked, not whether it is readable.
- A non-"address in use" error is only reported: the launcher does not exit, does not stop the engine and moves to no stopped state.

## Model

| member | source | states |
|---|---|---|
| Startup.Validate | bin/grizzly.js:47-95 | Help exactly when help is set. `NoDocumentRoot` exactly when the document root is absent, empty or a bare switch. `NotFound(f, path)` exactly when rule f is the first failing rule in the order document root, stub, cert, key, and it carries the path it tried. Ok exactly when no rule fails. On Ok, the options copy the flags with the 8443 / `secure.gooddata.com` defaults |
| Startup.ExitCode | bin/grizzly.js:48-85 | exit 0 exactly for Help, exit 1 exactly for a validation error, and no exit when the engine is started |
| Startup.HelpIgnoresEverythingElse | bin/grizzly.js:47-51 | with help set, every other flag and every filesystem give Help and exit 0 |
| Startup.FailuresExitOne | bin/grizzly.js:62-85 | validation fails exactly when help is off and either the document root is missing or some supplied path is not on disk; every failure exits 1 |
| Startup.UnsuppliedFileNeverFails | bin/grizzly.js:72-85 | an absent or empty stub, cert or key never produces a failure for that field |
| Startup.ConsultsOnlySuppliedPaths | bin/grizzly.js:62-85 | the outcome depends on the filesystem only at the paths that were supplied |
| Startup.MoreFilesStillAccepted | bin/grizzly.js:67-95 | if a command line is accepted, it is still accepted with the same options when more files exist |
| Lifecycle.Launch | bin/grizzly.js:87-115 | start-up leaves the options record as validated, with exactly one `start()` on the configured port and no started message |
| Lifecycle.HandleError | bin/grizzly.js:99-109 | on "EADDRINUSE" with autoassign on: the port goes up by exactly 1, no other option changes, and one `start()` on the new port is appended. Otherwise: options unchanged and no `start()`. No started message either way |
| Lifecycle.LaunchAndStartOutput | bin/grizzly.js:111-115 | start-up has printed no warning and reported no error, and a `start` event adds neither |
| Lifecycle.HandleErrorOutput | bin/grizzly.js:100-107 | a retry appends exactly one "switching port" warning, naming the port after the increment, and reports no error; any other error appends exactly one report of its code and no warning |
| Lifecycle.HandleStart | bin/grizzly.js:111-113 | a `start` event adds exactly one started message and changes neither the options nor the `start()` calls |
| Lifecycle.Run | bin/grizzly.js:98-115 | any sequence of events only extends the trace, changes no option other than the port, and never lowers the port |
| Lifecycle.RunKeepsPortsConsecutive | bin/grizzly.js:99-104 | for any events, the `start()` ports stay `p0, p0+1, ...` and the options record holds the port of the latest `start()` |
| Lifecycle.HandleCounts | bin/grizzly.js:99-113 | one event adds a `start()` exactly when it is an "EADDRINUSE" failure with autoassign on, adds a message exactly when it is a `start` event, and never changes autoassign |
| Lifecycle.RunCounts | bin/grizzly.js:99-113 | over any event sequence, the added `start()` calls equal the retried failures, and the added started messages equal the `start` events, duplicates included |
| Lifecycle.StartCallsFromLaunch | bin/grizzly.js:96-115 | from launch, the `start()` calls are on ports P..P+k. Here k counts the "EADDRINUSE" failures when autoassign is on and is 0 otherwise. The final options are the initial ones with port P+k |
| Lifecycle.NoAutoassignNeverRestarts | bin/grizzly.js:100-108 | with autoassign off, no event sequence causes a second `start()` or moves the port |
| Lifecycle.RetryChain | bin/grizzly.js:99-115 | with autoassign on, k "EADDRINUSE" failures followed by one `start` event give exactly k+1 `start()` calls on ports P..P+k, a final port of P+k with nothing else changed, and one started message, for every k |
| Lifecycle.Orchestrator.constructor | bin/grizzly.js:87-115 | the in-place launcher starts in the state `Launch` describes |
| Lifecycle.Orchestrator.OnError | bin/grizzly.js:99-109 | the in-place error handler moves to `HandleError` of its previous state; the port grows by one exactly on a retry |
| Lifecycle.Orchestrator.OnStart | bin/grizzly.js:111-113 | the in-place start handler moves to `HandleStart` of its previous state |

## Left out

- Argument parsing and alias resolution (bin/grizzly.js:9-45) are done by the yargs library, which is not part of this model. Its output is the `Flags` datatype. `port` and `backend` are None when the flag was not given.
- Values the parser can produce but the model does not represent:
  - a bare `--stub`, `--cert` or `--key` switch (a boolean);
  - a numeric `stub`, `cert` or `key` (`-s 42` gives the number 42, not the path "42", so the checks at lines 72, 77 and 82 do not ask about a file named "42");
  - a numeric document root;
  - a non-numeric port.
  `stub`, `cert` and `key` are optional strings, the document root is absent, a boolean or a string, and the port is an integer.
- `help` and `autoassignPort` hold only the truthiness of the parsed value. For example `--autoassignPort false` gives the string "false", which is truthy, so it is `true` here.
- `fs.existsSync` is the uninterpreted parameter `onDisk`.
- Usage text, error text, `console.*` output and `process.exit` are represented only as outcomes, exit codes and trace actions.
- The engine (`lib/grizzly`) is not part of this model. This covers TLS, routing, stubs, file serving and the text of `printStartedMessage`. Its `error` and `start` events are inputs, and its `start()` is a trace action carrying the port in the shared options record.
- Event-emitter wiring and asynchrony are left out. Events are handled one at a time, in the order given.
- The error classification is the code's literal comparison of `error.errno` with `"EADDRINUSE"`. How the engine fills `errno` is not modelled.
- Ports are unbounded integers. Double-precision rounding above 2^53 is not modelled. The code has no range check on the port, and what the engine does with a port outside 0..65535 is not modelled.
