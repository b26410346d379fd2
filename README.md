# php-start: process table, build step and detect step

A Dafny model of the Go core of the Paketo `php-start` buildpack:

- **The process table** (`procmgr.go`) maps a process name to a command and its arguments. The build
  step fills it in place with `Add` and writes it to `procs.yml`. At launch, `ReadProcs` reads it back.
  `ReadProcs` sorts the file into five outcomes: missing, unopenable, unreadable, malformed, or parsed.
- **The build step** (`build.go`) prepares the `php-start` layer. From `$PHP_HTTPD_PATH`,
  `$PHP_FPM_PATH` and `$PHPRC` it decides which start commands go into the table. It then writes the
  table into the layer, installs `procmgr-binary` there, and returns one launch process that runs that
  binary on the table file.
- **The detect step** (`detect.go`) always passes. It returns one fixed plan: php and php-fpm, then
  httpd and httpd-config.

Files, one module each:

- `wrappers.dfy`: `Option` and `Result`.
- `goquote.dfy`: Go's `%q` rendering of a byte slice and its inverse. The malformed-file error quotes
  the raw contents this way.
- `procmgr.dfy`: `Proc`, the `Procs` class, the file-system snapshot and the abstract codec, and
  `ReadProcs`.
- `build.dfy`: the environment, the start-command selection, and the `Build` method with the pure
  function `BuildOutcome` that specifies it.
- `detect.dfy`: the build-plan types and `Detect`.

How the outside world is represented:

- **The file system** is a map from path to `Readable(bytes) | Unopenable(cause) | ReadFault(cause)`.
  A path that is absent from the map has no file. The `FileSystem` class also keeps a map of paths
  where a write is refused, with the error text the system gives.
- **The YAML library** is a `Codec` value: an `encode` function and a strict `decode` that can fail
  with an error text. `RoundTrips(codec)` is the assumption that decoding what was encoded gives the
  same table back.
- **The environment** is a `map<string, string>`. `Getenv` reads an unset variable as `""`.
  `LookupEnv` tells unset from empty.
- **packit and the file-system calls** that `Build` makes are function-valued parameters: the layer
  lookup, `Reset`, `os.Mkdir` and `fs.Copy`. Each answers success or an error. Each is applied to the
  path the source passes it.
- **The `ProcMgr` collaborator** is the `Procs` class itself. Its ghost field `calls` records every
  `Add` and `WriteFile` call in order. This record is how the model states which calls `Build`
  makes, and in what order.

Where the unit tests and the code disagree, the model follows the code:

- The code has no nginx branch and no "need exactly one of" check.
- The code raises no `$PHP_FPM_PATH` lookup error: an unset or empty `$PHP_FPM_PATH` just means no
  FPM entry.
- The code accepts `$PHPRC` when it is set but empty, because `LookupEnv` is used at build.go:61.
- The detect plan has no `Or` alternative and no composer requirement.

## Model

| member | source | states |
|---|---|---|
| `ProcMgr.NewProc` | procmgr.go:22-24 | the process keeps its command and its argument vector unchanged |
| `ProcMgr.Procs.constructor` | procmgr.go:26-30 | `NewProcs` gives a table with no entries and no calls recorded |
| `ProcMgr.Added` | procmgr.go:33-35 | after adding `n`, `n` maps to the new process; every other name keeps its old definition; the key set gains at most `n`; re-adding an existing name replaces its definition and leaves the size unchanged |
| `ProcMgr.Procs.Add` | procmgr.go:33-35 | updates the shared table in place to `Added(old table, n, p)` and records the call |
| `ProcMgr.ReadProcs` | procmgr.go:49-73 | a missing file gives an empty table and no error; an unopenable file gives an `OpenError` with that file's cause, and only that case gives an `OpenError`; a file whose read fails gives a `ReadAllError` with that failure's cause; a readable file the strict decoder rejects gives a `ParseError` carrying exactly the raw contents and the decoder's complaint, and every `ParseError` arises that way; success happens exactly when the file is missing or its contents decode, and the result is then the decoded table |
| `ProcMgr.ReadError.Message` | procmgr.go:57-70 | the open error reads `failed to open proc.yml: ` followed by the underlying error; a read error is passed on as it is; the parse error starts with `invalid proc.yml contents`, then the `%q`-quoted raw contents, which read back exactly, with `: <cause>` after them |
| `GoQuote.UnquoteQuote` | procmgr.go:69 | `%q` quoting is invertible: the bytes and whatever text follows the quoted literal are recovered |
| `GoQuote.ReadQuoteBody` | procmgr.go:69 | the escaped bytes followed by a closing quote read back as the same bytes (induction over the bytes) |
| `GoQuote.Escape` | procmgr.go:69 | each byte becomes 1 to 4 characters; it is written as itself, one character, exactly when it is printable ASCII other than a quote or a backslash, and otherwise as an escape that starts with a backslash; no escape starts with a quote |
| `GoQuote.Quote` | procmgr.go:69 | the literal starts and ends with a double quote, and is between `n + 2` and `4n + 2` characters long for `n` bytes |
| `ProcMgr.WriteOutcome` | procmgr.go:44 | a refused path returns its error and changes nothing; otherwise the file at the path is replaced in full by the given bytes, and every other path is left as it was |
| `ProcMgr.Procs.WriteFile` | procmgr.go:38-45 | the files become the `WriteOutcome` of the encoded table; the write's error is returned; the table is unchanged and the call is recorded |
| `ProcMgr.WriteThenRead` | procmgr.go:38-72 | when the codec round-trips, a successful write followed by `ReadProcs` on the same path returns the same table |
| `BuildPhase.Getenv` | build.go:51-59 | a set variable reads as its value; a non-empty answer means the variable is set |
| `BuildPhase.LookupEnv` | build.go:61 | says whether the variable is set, gives its value when it is, and agrees with `Getenv` except that it tells unset from empty |
| `BuildPhase.Join` | build.go:71-96 | the joined path starts with the directory and ends with the name, with exactly one `/` between them when the directory is non-empty (none added when it already ends in `/`) |
| `BuildPhase.StartCommands` | build.go:50-68 | at most two `Add` calls; the only error is the PHPRC one and it happens only with `$PHPRC` unset, in which case only an httpd `Add` comes before it |
| `BuildPhase.StartCommandsSelects` | build.go:50-68 | an httpd entry exactly when `$PHP_HTTPD_PATH` is non-empty, with args `-f <path> -k start -DFOREGROUND`; an fpm entry exactly when `$PHP_FPM_PATH` is non-empty and `$PHPRC` is set, even to `""`, with command `php-fpm` and args `-y <fpm> -c <phprc>`; the PHPRC error exactly when `$PHP_FPM_PATH` is non-empty and `$PHPRC` is unset; at most two entries, httpd before fpm, no name twice |
| `BuildPhase.BothServers` | build.go:50-68 | with all three variables set, exactly two `Add` calls, `httpd` then `fpm`, and from an empty table the result is exactly those two entries |
| `BuildPhase.AppliedKeys` | build.go:54-66 | after a sequence of `Add` calls the table holds exactly the old names and the added ones |
| `BuildPhase.AppliedUntouched` | build.go:54-66 | a name that no call adds keeps its previous definition |
| `BuildPhase.AppliedLastWins` | build.go:54-66 | the last `Add` for a name decides its definition |
| `BuildPhase.AppliedSnoc` | build.go:54-66 | one more `Add` at the end updates the table and the call record by that one call |
| `BuildPhase.AddStartCommands` | build.go:49-68 | makes exactly the selected `Add` calls, in order, on the shared table, and returns the PHPRC error when the selection has one |
| `BuildPhase.PreparedLayer` | build.go:36-47 | a failed layer lookup or `Reset` is passed on unchanged; when both succeed, the result is a success holding the reset layer with `Launch` set, and every success is that one |
| `BuildPhase.LaunchProcess` | build.go:92-100 | the process is `web`, runs `procmgr-binary`, is the default and direct, and has one argument, `<layer>/procs.yml`: the layer path, one `/` (none added when the path already ends in `/`), then `procs.yml` |
| `BuildPhase.Finish` | build.go:73-108 | a write error is returned unchanged; a `Mkdir` error is returned; a copy error is returned behind `failed to copy procmgr-binary into layer: `; otherwise the result has the layer and exactly one process, `web` / `procmgr-binary` / `[<layer>/procs.yml]`, default and direct |
| `BuildPhase.BuildOutcome` | build.go:31-110 | a build makes at most three calls on the table; the files change only if the last call was the write, and a build succeeds only after writing |
| `BuildPhase.BuildStopsOnLayerError` | build.go:36-46 | a failed layer lookup or reset is returned, and neither `Add` nor `WriteFile` is called; the table and files are untouched |
| `BuildPhase.BuildStopsWithoutPhprc` | build.go:58-64 | a non-empty `$PHP_FPM_PATH` with `$PHPRC` unset returns `failed to lookup $PHPRC path for FPM`; only the httpd `Add` (if any) happened, and no file was written |
| `BuildPhase.BuildWritesOnce` | build.go:70-76 | otherwise `WriteFile` is called exactly once, after every `Add`, on `<layer>/procs.yml`, with the table those calls built; a refused write's error is the build's error |
| `BuildPhase.BuildLaunchesProcMgr` | build.go:92-108 | a successful build returns the layer, with `Launch` set, and exactly one launch process that runs `procmgr-binary` on `<layer>/procs.yml` |
| `BuildPhase.BuildSucceeds` | build.go:36-108 | when the layer lookup and `Reset`, the selection, the write, `Mkdir` and the copy all succeed, the build returns a success |
| `BuildPhase.Build` | build.go:31-110 | the imperative step sequence returns `BuildOutcome`'s result and leaves the table, the call record and the files `BuildOutcome` gives |
| `BuildPhase.BuildThenRead` | build.go:70-76 | after a successful build, reading the file named by the launch process's argument gives back exactly the table the build assembled, when the codec round-trips |
| `DetectPhase.Detect` | detect.go:34-79 | never an error; whatever the context, the plan requires php {build}, php-fpm {build, launch}, httpd {launch}, httpd-config {build, launch} in that order, base requirements before server ones; no `Provides`, no `Or`; no name twice, each needed at build or launch |

## Left out

- `cmd/procmgr-binary/main.go` (the supervisor that starts every process and reports the first to exit): its behaviour is goroutines, a channel and OS processes, which this model does not represent. It is not part of this model. Its argument check and exit codes are left out with it.
- The YAML library's encoding and decoding: foreign code, represented only by the abstract `Codec` and its strict-decode failure. The `yaml.Marshal` error branch at procmgr.go:39-43 cannot arise in the model, because `encode` is total.
- `ProcMgr.Procs.WriteFile`: the file mode 0644 is not modelled, and neither is a write that fails part-way after truncating the file. A write either is refused with no change or replaces the file.
- `ProcMgr.WriteOutcome`: a write that is not refused always leaves a readable file holding the new bytes. `os.WriteFile` truncates an existing file and keeps its permissions, so an existing file that can be written but not read (mode 0200, say) stays unreadable, and a later `ReadProcs` fails at procmgr.go:57-58. The model does not capture that case. For such a file the round trip that `ProcMgr.WriteThenRead` and `BuildPhase.BuildThenRead` state does not hold in the real program.
- `GoQuote.Escape`: bytes 0x80-0xff are always rendered as `\xNN`. Go renders them that way only when they do not form valid UTF-8; valid UTF-8 sequences are kept, or escaped as `\u`/`\U`.
- `BuildPhase.Join`: models `filepath.Join` of a directory and one name. It does not do the full path cleaning (`.`, `..`, repeated `/`).
- The internals of packit's `Layers.Get` and `Layer.Reset`, `os.Mkdir` and `fs.Copy`: each is an abstract answer (success or an error text) to the call the source makes.
- The logging through `scribe` (titles, the HTTPD/FPM command lines, the launch-process listing): output only.
- The nil-map distinction of Go: a `Procs{}` value that was not made by `NewProcs` would make `Add` panic. In the model every table is a map value.
- `fakes/procmgr.go` (a test double) and `run/main.go` (wiring whose call signatures differ from the `Build` and `Detect` shown) are not part of this model.
- The TOML tags of `BuildPlanMetadata`: serialization of the plan is not modelled.
