/**
 * The build step of the buildpack (build.go): it takes the `php-start`
 * layer, decides from the environment which start commands go into the
 * process table, writes the table into the layer, installs the process
 * manager binary there and returns one launch process that runs it.
 */
module BuildPhase {
  import opened Wrappers
  import opened ProcMgr

  /** The process environment, read once at the start of the build. */
  type Env = map<string, string>

  /** `os.Getenv`: an unset variable reads as the empty string. */
  function Getenv(env: Env, key: string): (v: string)
    ensures key in env ==> v == env[key]
    ensures v != "" ==> key in env
  {
    if key in env then env[key] else ""
  }

  /** `os.LookupEnv`: tells an unset variable from an empty one. */
  function LookupEnv(env: Env, key: string): (v: Option<string>)
    ensures v.Some? <==> key in env
    ensures v.Some? ==> v.value == env[key]
    // `Getenv` is the lookup with an unset variable read as ""
    ensures Getenv(env, key) == (if v.Some? then v.value else "")
  {
    if key in env then Some(env[key]) else None
  }

  /** `filepath.Join(dir, name)` for a single path element `name`. */
  function Join(dir: Path, name: string): (p: Path)
    ensures |p| >= |name| && p[|p| - |name|..] == name
    ensures |p| >= |dir| + |name| && p[..|dir|] == dir
    // a single `/` separates the directory from the name
    ensures dir != "" && dir[|dir| - 1] != '/' ==> p == dir + "/" + name
    ensures dir != "" && dir[|dir| - 1] == '/' ==> p == dir + name
  {
    if dir == "" then name
    else if dir[|dir| - 1] == '/' then dir + name
    else dir + "/" + name
  }

  const LayerName: string := "php-start"
  const ProcsFile: string := "procs.yml"
  const PhprcError: string := "failed to lookup $PHPRC path for FPM"
  const CopyErrorPrefix: string := "failed to copy procmgr-binary into layer: "

  function HttpdProc(conf: string): Proc {
    NewProc("httpd", ["-f", conf, "-k", "start", "-DFOREGROUND"])
  }

  function FpmProc(conf: string, phprc: string): Proc {
    NewProc("php-fpm", ["-y", conf, "-c", phprc])
  }

  /** Some `Add` in the list is for `name`. */
  predicate Has(adds: seq<(string, Proc)>, name: string) {
    exists i :: 0 <= i < |adds| && adds[i].0 == name
  }

  /** The `Add` calls the build makes, in order, and the error that stops it before the write, if any. */
  datatype Selection = Selection(adds: seq<(string, Proc)>, failure: Option<string>)

  /**
   * The `Add` calls the environment selects, in order: httpd when
   * `$PHP_HTTPD_PATH` is non-empty, then php-fpm when `$PHP_FPM_PATH` is
   * non-empty, which also needs `$PHPRC` to be set (to anything, even "").
   */
  function StartCommands(env: Env): (s: Selection)
    ensures |s.adds| <= 2
    ensures s.failure.Some? ==> s.failure.value == PhprcError && "PHPRC" !in env
    ensures s.failure.Some? ==> forall i :: 0 <= i < |s.adds| ==> s.adds[i].0 == "httpd"
  {
    var httpdConf := Getenv(env, "PHP_HTTPD_PATH");
    var first := if httpdConf != "" then [("httpd", HttpdProc(httpdConf))] else [];
    var fpmConf := Getenv(env, "PHP_FPM_PATH");
    if fpmConf == "" then Selection(first, None)
    else match LookupEnv(env, "PHPRC")
      case None => Selection(first, Some(PhprcError))
      case Some(phprc) => Selection(first + [("fpm", FpmProc(fpmConf, phprc))], None)
  }

  /** What the selection holds, stated against the environment. */
  lemma StartCommandsSelects(env: Env)
    ensures var s := StartCommands(env);
      && |s.adds| <= 2
      // an httpd entry exactly when $PHP_HTTPD_PATH is non-empty
      && (Has(s.adds, "httpd") <==> Getenv(env, "PHP_HTTPD_PATH") != "")
      // an fpm entry exactly when $PHP_FPM_PATH is non-empty and $PHPRC is set, even to ""
      && (Has(s.adds, "fpm") <==> Getenv(env, "PHP_FPM_PATH") != "" && "PHPRC" in env)
      // the build stops exactly when $PHP_FPM_PATH is non-empty and $PHPRC is unset
      && (s.failure.Some? <==> Getenv(env, "PHP_FPM_PATH") != "" && "PHPRC" !in env)
      && (s.failure.Some? ==> s.failure.value == PhprcError)
      && (forall i :: 0 <= i < |s.adds| ==> s.adds[i].0 == "httpd" || s.adds[i].0 == "fpm")
      && (forall i :: 0 <= i < |s.adds| && s.adds[i].0 == "httpd" ==>
            s.adds[i].1 == Proc("httpd", ["-f", env["PHP_HTTPD_PATH"], "-k", "start", "-DFOREGROUND"]))
      && (forall i :: 0 <= i < |s.adds| && s.adds[i].0 == "fpm" ==>
            s.adds[i].1 == Proc("php-fpm", ["-y", env["PHP_FPM_PATH"], "-c", env["PHPRC"]]))
      // httpd comes before fpm, and no name is added twice
      && (forall i, j :: 0 <= i < j < |s.adds| ==> s.adds[i].0 == "httpd" && s.adds[j].0 == "fpm")
  {
    var s := StartCommands(env);
    if Getenv(env, "PHP_HTTPD_PATH") != "" {
      assert s.adds[0].0 == "httpd";
    }
    if s.failure.None? && Getenv(env, "PHP_FPM_PATH") != "" {
      assert s.adds[|s.adds| - 1].0 == "fpm";
    }
  }

  /** The `i`-th `Add` is the last one for its name. */
  predicate LastFor(adds: seq<(string, Proc)>, i: int)
    requires 0 <= i < |adds|
  {
    forall j :: i < j < |adds| ==> adds[j].0 != adds[i].0
  }

  /** The table after a sequence of `Add` calls, made in order. */
  function Applied(t: Table, adds: seq<(string, Proc)>): Table
    decreases |adds|
  {
    if adds == [] then t
    else
      var last := adds[|adds| - 1];
      Added(Applied(t, adds[..|adds| - 1]), last.0, last.1)
  }

  /** The names in the table after the calls: the old ones and every name added. */
  lemma {:induction false} AppliedKeys(t: Table, adds: seq<(string, Proc)>, k: string)
    ensures k in Applied(t, adds) <==> k in t || Has(adds, k)
    decreases |adds|
  {
    if adds != [] {
      var init := adds[..|adds| - 1];
      AppliedKeys(t, init, k);
      if Has(adds, k) && !Has(init, k) {
        assert adds[|adds| - 1].0 == k;
      }
      if Has(init, k) {
        var i :| 0 <= i < |init| && init[i].0 == k;
        assert adds[i].0 == k;
      }
    }
  }

  /** A name no call adds keeps its old definition. */
  lemma {:induction false} AppliedUntouched(t: Table, adds: seq<(string, Proc)>, k: string)
    requires k in t && !Has(adds, k)
    ensures k in Applied(t, adds) && Applied(t, adds)[k] == t[k]
    decreases |adds|
  {
    if adds != [] {
      var init := adds[..|adds| - 1];
      forall i | 0 <= i < |init| ensures init[i].0 != k {
        assert init[i] == adds[i];
      }
      AppliedUntouched(t, init, k);
    }
  }

  /** The last call for a name decides its definition. */
  lemma {:induction false} AppliedLastWins(t: Table, adds: seq<(string, Proc)>, i: int)
    requires 0 <= i < |adds| && LastFor(adds, i)
    ensures adds[i].0 in Applied(t, adds) && Applied(t, adds)[adds[i].0] == adds[i].1
    decreases |adds|
  {
    var init := adds[..|adds| - 1];
    if i < |adds| - 1 {
      assert adds[|adds| - 1].0 != adds[i].0;
      assert init[i] == adds[i];
      assert LastFor(init, i) by {
        forall j | i < j < |init| ensures init[j].0 != init[i].0 {
          assert init[j] == adds[j];
        }
      }
      AppliedLastWins(t, init, i);
    }
  }

  function AddCalls(adds: seq<(string, Proc)>): (calls: seq<Call>)
    ensures |calls| == |adds|
    ensures forall i :: 0 <= i < |adds| ==> calls[i] == AddCall(adds[i].0, adds[i].1)
  {
    if adds == [] then [] else [AddCall(adds[0].0, adds[0].1)] + AddCalls(adds[1..])
  }

  /** The part of a packit layer the build reads and sets. */
  datatype Layer = Layer(name: string, path: Path, build: bool, launch: bool, cache: bool)

  /** A launch process of the build result. */
  datatype Process = Process(kind: string, command: string, args: seq<string>, default: bool, direct: bool)

  datatype BuildResult = BuildResult(layers: seq<Layer>, processes: seq<Process>)

  /** The fields of the build context that the build uses. */
  datatype BuildContext = BuildContext(cnbPath: Path)

  /** The single launch process: the process manager, run on the table file in the layer. */
  function LaunchProcess(layerPath: Path): (p: Process)
    ensures p.kind == "web" && p.command == "procmgr-binary" && p.default && p.direct
    // the one argument names `procs.yml` inside the layer
    ensures |p.args| == 1 && |p.args[0]| >= |layerPath| + |ProcsFile|
    ensures p.args[0][..|layerPath|] == layerPath && p.args[0][|p.args[0]| - |ProcsFile|..] == ProcsFile
    ensures layerPath != "" && layerPath[|layerPath| - 1] != '/' ==> p.args == [layerPath + "/" + ProcsFile]
    ensures layerPath != "" && layerPath[|layerPath| - 1] == '/' ==> p.args == [layerPath + ProcsFile]
  {
    Process("web", "procmgr-binary", [Join(layerPath, ProcsFile)], true, true)
  }

  /** `Layers.Get("php-start")`, then `Reset()`, then `Launch = true`. */
  function PreparedLayer(getLayer: string -> Result<Layer, string>, reset: Layer -> Result<Layer, string>)
    : (r: Result<Layer, string>)
    ensures getLayer(LayerName).Failure? ==> r == Failure(getLayer(LayerName).error)
    ensures getLayer(LayerName).Success? && reset(getLayer(LayerName).value).Failure? ==>
              r == Failure(reset(getLayer(LayerName).value).error)
    ensures r.Success? ==>
              && r.value.launch
              && r.value == reset(getLayer(LayerName).value).value.(launch := true)
    ensures getLayer(LayerName).Success? && reset(getLayer(LayerName).value).Success? ==>
              r == Success(reset(getLayer(LayerName).value).value.(launch := true))
  {
    match getLayer(LayerName)
    case Failure(e) => Failure(e)
    case Success(layer) =>
      match reset(layer)
      case Failure(e) => Failure(e)
      case Success(cleared) => Success(cleared.(launch := true))
  }

  /** What the build returns once the table is written: `Mkdir`, `Copy`, then the result. */
  function Finish(writeErr: Option<string>, layer: Layer, context: BuildContext,
                  mkdir: Path -> Option<string>, copy: (Path, Path) -> Option<string>)
    : (r: Result<BuildResult, string>)
    // the write's error is returned unchanged
    ensures writeErr.Some? ==> r == Failure(writeErr.value)
    ensures writeErr.None? && mkdir(Join(layer.path, "bin")).Some? ==>
              r == Failure(mkdir(Join(layer.path, "bin")).value)
    // a failed copy is wrapped
    ensures writeErr.None? && mkdir(Join(layer.path, "bin")).None?
            && copy(BinarySource(context), BinaryTarget(layer)).Some? ==>
              r == Failure(CopyErrorPrefix + copy(BinarySource(context), BinaryTarget(layer)).value)
    ensures r.Success? <==>
              writeErr.None? && mkdir(Join(layer.path, "bin")).None? && copy(BinarySource(context), BinaryTarget(layer)).None?
    // a success has the layer and exactly one process: the process manager on the table file
    ensures r.Success? ==>
              && r.value.layers == [layer]
              && |r.value.processes| == 1
              && r.value.processes[0] == Process("web", "procmgr-binary", [Join(layer.path, ProcsFile)], true, true)
  {
    if writeErr.Some? then Failure(writeErr.value)
    else if mkdir(Join(layer.path, "bin")).Some? then Failure(mkdir(Join(layer.path, "bin")).value)
    else if copy(BinarySource(context), BinaryTarget(layer)).Some? then
      Failure(CopyErrorPrefix + copy(BinarySource(context), BinaryTarget(layer)).value)
    else Success(BuildResult([layer], [LaunchProcess(layer.path)]))
  }

  /** `<CNBPath>/bin/procmgr-binary`, the binary shipped with the buildpack. */
  function BinarySource(context: BuildContext): Path {
    Join(Join(context.cnbPath, "bin"), "procmgr-binary")
  }

  /** `<layer>/bin/procmgr-binary`, where the build installs it. */
  function BinaryTarget(layer: Layer): Path {
    Join(Join(layer.path, "bin"), "procmgr-binary")
  }

  /** What a build returns and leaves behind: the table, the calls this build made on it, the files. */
  datatype Outcome = Outcome(result: Result<BuildResult, string>, table: Table, calls: seq<Call>,
                             files: map<Path, FileState>)

  /**
   * The whole build as a function of the state before it: the process
   * table, the files, and the collaborators' answers.
   */
  function BuildOutcome(table: Table, files: map<Path, FileState>, refused: map<Path, string>, codec: Codec,
                        context: BuildContext, env: Env,
                        getLayer: string -> Result<Layer, string>, reset: Layer -> Result<Layer, string>,
                        mkdir: Path -> Option<string>, copy: (Path, Path) -> Option<string>)
    : (o: Outcome)
    ensures |o.calls| <= 3
    // the files change only through the write, and a build succeeds only after writing
    ensures o.files != files ==> o.calls != [] && o.calls[|o.calls| - 1].WriteCall?
    ensures o.result.Success? ==> o.calls != [] && o.calls[|o.calls| - 1].WriteCall?
  {
    match PreparedLayer(getLayer, reset)
    case Failure(e) => Outcome(Failure(e), table, [], files)
    case Success(layer) =>
      var sel := StartCommands(env);
      var t := Applied(table, sel.adds);
      if sel.failure.Some? then Outcome(Failure(sel.failure.value), t, AddCalls(sel.adds), files)
      else
        var file := Join(layer.path, ProcsFile);
        var written := WriteOutcome(files, refused, file, codec.encode(t));
        Outcome(Finish(written.1, layer, context, mkdir, copy), t, AddCalls(sel.adds) + [WriteCall(file)], written.0)
  }

  /** A failing `Layers.Get` or `Reset` is returned, and neither `Add` nor `WriteFile` is called. */
  lemma BuildStopsOnLayerError(table: Table, files: map<Path, FileState>, refused: map<Path, string>, codec: Codec,
                               context: BuildContext, env: Env,
                               getLayer: string -> Result<Layer, string>, reset: Layer -> Result<Layer, string>,
                               mkdir: Path -> Option<string>, copy: (Path, Path) -> Option<string>)
    requires PreparedLayer(getLayer, reset).Failure?
    ensures BuildOutcome(table, files, refused, codec, context, env, getLayer, reset, mkdir, copy)
            == Outcome(Failure(PreparedLayer(getLayer, reset).error), table, [], files)
  {
  }

  /** `$PHP_FPM_PATH` without `$PHPRC` stops the build after the httpd `Add`, if any, and before the write. */
  lemma BuildStopsWithoutPhprc(table: Table, files: map<Path, FileState>, refused: map<Path, string>, codec: Codec,
                               context: BuildContext, env: Env,
                               getLayer: string -> Result<Layer, string>, reset: Layer -> Result<Layer, string>,
                               mkdir: Path -> Option<string>, copy: (Path, Path) -> Option<string>)
    requires PreparedLayer(getLayer, reset).Success?
    requires Getenv(env, "PHP_FPM_PATH") != "" && "PHPRC" !in env
    ensures var o := BuildOutcome(table, files, refused, codec, context, env, getLayer, reset, mkdir, copy);
            && o.result == Failure(PhprcError)
            && o.files == files
            && o.calls == (if Getenv(env, "PHP_HTTPD_PATH") != ""
                           then [AddCall("httpd", HttpdProc(Getenv(env, "PHP_HTTPD_PATH")))] else [])
  {
  }

  /**
   * Otherwise `WriteFile` is called exactly once, after every `Add`, on
   * `<layer>/procs.yml`, with the table those calls built; its error is
   * returned unchanged.
   */
  lemma BuildWritesOnce(table: Table, files: map<Path, FileState>, refused: map<Path, string>, codec: Codec,
                        context: BuildContext, env: Env,
                        getLayer: string -> Result<Layer, string>, reset: Layer -> Result<Layer, string>,
                        mkdir: Path -> Option<string>, copy: (Path, Path) -> Option<string>)
    requires PreparedLayer(getLayer, reset).Success?
    requires !(Getenv(env, "PHP_FPM_PATH") != "" && "PHPRC" !in env)
    ensures var o := BuildOutcome(table, files, refused, codec, context, env, getLayer, reset, mkdir, copy);
            var file := Join(PreparedLayer(getLayer, reset).value.path, ProcsFile);
            && o.table == Applied(table, StartCommands(env).adds)
            && o.calls == AddCalls(StartCommands(env).adds) + [WriteCall(file)]
            && o.files == WriteOutcome(files, refused, file, codec.encode(o.table)).0
            && (file in refused ==> o.result == Failure(refused[file]))
  {
  }

  /** A successful build returns the layer, with `Launch` set, and exactly one launch process. */
  lemma BuildLaunchesProcMgr(table: Table, files: map<Path, FileState>, refused: map<Path, string>, codec: Codec,
                             context: BuildContext, env: Env,
                             getLayer: string -> Result<Layer, string>, reset: Layer -> Result<Layer, string>,
                             mkdir: Path -> Option<string>, copy: (Path, Path) -> Option<string>)
    ensures var o := BuildOutcome(table, files, refused, codec, context, env, getLayer, reset, mkdir, copy);
            o.result.Success? ==>
              && PreparedLayer(getLayer, reset).Success?
              && o.result.value.layers == [PreparedLayer(getLayer, reset).value]
              && o.result.value.layers[0].launch
              && |o.result.value.processes| == 1
              && o.result.value.processes[0] ==
                   Process("web", "procmgr-binary", [Join(PreparedLayer(getLayer, reset).value.path, ProcsFile)], true, true)
  {
  }

  /** When the layer, the selection, the write, `Mkdir` and the copy all succeed, so does the build. */
  lemma BuildSucceeds(table: Table, files: map<Path, FileState>, refused: map<Path, string>, codec: Codec,
                      context: BuildContext, env: Env,
                      getLayer: string -> Result<Layer, string>, reset: Layer -> Result<Layer, string>,
                      mkdir: Path -> Option<string>, copy: (Path, Path) -> Option<string>)
    requires PreparedLayer(getLayer, reset).Success?
    requires !(Getenv(env, "PHP_FPM_PATH") != "" && "PHPRC" !in env)
    requires Join(PreparedLayer(getLayer, reset).value.path, ProcsFile) !in refused
    requires mkdir(Join(PreparedLayer(getLayer, reset).value.path, "bin")).None?
    requires copy(BinarySource(context), BinaryTarget(PreparedLayer(getLayer, reset).value)).None?
    ensures BuildOutcome(table, files, refused, codec, context, env, getLayer, reset, mkdir, copy).result.Success?
  {
    StartCommandsSelects(env);
  }

  /** One more `Add` at the end of a sequence of them. */
  lemma AppliedSnoc(t: Table, adds: seq<(string, Proc)>, a: (string, Proc))
    ensures Applied(t, adds + [a]) == Added(Applied(t, adds), a.0, a.1)
    ensures AddCalls(adds + [a]) == AddCalls(adds) + [AddCall(a.0, a.1)]
  {
    assert (adds + [a])[..|adds + [a]| - 1] == adds;
  }

  /**
   * The httpd and FPM cases of the build: the `Add` calls the environment
   * selects, made on the table in place, and the error that ends the build.
   */
  method AddStartCommands(procs: Procs, env: Env) returns (failure: Option<string>)
    modifies procs
    ensures failure == StartCommands(env).failure
    ensures procs.processes == Applied(old(procs.processes), StartCommands(env).adds)
    ensures procs.calls == old(procs.calls) + AddCalls(StartCommands(env).adds)
  {
    ghost var done: seq<(string, Proc)> := [];
    var httpdConf := Getenv(env, "PHP_HTTPD_PATH");
    if httpdConf != "" {
      procs.Add("httpd", HttpdProc(httpdConf));
      AppliedSnoc(old(procs.processes), done, ("httpd", HttpdProc(httpdConf)));
      done := done + [("httpd", HttpdProc(httpdConf))];
    }
    assert procs.processes == Applied(old(procs.processes), done);
    assert procs.calls == old(procs.calls) + AddCalls(done);

    var fpmConf := Getenv(env, "PHP_FPM_PATH");
    if fpmConf != "" {
      var phprc := LookupEnv(env, "PHPRC");
      if phprc.None? {
        assert StartCommands(env) == Selection(done, Some(PhprcError));
        return Some(PhprcError);
      }
      procs.Add("fpm", FpmProc(fpmConf, phprc.value));
      AppliedSnoc(old(procs.processes), done, ("fpm", FpmProc(fpmConf, phprc.value)));
      done := done + [("fpm", FpmProc(fpmConf, phprc.value))];
    }
    assert StartCommands(env) == Selection(done, None);
    failure := None;
  }

  /**
   * The returned BuildFunc applied to a build context: an imperative
   * sequence of steps, each failure ending the build.
   */
  method Build(procs: Procs, fs: FileSystem, codec: Codec, context: BuildContext, env: Env,
               getLayer: string -> Result<Layer, string>, reset: Layer -> Result<Layer, string>,
               mkdir: Path -> Option<string>, copy: (Path, Path) -> Option<string>)
    returns (r: Result<BuildResult, string>)
    modifies procs, fs
    ensures fs.refused == old(fs.refused)
    ensures var o := BuildOutcome(old(procs.processes), old(fs.files), old(fs.refused), codec, context, env,
                                  getLayer, reset, mkdir, copy);
            r == o.result && procs.processes == o.table && procs.calls == old(procs.calls) + o.calls
            && fs.files == o.files
  {
    ghost var table, files, calls := procs.processes, fs.files, procs.calls;
    var got := getLayer(LayerName);
    if got.Failure? {
      return Failure(got.error);
    }
    var cleared := reset(got.value);
    if cleared.Failure? {
      return Failure(cleared.error);
    }
    var layer := cleared.value.(launch := true);
    assert PreparedLayer(getLayer, reset) == Success(layer);

    var failure := AddStartCommands(procs, env);
    if failure.Some? {
      return Failure(failure.value);
    }

    var file := Join(layer.path, ProcsFile);
    var writeErr := procs.WriteFile(file, fs, codec);
    ghost var adds := AddCalls(StartCommands(env).adds);
    assert procs.calls == calls + (adds + [WriteCall(file)]);
    assert BuildOutcome(table, files, fs.refused, codec, context, env, getLayer, reset, mkdir, copy)
        == Outcome(Finish(writeErr, layer, context, mkdir, copy), procs.processes, adds + [WriteCall(file)], fs.files);
    if writeErr.Some? {
      return Failure(writeErr.value);
    }

    var mkdirErr := mkdir(Join(layer.path, "bin"));
    if mkdirErr.Some? {
      return Failure(mkdirErr.value);
    }

    var copyErr := copy(BinarySource(context), BinaryTarget(layer));
    if copyErr.Some? {
      return Failure(CopyErrorPrefix + copyErr.value);
    }

    r := Success(BuildResult([layer], [LaunchProcess(layer.path)]));
  }

  /** After a successful build, the launch-time reader gets back exactly the table the build assembled. */
  lemma BuildThenRead(table: Table, files: map<Path, FileState>, refused: map<Path, string>, codec: Codec,
                      context: BuildContext, env: Env,
                      getLayer: string -> Result<Layer, string>, reset: Layer -> Result<Layer, string>,
                      mkdir: Path -> Option<string>, copy: (Path, Path) -> Option<string>)
    requires RoundTrips(codec)
    ensures var o := BuildOutcome(table, files, refused, codec, context, env, getLayer, reset, mkdir, copy);
            o.result.Success? ==>
              ReadProcs(o.files, o.result.value.processes[0].args[0], codec) == Success(o.table)
  {
    var o := BuildOutcome(table, files, refused, codec, context, env, getLayer, reset, mkdir, copy);
    if o.result.Success? {
      var layer := PreparedLayer(getLayer, reset).value;
      var file := Join(layer.path, ProcsFile);
      WriteThenRead(files, refused, file, o.table, codec);
    }
  }

  /** With all three variables set, the table built from empty holds exactly the httpd and fpm entries. */
  lemma BothServers(env: Env)
    requires Getenv(env, "PHP_HTTPD_PATH") != "" && Getenv(env, "PHP_FPM_PATH") != "" && "PHPRC" in env
    ensures var s := StartCommands(env);
            s.failure.None? && |s.adds| == 2 && s.adds[0].0 == "httpd" && s.adds[1].0 == "fpm"
            && Applied(map[], s.adds) == map[
                 "httpd" := HttpdProc(env["PHP_HTTPD_PATH"]),
                 "fpm" := FpmProc(env["PHP_FPM_PATH"], env["PHPRC"])]
  {
    var s := StartCommands(env);
    assert s.adds == [("httpd", HttpdProc(env["PHP_HTTPD_PATH"]))] + [("fpm", FpmProc(env["PHP_FPM_PATH"], env["PHPRC"]))];
    AppliedSnoc(map[], [], ("httpd", HttpdProc(env["PHP_HTTPD_PATH"])));
    AppliedSnoc(map[], [("httpd", HttpdProc(env["PHP_HTTPD_PATH"]))], ("fpm", FpmProc(env["PHP_FPM_PATH"], env["PHPRC"])));
  }
}
