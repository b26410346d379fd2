/**
 * The process table that the build phase fills and the launch phase reads
 * back (procmgr.go). The file system is a map from path to file state, and
 * the YAML library is an abstract codec with a strict-decode failure.
 */
module ProcMgr {
  import opened Wrappers
  import opened GoQuote

  type Path = string

  /** One process to run: the executable and its argument vector. */
  datatype Proc = Proc(command: string, args: seq<string>)

  /** The `Processes` map of a `Procs` value: process name to definition. */
  type Table = map<string, Proc>

  function NewProc(command: string, args: seq<string>): (p: Proc)
    ensures p.command == command && p.args == args
  {
    Proc(command, args)
  }

  /** The table after one `Add`: the name now maps to the new process, nothing else changes. */
  function Added(t: Table, name: string, p: Proc): (r: Table)
    ensures name in r && r[name] == p
    ensures forall k :: k in t && k != name ==> k in r && r[k] == t[k]
    ensures r.Keys == t.Keys + {name}
    ensures |r| == if name in t then |t| else |t| + 1
  {
    t[name := p]
  }

  /** A call made on the process manager, in the order it was made. */
  datatype Call = AddCall(name: string, proc: Proc) | WriteCall(path: Path)

  /** What opening and reading the file at a path gives. */
  datatype FileState =
    | Readable(contents: seq<Byte>)
    | Unopenable(cause: string)   // it exists but opening it fails, e.g. for want of permission
    | ReadFault(cause: string)    // it opens but reading it fails

  /** The YAML codec: `yaml.Marshal` and `yaml.UnmarshalStrict` (which may reject the input). */
  datatype Codec = Codec(encode: Table -> seq<Byte>, decode: seq<Byte> -> Result<Table, string>)

  /** The codec decodes everything it encodes back to the same table. */
  ghost predicate RoundTrips(c: Codec) {
    forall t :: c.decode(c.encode(t)) == Success(t)
  }

  const OpenErrorPrefix: string := "failed to open proc.yml: "
  const ParseErrorPrefix: string := "invalid proc.yml contents:\n "

  /** The errors `ReadProcs` returns; `Message` is the text of the Go error. */
  datatype ReadError =
    | OpenError(cause: string)
    | ReadAllError(cause: string)
    | ParseError(contents: seq<Byte>, cause: string)
  {
    /**
     * An open failure is reported behind the `failed to open proc.yml:`
     * prefix, a read failure is passed on as it is, and a parse error
     * starts with `invalid proc.yml contents` and quotes the raw contents,
     * which can be read back from it.
     */
    function Message(): (m: string)
      ensures OpenError? ==>
                |m| >= |OpenErrorPrefix| && m[..|OpenErrorPrefix|] == OpenErrorPrefix
                && m[|OpenErrorPrefix|..] == cause
      ensures ReadAllError? ==> m == cause
      ensures ParseError? ==>
                |m| >= |ParseErrorPrefix| && m[..|ParseErrorPrefix|] == ParseErrorPrefix
                && Unquote(m[|ParseErrorPrefix|..]) == Some((contents, ": " + cause))
    {
      match this
      case OpenError(cause) => OpenErrorPrefix + cause
      case ReadAllError(cause) => cause
      case ParseError(contents, cause) =>
        var m := ParseErrorPrefix + Quote(contents) + ": " + cause;
        assert m[|ParseErrorPrefix|..] == Quote(contents) + (": " + cause);
        UnquoteQuote(contents, ": " + cause);
        m
    }
  }

  /**
   * `ReadProcs(path)` over a snapshot of the file system: a missing file is
   * an empty table, a file that cannot be opened or read is an error, and
   * contents the strict decoder rejects are an error that carries them.
   */
  function ReadProcs(files: map<Path, FileState>, path: Path, codec: Codec): (r: Result<Table, ReadError>)
    ensures path !in files ==> r == Success(map[])
    ensures r.Success? <==> path !in files || (files[path].Readable? && codec.decode(files[path].contents).Success?)
    ensures r.Success? && path in files ==> codec.decode(files[path].contents) == Success(r.value)
    ensures r.Failure? && r.error.OpenError? <==> path in files && files[path].Unopenable?
    ensures r.Failure? && r.error.ParseError? ==>
              path in files && files[path] == Readable(r.error.contents)
              && codec.decode(r.error.contents) == Failure(r.error.cause)
    // each failing case carries the file's own cause or contents
    ensures path in files && files[path].Unopenable? ==> r == Failure(OpenError(files[path].cause))
    ensures path in files && files[path].ReadFault? ==> r == Failure(ReadAllError(files[path].cause))
    ensures path in files && files[path].Readable? && codec.decode(files[path].contents).Failure? ==>
              r == Failure(ParseError(files[path].contents, codec.decode(files[path].contents).error))
  {
    if path !in files then Success(map[])
    else match files[path]
      case Unopenable(cause) => Failure(OpenError(cause))
      case ReadFault(cause) => Failure(ReadAllError(cause))
      case Readable(contents) =>
        match codec.decode(contents)
        case Failure(cause) => Failure(ParseError(contents, cause))
        case Success(t) => Success(t)
  }

  /**
   * `os.WriteFile(path, bytes, 0644)`: on a path the system refuses, its
   * error and no change; otherwise the file at `path` is replaced in full
   * and every other path is left as it was.
   */
  function WriteOutcome(files: map<Path, FileState>, refused: map<Path, string>, path: Path, bytes: seq<Byte>)
    : (out: (map<Path, FileState>, Option<string>))
    ensures path in refused ==> out == (files, Some(refused[path]))
    ensures path !in refused ==> out.1 == None && path in out.0 && out.0[path] == Readable(bytes)
    ensures out.0.Keys <= files.Keys + {path}
    ensures forall p :: p in files && p != path ==> p in out.0 && out.0[p] == files[p]
  {
    if path in refused then (files, Some(refused[path])) else (files[path := Readable(bytes)], None)
  }

  /** Writing a table and reading the same path back gives the same table. */
  lemma WriteThenRead(files: map<Path, FileState>, refused: map<Path, string>, path: Path, t: Table, codec: Codec)
    requires RoundTrips(codec)
    requires path !in refused
    ensures WriteOutcome(files, refused, path, codec.encode(t)).1 == None
    ensures ReadProcs(WriteOutcome(files, refused, path, codec.encode(t)).0, path, codec) == Success(t)
  {
    assert codec.decode(codec.encode(t)) == Success(t);
  }

  /** The files a process table is written to and read from. */
  class FileSystem {
    var files: map<Path, FileState>
    var refused: map<Path, string>   // paths a write to which fails, with the error text

    constructor (files: map<Path, FileState>, refused: map<Path, string>)
      ensures this.files == files && this.refused == refused
    {
      this.files := files;
      this.refused := refused;
    }
  }

  /** `Procs`: the table, updated in place by `Add`. `calls` records the calls made on it. */
  class Procs {
    var processes: Table
    ghost var calls: seq<Call>

    /** `NewProcs()`: a table with no entries. */
    constructor ()
      ensures processes == map[] && calls == []
    {
      processes := map[];
      calls := [];
    }

    method Add(name: string, p: Proc)
      modifies this
      ensures processes == Added(old(processes), name, p)
      ensures calls == old(calls) + [AddCall(name, p)]
    {
      processes := processes[name := p];
      calls := calls + [AddCall(name, p)];
    }

    /** `WriteFile(path)`: writes the encoded table to `path` and returns the write's error. */
    method WriteFile(path: Path, fs: FileSystem, codec: Codec) returns (err: Option<string>)
      modifies this, fs
      ensures processes == old(processes)
      ensures calls == old(calls) + [WriteCall(path)]
      ensures fs.refused == old(fs.refused)
      ensures (fs.files, err) == WriteOutcome(old(fs.files), fs.refused, path, codec.encode(processes))
    {
      var bytes := codec.encode(processes);
      calls := calls + [WriteCall(path)];
      if path in fs.refused {
        err := Some(fs.refused[path]);
      } else {
        fs.files := fs.files[path := Readable(bytes)];
        err := None;
      }
    }
  }
}
