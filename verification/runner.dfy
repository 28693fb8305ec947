/** The playground's runner, runGoCode in main.go: stage the submitted code in a
    fresh temporary directory, run `go mod init` and `go run` there, and turn
    what happened into either output text or an error text. The filesystem and
    the go toolchain are abstract: each external step is given as an outcome. */
module Runner {
  import opened GoStrings

  datatype Option<T> = None | Some(value: T)

  /** How one external step ended: success, or failure with Go's err.Error(). */
  datatype Status = Ok | Failed(cause: string)

  /** How `go run main.go` ended, with what it wrote to its two streams. A run
      killed at the deadline is one more Failed status. */
  datatype Execution = Execution(status: Status, stdout: string, stderr: string)

  /** What os.MkdirTemp, os.WriteFile, `go mod init` and `go run` do on one
      request. An outcome is only consulted if its step is reached. */
  datatype Environment = Environment(
    mkdirTemp: Status,
    writeFile: Status,
    modInit: Status,
    goRun: Execution)

  /** Names of temporary directories; os.MkdirTemp never reuses a live one. */
  type Dir = nat

  /** Effects on the machine, in the order the runner causes them. */
  datatype Action =
    | MkdirTemp(created: Option<Dir>)
    | WriteFile(dir: Dir, name: string, contents: string)
    | ModInit(dir: Dir)
    | GoRun(dir: Dir)
    | RemoveAll(dir: Dir)

  // ---------------------------------------------------------------------------
  // Error texts

  /** The stage an error text reports. */
  datatype ErrorKind = CreateDir | WriteCode | InitModule | Compilation | Runtime

  const StderrSeparator: string := "\n--- stderr ---\n"

  /** The fixed text that fmt.Errorf puts in front of each kind of error. */
  function Prefix(k: ErrorKind): (p: string) {
    match k
    case CreateDir => "failed to create temp directory: "
    case WriteCode => "failed to write code file: "
    case InitModule => "failed to initialize module: "
    case Compilation => "compilation error:\n"
    case Runtime => "runtime error: "
  }

  /** The error text for a kind and its detail (the cause, or stderr). */
  function ErrorText(k: ErrorKind, detail: string): (msg: string) {
    Prefix(k) + detail
  }

  /** Reads the kind back from an error text by its prefix. */
  function KindOf(msg: string): (k: Option<ErrorKind>) {
    if Prefix(CreateDir) <= msg then Some(CreateDir)
    else if Prefix(WriteCode) <= msg then Some(WriteCode)
    else if Prefix(InitModule) <= msg then Some(InitModule)
    else if Prefix(Compilation) <= msg then Some(Compilation)
    else if Prefix(Runtime) <= msg then Some(Runtime)
    else None
  }

  /** Each error carries its own prefix: the kind and the detail can both be
      read back from the text. */
  lemma KindOfErrorText(k: ErrorKind, detail: string)
    ensures KindOf(ErrorText(k, detail)) == Some(k)
    ensures ErrorText(k, detail)[|Prefix(k)|..] == detail
  {
    var msg := ErrorText(k, detail);
    assert Prefix(k) <= msg;
    // the prefixes differ at index 0 ('f' against 'c' and 'r') or at index 10
    assert msg[0] == Prefix(k)[0];
    if k != CreateDir && k != WriteCode && k != InitModule {
      assert msg[0] != 'f';
    } else {
      assert msg[10] == Prefix(k)[10];
    }
  }

  /** A failed `go run` is a compilation error when stderr has text and a
      runtime error otherwise (main.go:267-273). */
  function RunFailure(cause: string, stderr: string): (msg: string)
    ensures KindOf(msg) == Some(if stderr != "" then Compilation else Runtime)
    ensures msg[|Prefix(KindOf(msg).value)|..] == if stderr != "" then stderr else cause
  {
    if stderr != "" then
      KindOfErrorText(Compilation, stderr);
      ErrorText(Compilation, stderr)
    else
      KindOfErrorText(Runtime, cause);
      ErrorText(Runtime, cause)
  }

  /** The classification as the caller sees it: a compilation error carries
      exactly stderr, a runtime error the process error. */
  lemma RunFailureClassified(cause: string, stderr: string)
    ensures stderr != "" ==>
              && KindOf(RunFailure(cause, stderr)) == Some(Compilation)
              && RunFailure(cause, stderr) == "compilation error:\n" + stderr
    ensures stderr == "" ==>
              && KindOf(RunFailure(cause, stderr)) == Some(Runtime)
              && RunFailure(cause, stderr) == "runtime error: " + cause
  {
    if stderr != "" {
      KindOfErrorText(Compilation, stderr);
    } else {
      KindOfErrorText(Runtime, cause);
    }
  }

  // ---------------------------------------------------------------------------
  // Output of a successful run

  /** stdout and stderr joined, with the separator only when both have text. */
  function Joined(stdout: string, stderr: string): (s: string) {
    stdout + (if stdout != "" && stderr != "" then StderrSeparator else "") + stderr
  }

  /** main.go:275-286: the output is built up from stdout and then trimmed. */
  method AssembleOutput(stdout: string, stderr: string) returns (output: string)
    ensures output == TrimSpace(Joined(stdout, stderr))
    ensures NoEdgeSpace(output)
  {
    output := stdout;
    if stderr != "" {
      if output != "" {
        output := output + StderrSeparator;
      }
      output := output + stderr;
      assert stdout == "" ==> Joined(stdout, stderr) == stderr;
    } else {
      assert Joined(stdout, stderr) == stdout;
    }
    output := TrimSpace(output);
  }

  /** Without stderr the output is stdout trimmed. */
  lemma OutputWithoutStderr(stdout: string)
    ensures TrimSpace(Joined(stdout, "")) == TrimSpace(stdout)
  {
    assert Joined(stdout, "") == stdout;
  }

  /** Without stdout the output is stderr trimmed: no separator. */
  lemma OutputWithoutStdout(stderr: string)
    ensures TrimSpace(Joined("", stderr)) == TrimSpace(stderr)
  {
    assert Joined("", stderr) == stderr;
  }

  /** Nothing on either stream gives the empty output. */
  lemma OutputOfSilentRun()
    ensures TrimSpace(Joined("", "")) == ""
  {
    TrimSpaceOfBlank(Joined("", ""));
  }

  /** When both streams hold text that is not white space, trimming cuts only
      the outer edges: the separator line and the interior survive intact. */
  lemma OutputKeepsSeparator(stdout: string, stderr: string)
    requires !AllSpace(stdout) && !AllSpace(stderr)
    ensures TrimSpace(Joined(stdout, stderr)) == TrimLeft(stdout) + StderrSeparator + TrimRight(stderr)
  {
    assert stdout != [] && stderr != [];
    TrimSpaceOfInfix(stdout, StderrSeparator, stderr);
  }

  /** Trimming the output again changes nothing. */
  lemma OutputIsTrimmed(stdout: string, stderr: string)
    ensures TrimSpace(TrimSpace(Joined(stdout, stderr))) == TrimSpace(Joined(stdout, stderr))
  {
    TrimSpaceIdempotent(Joined(stdout, stderr));
  }

  /** Surrounding white space is dropped from stdout. */
  lemma OutputExampleTrimmed()
    ensures TrimSpace(Joined("  hello \n\n", "")) == "hello"
  {
    var s := "  hello \n\n";
    assert Joined(s, "") == s;
    assert s[..2] == "  " && s[7..] == " \n\n" && s[2..7] == "hello";
    TrimmingIsTrimSpace(s, 2, 7);
  }

  /** A warning on stderr follows stdout after the separator line. */
  lemma OutputExampleWithStderr()
    ensures TrimSpace(Joined("ok", "warn")) == "ok\n--- stderr ---\nwarn"
  {
    var t := Joined("ok", "warn");
    assert t == "ok\n--- stderr ---\nwarn";
    assert t[..0] == [] && t[|t|..] == [] && t[0..|t|] == t;
    TrimmingIsTrimSpace(t, 0, |t|);
  }

  // ---------------------------------------------------------------------------
  // The pipeline

  /** The error runGoCode returns for an environment, None when it succeeds:
      the first failing step decides. */
  function Failure(env: Environment): (err: Option<string>)
    ensures err.None? <==>
              env.mkdirTemp.Ok? && env.writeFile.Ok? && env.modInit.Ok? && env.goRun.status.Ok?
    ensures err.Some? ==> KindOf(err.value).Some?
  {
    if env.mkdirTemp.Failed? then
      KindOfErrorText(CreateDir, env.mkdirTemp.cause);
      Some(ErrorText(CreateDir, env.mkdirTemp.cause))
    else if env.writeFile.Failed? then
      KindOfErrorText(WriteCode, env.writeFile.cause);
      Some(ErrorText(WriteCode, env.writeFile.cause))
    else if env.modInit.Failed? then
      KindOfErrorText(InitModule, env.modInit.cause);
      Some(ErrorText(InitModule, env.modInit.cause))
    else if env.goRun.status.Failed? then Some(RunFailure(env.goRun.status.cause, env.goRun.stderr))
    else None
  }

  /** The effects runGoCode has, given the code, the environment and the name
      the new temporary directory gets. */
  function Actions(code: string, env: Environment, d: Dir): (acts: seq<Action>) {
    if env.mkdirTemp.Failed? then [MkdirTemp(None)]
    else [MkdirTemp(Some(d))] + StagedActions(code, env, d) + [RemoveAll(d)]
  }

  /** The effects between creating the directory and the deferred removal. */
  function StagedActions(code: string, env: Environment, d: Dir): (acts: seq<Action>) {
    [WriteFile(d, "main.go", code)]
    + if env.writeFile.Failed? then []
      else [ModInit(d)] + if env.modInit.Failed? then [] else [GoRun(d)]
  }

  /** The failing step is recognisable from the error text. */
  lemma FailureNamesFirstFailingStep(env: Environment)
    ensures env.mkdirTemp.Failed? ==> KindOf(Failure(env).value) == Some(CreateDir)
    ensures env.mkdirTemp.Ok? && env.writeFile.Failed? ==> KindOf(Failure(env).value) == Some(WriteCode)
    ensures env.mkdirTemp.Ok? && env.writeFile.Ok? && env.modInit.Failed? ==>
              KindOf(Failure(env).value) == Some(InitModule)
    ensures env.mkdirTemp.Ok? && env.writeFile.Ok? && env.modInit.Ok? ==>
              (Failure(env).Some? <==> env.goRun.status.Failed?)
  {
    match env.mkdirTemp
    case Failed(c) => KindOfErrorText(CreateDir, c);
    case Ok =>
      match env.writeFile
      case Failed(c) => KindOfErrorText(WriteCode, c);
      case Ok =>
        if env.modInit.Failed? {
          KindOfErrorText(InitModule, env.modInit.cause);
        }
  }

  /** The steps short-circuit in order: nothing is written when the directory
      could not be created, and `go run` starts only after the code was
      written and the module initialised, both successfully. */
  lemma ActionsShortCircuit(code: string, env: Environment, d: Dir)
    ensures env.mkdirTemp.Failed? ==> forall a :: a in Actions(code, env, d) ==> a.MkdirTemp?
    ensures GoRun(d) in Actions(code, env, d) <==>
              env.mkdirTemp.Ok? && env.writeFile.Ok? && env.modInit.Ok?
    ensures GoRun(d) in Actions(code, env, d) ==>
              Actions(code, env, d) == [MkdirTemp(Some(d)), WriteFile(d, "main.go", code), ModInit(d), GoRun(d), RemoveAll(d)]
  {
  }

  /** Once the directory exists it is removed, last, exactly once. */
  lemma ActionsCleanUp(code: string, env: Environment, d: Dir)
    ensures var acts := Actions(code, env, d);
            env.mkdirTemp.Ok? ==>
              && acts[0] == MkdirTemp(Some(d))
              && acts[|acts| - 1] == RemoveAll(d)
              && forall k :: 0 <= k < |acts| - 1 ==> acts[k] != RemoveAll(d)
  {
    var staged := StagedActions(code, env, d);
    assert forall k :: 0 <= k < |staged| ==> staged[k] != RemoveAll(d);
  }

  /** The machine as the runner sees it: its live temporary directories and
      the effects caused so far. Each method stands for one call into the
      filesystem or the toolchain; its outcome is a parameter. */
  class Host {
    var nextDir: Dir
    ghost var live: set<Dir>
    ghost var trace: seq<Action>

    ghost predicate Valid()
      reads this
    {
      forall d :: d in live ==> d < nextDir
    }

    constructor ()
      ensures Valid() && live == {} && trace == []
    {
      nextDir := 0;
      live := {};
      trace := [];
    }

    /** os.MkdirTemp: on success a new directory, not live before, exists. */
    method MkdirTemp(outcome: Status) returns (dir: Dir, err: Status)
      requires Valid()
      modifies this
      ensures Valid()
      ensures err == outcome && dir == old(nextDir)
      ensures err.Ok? ==> dir !in old(live) && live == old(live) + {dir}
      ensures err.Failed? ==> live == old(live)
      ensures trace == old(trace) + [Action.MkdirTemp(if err.Ok? then Some(dir) else None)]
    {
      dir, err := nextDir, outcome;
      if err.Ok? {
        live := live + {dir};
        nextDir := nextDir + 1;
      }
      trace := trace + [Action.MkdirTemp(if err.Ok? then Some(dir) else None)];
    }

    /** os.WriteFile of main.go inside a live directory. */
    method WriteFile(dir: Dir, name: string, contents: string, outcome: Status) returns (err: Status)
      requires Valid() && dir in live
      modifies this`trace
      ensures err == outcome
      ensures trace == old(trace) + [Action.WriteFile(dir, name, contents)]
    {
      err := outcome;
      trace := trace + [Action.WriteFile(dir, name, contents)];
    }

    /** `go mod init playground` with the directory as working directory. */
    method GoModInit(dir: Dir, outcome: Status) returns (err: Status)
      requires Valid() && dir in live
      modifies this`trace
      ensures err == outcome
      ensures trace == old(trace) + [ModInit(dir)]
    {
      err := outcome;
      trace := trace + [ModInit(dir)];
    }

    /** `go run main.go` with the directory as working directory, capturing
        both streams. */
    method GoRun(dir: Dir, outcome: Execution) returns (err: Status, stdout: string, stderr: string)
      requires Valid() && dir in live
      modifies this`trace
      ensures err == outcome.status && stdout == outcome.stdout && stderr == outcome.stderr
      ensures trace == old(trace) + [Action.GoRun(dir)]
    {
      err, stdout, stderr := outcome.status, outcome.stdout, outcome.stderr;
      trace := trace + [Action.GoRun(dir)];
    }

    /** os.RemoveAll: the directory is gone. */
    method RemoveAll(dir: Dir)
      requires Valid()
      modifies this`live, this`trace
      ensures Valid()
      ensures live == old(live) - {dir}
      ensures trace == old(trace) + [Action.RemoveAll(dir)]
    {
      live := live - {dir};
      trace := trace + [Action.RemoveAll(dir)];
    }
  }

  /** runGoCode (main.go:233-287). Every temporary directory it creates is
      removed before it returns, whichever way it returns; exactly one of
      output and error is meaningful. */
  method RunGoCode(host: Host, code: string, env: Environment) returns (output: string, err: Option<string>)
    requires host.Valid()
    modifies host
    ensures host.Valid()
    ensures host.live == old(host.live)
    ensures host.trace == old(host.trace) + Actions(code, env, old(host.nextDir))
    ensures err == Failure(env)
    ensures err.Some? ==> output == ""
    ensures err.None? ==> output == TrimSpace(Joined(env.goRun.stdout, env.goRun.stderr))
  {
    var tempDir, mkErr := host.MkdirTemp(env.mkdirTemp);
    if mkErr.Failed? {
      return "", Some(ErrorText(CreateDir, mkErr.cause));
    }
    // defer os.RemoveAll(tempDir): one removal after everything else
    output, err := RunInDir(host, tempDir, code, env);
    host.RemoveAll(tempDir);
  }

  /** The body of runGoCode between creating the directory and the deferred
      removal (main.go:241-286). */
  method RunInDir(host: Host, tempDir: Dir, code: string, env: Environment) returns (output: string, err: Option<string>)
    requires host.Valid() && tempDir in host.live && env.mkdirTemp.Ok?
    modifies host`trace
    ensures host.trace == old(host.trace) + StagedActions(code, env, tempDir)
    ensures err == Failure(env)
    ensures err.Some? ==> output == ""
    ensures err.None? ==> output == TrimSpace(Joined(env.goRun.stdout, env.goRun.stderr))
  {
    var writeErr := host.WriteFile(tempDir, "main.go", code, env.writeFile);
    if writeErr.Failed? {
      return "", Some(ErrorText(WriteCode, writeErr.cause));
    }
    var initErr := host.GoModInit(tempDir, env.modInit);
    if initErr.Failed? {
      return "", Some(ErrorText(InitModule, initErr.cause));
    }
    var runErr, stdout, stderr := host.GoRun(tempDir, env.goRun);
    if runErr.Failed? {
      return "", Some(RunFailure(runErr.cause, stderr));
    }
    output := AssembleOutput(stdout, stderr);
    err := None;
  }
}
