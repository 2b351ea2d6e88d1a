/**
 * The one-shot Docker sandbox of agents/tool_executor.py (`CodeExecutorTool`)
 * and coder/sandbox.py (`CodeSandbox`). Both make the image available at
 * construction, and both run a script the same way: temporary directory,
 * script file, container with memory and network limits, wait, stdout, stderr,
 * remove, result. They differ only in the value returned when a Docker call
 * inside the `try` raises.
 */
module Sandbox {
  import opened Wrappers
  import opened DockerHost

  const Image: string := "python:3.11-slim"
  const DefaultTimeout: int := 30
  const ScriptName: string := "script.py"
  const MountPoint: string := "/workspace"
  const MemLimit: string := "512m"

  // ---------------------------------------------------------------------------
  // `str(timeout)`: decimal rendering of an int, and reading it back.

  predicate IsDigit(c: char) {
    '0' <= c <= '9'
  }

  function DigitChar(d: nat): (c: char)
    requires d < 10
    ensures IsDigit(c) && c as int - '0' as int == d
  {
    (('0' as int) + d) as char
  }

  /** Decimal digits of `n`, most significant first, no leading zeros. */
  function Digits(n: nat): (s: string)
    ensures s != [] && forall i :: 0 <= i < |s| ==> IsDigit(s[i])
  {
    if n < 10 then [DigitChar(n)] else Digits(n / 10) + [DigitChar(n % 10)]
  }

  function DigitsValue(s: string): nat
    requires forall i :: 0 <= i < |s| ==> IsDigit(s[i])
  {
    if s == [] then 0
    else
      assert IsDigit(s[|s| - 1]);
      DigitsValue(s[..|s| - 1]) * 10 + (s[|s| - 1] as int - '0' as int)
  }

  /** Python's `str(n)` for an int: a '-' before the digits of a negative number. */
  function Decimal(n: int): (r: string)
    ensures r != [] && (r[0] == '-' <==> n < 0)
    ensures forall i :: (if n < 0 then 1 else 0) <= i < |r| ==> IsDigit(r[i])
  {
    if n < 0 then "-" + Digits(-n) else Digits(n)
  }

  /** Reads an optionally negative decimal numeral; `None` for anything else. */
  function ParseDecimal(s: string): Option<int> {
    if |s| >= 2 && s[0] == '-' && forall i :: 1 <= i < |s| ==> IsDigit(s[i]) then
      assert forall i :: 0 <= i < |s[1..]| ==> s[1..][i] == s[i + 1];
      var magnitude: int := DigitsValue(s[1..]);
      Some(-magnitude)
    else if s != [] && forall i :: 0 <= i < |s| ==> IsDigit(s[i]) then Some(DigitsValue(s))
    else None
  }

  lemma {:induction false} DigitsRoundTrip(n: nat)
    ensures DigitsValue(Digits(n)) == n
  {
    if n >= 10 {
      DigitsRoundTrip(n / 10);
      var s := Digits(n);
      assert s[..|s| - 1] == Digits(n / 10);
    }
  }

  /** The timeout handed to the container's command reads back as the timeout given. */
  lemma DecimalRoundTrip(n: int)
    ensures ParseDecimal(Decimal(n)) == Some(n)
  {
    if n < 0 {
      DigitsRoundTrip(-n);
      assert Decimal(n)[1..] == Digits(-n);
    } else {
      DigitsRoundTrip(n);
    }
  }

  // ---------------------------------------------------------------------------
  // Launch configuration.

  function ScriptPath(dir: Dir): Path {
    Path(dir, ScriptName)
  }

  /** The arguments of `containers.run` for a script written into `dir`. */
  function LaunchFor(dir: Dir, timeout: int): (r: LaunchConfig)
    ensures r.volumes.Keys == {dir} && r.volumes[dir] == Mount(r.workingDir, "rw")
    ensures |r.command| == 4
  {
    LaunchConfig(
      image := Image,
      command := ["timeout", Decimal(timeout), "python", "/script.py"],
      volumes := map[dir := Mount(MountPoint, "rw")],
      workingDir := MountPoint,
      memLimit := MemLimit,
      networkDisabled := true,
      detach := true)
  }

  /**
   * Every container runs the image under `timeout <timeout>` with 512 MB of memory,
   * no network and, as its only mount, the run's own directory read-write at its
   * working directory.
   */
  lemma LaunchLimits(dir: Dir, timeout: int)
    ensures var cfg := LaunchFor(dir, timeout);
      && cfg.image == Image && cfg.memLimit == "512m" && cfg.networkDisabled && cfg.detach
      && |cfg.command| == 4 && cfg.command[0] == "timeout" && ParseDecimal(cfg.command[1]) == Some(timeout)
      && cfg.command[2..] == ["python", "/script.py"]
      && cfg.workingDir == "/workspace"
      && cfg.volumes.Keys == {dir} && cfg.volumes[dir] == Mount(cfg.workingDir, "rw")
  {
    DecimalRoundTrip(timeout);
  }

  /**
   * The script is written to `script.py` in the directory mounted at /workspace,
   * so inside the container it is /workspace/script.py; the command runs /script.py.
   */
  lemma ScriptNotAtCommandPath(dir: Dir, timeout: int)
    ensures var cfg := LaunchFor(dir, timeout);
      cfg.volumes[ScriptPath(dir).dir].bind + "/" + ScriptPath(dir).name != cfg.command[3]
  {
  }

  // ---------------------------------------------------------------------------
  // Results.

  datatype Value = Text(text: string) | Number(number: int)

  /** The dictionary a run returns. */
  type Dict = map<string, Value>

  /** What a call of `run` gives its caller: a dictionary, or an exception that escapes. */
  datatype Outcome = Returned(result: Dict) | Raised(message: string)

  /** How a failure caught inside the `try` is reported. */
  datatype ErrorStyle =
    | ErrorKey          // agents/tool_executor.py: {"error": str(e)}
    | FoldedIntoStderr  // coder/sandbox.py: {"stdout": "", "stderr": str(e), "exit_code": -1}

  function CompletedResult(stdout: string, stderr: string, status: int): Dict {
    map["stdout" := Text(stdout), "stderr" := Text(stderr), "exit_code" := Number(status)]
  }

  function ErrorResult(style: ErrorStyle, message: string): Dict {
    match style
    case ErrorKey => map["error" := Text(message)]
    case FoldedIntoStderr => map["stdout" := Text(""), "stderr" := Text(message), "exit_code" := Number(-1)]
  }

  // ---------------------------------------------------------------------------
  // The ways one run can go: each names the first call that raised, or none.

  datatype RunPath =
    | TempDirFailed(message: string)
    | WriteFailed(dir: Dir, message: string)
    | LaunchFailed(dir: Dir, unstarted: Option<ContainerId>, message: string)
    | WaitFailed(dir: Dir, id: ContainerId, message: string)
    | StdoutFailed(dir: Dir, id: ContainerId, status: int, message: string)
    | StderrFailed(dir: Dir, id: ContainerId, status: int, stdout: string, message: string)
    | RemoveFailed(dir: Dir, id: ContainerId, status: int, stdout: string, stderr: string, message: string)
    | Completed(dir: Dir, id: ContainerId, status: int, stdout: string, stderr: string)
  {
    /** The run raised out of `run` (a failure outside the `try`). */
    predicate Escapes() {
      TempDirFailed? || WriteFailed?
    }

    /** A call inside the `try` raised. */
    predicate Caught() {
      !Escapes() && !Completed?
    }

    /** A container was started. */
    predicate Launched() {
      (Caught() && !LaunchFailed?) || Completed?
    }
  }

  /** The calls made inside the `try`, in order. */
  function TryEvents(p: RunPath, timeout: int): seq<Event>
    requires !p.Escapes()
  {
    var cfg := LaunchFor(p.dir, timeout);
    if p.LaunchFailed? then [ContainerRun(cfg, Failure(p.message), p.unstarted)]
    else [ContainerRun(cfg, Success(p.id), None)] + CollectEvents(p)
  }

  /** The calls made on a started container: wait, read stdout, read stderr, remove. */
  function CollectEvents(p: RunPath): seq<Event>
    requires p.Launched()
  {
    match p
    case WaitFailed(_, id, m) =>
      [ContainerWait(id, Failure(m))]
    case StdoutFailed(_, id, st, m) =>
      [ContainerWait(id, Success(st)), ContainerLogs(id, true, false, Failure(m))]
    case StderrFailed(_, id, st, out, m) =>
      [ContainerWait(id, Success(st)), ContainerLogs(id, true, false, Success(out)),
       ContainerLogs(id, false, true, Failure(m))]
    case RemoveFailed(_, id, st, out, err, m) =>
      [ContainerWait(id, Success(st)), ContainerLogs(id, true, false, Success(out)),
       ContainerLogs(id, false, true, Success(err)), ContainerRemove(id, Some(m))]
    case Completed(_, id, st, out, err) =>
      [ContainerWait(id, Success(st)), ContainerLogs(id, true, false, Success(out)),
       ContainerLogs(id, false, true, Success(err)), ContainerRemove(id, None)]
  }

  /** Every call a run makes on the host, in order. */
  function Events(p: RunPath, code: string, timeout: int): seq<Event> {
    if p.TempDirFailed? then [TempDirCreate(Failure(p.message))]
    else [TempDirCreate(Success(p.dir))] + InDirEvents(p, code, timeout)
  }

  /** The calls made inside the `with` block, ending with the deletion of the directory. */
  function InDirEvents(p: RunPath, code: string, timeout: int): seq<Event>
    requires !p.TempDirFailed?
  {
    if p.WriteFailed? then [FileWrite(ScriptPath(p.dir), code, Some(p.message)), TempDirDelete(p.dir)]
    else [FileWrite(ScriptPath(p.dir), code, None)] + TryEvents(p, timeout) + [TempDirDelete(p.dir)]
  }

  /** What the run gives its caller. */
  function OutcomeOf(p: RunPath, style: ErrorStyle): (r: Outcome)
    ensures r.Raised? <==> p.Escapes()
    ensures r.Raised? ==> r.message == p.message
    ensures p.Completed? ==> r.Returned? && "exit_code" in r.result && r.result["exit_code"] == Number(p.status)
  {
    match p
    case TempDirFailed(m) => Raised(m)
    case WriteFailed(_, m) => Raised(m)
    case Completed(_, _, st, out, err) => Returned(CompletedResult(out, err, st))
    case _ => Returned(ErrorResult(style, p.message))
  }

  /** Containers the run leaves behind. */
  function LeakedBy(p: RunPath): set<ContainerId> {
    if p.LaunchFailed? && p.unstarted.Some? then {p.unstarted.value}
    else if p.Launched() && !p.Completed? then {p.id}
    else {}
  }

  // ---------------------------------------------------------------------------
  // Properties of every run.

  /**
   * `coder/sandbox.py` always returns exactly `stdout`, `stderr` and `exit_code`;
   * `agents/tool_executor.py` returns those three, or `error` alone. A completed run
   * reports what the two log reads returned and the status `wait` returned.
   */
  lemma ResultShape(p: RunPath, style: ErrorStyle, code: string, timeout: int)
    ensures OutcomeOf(p, style).Raised? <==> p.Escapes()
    ensures OutcomeOf(p, style).Returned? ==>
      var r := OutcomeOf(p, style).result;
      if style == FoldedIntoStderr || p.Completed?
      then r.Keys == {"stdout", "stderr", "exit_code"}
      else r.Keys == {"error"}
    ensures p.Completed? ==>
      && OutcomeOf(p, style) == Returned(CompletedResult(p.stdout, p.stderr, p.status))
      && Events(p, code, timeout)[3] == ContainerWait(p.id, Success(p.status))
      && Events(p, code, timeout)[4] == ContainerLogs(p.id, true, false, Success(p.stdout))
      && Events(p, code, timeout)[5] == ContainerLogs(p.id, false, true, Success(p.stderr))
    ensures p.Caught() && style == FoldedIntoStderr ==>
      OutcomeOf(p, style).result == map["stdout" := Text(""), "stderr" := Text(p.message), "exit_code" := Number(-1)]
  {
  }

  /** The two files agree on every run except in the dictionary reporting a caught failure. */
  lemma StylesAgree(p: RunPath)
    ensures !p.Caught() ==> OutcomeOf(p, ErrorKey) == OutcomeOf(p, FoldedIntoStderr)
    ensures p.Caught() ==>
      && OutcomeOf(p, ErrorKey) == Returned(ErrorResult(ErrorKey, p.message))
      && OutcomeOf(p, FoldedIntoStderr) == Returned(ErrorResult(FoldedIntoStderr, p.message))
  {
  }

  /**
   * Once the temporary directory exists, the last call of the run deletes it, and no
   * other call deletes a directory: it is deleted exactly once, on every path.
   */
  lemma TempDirDeletedOnce(p: RunPath, code: string, timeout: int)
    ensures var t := Events(p, code, timeout);
      && t[0].TempDirCreate?
      && (t[0].created.Success? ==> |t| >= 3 && t[|t| - 1] == TempDirDelete(t[0].created.value))
      && (t[0].created.Failure? ==> |t| == 1)
      && forall i :: 0 <= i < |t| - 1 ==> !t[i].TempDirDelete?
  {
    if !p.Escapes() {
      var body := [TempDirCreate(Success(p.dir)), FileWrite(ScriptPath(p.dir), code, None)] + TryEvents(p, timeout);
      var t := body + [TempDirDelete(p.dir)];
      EventsShape(p, code, timeout);
      TryKeepsDir(p, timeout);
      assert t[0] == body[0];
      forall i | 0 <= i < |t| - 1 ensures !t[i].TempDirDelete? {
        assert t[i] == body[i];
        if i >= 2 {
          assert body[i] == TryEvents(p, timeout)[i - 2];
        }
      }
    }
  }

  /** A run whose write succeeded: creation, write, the `try`, deletion. */
  lemma EventsShape(p: RunPath, code: string, timeout: int)
    requires !p.Escapes()
    ensures Events(p, code, timeout)
      == [TempDirCreate(Success(p.dir)), FileWrite(ScriptPath(p.dir), code, None)] + TryEvents(p, timeout) + [TempDirDelete(p.dir)]
  {
  }

  ghost predicate KeepsDir(t: seq<Event>) {
    forall i :: 0 <= i < |t| ==> !t[i].TempDirDelete?
  }

  lemma TryKeepsDir(p: RunPath, timeout: int)
    requires !p.Escapes()
    ensures KeepsDir(TryEvents(p, timeout))
  {
  }



  /**
   * The script file, holding exactly `code`, is written before any container starts,
   * and a container is started only when the write succeeded.
   */
  lemma WriteBeforeLaunch(p: RunPath, code: string, timeout: int)
    ensures var t := Events(p, code, timeout);
      forall i :: 0 <= i < |t| && t[i].ContainerRun? ==>
        && i == 2
        && t[1] == FileWrite(ScriptPath(t[0].created.value), code, None)
        && t[i].config == LaunchFor(t[0].created.value, timeout)
  {
  }

  /**
   * In the trace `t`, every removal of a container comes right after a successful
   * `wait`, a successful read of stdout and then a successful read of stderr of that
   * same container, in that order.
   */
  ghost predicate RemovesAfterCollecting(t: seq<Event>) {
    forall i :: 0 <= i < |t| && t[i].ContainerRemove? ==>
      && i >= 3
      && t[i - 3].ContainerWait? && t[i - 3].id == t[i].id && t[i - 3].status.Success?
      && t[i - 2].ContainerLogs? && t[i - 2].id == t[i].id && t[i - 2].stdout && !t[i - 2].stderr
      && t[i - 2].text.Success?
      && t[i - 1].ContainerLogs? && t[i - 1].id == t[i].id && !t[i - 1].stdout && t[i - 1].stderr
      && t[i - 1].text.Success?
  }

  ghost predicate NoRemoval(t: seq<Event>) {
    forall i :: 0 <= i < |t| ==> !t[i].ContainerRemove?
  }

  /** In the trace `t`, no call other than the one at index `k` removes a container. */
  ghost predicate RemovalOnlyAt(t: seq<Event>, k: nat) {
    forall i :: 0 <= i < |t| && t[i].ContainerRemove? ==> i == k
  }

  /**
   * The container is removed only after its status and both logs were collected,
   * and a removal is always the seventh call of the run.
   */
  lemma RemoveAfterCollect(p: RunPath, code: string, timeout: int)
    ensures RemovesAfterCollecting(Events(p, code, timeout))
    ensures RemovalOnlyAt(Events(p, code, timeout), 6)
  {
    if !p.TempDirFailed? {
      InDirOrder(p, code, timeout);
      RemovalsAfter([TempDirCreate(Success(p.dir))], InDirEvents(p, code, timeout));
    }
    if !p.Escapes() {
      var opening := [TempDirCreate(Success(p.dir)), FileWrite(ScriptPath(p.dir), code, None)];
      EventsShape(p, code, timeout);
      TryRemovalAt(p, timeout);
      RemovalShifted(opening, TryEvents(p, timeout), 4);
      RemovalKept(opening + TryEvents(p, timeout), [TempDirDelete(p.dir)], 6);
    }
  }

  lemma TryRemovalAt(p: RunPath, timeout: int)
    requires !p.Escapes()
    ensures RemovalOnlyAt(TryEvents(p, timeout), 4)
  {
    if !p.LaunchFailed? {
      var run := [ContainerRun(LaunchFor(p.dir, timeout), Success(p.id), None)];
      assert RemovalOnlyAt(CollectEvents(p), 3);
      RemovalShifted(run, CollectEvents(p), 3);
    }
  }

  lemma RemovalShifted(a: seq<Event>, b: seq<Event>, k: nat)
    requires NoRemoval(a) && RemovalOnlyAt(b, k)
    ensures RemovalOnlyAt(a + b, |a| + k)
  {
    var t := a + b;
    forall i | 0 <= i < |t| && t[i].ContainerRemove? ensures i == |a| + k {
      assert t[i] == b[i - |a|];
    }
  }

  lemma RemovalKept(a: seq<Event>, b: seq<Event>, k: nat)
    requires RemovalOnlyAt(a, k) && NoRemoval(b)
    ensures RemovalOnlyAt(a + b, k)
  {
  }

  lemma InDirOrder(p: RunPath, code: string, timeout: int)
    requires !p.TempDirFailed?
    ensures RemovesAfterCollecting(InDirEvents(p, code, timeout))
  {
    if !p.WriteFailed? {
      var write := [FileWrite(ScriptPath(p.dir), code, None)];
      TryOrder(p, timeout);
      RemovalsAfter(write, TryEvents(p, timeout));
      RemovalsBefore(write + TryEvents(p, timeout), [TempDirDelete(p.dir)]);
    }
  }

  lemma TryOrder(p: RunPath, timeout: int)
    requires !p.Escapes()
    ensures RemovesAfterCollecting(TryEvents(p, timeout))
  {
    if !p.LaunchFailed? {
      CollectOrder(p);
      RemovalsAfter([ContainerRun(LaunchFor(p.dir, timeout), Success(p.id), None)], CollectEvents(p));
    }
  }

  lemma CollectOrder(p: RunPath)
    requires p.Launched()
    ensures RemovesAfterCollecting(CollectEvents(p))
  {
  }

  /** Calls that remove nothing, made before a trace, keep its removals in order. */
  lemma RemovalsAfter(a: seq<Event>, b: seq<Event>)
    requires NoRemoval(a) && RemovesAfterCollecting(b)
    ensures RemovesAfterCollecting(a + b)
  {
    var t := a + b;
    forall i | 0 <= i < |t| && t[i].ContainerRemove?
      ensures i - |a| >= 3 && t[i - 3] == b[i - |a| - 3] && t[i - 2] == b[i - |a| - 2] && t[i - 1] == b[i - |a| - 1]
    {
      assert i >= |a|;
      assert t[i] == b[i - |a|];
    }
  }

  /** Calls that remove nothing, made after a trace, keep its removals in order. */
  lemma RemovalsBefore(a: seq<Event>, b: seq<Event>)
    requires RemovesAfterCollecting(a) && NoRemoval(b)
    ensures RemovesAfterCollecting(a + b)
  {
    var t := a + b;
    forall i | 0 <= i < |t| && t[i].ContainerRemove?
      ensures i < |a| && t[i] == a[i] && t[i - 3] == a[i - 3] && t[i - 2] == a[i - 2] && t[i - 1] == a[i - 1]
    {
    }
  }

  /**
   * A container is left behind exactly when one was created and a call inside the `try`
   * raised, including `containers.run` itself raising after creating it: the error path
   * does no container teardown. At most one container is left behind.
   */
  lemma ErrorPathLeaks(p: RunPath)
    ensures LeakedBy(p) != {} <==> p.Caught() && !(p.LaunchFailed? && p.unstarted.None?)
    ensures p.Launched() && !p.Completed? ==> LeakedBy(p) == {p.id}
    ensures p.LaunchFailed? && p.unstarted.Some? ==> LeakedBy(p) == {p.unstarted.value}
    ensures p.Completed? ==> LeakedBy(p) == {}
  {
  }

  // ---------------------------------------------------------------------------
  // The run itself.

  /**
   * The `try` block of `run`: start the container, wait, read stdout, read stderr,
   * remove it and build the result; the first call that raises ends the block with
   * the error result of `style`.
   */
  method Attempt(host: Host, dir: Dir, timeout: int, style: ErrorStyle) returns (result: Dict, ghost path: RunPath)
    requires host.Valid()
    modifies host
    ensures host.Valid()
    ensures !path.Escapes() && path.dir == dir
    ensures host.trace == old(host.trace) + TryEvents(path, timeout)
    ensures OutcomeOf(path, style) == Returned(result)
    ensures LeakedBy(path) !! old(host.live)
    ensures old(host.images) <= host.images <= old(host.images) + {Image}
    ensures Image in old(host.images) ==> host.images == old(host.images)
    ensures host.dirs == old(host.dirs) && host.files == old(host.files)
    ensures host.live == old(host.live) + LeakedBy(path)
  {
    var started, unstarted := host.RunContainer(LaunchFor(dir, timeout));
    if started.Failure? {
      result, path := ErrorResult(style, started.error), LaunchFailed(dir, unstarted, started.error);
      return;
    }
    result, path := Collect(host, dir, started.value, style);
  }

  /**
   * The rest of the `try` once the container is running: wait for it, read stdout,
   * read stderr, remove it and build the result; the first call that raises ends it.
   */
  method Collect(host: Host, dir: Dir, id: ContainerId, style: ErrorStyle) returns (result: Dict, ghost path: RunPath)
    requires host.Valid()
    modifies host
    ensures host.Valid()
    ensures path.Launched() && path.dir == dir && path.id == id
    ensures host.trace == old(host.trace) + CollectEvents(path)
    ensures OutcomeOf(path, style) == Returned(result)
    ensures host.images == old(host.images) && host.dirs == old(host.dirs) && host.files == old(host.files)
    ensures host.live == if path.Completed? then old(host.live) - {id} else old(host.live)
  {
    var status := host.Wait(id);
    if status.Failure? {
      result, path := ErrorResult(style, status.error), WaitFailed(dir, id, status.error);
      return;
    }
    var stdout := host.Logs(id, true, false);
    if stdout.Failure? {
      result, path := ErrorResult(style, stdout.error), StdoutFailed(dir, id, status.value, stdout.error);
      return;
    }
    var stderr := host.Logs(id, false, true);
    if stderr.Failure? {
      result := ErrorResult(style, stderr.error);
      path := StderrFailed(dir, id, status.value, stdout.value, stderr.error);
      return;
    }
    var removed := host.RemoveContainer(id);
    if removed.Some? {
      result := ErrorResult(style, removed.value);
      path := RemoveFailed(dir, id, status.value, stdout.value, stderr.value, removed.value);
    } else {
      result := CompletedResult(stdout.value, stderr.value, status.value);
      path := Completed(dir, id, status.value, stdout.value, stderr.value);
    }
  }

  /**
   * `run(code, timeout)`: enter a temporary directory, write the script, then inside a
   * `try` start the container, wait, read stdout, read stderr, remove it and build the
   * result; leaving the `with` deletes the directory on every path.
   */
  method RunOnce(host: Host, code: string, timeout: int, style: ErrorStyle) returns (outcome: Outcome, ghost path: RunPath)
    requires host.Valid()
    modifies host
    ensures host.Valid()
    ensures host.trace == old(host.trace) + Events(path, code, timeout)
    ensures outcome == OutcomeOf(path, style)
    ensures !path.TempDirFailed? ==> path.dir !in old(host.dirs)
    ensures LeakedBy(path) !! old(host.live)
    ensures old(host.images) <= host.images <= old(host.images) + {Image}
    ensures Image in old(host.images) ==> host.images == old(host.images)
    ensures host.dirs == old(host.dirs) && host.files == old(host.files)
    ensures host.live == old(host.live) + LeakedBy(path)
  {
    var created := host.CreateTempDir();
    if created.Failure? {
      outcome, path := Raised(created.error), TempDirFailed(created.error);
      return;
    }
    ghost var before := old(host.trace);
    outcome, path := RunInDir(host, created.value, code, timeout, style);
    EventsInDir(path, code, timeout, before, host.trace);
  }

  /** A run that created its directory makes the creation call and then the calls of the `with` block. */
  lemma EventsInDir(p: RunPath, code: string, timeout: int, before: seq<Event>, after: seq<Event>)
    requires !p.TempDirFailed?
    requires after == before + [TempDirCreate(Success(p.dir))] + InDirEvents(p, code, timeout)
    ensures after == before + Events(p, code, timeout)
  {
  }

  /**
   * The body of the `with` block, in a directory that was just created and is empty:
   * write the script, run the `try`, and delete the directory on the way out, also
   * when the write raised.
   */
  method RunInDir(host: Host, dir: Dir, code: string, timeout: int, style: ErrorStyle) returns (outcome: Outcome, ghost path: RunPath)
    requires host.Valid() && dir in host.dirs
    requires forall q :: q in host.files ==> q.dir != dir
    modifies host
    ensures host.Valid()
    ensures !path.TempDirFailed? && path.dir == dir
    ensures host.trace == old(host.trace) + InDirEvents(path, code, timeout)
    ensures outcome == OutcomeOf(path, style)
    ensures LeakedBy(path) !! old(host.live)
    ensures old(host.images) <= host.images <= old(host.images) + {Image}
    ensures Image in old(host.images) ==> host.images == old(host.images)
    ensures host.dirs == old(host.dirs) - {dir} && host.files == old(host.files)
    ensures host.live == old(host.live) + LeakedBy(path)
  {
    ghost var files0, before := host.files, host.trace;
    var written := host.WriteFile(ScriptPath(dir), code);
    if written.Some? {
      host.DeleteTempDir(dir);
      outcome, path := Raised(written.value), WriteFailed(dir, written.value);
      assert host.files == files0;
      return;
    }
    var result;
    result, path := Attempt(host, dir, timeout, style);
    host.DeleteTempDir(dir);
    outcome := Returned(result);
    assert host.files == files0;
    EventsOfTry(path, code, timeout, before, host.trace);
  }

  /** Inside the `with` block, a successful write is followed by the `try` and then the deletion. */
  lemma EventsOfTry(p: RunPath, code: string, timeout: int, before: seq<Event>, after: seq<Event>)
    requires !p.Escapes()
    requires after == before + [FileWrite(ScriptPath(p.dir), code, None)] + TryEvents(p, timeout) + [TempDirDelete(p.dir)]
    ensures after == before + InDirEvents(p, code, timeout)
  {
  }

  // ---------------------------------------------------------------------------
  // Construction: make the image available.

  /** How `__init__` made the image available: `images.get` found it, or `images.pull` was tried after it raised. */
  datatype ImagePath =
    | Present
    | Pulled(getMessage: string)
    | PullFailed(getMessage: string, message: string)

  function ImageEvents(p: ImagePath): seq<Event> {
    match p
    case Present => [ImageGet(Image, None)]
    case Pulled(g) => [ImageGet(Image, Some(g)), ImagePull(Image, None)]
    case PullFailed(g, m) => [ImageGet(Image, Some(g)), ImagePull(Image, Some(m))]
  }

  /**
   * `images.get`, and `images.pull` only when `get` raised. A pull that raises escapes
   * `__init__`, so no object is made.
   */
  method EnsureImage(host: Host) returns (failure: Option<string>, ghost path: ImagePath)
    requires host.Valid()
    modifies host
    ensures host.Valid()
    ensures host.trace == old(host.trace) + ImageEvents(path)
    ensures failure == if path.PullFailed? then Some(path.message) else None
    ensures Image !in old(host.images) ==> !path.Present?
    ensures host.images == if path.Pulled? then old(host.images) + {Image} else old(host.images)
    ensures failure.None? ==> Image in host.images
    ensures host.dirs == old(host.dirs) && host.files == old(host.files) && host.live == old(host.live)
  {
    var got := host.GetImage(Image);
    if got.None? {
      failure, path := None, Present;
      return;
    }
    var pulled := host.PullImage(Image);
    if pulled.None? {
      failure, path := None, Pulled(got.value);
    } else {
      failure, path := pulled, PullFailed(got.value, pulled.value);
    }
  }

  /** `CodeExecutorTool` of agents/tool_executor.py. */
  class CodeExecutorTool {
    const name: string := "code_executor"
    const client: Host

    /**
     * Only stores the client; it does not look for the image. The source's `__init__`,
     * image check included, is `NewCodeExecutorTool`.
     */
    constructor (client: Host)
      ensures this.client == client
    {
      this.client := client;
    }

    /** `run`: a caught failure is reported as `{"error": message}`. */
    method Run(code: string, timeout: int := DefaultTimeout) returns (outcome: Outcome, ghost path: RunPath)
      requires client.Valid()
      modifies client
      ensures client.Valid()
      ensures client.trace == old(client.trace) + Events(path, code, timeout)
      ensures outcome == OutcomeOf(path, ErrorKey)
      ensures old(client.images) <= client.images <= old(client.images) + {Image}
      ensures Image in old(client.images) ==> client.images == old(client.images)
      ensures !path.TempDirFailed? ==> path.dir !in old(client.dirs)
      ensures LeakedBy(path) !! old(client.live)
      ensures client.dirs == old(client.dirs) && client.files == old(client.files)
      ensures client.live == old(client.live) + LeakedBy(path)
    {
      outcome, path := RunOnce(client, code, timeout, ErrorKey);
    }
  }

  /** `CodeExecutorTool.__init__`: a tool on `client` once the image is available, or the pull's exception. */
  method NewCodeExecutorTool(client: Host) returns (made: Result<CodeExecutorTool, string>, ghost path: ImagePath)
    requires client.Valid()
    modifies client
    ensures client.Valid()
    ensures client.trace == old(client.trace) + ImageEvents(path)
    ensures made.Failure? <==> path.PullFailed?
    ensures made.Failure? ==> made.error == path.message
    ensures made.Success? ==> fresh(made.value) && made.value.client == client && Image in client.images
    ensures client.images == if path.Pulled? then old(client.images) + {Image} else old(client.images)
    ensures client.dirs == old(client.dirs) && client.files == old(client.files) && client.live == old(client.live)
  {
    var failure;
    failure, path := EnsureImage(client);
    if failure.Some? {
      made := Failure(failure.value);
    } else {
      var tool := new CodeExecutorTool(client);
      made := Success(tool);
    }
  }

  /** `CodeSandbox` of coder/sandbox.py. */
  class CodeSandbox {
    const client: Host

    /**
     * Only stores the client; it does not look for the image. The source's `__init__`,
     * image check included, is `NewCodeSandbox`.
     */
    constructor (client: Host)
      ensures this.client == client
    {
      this.client := client;
    }

    /** `run`: a caught failure is reported as `{"stdout": "", "stderr": message, "exit_code": -1}`. */
    method Run(code: string, timeout: int := DefaultTimeout) returns (outcome: Outcome, ghost path: RunPath)
      requires client.Valid()
      modifies client
      ensures client.Valid()
      ensures client.trace == old(client.trace) + Events(path, code, timeout)
      ensures outcome == OutcomeOf(path, FoldedIntoStderr)
      ensures old(client.images) <= client.images <= old(client.images) + {Image}
      ensures Image in old(client.images) ==> client.images == old(client.images)
      ensures !path.TempDirFailed? ==> path.dir !in old(client.dirs)
      ensures LeakedBy(path) !! old(client.live)
      ensures client.dirs == old(client.dirs) && client.files == old(client.files)
      ensures client.live == old(client.live) + LeakedBy(path)
    {
      outcome, path := RunOnce(client, code, timeout, FoldedIntoStderr);
    }
  }

  /** `CodeSandbox.__init__`: a sandbox on `client` once the image is available, or the pull's exception. */
  method NewCodeSandbox(client: Host) returns (made: Result<CodeSandbox, string>, ghost path: ImagePath)
    requires client.Valid()
    modifies client
    ensures client.Valid()
    ensures client.trace == old(client.trace) + ImageEvents(path)
    ensures made.Failure? <==> path.PullFailed?
    ensures made.Failure? ==> made.error == path.message
    ensures made.Success? ==> fresh(made.value) && made.value.client == client && Image in client.images
    ensures client.images == if path.Pulled? then old(client.images) + {Image} else old(client.images)
    ensures client.dirs == old(client.dirs) && client.files == old(client.files) && client.live == old(client.live)
  {
    var failure;
    failure, path := EnsureImage(client);
    if failure.Some? {
      made := Failure(failure.value);
    } else {
      var sandbox := new CodeSandbox(client);
      made := Success(sandbox);
    }
  }
}
