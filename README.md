# aurora-proto: executive agent planning and the one-shot Docker sandbox

This Dafny project models two pieces of the AURORA agent prototype.

**The executive agent** is `ExecutiveAgent` in agents/executive_agent.py. The model is in `executive_agent.dfy` and `plan_text.dfy`.

- Its constructor builds a name-to-tool registry from a list of tools. A later tool overwrites an earlier one with the same name.
- `plan` asks the generation engine once. If the answer decodes as JSON with a `"steps"` entry, that entry is the plan. Otherwise the answer is split on `"\n"`, every line is stripped, and blank lines are dropped.
- `self_audit` asks the engine once, at temperature 0.1. Its prompt holds at most the first 500 characters of the code and the first 300 of the output.

The generation engine is the class `Llm`. It logs every call and returns an arbitrary string. `json.loads(response)["steps"]` is a function parameter `decode`. It yields the steps, or `NoSteps` for anything that would raise on that line.

**The sandbox** is `CodeExecutorTool` (agents/tool_executor.py) and `CodeSandbox` (coder/sandbox.py). The model is in `docker_host.dfy` and `sandbox.dfy`.

- Construction gets the `python:3.11-slim` image, and pulls it only when `images.get` raises.
- `run` creates a temporary directory and writes `script.py` into it.
- Inside a `try`, it starts a container (`timeout <t> python /script.py`, 512m memory, no network, the directory bound read-write at `/workspace`). It waits, reads stdout and then stderr, removes the container, and returns `{stdout, stderr, exit_code}`.
- Leaving the `with` block deletes the directory on every path.

The machine is the class `Host`: temporary directories, files, images, live containers and a trace of every call. Every Docker, file or temp-dir call there, except deleting the directory, may fail with an arbitrary message. A container counts as live from its creation until its removal, whether it is running or has exited. The eight ways one run can end are the datatype `RunPath`. `Events`, `OutcomeOf` and `LeakedBy` say, for each path, which calls were made, what `run` returns and which container is left behind. `RunOnce` is proved to produce exactly these.

The two source files differ only in the dictionary returned for a failure caught by the `try`, so one method, parameterised by `ErrorStyle`, serves both classes.

The model follows the code as written, including where it does less than an agent sandbox is usually taken to do:

- The fallback plan is the list of non-blank lines of the answer, not a single step holding the goal.
- Steps are strings, not numbered records.
- The container is not removed when `wait`, a log read or `remove` raises, nor when `containers.run` raises after it created the container.
- There is no timeout sentinel: the exit code is whatever `wait` reports.

## Model

| member | source | states |
|---|---|---|
| `ExecutiveAgent.Registry` | agents/executive_agent.py:7 | the registry's keys are exactly the names of the given tools, and each key maps to a tool from the list that bears that name |
| `ExecutiveAgent.RegistryLastWins` | agents/executive_agent.py:7 | of several tools with one name, the registry keeps the last one in the list |
| `ExecutiveAgent.Agent.constructor` | agents/executive_agent.py:5-9 | the agent holds the engine, the registry of the tool list and `max_iterations` (default 5) |
| `ExecutiveAgent.PlanPrompt` | agents/executive_agent.py:12-14 | the planning prompt holds the whole goal at a fixed offset, between the fixed instruction text and the JSON format request |
| `ExecutiveAgent.ParsePlan` | agents/executive_agent.py:16-20 | a reply whose decoded JSON has a "steps" entry gives that entry unchanged; any other reply gives only stripped, non-empty, single-line steps |
| `ExecutiveAgent.Agent.Plan` | agents/executive_agent.py:11-20 | exactly one generator call, on the planning prompt at the default temperature; the plan is the decoded "steps" entry unchanged, or else the newline fallback of that same reply |
| `ExecutiveAgent.ParsePlanFallback` | agents/executive_agent.py:18-20 | a plan that did not come from JSON has only stripped, non-empty, single-line steps, at most one per line of the answer, and is empty exactly when the answer is blank |
| `ExecutiveAgent.Take` | agents/executive_agent.py:25-26 | Python's `s[:n]`: the first min(n, len s) characters of `s` |
| `ExecutiveAgent.AuditPromptEmbeds` | agents/executive_agent.py:23-28 | the audit prompt holds the first 500 characters of the code and the first 300 of the output, each at a fixed offset |
| `ExecutiveAgent.AuditPrompt` | agents/executive_agent.py:23-28 | the audit prompt holds the whole goal right after its fixed heading |
| `ExecutiveAgent.AuditPromptTruncatesCode` | agents/executive_agent.py:25 | once the code has 500 characters, characters appended to it do not change the prompt |
| `ExecutiveAgent.AuditPromptTruncatesOutput` | agents/executive_agent.py:26 | once the output has 300 characters, characters appended to it do not change the prompt |
| `ExecutiveAgent.Agent.SelfAudit` | agents/executive_agent.py:22-29 | exactly one generator call, on the audit prompt at temperature 0.1, and its reply is returned |
| `PlanText.SkipSpace` | agents/executive_agent.py:20 | the leading whitespace that `strip()` drops ends at the first non-whitespace character, or at the end of the string; everything before it is whitespace |
| `PlanText.SkipSpaceBack` | agents/executive_agent.py:20 | the trailing whitespace that `strip()` drops starts just past the last non-whitespace character; everything from there on is whitespace |
| `PlanText.Strip` | agents/executive_agent.py:20 | `strip()` yields the contiguous middle of the input, with only whitespace removed before and after it; the result is empty or starts and ends with non-whitespace, and is empty exactly when the input is all whitespace |
| `PlanText.Split` | agents/executive_agent.py:20 | `split("\n")` yields one more piece than there are newlines, and no piece holds a newline |
| `PlanText.Clean` | agents/executive_agent.py:20 | the comprehension keeps at most one step per line |
| `PlanText.CleanSource` | agents/executive_agent.py:20 | every kept step is the stripped form of some line |
| `PlanText.CleanKeeps` | agents/executive_agent.py:20 | every line that is not blank is kept, stripped, as some step |
| `PlanText.JoinSplit` | agents/executive_agent.py:20 | joining the pieces of `split("\n")` with newlines gives back the string |
| `PlanText.SplitJoin` | agents/executive_agent.py:20 | splitting newline-joined lines that hold no newline gives back the lines |
| `PlanText.CleanShape` | agents/executive_agent.py:20 | the comprehension keeps at most one entry per line, every entry is non-empty and stripped, and no entry gains a newline |
| `PlanText.FallbackSteps` | agents/executive_agent.py:18-20 | every fallback step is non-empty, has no leading or trailing whitespace and no newline; there are at most (newlines + 1) steps |
| `PlanText.CleanAppend` | agents/executive_agent.py:20 | order preservation: the steps of two consecutive groups of lines are the steps of the first followed by those of the second |
| `PlanText.FallbackEmpty` | agents/executive_agent.py:20 | the fallback plan is empty exactly when the response is empty or all whitespace |
| `PlanText.FallbackIdempotent` | agents/executive_agent.py:20 | joining the fallback steps with newlines and applying the fallback again gives the same steps |
| `PlanText.FallbackSingleLine` | agents/executive_agent.py:20 | a response that is one clean line is a one-step plan holding that line |
| `Sandbox.Decimal` | agents/tool_executor.py:34 | `str(timeout)` is non-empty, starts with '-' exactly for a negative timeout, and is otherwise made of decimal digits |
| `Sandbox.DecimalRoundTrip` | agents/tool_executor.py:34 | the `str(timeout)` in the container command reads back as the timeout given, negative values included |
| `Sandbox.LaunchFor` | agents/tool_executor.py:32-40 | the launch configuration mounts only the run's own directory, read-write at the container's working directory, and has a four-word command |
| `Sandbox.LaunchLimits` | agents/tool_executor.py:32-40 | the container runs `python:3.11-slim` with the command `timeout <timeout> python /script.py`, detached, with a 512m memory cap and no network, in `/workspace`; its only mount is the run's own directory, read-write at `/workspace` |
| `Sandbox.ScriptNotAtCommandPath` | agents/tool_executor.py:27-35 | the script lands at /workspace/script.py inside the container, which is not the /script.py the command runs |
| `Sandbox.OutcomeOf` | agents/tool_executor.py:45-51 | a run raises exactly when the temp-dir creation or the script write failed, with that call's message; a completed run returns a dictionary whose exit_code is `wait`'s status |
| `Sandbox.ResultShape` | agents/tool_executor.py:41-51 | only temp-dir and write failures escape; a returned value has exactly stdout/stderr/exit_code, or (error-key style, caught failure) exactly `error`; a completed result carries `wait`'s status and the stdout and stderr read in that order |
| `Sandbox.StylesAgree` | coder/sandbox.py:35-37 | the two classes return the same thing on every path except a caught failure, where the folded style gives stdout "", stderr the message and exit_code -1 |
| `Sandbox.TempDirDeletedOnce` | agents/tool_executor.py:26-51 | once the temporary directory exists, the run's last call deletes it and no earlier call deletes a directory; if creating it failed, nothing else happens |
| `Sandbox.WriteBeforeLaunch` | agents/tool_executor.py:26-32 | a container is started only as the third call, right after a successful write of exactly `code` to script.py in the run's directory, and with the launch configuration for that directory |
| `Sandbox.RemoveAfterCollect` | agents/tool_executor.py:41-44 | in every run's trace, a container is removed only right after a successful wait, a successful stdout-only read and then a successful stderr-only read of that same container, and a removal is always the seventh call |
| `Sandbox.ErrorPathLeaks` | agents/tool_executor.py:44-51 | a container is left behind exactly when one was created and a call in the `try` raised, including `containers.run` raising after creating it; at most one is left behind and a completed run leaves none |
| `Sandbox.Attempt` | agents/tool_executor.py:31-51 | the `try` block makes exactly the calls of its path and returns that path's dictionary; the only container it leaves live is a fresh leaked one, and it may add only the sandbox image, and only if it was absent |
| `Sandbox.Collect` | agents/tool_executor.py:41-51 | on a started container: wait, read stdout, read stderr, remove, each only when the one before succeeded; makes exactly the calls of its path and returns its dictionary; the container stays live unless the removal succeeded |
| `Sandbox.RunInDir` | agents/tool_executor.py:26-51 | in a fresh empty directory: write the script, run the `try` only when the write succeeded, and delete the directory on both paths, leaving the files as they were |
| `Sandbox.RunOnce` | coder/sandbox.py:15-37 | one run makes exactly the calls of some path and returns that path's outcome; directories and files end as they began, images gain at most the sandbox image when it was absent, and the only new live container is the fresh leaked one |
| `Sandbox.CodeExecutorTool.Run` | agents/tool_executor.py:24-51 | the `CodeExecutorTool` run, with a caught failure returned as `{"error": message}`; like `RunOnce`, it uses a new directory, restores dirs and files, and adds only the fresh leaked container to the live set |
| `Sandbox.CodeSandbox.Run` | coder/sandbox.py:15-37 | the `CodeSandbox` run, with a caught failure returned as `{"stdout": "", "stderr": message, "exit_code": -1}`; like `RunOnce`, it uses a new directory, restores dirs and files, and adds only the fresh leaked container to the live set |
| `Sandbox.EnsureImage` | coder/sandbox.py:9-13 | `images.get` first, then `images.pull` only when `get` raised; an absent image is always pulled; afterwards the image is present unless the pull raised |
| `Sandbox.NewCodeExecutorTool` | agents/tool_executor.py:17-22 | construction succeeds exactly when the image was found or pulled, and fails with the pull's message otherwise; the image is added only when it was pulled, and directories, files and containers are unchanged |
| `Sandbox.NewCodeSandbox` | coder/sandbox.py:6-13 | construction succeeds exactly when the image was found or pulled, and fails with the pull's message otherwise; the image is added only when it was pulled, and directories, files and containers are unchanged |

## Left out

- The generation engine (core/aurora_base.py) is not part of this model. `Llm.Generate` returns an arbitrary string and never raises; an exception from `generate` would escape `plan` and `self_audit` unchanged.
- `json.loads` is not modelled. `decode` is any total function. A `"steps"` entry that is not a list of strings is not represented.
- `ExecutiveAgent.memory` is stored by the constructor and never read, so the model does not hold it. `max_iterations` is held but nothing reads it, as in the source.
- The plan and audit prompts are modelled as the strings the f-strings build. What the engine does with them is out of scope.
- `docker.from_env()` is not modelled. The `Host` object stands for the client, and the constructors take it as a parameter.
- The `print` in `CodeSandbox.__init__` is console output and is left out.
- Deleting the temporary directory is modelled as always succeeding. `TemporaryDirectory` cleanup errors are not represented.
- A failed script write leaves the file map unchanged. The partly written file would be deleted with the directory anyway.
- A failed `.decode()` of the container logs is folded into the failure of that log read.
- `Sandbox.RunOnce`: the `["StatusCode"]` lookup on `wait`'s result is folded into `Host.Wait`, before the log reads and the removal. In the source a missing key would raise only after `remove`, so that failure would leave no container behind; the model does not represent that case.
- Exception messages (`str(e)`), exit codes and log contents are arbitrary values. Nothing constrains what Docker reports.
- The wall-clock limit is enforced by the `timeout` program inside the container. The model only records the command.
- The missing `Dict`/`Any` imports of agents/tool_executor.py and coder/sandbox.py, and the file header naming another path, are not modelled.
- The rest of the repository is not part of this model: the ML wrappers, the memory store, the browser tool, the coder prompt, the demo script and the VS Code extension and its server.
