/**
 * `ExecutiveAgent` of agents/executive_agent.py: a name-to-tool registry built
 * once, `plan` (one generator call, JSON "steps" or the newline fallback) and
 * `self_audit` (one generator call at temperature 0.1 on a truncated prompt).
 */
module ExecutiveAgent {
  import opened Wrappers
  import PlanText

  /** A tool object; the agent only ever reads its `name`. */
  class Tool {
    const name: string

    constructor (name: string)
      ensures this.name == name
    {
      this.name := name;
    }
  }

  /**
   * `{tool.name: tool for tool in tools}`. The comprehension visits the tools
   * in order, so a later tool overwrites an earlier one of the same name.
   */
  function Registry(tools: seq<Tool>): (m: map<string, Tool>)
    ensures m.Keys == set i | 0 <= i < |tools| :: tools[i].name
    ensures forall k :: k in m ==> m[k].name == k && m[k] in tools
  {
    if tools == [] then map[]
    else
      var last := tools[|tools| - 1];
      var m := Registry(tools[..|tools| - 1]);
      assert forall t :: t in tools[..|tools| - 1] ==> t in tools;
      assert forall i :: 0 <= i < |tools| - 1 ==> tools[..|tools| - 1][i] == tools[i];
      m[last.name := last]
  }

  /** Of several tools sharing a name, the registry keeps the one that comes last. */
  lemma {:induction false} RegistryLastWins(tools: seq<Tool>, i: nat)
    requires i < |tools|
    requires forall j :: i < j < |tools| ==> tools[j].name != tools[i].name
    ensures tools[i].name in Registry(tools)
    ensures Registry(tools)[tools[i].name] == tools[i]
  {
    if i < |tools| - 1 {
      var init := tools[..|tools| - 1];
      assert init[i] == tools[i];
      RegistryLastWins(init, i);
    }
  }

  /** One call of the generation engine, as the engine's log records it. */
  datatype Exchange = Exchange(prompt: string, temperature: Option<real>, reply: string)

  /**
   * The generation engine, an oracle: every call returns some string. `temperature`
   * is `None` when the caller leaves the engine's default in place.
   */
  class Llm {
    var log: seq<Exchange>

    constructor ()
      ensures log == []
    {
      log := [];
    }

    method Generate(prompt: string, temperature: Option<real>) returns (reply: string)
      modifies this
      ensures log == old(log) + [Exchange(prompt, temperature, reply)]
    {
      reply :| true;
      log := log + [Exchange(prompt, temperature, reply)];
    }
  }

  /**
   * What `json.loads(response)["steps"]` yields: the "steps" entry, or `NoSteps` for
   * anything that raises there (not JSON, not an object, no "steps" key).
   */
  datatype Decoded = Steps(items: seq<string>) | NoSteps

  const PlanHead: string := "You are AURORA Executive Agent. Break this goal into 3-5 executable steps.\nGoal: "
  const PlanTail: string := "\nRespond ONLY as JSON: {\"steps\": [\"step1\", \"step2\", ...]}"

  /** The planning prompt: the goal, whole, between two fixed pieces of text. */
  function PlanPrompt(goal: string): (r: string)
    ensures |r| == |PlanHead| + |goal| + |PlanTail|
    ensures r[|PlanHead|..|PlanHead| + |goal|] == goal
  {
    PlanHead + goal + PlanTail
  }

  /** The plan `plan` returns for a given generator response. */
  function ParsePlan(response: string, decode: string -> Decoded): (r: seq<string>)
    ensures decode(response).Steps? ==> r == decode(response).items
    ensures decode(response).NoSteps? ==> forall i :: 0 <= i < |r| ==> PlanText.IsStep(r[i])
  {
    match decode(response)
    case Steps(items) => items
    case NoSteps => PlanText.FallbackSteps(response)
  }

  /**
   * Whatever the generator answers, a plan that did not come from JSON is made of
   * stripped, non-empty, single-line steps, at most one per line of the answer, and
   * is empty exactly when the answer is blank.
   */
  lemma ParsePlanFallback(response: string, decode: string -> Decoded)
    requires decode(response).NoSteps?
    ensures forall i :: 0 <= i < |ParsePlan(response, decode)| ==> PlanText.IsStep(ParsePlan(response, decode)[i])
    ensures |ParsePlan(response, decode)| <= PlanText.Count(response, '\n') + 1
    ensures ParsePlan(response, decode) == [] <==> PlanText.AllSpace(response)
  {
    PlanText.FallbackEmpty(response);
  }

  /** Python's `s[:n]`. */
  function Take(s: string, n: nat): (r: string)
    ensures |r| == if |s| < n then |s| else n
    ensures r == s[..|r|]
  {
    if |s| <= n then s else s[..n]
  }

  const CodeLimit: nat := 500
  const OutputLimit: nat := 300

  const AuditHead: string := "[SELF-AUDIT]\nGoal: "
  const AuditCode: string := "\nGenerated Code: "
  const AuditOutput: string := "...\nOutput: "
  const AuditTail: string := "...\nCheck: 1) Correct? 2) Safe? 3) Complete?\nRespond in 3 bullet points."

  /** The audit prompt; the goal sits whole right after the fixed heading. */
  function AuditPrompt(goal: string, code: string, output: string): (r: string)
    ensures |AuditHead| + |goal| <= |r|
    ensures r[|AuditHead|..|AuditHead| + |goal|] == goal
  {
    AuditHead + goal + AuditCode + Take(code, CodeLimit) + AuditOutput + Take(output, OutputLimit) + AuditTail
  }

  /**
   * The audit prompt carries the first 500 characters of the code and the first 300 of
   * the output, each at a fixed place, and nothing more of either.
   */
  lemma AuditPromptEmbeds(goal: string, code: string, output: string)
    ensures var p := AuditPrompt(goal, code, output);
      var c := |AuditHead| + |goal| + |AuditCode|;
      var o := c + |Take(code, CodeLimit)| + |AuditOutput|;
      && |p| == o + |Take(output, OutputLimit)| + |AuditTail|
      && p[c..c + |Take(code, CodeLimit)|] == Take(code, CodeLimit)
      && p[o..o + |Take(output, OutputLimit)|] == Take(output, OutputLimit)
  {
  }

  /** Characters of the code past the 500th never reach the prompt, whatever the output. */
  lemma AuditPromptTruncatesCode(goal: string, code: string, output: string, moreCode: string)
    requires |code| >= CodeLimit
    ensures AuditPrompt(goal, code + moreCode, output) == AuditPrompt(goal, code, output)
  {
    assert (code + moreCode)[..CodeLimit] == code[..CodeLimit];
  }

  /** Characters of the output past the 300th never reach the prompt, whatever the code. */
  lemma AuditPromptTruncatesOutput(goal: string, code: string, output: string, moreOutput: string)
    requires |output| >= OutputLimit
    ensures AuditPrompt(goal, code, output + moreOutput) == AuditPrompt(goal, code, output)
  {
    assert (output + moreOutput)[..OutputLimit] == output[..OutputLimit];
  }

  /** `ExecutiveAgent`: the engine, the tool registry and the iteration bound, all fixed at construction. */
  class Agent {
    const llm: Llm
    const tools: map<string, Tool>
    const maxIterations: int

    constructor (llm: Llm, tools: seq<Tool>, maxIterations: int := 5)
      ensures this.llm == llm && this.maxIterations == maxIterations
      ensures this.tools == Registry(tools)
    {
      this.llm := llm;
      this.tools := Registry(tools);
      this.maxIterations := maxIterations;
    }

    /**
     * `plan`: exactly one generator call, on the planning prompt, at the engine's
     * default temperature; the steps are read from that one reply.
     */
    method Plan(goal: string, decode: string -> Decoded) returns (steps: seq<string>)
      modifies llm
      ensures |llm.log| == |old(llm.log)| + 1
      ensures llm.log[..|old(llm.log)|] == old(llm.log)
      ensures var call := llm.log[|llm.log| - 1];
        && call.prompt == PlanPrompt(goal)
        && call.temperature == None
        && steps == ParsePlan(call.reply, decode)
    {
      var response := llm.Generate(PlanPrompt(goal), None);
      steps := ParsePlan(response, decode);
    }

    /** `self_audit`: exactly one generator call, on the truncated audit prompt, at temperature 0.1; its reply is the report. */
    method SelfAudit(goal: string, code: string, output: string) returns (report: string)
      modifies llm
      ensures llm.log == old(llm.log) + [Exchange(AuditPrompt(goal, code, output), Some(0.1), report)]
    {
      report := llm.Generate(AuditPrompt(goal, code, output), Some(0.1));
    }
  }
}
