/** Normalized usage vectors and the ten aggregate limits of one run. The float
    dimensions are counted in whole units, so addition is exact. */
module Usage {

  datatype Option<+T> = None | Some(value: T)

  datatype UsageVector = UsageVector(
    uncachedInput: nat, cacheReadInput: nat, cacheWriteInput: nat,
    output: nat, reasoning: nat,
    modelCalls: nat, modelRetries: nat, toolCalls: nat,
    toolCpu: nat, containerWall: nat, elapsed: nat, cost: nat)

  const ZERO := UsageVector(0, 0, 0, 0, 0, 0, 0, 0, 0, 0, 0, 0)

  /** Reasoning tokens are a diagnostic subset of the output tokens. */
  type BudgetUsage = u: UsageVector | u.reasoning <= u.output witness ZERO

  function InputTokens(u: BudgetUsage): nat {
    u.uncachedInput + u.cacheReadInput + u.cacheWriteInput
  }

  function TotalTokens(u: BudgetUsage): nat {
    InputTokens(u) + u.output
  }

  function Add(a: BudgetUsage, b: BudgetUsage): BudgetUsage {
    UsageVector(
      a.uncachedInput + b.uncachedInput, a.cacheReadInput + b.cacheReadInput,
      a.cacheWriteInput + b.cacheWriteInput, a.output + b.output, a.reasoning + b.reasoning,
      a.modelCalls + b.modelCalls, a.modelRetries + b.modelRetries, a.toolCalls + b.toolCalls,
      a.toolCpu + b.toolCpu, a.containerWall + b.containerWall, a.elapsed + b.elapsed, a.cost + b.cost)
  }

  predicate AtMost(a: BudgetUsage, b: BudgetUsage) {
    && a.uncachedInput <= b.uncachedInput && a.cacheReadInput <= b.cacheReadInput
    && a.cacheWriteInput <= b.cacheWriteInput && a.output <= b.output && a.reasoning <= b.reasoning
    && a.modelCalls <= b.modelCalls && a.modelRetries <= b.modelRetries && a.toolCalls <= b.toolCalls
    && a.toolCpu <= b.toolCpu && a.containerWall <= b.containerWall
    && a.elapsed <= b.elapsed && a.cost <= b.cost
  }

  /** Componentwise difference. Refused when a component underflows, and when what
      is left is not a usage record because its reasoning exceeds its output. */
  function Subtract(a: BudgetUsage, b: BudgetUsage): Option<BudgetUsage> {
    if AtMost(b, a) && a.reasoning - b.reasoning <= a.output - b.output then
      Some(UsageVector(
        a.uncachedInput - b.uncachedInput, a.cacheReadInput - b.cacheReadInput,
        a.cacheWriteInput - b.cacheWriteInput, a.output - b.output, a.reasoning - b.reasoning,
        a.modelCalls - b.modelCalls, a.modelRetries - b.modelRetries, a.toolCalls - b.toolCalls,
        a.toolCpu - b.toolCpu, a.containerWall - b.containerWall, a.elapsed - b.elapsed, a.cost - b.cost))
    else None
  }

  datatype BudgetLimits = BudgetLimits(
    maxInputTokens: Option<nat>, maxOutputTokens: Option<nat>, maxTotalTokens: Option<nat>,
    maxModelCalls: Option<nat>, maxModelRetries: Option<nat>, maxToolCalls: Option<nat>,
    maxToolCpu: Option<nat>, maxContainerWall: Option<nat>, maxElapsed: Option<nat>, maxCost: Option<nat>)

  datatype Check = Check(name: string, actual: nat, limit: Option<nat>)

  function Checks(u: BudgetUsage, l: BudgetLimits): seq<Check> {
    [ Check("input_tokens", InputTokens(u), l.maxInputTokens),
      Check("output_tokens", u.output, l.maxOutputTokens),
      Check("total_tokens", TotalTokens(u), l.maxTotalTokens),
      Check("model_calls", u.modelCalls, l.maxModelCalls),
      Check("model_retries", u.modelRetries, l.maxModelRetries),
      Check("tool_calls", u.toolCalls, l.maxToolCalls),
      Check("tool_cpu_seconds", u.toolCpu, l.maxToolCpu),
      Check("container_wall_seconds", u.containerWall, l.maxContainerWall),
      Check("elapsed_seconds", u.elapsed, l.maxElapsed),
      Check("estimated_cost_usd", u.cost, l.maxCost) ]
  }

  predicate Under(actual: nat, limit: Option<nat>) {
    limit.Some? ==> actual <= limit.value
  }

  function ExceededNames(checks: seq<Check>): (names: seq<string>)
    ensures names == [] <==> forall i :: 0 <= i < |checks| ==> Under(checks[i].actual, checks[i].limit)
  {
    if checks == [] then []
    else
      (if Under(checks[0].actual, checks[0].limit) then [] else [checks[0].name]) + ExceededNames(checks[1..])
  }

  function ExceededLimits(u: BudgetUsage, l: BudgetLimits): seq<string> {
    ExceededNames(Checks(u, l))
  }

  /** No cap is exceeded, dimension by dimension. */
  predicate Within(u: BudgetUsage, l: BudgetLimits) {
    && Under(InputTokens(u), l.maxInputTokens) && Under(u.output, l.maxOutputTokens)
    && Under(TotalTokens(u), l.maxTotalTokens) && Under(u.modelCalls, l.maxModelCalls)
    && Under(u.modelRetries, l.maxModelRetries) && Under(u.toolCalls, l.maxToolCalls)
    && Under(u.toolCpu, l.maxToolCpu) && Under(u.containerWall, l.maxContainerWall)
    && Under(u.elapsed, l.maxElapsed) && Under(u.cost, l.maxCost)
  }

  lemma ExceededNothing(u: BudgetUsage, l: BudgetLimits)
    ensures ExceededLimits(u, l) == [] <==> Within(u, l)
  {
    var c := Checks(u, l);
    assert |c| == 10;
    if Within(u, l) {
      forall i | 0 <= i < |c| ensures Under(c[i].actual, c[i].limit) {}
    }
    if ExceededLimits(u, l) == [] {
      assert Under(c[0].actual, c[0].limit) && Under(c[1].actual, c[1].limit);
      assert Under(c[2].actual, c[2].limit) && Under(c[3].actual, c[3].limit);
      assert Under(c[4].actual, c[4].limit) && Under(c[5].actual, c[5].limit);
      assert Under(c[6].actual, c[6].limit) && Under(c[7].actual, c[7].limit);
      assert Under(c[8].actual, c[8].limit) && Under(c[9].actual, c[9].limit);
    }
  }

  lemma WithinIsDownwardClosed(a: BudgetUsage, b: BudgetUsage, l: BudgetLimits)
    requires AtMost(a, b) && Within(b, l)
    ensures Within(a, l)
  {}

  lemma NothingIsUnder(limit: Option<nat>)
    ensures Under(0, limit)
  {}

  lemma NothingIsWithin(l: BudgetLimits)
    ensures Within(ZERO, l)
  {
    NothingIsUnder(l.maxInputTokens);
    NothingIsUnder(l.maxOutputTokens);
    NothingIsUnder(l.maxTotalTokens);
    NothingIsUnder(l.maxModelCalls);
    NothingIsUnder(l.maxModelRetries);
    NothingIsUnder(l.maxToolCalls);
    NothingIsUnder(l.maxToolCpu);
    NothingIsUnder(l.maxContainerWall);
    NothingIsUnder(l.maxElapsed);
    NothingIsUnder(l.maxCost);
  }

  lemma AddZero(a: BudgetUsage)
    ensures Add(a, ZERO) == a && Add(ZERO, a) == a
  {}

  /** Subtraction undoes addition, and only what was added can be taken back whole. */
  lemma SubtractUndoesAdd(a: BudgetUsage, b: BudgetUsage)
    ensures Subtract(Add(a, b), b) == Some(a)
    ensures Subtract(b, b) == Some(ZERO)
    ensures Add(ZERO, b) == b && Add(b, ZERO) == b
    ensures Subtract(a, b).Some? ==> Add(Subtract(a, b).value, b) == a
  {}

  // ------------------------------------------------------- limits by their names

  /** The cap of this name is set and these fields go beyond it. The three input
      fields are disjoint; reasoning is not counted beside the output it is part of. */
  predicate Exceeds(name: string, u: BudgetUsage, l: BudgetLimits) {
    match name
    case "input_tokens" => Beyond(u.uncachedInput + u.cacheReadInput + u.cacheWriteInput, l.maxInputTokens)
    case "output_tokens" => Beyond(u.output, l.maxOutputTokens)
    case "total_tokens" => Beyond(u.uncachedInput + u.cacheReadInput + u.cacheWriteInput + u.output, l.maxTotalTokens)
    case "model_calls" => Beyond(u.modelCalls, l.maxModelCalls)
    case "model_retries" => Beyond(u.modelRetries, l.maxModelRetries)
    case "tool_calls" => Beyond(u.toolCalls, l.maxToolCalls)
    case "tool_cpu_seconds" => Beyond(u.toolCpu, l.maxToolCpu)
    case "container_wall_seconds" => Beyond(u.containerWall, l.maxContainerWall)
    case "elapsed_seconds" => Beyond(u.elapsed, l.maxElapsed)
    case "estimated_cost_usd" => Beyond(u.cost, l.maxCost)
    case _ => false
  }

  predicate Beyond(actual: nat, limit: Option<nat>) {
    limit.Some? && limit.value < actual
  }

  lemma {:induction false} NamedIsExceeded(checks: seq<Check>, name: string)
    ensures name in ExceededNames(checks) <==>
            exists i :: 0 <= i < |checks| && checks[i].name == name && !Under(checks[i].actual, checks[i].limit)
  {
    if checks != [] {
      NamedIsExceeded(checks[1..], name);
      assert forall i :: 0 <= i < |checks[1..]| ==> checks[1..][i] == checks[i + 1];
      if exists i :: 0 <= i < |checks| && checks[i].name == name && !Under(checks[i].actual, checks[i].limit) {
        var i :| 0 <= i < |checks| && checks[i].name == name && !Under(checks[i].actual, checks[i].limit);
        if i > 0 { assert checks[1..][i - 1] == checks[i]; }
      }
    }
  }

  /** Where the cap of this name is looked at. */
  lemma LimitNamed(name: string, u: BudgetUsage, l: BudgetLimits) returns (i: nat)
    requires Exceeds(name, u, l)
    ensures i < |Checks(u, l)| && Checks(u, l)[i].name == name && !Under(Checks(u, l)[i].actual, Checks(u, l)[i].limit)
  {
    match name
    case "input_tokens" => i := 0;
    case "output_tokens" => i := 1;
    case "total_tokens" => i := 2;
    case "model_calls" => i := 3;
    case "model_retries" => i := 4;
    case "tool_calls" => i := 5;
    case "tool_cpu_seconds" => i := 6;
    case "container_wall_seconds" => i := 7;
    case "elapsed_seconds" => i := 8;
    case "estimated_cost_usd" => i := 9;
    case _ => assert false;
  }

  /** The names reported are exactly those of the caps gone beyond. */
  lemma ExceededByName(u: BudgetUsage, l: BudgetLimits, name: string)
    ensures name in ExceededLimits(u, l) <==> Exceeds(name, u, l)
  {
    var c := Checks(u, l);
    NamedIsExceeded(c, name);
    if Exceeds(name, u, l) {
      var i := LimitNamed(name, u, l);
      assert c[i].name == name;
    }
  }
}
