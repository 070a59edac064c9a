/** src/rag/agent/budget.py and the Budget of src/rag/schemas/agent.py. Elapsed time is handed in by the caller. */
module Budgets {

  function Min(a: int, b: int): int {
    if a < b then a else b
  }

  function MinReal(a: real, b: real): real {
    if a < b then a else b
  }

  datatype Budget = Budget(
    maxSteps: int,
    maxToolCalls: int,
    maxCritiqueRounds: int,
    maxTokens: int,
    maxCost: real,
    maxSeconds: real)
  {
    /** src/rag/schemas/agent.py:80-89 */
    function Clamp(ceiling: Budget): Budget {
      Budget(
        Min(maxSteps, ceiling.maxSteps),
        Min(maxToolCalls, ceiling.maxToolCalls),
        Min(maxCritiqueRounds, ceiling.maxCritiqueRounds),
        Min(maxTokens, ceiling.maxTokens),
        MinReal(maxCost, ceiling.maxCost),
        MinReal(maxSeconds, ceiling.maxSeconds))
    }
  }

  datatype Usage = Usage(tokens: int, cost: real) {
    function Plus(u: Usage): Usage {
      Usage(tokens + u.tokens, cost + u.cost)
    }
  }

  const NO_USAGE := Usage(0, 0.0)

  /** What a turn has spent. */
  datatype Spend = Spend(steps: int, toolCalls: int, critiqueRounds: int, usage: Usage) {
    /** Some terminal dimension is used up; critique rounds are not one. */
    predicate Exhausted(b: Budget, elapsed: real) {
      || steps >= b.maxSteps || toolCalls >= b.maxToolCalls
      || usage.tokens >= b.maxTokens || usage.cost >= b.maxCost || elapsed >= b.maxSeconds
    }

    function RemainingToolCalls(b: Budget): nat {
      if b.maxToolCalls - toolCalls > 0 then b.maxToolCalls - toolCalls else 0
    }

    predicate CanCritique(b: Budget) {
      critiqueRounds < b.maxCritiqueRounds
    }
  }

  const NOTHING_SPENT := Spend(0, 0, 0, NO_USAGE)

  /** A budget that allows no more than another, in any dimension. */
  predicate NoMore(a: Budget, b: Budget) {
    && a.maxSteps <= b.maxSteps && a.maxToolCalls <= b.maxToolCalls && a.maxCritiqueRounds <= b.maxCritiqueRounds
    && a.maxTokens <= b.maxTokens && a.maxCost <= b.maxCost && a.maxSeconds <= b.maxSeconds
  }

  /** Clamping gives the largest budget that allows no more than was asked for and no more than the ceiling. */
  lemma ClampIsLargest(asked: Budget, ceiling: Budget, other: Budget)
    ensures NoMore(asked.Clamp(ceiling), asked) && NoMore(asked.Clamp(ceiling), ceiling)
    ensures NoMore(other, asked) && NoMore(other, ceiling) ==> NoMore(other, asked.Clamp(ceiling))
  {
  }

  class BudgetTracker {
    const budget: Budget
    var spend: Spend

    constructor (budget: Budget)
      ensures this.budget == budget && spend == NOTHING_SPENT
    {
      this.budget := budget;
      spend := NOTHING_SPENT;
    }

    /** src/rag/agent/budget.py:41-42 */
    method ChargeStep()
      modifies this
      ensures spend == old(spend).(steps := old(spend).steps + 1)
    {
      spend := spend.(steps := spend.steps + 1);
    }

    /** src/rag/agent/budget.py:44-45 */
    method ChargeToolCalls(n: int)
      modifies this
      ensures spend == old(spend).(toolCalls := old(spend).toolCalls + n)
    {
      spend := spend.(toolCalls := spend.toolCalls + n);
    }

    /** src/rag/agent/budget.py:47-48 */
    method ChargeCritique()
      modifies this
      ensures spend == old(spend).(critiqueRounds := old(spend).critiqueRounds + 1)
    {
      spend := spend.(critiqueRounds := spend.critiqueRounds + 1);
    }

    /** src/rag/agent/budget.py:50-53 */
    method ChargeUsage(usage: Usage)
      modifies this
      ensures spend == old(spend).(usage := old(spend).usage.Plus(usage))
    {
      spend := spend.(usage := spend.usage.Plus(usage));
    }

    /** src/rag/agent/budget.py:62-78 */
    method TerminalStop(elapsed: real) returns (stop: bool)
      ensures stop <==> spend.Exhausted(budget, elapsed)
    {
      if spend.steps >= budget.maxSteps {
        return true;
      }
      if spend.toolCalls >= budget.maxToolCalls {
        return true;
      }
      if spend.usage.tokens >= budget.maxTokens {
        return true;
      }
      if spend.usage.cost >= budget.maxCost {
        return true;
      }
      stop := elapsed >= budget.maxSeconds;
    }
  }
}
