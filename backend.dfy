/** The request handlers of the back end (backend/app/main.py) over its
    module-level state: the agent, the global budget and the metrics history.
    Random draws and the LP solver are parameters. */
module Backend {
  import opened Seqs
  import opened Models
  import Agent
  import opened Optimizer

  const InitialBudget: real := 1000.0
  /** How many history entries `/metrics` serves. */
  const HistoryWindow: nat := 20

  /** One entry of the metrics history. */
  datatype HistoryEntry = HistoryEntry(time: int, reward: real, churnRate: real)

  /** The answer of `/metrics`. */
  datatype MetricsView = MetricsView(remainingBudget: real, history: seq<HistoryEntry>)

  /** The simulated churn rate, `random.uniform(0.1, 0.3)` after a negative
      reward and `random.uniform(0.0, 0.1)` otherwise, for the draw `u`. */
  function ChurnRate(reward: real, u: real): (c: real)
    requires 0.0 <= u < 1.0
    ensures reward < 0.0 ==> 0.1 <= c <= 0.3
    ensures reward >= 0.0 ==> 0.0 <= c <= 0.1
  {
    if reward < 0.0 then 0.1 + 0.2 * u else 0.1 * u
  }

  /** The A/B split of the second handler: group A (standard) for draws below 0.8. */
  function AbStrategy(u: real): (s: string)
    ensures s == "standard" <==> u < 0.8
    ensures s == "game_theory" <==> !(u < 0.8)
  {
    if u < 0.8 then "standard" else "game_theory"
  }

  function StatusOf(feasible: bool): (s: string)
    ensures s == "Feasible" <==> feasible
    ensures s == "Budget_Constrained" <==> !feasible
  {
    if feasible then "Feasible" else "Budget_Constrained"
  }

  /** The status of the second handler, `<Feasible|Blocked> (Strategy: <s>)`. */
  function AbStatusOf(feasible: bool, strategy: string): (s: string)
    ensures feasible <==> |s| >= 8 && s[..8] == "Feasible"
    ensures !feasible <==> |s| >= 7 && s[..7] == "Blocked"
    ensures |s| >= |strategy| + 13 && s[|s| - |strategy| - 13..] == " (Strategy: " + strategy + ")"
    ensures |s| == (if feasible then 8 else 7) + 13 + |strategy|
  {
    var head := if feasible then "Feasible" else "Blocked";
    var tail := " (Strategy: " + strategy + ")";
    var s := head + tail;
    assert s[..|head|] == head && s[|head|..] == tail;
    assert !feasible ==> s[..8] == "Blocked " != "Feasible";
    assert feasible ==> s[..7] == "Feasibl" != "Blocked";
    assert s[|s| - |strategy| - 13..] == tail;
    s
  }

  /** The second handler's status tells feasibility and strategy apart. */
  lemma AbStatusInjective(f1: bool, s1: string, f2: bool, s2: string)
    ensures AbStatusOf(f1, s1) == AbStatusOf(f2, s2) <==> f1 == f2 && s1 == s2
  {
    if AbStatusOf(f1, s1) == AbStatusOf(f2, s2) {
      var a, b := AbStatusOf(f1, s1), AbStatusOf(f2, s2);
      var p1, p2 := if f1 then "Feasible" else "Blocked", if f2 then "Feasible" else "Blocked";
      assert a == p1 + (" (Strategy: " + s1 + ")");
      assert b == p2 + (" (Strategy: " + s2 + ")");
      assert a[0] == p1[0] && b[0] == p2[0];
      assert f1 == f2;
      assert a[|p1|..] == " (Strategy: " + s1 + ")";
      assert b[|p2|..] == " (Strategy: " + s2 + ")";
      var t1, t2 := " (Strategy: " + s1 + ")", " (Strategy: " + s2 + ")";
      assert t1[12..|t1| - 1] == s1;
      assert t2[12..|t2| - 1] == s2;
    }
  }

  /** The amount a response reports as allocated. */
  function Allocated(d: Decision): (a: real)
    ensures a == 0.0 || d.feasible
    ensures d.feasible ==> a == d.cost as real
  {
    if d.feasible then d.cost as real else 0.0
  }

  /** The budget after a decision: a feasible action is paid for. */
  function Debit(budget: real, d: Decision): (r: real)
    requires d.feasible ==> d.cost as real <= budget
    ensures budget - r == Allocated(d)
    ensures r <= budget
    ensures 0.0 <= budget ==> 0.0 <= r
  {
    if d.feasible then budget - d.cost as real else budget
  }

  /** The optimizer's cost table is keyed by labels the agent never proposes,
      so every action the agent can recommend costs nothing. */
  lemma AgentActionsCostNothing(a: string)
    requires a in Agent.Actions
    ensures CostOf(a) == 0
  {
  }

  ghost predicate Timed(h: seq<HistoryEntry>)
  {
    forall i :: 0 <= i < |h| ==> h[i].time == i
  }

  /** The window `/metrics` serves from a history built by `/feedback` carries
      consecutive time stamps ending at the newest entry. */
  lemma WindowTimes(h: seq<HistoryEntry>)
    requires Timed(h)
    ensures forall i :: 0 <= i < |Last(h, HistoryWindow)| ==>
      Last(h, HistoryWindow)[i].time == |h| - Min(|h|, HistoryWindow) + i
  {
  }

  class Server {
    const agent: Agent.RLAgent
    var budget: real
    var history: seq<HistoryEntry>

    ghost predicate Valid()
      reads this, agent
    {
      agent.Valid() && 0.0 <= budget <= InitialBudget && Timed(history)
    }

    /** The state at start-up: a fresh agent with default settings, the full
        budget and an empty history. */
    constructor ()
      ensures Valid() && fresh(agent)
      ensures agent.qTable == map[] && agent.regretTable == map[] && agent.epsilon == Agent.DefaultEpsilon
      ensures budget == InitialBudget && history == []
    {
      agent := new Agent.RLAgent(Agent.NumActions, Agent.DefaultEpsilon);
      budget := InitialBudget;
      history := [];
    }

    /** The first `/predict` handler: the agent's standard prediction, checked
        against the budget; a feasible action is paid for, an infeasible one is
        replaced by "No_Action". */
    method PredictIntervention(ctx: CustomerContext, uExplore: real, exploreIndex: nat, solve: Solver)
      returns (resp: InterventionResponse)
      requires Valid() && RespectsBudget(solve)
      requires 0.0 <= uExplore < 1.0 && exploreIndex < Agent.NumActions
      modifies this`budget, agent`qTable, agent`regretTable
      ensures Valid()
      ensures history == old(history)
      ensures agent.qTable == Agent.WithState(old(agent.qTable), Agent.StateKey(ctx))
      ensures agent.regretTable == Agent.WithState(old(agent.regretTable), Agent.StateKey(ctx))
      ensures
        var key := Agent.StateKey(ctx);
        var p := Agent.Decide(agent.qTable[key], agent.regretTable[key], "standard", agent.epsilon,
                              uExplore, exploreIndex);
        var d := OptimizeIntervention(p.action, p.risk, old(budget), solve);
        && resp == InterventionResponse(ctx.customerId, if d.feasible then p.action else "No_Action",
                                        p.risk, Allocated(d), StatusOf(d.feasible))
        && budget == Debit(old(budget), d)
      ensures budget == old(budget)
    {
      var p := agent.Predict(ctx, "standard", uExplore, exploreIndex);
      var d := OptimizeIntervention(p.action, p.risk, budget, solve);
      AgentActionsCostNothing(p.action);
      resp := InterventionResponse(ctx.customerId, if d.feasible then p.action else "No_Action",
                                   p.risk, Allocated(d), StatusOf(d.feasible));
      budget := Debit(budget, d);
    }

    /** The second `/predict` handler: the same check after an A/B choice of
        strategy; an infeasible action is replaced by "NO_ACTION". */
    method PredictInterventionAb(ctx: CustomerContext, uGroup: real, uExplore: real, exploreIndex: nat,
                                 solve: Solver)
      returns (resp: InterventionResponse)
      requires Valid() && RespectsBudget(solve)
      requires 0.0 <= uGroup < 1.0 && 0.0 <= uExplore < 1.0 && exploreIndex < Agent.NumActions
      modifies this`budget, agent`qTable, agent`regretTable
      ensures Valid()
      ensures history == old(history)
      ensures agent.qTable == Agent.WithState(old(agent.qTable), Agent.StateKey(ctx))
      ensures agent.regretTable == Agent.WithState(old(agent.regretTable), Agent.StateKey(ctx))
      ensures
        var key, strategy := Agent.StateKey(ctx), AbStrategy(uGroup);
        var p := Agent.Decide(agent.qTable[key], agent.regretTable[key], strategy, agent.epsilon,
                              uExplore, exploreIndex);
        var d := OptimizeIntervention(p.action, p.risk, old(budget), solve);
        && resp == InterventionResponse(ctx.customerId, if d.feasible then p.action else "NO_ACTION",
                                        p.risk, Allocated(d), AbStatusOf(d.feasible, strategy))
        && budget == Debit(old(budget), d)
      ensures budget == old(budget)
    {
      var strategy := AbStrategy(uGroup);
      var p := agent.Predict(ctx, strategy, uExplore, exploreIndex);
      var d := OptimizeIntervention(p.action, p.risk, budget, solve);
      AgentActionsCostNothing(p.action);
      resp := InterventionResponse(ctx.customerId, if d.feasible then p.action else "NO_ACTION",
                                   p.risk, Allocated(d), AbStatusOf(d.feasible, strategy));
      budget := Debit(budget, d);
    }

    /** `/feedback`: appends one history entry stamped with its own index;
        earlier entries stay as they are. */
    method ReceiveFeedback(data: FeedbackData, uChurn: real) returns (status: string)
      requires Valid() && 0.0 <= uChurn < 1.0
      modifies this`history
      ensures Valid()
      ensures history == old(history) + [HistoryEntry(|old(history)|, data.reward, ChurnRate(data.reward, uChurn))]
      ensures status == "Updated Policy"
    {
      history := history + [HistoryEntry(|history|, data.reward, ChurnRate(data.reward, uChurn))];
      status := "Updated Policy";
    }

    /** `/metrics`: the current budget and the newest twenty history entries, in order. */
    function GetMetrics(): (m: MetricsView)
      reads this
      ensures m.remainingBudget == budget
      ensures |m.history| == Min(|history|, HistoryWindow)
      ensures forall i :: 0 <= i < |m.history| ==> m.history[i] == history[|history| - |m.history| + i]
    {
      MetricsView(budget, Last(history, HistoryWindow))
    }
  }
}
