/** The tabular agent (backend/app/services/rl_agent.py).

    Customers are discretised into a state key; for every key seen the agent
    keeps one row of expected rewards (the Q-table) and one row of running
    average losses (the regret table), one cell per action. Prediction picks
    the greedy or the least-regret action; feedback moves one cell of each
    table a tenth of the way to its target. */
module Agent {
  import opened Wrappers
  import opened Seqs
  import opened Models

  const Actions: seq<string> := ["NO_ACTION", "DISCOUNT_10", "UPGRADE_PLAN", "PRIORITY_SUPPORT", "LOYALTY_GIFT"]
  const NumActions: nat := 5
  /** The learning rate of `update_policy`. */
  const Alpha: real := 0.1
  const DefaultEpsilon: real := 0.1
  const ZeroRow: seq<real> := [0.0, 0.0, 0.0, 0.0, 0.0]

  type Table = map<string, seq<real>>

  function UsageLevel(gb: real): string { if gb > 50.0 then "High" else "Low" }

  function TenureLevel(months: int): string { if months < 12 then "New" else "Loyal" }

  /** What a state key records about a customer. */
  datatype Features = Features(highUsage: bool, isNew: bool, contractType: string)

  function FeaturesOf(ctx: CustomerContext): Features
  {
    Features(ctx.dataUsageGb > 50.0, ctx.tenureMonths < 12, ctx.contractType)
  }

  /** Reads a state key back; the inverse of `StateKey`. */
  function ParseStateKey(key: string): Option<Features>
  {
    if |key| >= 5 && key[..5] == "High_" then ParseTenure(true, key[5..])
    else if |key| >= 4 && key[..4] == "Low_" then ParseTenure(false, key[4..])
    else None
  }

  function ParseTenure(high: bool, rest: string): Option<Features>
  {
    if |rest| >= 4 && rest[..4] == "New_" then Some(Features(high, true, rest[4..]))
    else if |rest| >= 6 && rest[..6] == "Loyal_" then Some(Features(high, false, rest[6..]))
    else None
  }

  lemma ParseTenureOf(high: bool, months: int, c: string)
    ensures ParseTenure(high, TenureLevel(months) + "_" + c) == Some(Features(high, months < 12, c))
  {
    var rest := TenureLevel(months) + "_" + c;
    if months < 12 {
      assert rest[..4] == "New_" && rest[4..] == c;
    } else {
      assert rest[..4] == "Loya" && rest[..6] == "Loyal_" && rest[6..] == c;
    }
  }

  /** `get_state_key`: `<High|Low>_<New|Loyal>_<contract type>`. The key
      records exactly: High iff usage is over 50 GB, New iff tenure is under
      12 months, and the contract type; it parses back to these three. */
  function StateKey(ctx: CustomerContext): (key: string)
    ensures ParseStateKey(key) == Some(FeaturesOf(ctx))
  {
    var usage := UsageLevel(ctx.dataUsageGb);
    var rest := TenureLevel(ctx.tenureMonths) + "_" + ctx.contractType;
    var key := usage + "_" + TenureLevel(ctx.tenureMonths) + "_" + ctx.contractType;
    assert key == (usage + "_") + rest;
    ParseTenureOf(ctx.dataUsageGb > 50.0, ctx.tenureMonths, ctx.contractType);
    assert ctx.dataUsageGb > 50.0 ==> key[..5] == "High_" && key[5..] == rest;
    assert !(ctx.dataUsageGb > 50.0) ==> key[..4] == "Low_" && key[4..] == rest && key[0] == 'L' && "High_"[0] == 'H';
    key
  }

  /** Two customers share a table row iff they agree on usage level, tenure
      level and contract type. */
  lemma SameStateIffSameFeatures(a: CustomerContext, b: CustomerContext)
    ensures StateKey(a) == StateKey(b) <==> FeaturesOf(a) == FeaturesOf(b)
  {
    if FeaturesOf(a) != FeaturesOf(b) {
      assert ParseStateKey(StateKey(a)) != ParseStateKey(StateKey(b));
    }
  }

  ghost predicate IsFirstMax(row: seq<real>, i: int)
  {
    0 <= i < |row| && (forall j :: 0 <= j < |row| ==> row[j] <= row[i])
    && (forall j :: 0 <= j < i ==> row[j] < row[i])
  }

  ghost predicate IsFirstMin(row: seq<real>, i: int)
  {
    0 <= i < |row| && (forall j :: 0 <= j < |row| ==> row[i] <= row[j])
    && (forall j :: 0 <= j < i ==> row[i] < row[j])
  }

  /** `np.argmax`: the first index of a maximal entry. */
  function ArgMax(row: seq<real>): (i: nat)
    requires |row| > 0
    ensures IsFirstMax(row, i)
    decreases |row|
  {
    if |row| == 1 then 0
    else
      var k := ArgMax(row[..|row| - 1]);
      if row[|row| - 1] > row[k] then |row| - 1 else k
  }

  /** `np.argmin`: the first index of a minimal entry. */
  function ArgMin(row: seq<real>): (i: nat)
    requires |row| > 0
    ensures IsFirstMin(row, i)
    decreases |row|
  {
    if |row| == 1 then 0
    else
      var k := ArgMin(row[..|row| - 1]);
      if row[|row| - 1] < row[k] then |row| - 1 else k
  }

  /** The answer of `predict`: an action label and a risk score. */
  datatype Prediction = Prediction(action: string, risk: real)

  /** The choice `predict` makes once the state's rows exist. `uExplore` is the
      `random.random()` draw and `exploreIndex` the `random.randint(0, 4)` draw
      of the exploring branch. */
  function Decide(q: seq<real>, regret: seq<real>, strategy: string, epsilon: real,
                  uExplore: real, exploreIndex: nat): (p: Prediction)
    requires |q| == NumActions && |regret| == NumActions && exploreIndex < NumActions
    ensures strategy == "standard" && uExplore < epsilon ==>
      p == Prediction(Actions[exploreIndex], 0.5)
    ensures strategy == "standard" && !(uExplore < epsilon) ==>
      exists i :: IsFirstMax(q, i) && p == Prediction(Actions[i], 1.0 - q[i])
    ensures strategy == "game_theory" ==>
      exists i :: IsFirstMin(regret, i) && p == Prediction(Actions[i], 0.8)
    ensures strategy != "standard" && strategy != "game_theory" ==> p == Prediction("NO_ACTION", 0.0)
    ensures p.action in Actions
  {
    if strategy == "standard" then
      if uExplore < epsilon then Prediction(Actions[exploreIndex], 0.5)
      else
        var i := ArgMax(q);
        Prediction(Actions[i], 1.0 - q[i])
    else if strategy == "game_theory" then
      var i := ArgMin(regret);
      Prediction(Actions[i], 0.8)
    else Prediction("NO_ACTION", 0.0)
  }

  /** The table after the lazy initialisation of `state`. */
  function WithState(t: Table, state: string): (r: Table)
    ensures r.Keys == t.Keys + {state}
    ensures forall k :: k in t ==> r[k] == t[k]
    ensures state !in t ==> r[state] == ZeroRow
  {
    if state in t then t else t[state := ZeroRow]
  }

  /** One learning step: `current + alpha * (target - current)`. */
  function Blend(current: real, target: real): (r: real)
    ensures r - target == (1.0 - Alpha) * (current - target)
    ensures current <= target ==> current <= r <= target
    ensures target <= current ==> target <= r <= current
  {
    current + Alpha * (target - current)
  }

  /** The loss a reward stands for: 1 for a churned customer, 0 otherwise. */
  function Loss(reward: real): (l: real)
    ensures l == 1.0 <==> reward < 0.0
    ensures l == 0.0 <==> reward >= 0.0
  {
    if reward < 0.0 then 1.0 else 0.0
  }

  /** Moves one cell of one row toward `target`; every other cell is kept. */
  function UpdateCell(t: Table, state: string, a: nat, target: real): (r: Table)
    requires state in t && a < |t[state]|
    ensures r.Keys == t.Keys
    ensures forall k :: k in t && k != state ==> r[k] == t[k]
    ensures |r[state]| == |t[state]|
    ensures forall j :: 0 <= j < |t[state]| && j != a ==> r[state][j] == t[state][j]
    ensures r[state][a] == Blend(t[state][a], target)
  {
    t[state := t[state][a := Blend(t[state][a], target)]]
  }

  /** Every value of a regret row is an average of losses, in [0, 1]. */
  ghost predicate InUnit(row: seq<real>)
  {
    forall j :: 0 <= j < |row| ==> 0.0 <= row[j] <= 1.0
  }

  /** The agent's tables keep one row of five cells per seen state, the same
      states in both, and regret values in [0, 1]. */
  ghost predicate TablesOk(q: Table, regret: Table)
  {
    && q.Keys == regret.Keys
    && (forall s :: s in q ==> |q[s]| == NumActions)
    && (forall s :: s in regret ==> |regret[s]| == NumActions && InUnit(regret[s]))
  }

  lemma WithStateKeepsTables(q: Table, regret: Table, state: string)
    requires TablesOk(q, regret)
    ensures TablesOk(WithState(q, state), WithState(regret, state))
  {
  }

  /** A feedback step keeps the tables well formed; in particular every
      regret value stays in [0, 1], because it moves toward 0 or 1. */
  lemma UpdateKeepsTables(q: Table, regret: Table, state: string, a: nat, reward: real)
    requires TablesOk(q, regret) && state in q && a < NumActions
    ensures TablesOk(UpdateCell(q, state, a, reward), UpdateCell(regret, state, a, Loss(reward)))
  {
    var r2 := UpdateCell(regret, state, a, Loss(reward));
    assert InUnit(r2[state]) by {
      forall j | 0 <= j < |r2[state]| ensures 0.0 <= r2[state][j] <= 1.0 {
        if j != a { assert r2[state][j] == regret[state][j]; }
      }
    }
  }

  class RLAgent {
    var epsilon: real
    var qTable: Table
    var regretTable: Table

    ghost predicate Valid()
      reads this
    {
      TablesOk(qTable, regretTable)
    }

    /** Both tables start empty; the action count argument is ignored in favour
        of the five fixed actions. */
    constructor (nActions: int, epsilon: real)
      ensures Valid()
      ensures this.epsilon == epsilon && qTable == map[] && regretTable == map[]
    {
      this.epsilon := epsilon;
      qTable := map[];
      regretTable := map[];
    }

    /** The lazy initialisation shared by `predict` and `update_policy`. */
    method EnsureState(state: string)
      requires Valid()
      modifies this`qTable, this`regretTable
      ensures Valid()
      ensures qTable == WithState(old(qTable), state)
      ensures regretTable == WithState(old(regretTable), state)
    {
      WithStateKeepsTables(qTable, regretTable, state);
      if state !in qTable {
        qTable := qTable[state := ZeroRow];
        regretTable := regretTable[state := ZeroRow];
      }
    }

    /** `predict`: initialise the customer's state if new, then decide. An
        unknown strategy still initialises the state. */
    method Predict(ctx: CustomerContext, strategy: string, uExplore: real, exploreIndex: nat)
      returns (p: Prediction)
      requires Valid() && 0.0 <= uExplore < 1.0 && exploreIndex < NumActions
      modifies this`qTable, this`regretTable
      ensures Valid()
      ensures qTable == WithState(old(qTable), StateKey(ctx))
      ensures regretTable == WithState(old(regretTable), StateKey(ctx))
      ensures p == Decide(qTable[StateKey(ctx)], regretTable[StateKey(ctx)], strategy, epsilon,
                          uExplore, exploreIndex)
    {
      var state := StateKey(ctx);
      EnsureState(state);
      p := Decide(qTable[state], regretTable[state], strategy, epsilon, uExplore, exploreIndex);
    }

    /** `update_policy`: initialise the state if new; for a known action move
        its Q-value toward the reward and its regret toward the loss; an
        unknown action name changes nothing more. */
    method UpdatePolicy(ctx: CustomerContext, actionName: string, reward: real)
      requires Valid()
      modifies this`qTable, this`regretTable
      ensures Valid()
      ensures var state := StateKey(ctx);
        var q0, r0 := WithState(old(qTable), state), WithState(old(regretTable), state);
        match IndexOf(Actions, actionName)
        case None => qTable == q0 && regretTable == r0
        case Some(a) =>
          && qTable == UpdateCell(q0, state, a, reward)
          && regretTable == UpdateCell(r0, state, a, Loss(reward))
    {
      var state := StateKey(ctx);
      EnsureState(state);
      match IndexOf(Actions, actionName)
      case None =>
      case Some(a) =>
        UpdateKeepsTables(qTable, regretTable, state, a, reward);
        qTable := UpdateCell(qTable, state, a, reward);
        regretTable := UpdateCell(regretTable, state, a, Loss(reward));
    }
  }
}
