# Churn intervention system: a verified model of its bookkeeping

The system simulates a customer-churn intervention loop that compares two
decision strategies: a standard reward-maximising policy and a
"game theory" minimax-regret policy. It has two halves, and this model
covers the bookkeeping logic of both.

- **The dashboard** (`dashboard.dfy`, module `Dashboard`). While the
  experiment runs, every timer tick makes one synthetic intervention event
  from independent uniform draws. The tick then updates five state cells:
  - a newest-first log feed of at most 10 entries;
  - a sliding window of at most 40 chart points, where the series of the
    strategy not chosen repeats its previous value;
  - the per-strategy counters;
  - the intervention total;
  - a budget that only goes down and is clamped at 0.

  Class `Simulator` holds these cells. Its `Tick` method is specified by the
  pure updater functions, next to lemmas about lengths, eviction order,
  carry-forward and time stamps over any number of ticks.
- **The agent** (`rl_agent.dfy`, module `Agent`). Class `RLAgent` maps a
  discretised customer state to one row of Q-values and one row of regret
  values, one cell per action. Rows are created lazily as zero rows.
  Prediction takes the first argmax (standard) or the first argmin (game
  theory). Feedback moves one cell of each table a tenth of the way toward
  the reward or the loss.
- **The optimizer** (`optimizer.dfy`, module `Optimizer`). It looks up the
  action's cost in a fixed table, then asks a one-variable binary linear
  program whether the action can be taken. The LP solver is a parameter of
  type `Solver`. All that is assumed of it (`RespectsBudget`) is its
  constraint "cost ≤ budget" whenever it answers yes.
- **The back end** (`backend.dfy`, module `Backend`). Class `Server` holds
  the module-level state: the agent, the global budget and the metrics
  history. It models both `/predict` handlers, `/feedback` and `/metrics`.
  - The budget starts at 1000 and stays in [0, 1000].
  - Every history entry's time stamp equals its index.
  - `/metrics` serves the newest 20 entries.
- `seqs.dfy` holds the slicing helpers (`slice(-n)`, `slice(0, n)`,
  `list.index`). `models.dfy` holds the request/response records.
  `wrappers.dfy` holds `Option`.

Random draws (`Math.random`, `random.random`, `random.randint`,
`random.uniform`) are method and function parameters. The operations that
take the draws in (`GenerateEvent`, `Simulator.Tick`, `Spend`,
`RLAgent.Predict`, `ChurnRate` and both `/predict` handlers) require their
ranges; the classifiers they pass draws to (`StrategyOf`, `AbStrategy`,
`Decide`) are defined for every value and need no range. Floating-point numbers are Dafny `real`s.

One consequence is proved and worth knowing. The optimizer's cost table is
keyed by "No_Action", "10%_Discount", "Free_Upgrade" and
"Priority_Support". None of the agent's five labels appears there, so every
action the agent proposes costs 0 (`Backend.AgentActionsCostNothing`).
Both `/predict` handlers therefore leave the budget unchanged.

Two properties one might expect of the chart do not hold of the code; the
model follows the code:
- A chart point's `time` is the previous series length, not a running
  sequence number. Once the window is full it stays at 40.
- After a tick, at least one of the two reward fields equals the previous
  point's value. "Exactly one differs" fails when the new reward happens to
  equal the old value.

## Model

| member | source | states |
|---|---|---|
| `Seqs.Last` | frontend/src/components/Dashboard.jsx:86 | `slice(-n)` / `[-n:]` keeps the last min(len, n) elements, in order |
| `Seqs.First` | frontend/src/components/Dashboard.jsx:74 | `slice(0, n)` keeps the first min(len, n) elements, in order |
| `Seqs.IndexOf` | backend/app/services/rl_agent.py:66 | `list.index`: the first position holding the value; None (the ValueError) iff the value is absent |
| `Dashboard.CustomerNumber` | frontend/src/components/Dashboard.jsx:39-41 | the mock customer number lies in [1000, 9999] |
| `Dashboard.StrategyOf` | frontend/src/components/Dashboard.jsx:52-53 | the strategy is RL_STANDARD iff the draw is > 0.3 |
| `Dashboard.RewardOf` | frontend/src/components/Dashboard.jsx:58-60 | the standard reward is in [-0.4, 1.1); the minimax reward is in [0.1, 0.7) |
| `Dashboard.ActionIndex` | frontend/src/components/Dashboard.jsx:62 | floor(4u) is a valid index 0..3 into the four action labels |
| `Dashboard.GenerateEvent` | frontend/src/components/Dashboard.jsx:48-64 | one event: customer number in range; standard iff draw > 0.3; reward range per strategy; action one of the four labels; risk in [0, 1); feasible iff draw > 0.2; the strategy tag reads RL_STANDARD iff draw > 0.3 |
| `Dashboard.EntryOf` | frontend/src/components/Dashboard.jsx:66-73 | the log entry copies the event; its status is AUTHORIZED iff the event is feasible, and its status tag reads AUTHORIZED or BLOCKED accordingly |
| `Dashboard.PushLog` | frontend/src/components/Dashboard.jsx:66-74 | the new log is the new entry followed by the old entries in order, with length min(old + 1, 10) |
| `Dashboard.NextPoint` | frontend/src/components/Dashboard.jsx:80-85 | the new point's time is the old length; the chosen field is the reward; the other field carries the last point's value forward, or 0 on an empty series |
| `Dashboard.AppendPoint` | frontend/src/components/Dashboard.jsx:82-86 | the new series is the old series' newest points followed by the new point; its length is min(old + 1, 40), so the oldest point goes first |
| `Dashboard.AppendPointKeepsTimes` | frontend/src/components/Dashboard.jsx:82-86 | appending keeps the series at most 40 long, with times in [0, 40], non-decreasing, and equal to the position until the window fills |
| `Dashboard.AppendPointCarriesForward` | frontend/src/components/Dashboard.jsx:80-86 | appending keeps every pair of neighbouring points equal in at least one of the two reward fields |
| `Dashboard.FullWindowRepeatsForty` | frontend/src/components/Dashboard.jsx:83-86 | on a full window the new point has time 40 and the oldest point is dropped |
| `Dashboard.Count` | frontend/src/components/Dashboard.jsx:90-93 | exactly the chosen strategy's counter grows by 1, so the sum grows by 1 |
| `Dashboard.Spend` | frontend/src/components/Dashboard.jsx:95 | the new budget is max(0, b − 20u): at least 0 and at least b − 20u, equal to b − 20u unless clamped to 0, and never above a non-negative b |
| `Dashboard.LogsAfterLength` | frontend/src/components/Dashboard.jsx:66-74 | after n ticks the log holds min(old + n, 10) entries, and the newest event comes first |
| `Dashboard.SeriesAfterLength` | frontend/src/components/Dashboard.jsx:76-88 | after n ticks the series holds min(old + n, 40) points |
| `Dashboard.FiftyTicks` | frontend/src/components/Dashboard.jsx:46-101 | fifty ticks from mount leave exactly 10 log entries and 40 chart points |
| `Dashboard.Simulator.constructor` | frontend/src/components/Dashboard.jsx:32-37 | the mount state: idle, empty log and series, zero counters, budget 1000 |
| `Dashboard.Simulator.Toggle` | frontend/src/components/Dashboard.jsx:228 | the run button flips the run state |
| `Dashboard.Simulator.Tick` | frontend/src/components/Dashboard.jsx:43-104 | while idle nothing changes; otherwise log, series, counters, budget (only if feasible) and total follow the updaters; the invariant keeps standard + minimax == total, the budget in [0, 1000], the log ≤ 10 and the series shape; the budget never increases |
| `Agent.StateKey` | backend/app/services/rl_agent.py:18-22 | the state key parses back to (usage > 50, tenure < 12, contract type): "High" iff usage > 50 GB, "New" iff tenure < 12 months, then the contract type |
| `Agent.SameStateIffSameFeatures` | backend/app/services/rl_agent.py:18-22 | two customers share a table row iff they agree on the usage level, the tenure level and the contract type |
| `Agent.ArgMax` | backend/app/services/rl_agent.py:37 | `np.argmax`: an index of a maximal entry, with every earlier entry strictly smaller |
| `Agent.ArgMin` | backend/app/services/rl_agent.py:51 | `np.argmin`: an index of a minimal entry, with every earlier entry strictly larger |
| `Agent.Decide` | backend/app/services/rl_agent.py:32-57 | explore gives the drawn action with risk 0.5; greedy gives the first max Q action with risk 1 − q; game theory gives the first min regret action with risk 0.8; an unknown strategy gives ("NO_ACTION", 0.0) |
| `Agent.WithState` | backend/app/services/rl_agent.py:27-30 | lazy initialisation adds a zero row for an unseen state and keeps every existing row |
| `Agent.Blend` | backend/app/services/rl_agent.py:67-71 | the new value lies between the old value and the target, and its gap to the target shrinks by the factor 0.9 |
| `Agent.Loss` | backend/app/services/rl_agent.py:76 | the loss is 1 iff the reward is negative, else 0 |
| `Agent.UpdateCell` | backend/app/services/rl_agent.py:69-78 | exactly one cell moves toward the target; every other row and cell is unchanged |
| `Agent.WithStateKeepsTables` | backend/app/services/rl_agent.py:27-30 | lazy initialisation keeps both tables over the same states, with rows of length 5 and regret values in [0, 1] |
| `Agent.UpdateKeepsTables` | backend/app/services/rl_agent.py:69-78 | a learning step keeps the tables well formed; each regret value stays in [0, 1] |
| `Agent.RLAgent.constructor` | backend/app/services/rl_agent.py:6-16 | both tables start empty; the action-count argument is ignored |
| `Agent.RLAgent.EnsureState` | backend/app/services/rl_agent.py:27-30 | both tables become their lazily initialised versions |
| `Agent.RLAgent.Predict` | backend/app/services/rl_agent.py:24-57 | the state's zero rows are inserted if missing, also for an unknown strategy; the answer is `Decide` on the state's rows |
| `Agent.RLAgent.UpdatePolicy` | backend/app/services/rl_agent.py:59-81 | after lazy initialisation, a known action moves its Q cell toward the reward and its regret cell toward the loss; an unknown action name changes nothing else |
| `Optimizer.CostOf` | backend/app/services/optimizer.py:10-17 | the table cost, 0 for an unknown action; every cost is a table value, so non-negative |
| `Optimizer.ExactSolveOptimal` | backend/app/services/optimizer.py:19-35 | no choice x allowed by the constraint "x·cost ≤ budget" reaches a larger objective x·risk than the exact solver's answer, which takes the action iff it fits the budget and the risk is positive |
| `Optimizer.RespectsBudget` | backend/app/services/optimizer.py:30 | the solver contract: a solver answers yes only when the action's cost fits the budget |
| `Optimizer.ExactSolveRespectsBudget` | backend/app/services/optimizer.py:30 | an exact solver meets the solver contract, so the contract can be met |
| `Optimizer.OptimizeIntervention` | backend/app/services/optimizer.py:4-36 | the returned cost is the table cost whether or not the action is feasible; feasible implies cost ≤ budget; a negative budget is never feasible |
| `Backend.ChurnRate` | backend/app/main.py:61 | the churn rate is in [0.1, 0.3] after a negative reward, otherwise in [0.0, 0.1] |
| `Backend.AbStrategy` | backend/app/main.py:84-85 | the strategy is "standard" iff the draw is < 0.8, otherwise "game_theory" |
| `Backend.StatusOf` | backend/app/main.py:46 | the first handler's status is "Feasible" iff feasible, otherwise "Budget_Constrained" |
| `Backend.AbStatusOf` | backend/app/main.py:104 | the second handler's status is exactly "Feasible (Strategy: <s>)" when the choice is feasible and "Blocked (Strategy: <s>)" when it is not: the first word, the length and the " (Strategy: <s>)" ending are all fixed |
| `Backend.AbStatusInjective` | backend/app/main.py:104 | the second handler's status determines both the feasibility and the strategy |
| `Backend.Allocated` | backend/app/main.py:36 | the allocated amount is the cost if feasible, else 0 |
| `Backend.Debit` | backend/app/main.py:38-39 | the budget drops by exactly the allocated amount and stays non-negative, given the solver contract |
| `Backend.AgentActionsCostNothing` | backend/app/services/optimizer.py:10-17 | no agent action label is a cost-table key, so every action the agent proposes costs 0 |
| `Backend.WindowTimes` | backend/app/main.py:58-72 | the served window's time stamps are consecutive and end at the newest index |
| `Backend.Server.constructor` | backend/app/main.py:20-22 | start-up state: a fresh default agent, budget 1000, empty history |
| `Backend.Server.PredictIntervention` | backend/app/main.py:25-47 | the agent's standard prediction passes the optimizer; the action is kept, or replaced by "No_Action"; allocation and status follow feasibility; the budget is debited by the allocation, stays in [0, 1000], and in fact never changes |
| `Backend.Server.PredictInterventionAb` | backend/app/main.py:75-105 | the same after the A/B strategy choice, with "NO_ACTION" and the "(Strategy: s)" status |
| `Backend.Server.ReceiveFeedback` | backend/app/main.py:50-63 | appends exactly one entry whose time is its index; earlier entries are untouched; answers "Updated Policy" |
| `Backend.Server.GetMetrics` | backend/app/main.py:66-72 | the current budget and the last min(20, len) history entries, in order |

## Left out

- Rendering: the tooltip, the card component, the layout, icons, chart configuration and width percentages. These are presentation only.
- The timer: `setInterval`/`clearInterval` and React's re-render timing. A run flag gates `Tick`; the 800 ms cadence is not modelled.
- String formatting: `toFixed(3)`, the locale time stamp, and the `CUST-` prefix of the customer id. A log entry keeps the customer number, the reward and the risk as numbers.
- The tick's try/catch. No modelled step of the tick can fail, so the error path is empty.
- Random number generation. Every draw is a parameter with its range as a precondition.
- The LP solver call. It is a foreign library, represented by a `Solver` parameter and its budget constraint. Its answer on ties (risk 0) and on an infeasible problem is not modelled beyond that constraint.
- IEEE floating point and numpy float64 rounding. Numbers are exact reals, so `random.uniform`'s rare rounding to the upper bound does not arise.
- Agent.RLAgent: a numpy row is a `seq<real>` stored in a map and replaced on update. No row is shared outside the agent, so no aliasing is lost.
- FastAPI routing, CORS, pydantic validation and `BackgroundTasks`. The records of `models.py` are plain datatypes.
- Which duplicated `/predict` handler a request reaches. Both are modelled as separate operations.
- The background `update_policy` call of `/feedback`. Its dummy context has no data usage, so computing the state key would raise. `UpdatePolicy` is modelled on its own with a full customer context.
