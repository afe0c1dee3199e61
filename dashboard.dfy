/** The simulation loop of the churn dashboard (frontend/src/components/Dashboard.jsx).

    While the experiment runs, every timer tick synthesises one intervention
    event from independent uniform draws and folds it into five pieces of
    state: a newest-first log feed of at most 10 entries, a sliding window of
    at most 40 chart points, two per-strategy counters, the intervention total
    and a budget that only goes down. The draws are parameters here. */
module Dashboard {
  import opened Seqs

  const LogCapacity: nat := 10
  const WindowSize: nat := 40
  const InitialBudget: real := 1000.0
  /** A feasible tick spends a uniform amount in [0, MaxSpend). */
  const MaxSpend: real := 20.0
  const Actions: seq<string> := ["DISCOUNT_APPLIED", "PLAN_UPGRADE", "LOYALTY_BONUS", "PREMIUM_OFFER"]

  datatype Strategy = RlStandard | GtMinimax

  /** The strategy tag shown in the log feed. */
  function StrategyTag(s: Strategy): string
  {
    match s
    case RlStandard => "RL_STANDARD"
    case GtMinimax => "GT_MINIMAX"
  }

  datatype Status = Authorized | Blocked

  function StatusTag(s: Status): string
  {
    match s
    case Authorized => "AUTHORIZED"
    case Blocked => "BLOCKED"
  }

  /** A value `Math.random()` can return. */
  predicate IsUnit(u: real) { 0.0 <= u < 1.0 }

  /** The draws of one tick, in the order the tick makes them. `budget` is
      only consumed when the tick is feasible. */
  datatype Draws = Draws(customer: real, strategy: real, reward: real, action: real,
                         risk: real, feasible: real, budget: real)

  predicate ValidDraws(d: Draws)
  {
    IsUnit(d.customer) && IsUnit(d.strategy) && IsUnit(d.reward) && IsUnit(d.action)
    && IsUnit(d.risk) && IsUnit(d.feasible) && IsUnit(d.budget)
  }

  /** The number in the mock customer id `CUST-<n>`. */
  function CustomerNumber(u: real): (n: int)
    requires IsUnit(u)
    ensures 1000 <= n <= 9999
  {
    (u * 9000.0).Floor + 1000
  }

  /** The A/B split: standard RL for about 70% of the draws. */
  function StrategyOf(u: real): (s: Strategy)
    ensures s == RlStandard <==> u > 0.3
  {
    if u > 0.3 then RlStandard else GtMinimax
  }

  /** Standard RL has a wide reward spread, minimax a narrow positive one. */
  function RewardOf(s: Strategy, u: real): (r: real)
    requires IsUnit(u)
    ensures s == RlStandard ==> -0.4 <= r < 1.1
    ensures s == GtMinimax ==> 0.1 <= r < 0.7
  {
    if s == RlStandard then u * 1.5 - 0.4 else u * 0.6 + 0.1
  }

  /** `Math.floor(u * 4)`, an index into `Actions`. */
  function ActionIndex(u: real): (i: int)
    requires IsUnit(u)
    ensures 0 <= i < |Actions|
    ensures i as real <= u * 4.0 < i as real + 1.0
  {
    (u * 4.0).Floor
  }

  /** One synthesised intervention. */
  datatype Event = Event(customer: int, strategy: Strategy, reward: real, action: string,
                         risk: real, feasible: bool)

  function GenerateEvent(d: Draws): (e: Event)
    requires ValidDraws(d)
    ensures 1000 <= e.customer <= 9999
    ensures e.strategy == RlStandard <==> d.strategy > 0.3
    ensures StrategyTag(e.strategy) == "RL_STANDARD" <==> d.strategy > 0.3
    ensures e.strategy == RlStandard ==> -0.4 <= e.reward < 1.1
    ensures e.strategy == GtMinimax ==> 0.1 <= e.reward < 0.7
    ensures e.action in Actions
    ensures 0.0 <= e.risk < 1.0
    ensures e.feasible <==> d.feasible > 0.2
  {
    var s := StrategyOf(d.strategy);
    Event(CustomerNumber(d.customer), s, RewardOf(s, d.reward), Actions[ActionIndex(d.action)],
          d.risk, d.feasible > 0.2)
  }

  /** A log feed entry; the wall-clock time stamp and the three-decimal
      formatting of risk and reward are not modelled. */
  datatype LogEntry = LogEntry(customer: int, action: string, strategy: Strategy, risk: real,
                               status: Status, reward: real)

  function EntryOf(e: Event): (l: LogEntry)
    ensures l.status == Authorized <==> e.feasible
    ensures StatusTag(l.status) == (if e.feasible then "AUTHORIZED" else "BLOCKED")
    ensures l.customer == e.customer && l.action == e.action && l.strategy == e.strategy
    ensures l.risk == e.risk && l.reward == e.reward
  {
    LogEntry(e.customer, e.action, e.strategy, e.risk, if e.feasible then Authorized else Blocked, e.reward)
  }

  /** The log updater: the new entry first, then the nine newest old ones. */
  function PushLog(logs: seq<LogEntry>, entry: LogEntry): (r: seq<LogEntry>)
    ensures |r| == Min(|logs| + 1, LogCapacity)
    ensures r[0] == entry
    ensures forall i :: 1 <= i < |r| ==> r[i] == logs[i - 1]
  {
    [entry] + First(logs, LogCapacity - 1)
  }

  /** One chart point: its time index and the latest reward of each strategy. */
  datatype MetricPoint = MetricPoint(time: int, rewardStandard: real, rewardMinimax: real)

  /** The point a tick appends: the chosen strategy's field takes the reward,
      the other one carries the previous point's value forward (0 on an empty
      series), and the time index is the old series length. */
  function NextPoint(prev: seq<MetricPoint>, s: Strategy, reward: real): (p: MetricPoint)
    ensures p.time == |prev|
    ensures s == RlStandard ==> p.rewardStandard == reward
    ensures s == GtMinimax ==> p.rewardMinimax == reward
    ensures s == GtMinimax ==> p.rewardStandard == (if prev == [] then 0.0 else prev[|prev| - 1].rewardStandard)
    ensures s == RlStandard ==> p.rewardMinimax == (if prev == [] then 0.0 else prev[|prev| - 1].rewardMinimax)
  {
    var last := if prev == [] then MetricPoint(0, 0.0, 0.0) else prev[|prev| - 1];
    MetricPoint(|prev|,
                if s == RlStandard then reward else last.rewardStandard,
                if s == GtMinimax then reward else last.rewardMinimax)
  }

  /** The metrics updater: append the new point and keep the last 40. */
  function AppendPoint(prev: seq<MetricPoint>, s: Strategy, reward: real): (r: seq<MetricPoint>)
    ensures |r| == Min(|prev| + 1, WindowSize)
    ensures r[|r| - 1] == NextPoint(prev, s, reward)
    ensures forall i :: 0 <= i < |r| - 1 ==> r[i] == prev[|prev| - (|r| - 1) + i]
  {
    Last(prev + [NextPoint(prev, s, reward)], WindowSize)
  }

  /** Consecutive points never differ in both fields: at each step only the
      chosen strategy's series moves. */
  ghost predicate CarriesForward(ms: seq<MetricPoint>)
  {
    forall i :: 0 < i < |ms| ==>
      ms[i].rewardStandard == ms[i - 1].rewardStandard || ms[i].rewardMinimax == ms[i - 1].rewardMinimax
  }

  /** The time indices of a series grown from empty by `AppendPoint`: they
      never exceed 40, never go down, and equal the position until the window
      first fills. */
  ghost predicate WellTimed(ms: seq<MetricPoint>)
  {
    && |ms| <= WindowSize
    && (forall i :: 0 <= i < |ms| ==> 0 <= ms[i].time <= WindowSize)
    && (forall i :: 0 < i < |ms| ==> ms[i - 1].time <= ms[i].time)
    && (|ms| < WindowSize ==> forall i :: 0 <= i < |ms| ==> ms[i].time == i)
  }

  lemma AppendPointKeepsTimes(prev: seq<MetricPoint>, s: Strategy, reward: real)
    requires WellTimed(prev)
    ensures WellTimed(AppendPoint(prev, s, reward))
  {
    var p := NextPoint(prev, s, reward);
    var r := AppendPoint(prev, s, reward);
    if |prev| < WindowSize {
      assert r == prev + [p];
      forall i | 0 <= i < |r| ensures r[i].time == i {
        if i < |prev| { assert r[i] == prev[i]; }
      }
    } else {
      var kept := prev[1..];
      assert r == kept + [p];
      forall i | 0 <= i < |kept| ensures 0 <= kept[i].time <= WindowSize {
        assert kept[i] == prev[i + 1];
      }
      forall i | 0 < i < |kept| ensures kept[i - 1].time <= kept[i].time {
        assert kept[i - 1] == prev[i] && kept[i] == prev[i + 1];
      }
    }
  }

  lemma AppendPointCarriesForward(prev: seq<MetricPoint>, s: Strategy, reward: real)
    requires CarriesForward(prev)
    ensures CarriesForward(AppendPoint(prev, s, reward))
  {
    var r := AppendPoint(prev, s, reward);
    var off := |prev| - (|r| - 1);
    forall i | 0 < i < |r|
      ensures r[i].rewardStandard == r[i - 1].rewardStandard || r[i].rewardMinimax == r[i - 1].rewardMinimax
    {
      if i == |r| - 1 {
        assert r[i - 1] == prev[|prev| - 1];
      } else {
        assert r[i] == prev[off + i] && r[i - 1] == prev[off + i - 1];
      }
    }
  }

  /** The window fills at 40 points and from then on every new point has time 40. */
  lemma FullWindowRepeatsForty(prev: seq<MetricPoint>, s: Strategy, reward: real)
    requires WellTimed(prev) && |prev| == WindowSize
    ensures |AppendPoint(prev, s, reward)| == WindowSize
    ensures AppendPoint(prev, s, reward)[WindowSize - 1].time == WindowSize
    ensures AppendPoint(prev, s, reward)[0] == prev[1]
  {
  }

  /** The two per-strategy counters. */
  datatype ExperimentStats = ExperimentStats(standard: nat, minimax: nat)

  /** The counter updater: exactly the chosen strategy's counter goes up by one. */
  function Count(stats: ExperimentStats, s: Strategy): (r: ExperimentStats)
    ensures r.standard + r.minimax == stats.standard + stats.minimax + 1
    ensures s == RlStandard ==> r.standard == stats.standard + 1 && r.minimax == stats.minimax
    ensures s == GtMinimax ==> r.minimax == stats.minimax + 1 && r.standard == stats.standard
  {
    if s == RlStandard then ExperimentStats(stats.standard + 1, stats.minimax)
    else ExperimentStats(stats.standard, stats.minimax + 1)
  }

  /** The budget updater of a feasible tick, `Math.max(0, b - u * 20)`. */
  function Spend(b: real, u: real): (r: real)
    requires IsUnit(u)
    ensures 0.0 <= r
    ensures 0.0 <= b ==> r <= b
    ensures b - MaxSpend < r || r == 0.0
    ensures r > 0.0 ==> b - r == MaxSpend * u
    ensures b - MaxSpend * u <= r
  {
    if b - u * MaxSpend > 0.0 then b - u * MaxSpend else 0.0
  }

  /** The log feed after a run of ticks with the given entries, oldest first. */
  function LogsAfter(logs: seq<LogEntry>, entries: seq<LogEntry>): seq<LogEntry>
    decreases |entries|
  {
    if entries == [] then logs
    else PushLog(LogsAfter(logs, entries[..|entries| - 1]), entries[|entries| - 1])
  }

  lemma {:induction false} LogsAfterLength(logs: seq<LogEntry>, entries: seq<LogEntry>)
    requires |logs| <= LogCapacity
    ensures |LogsAfter(logs, entries)| == Min(|logs| + |entries|, LogCapacity)
    ensures entries != [] ==> LogsAfter(logs, entries)[0] == entries[|entries| - 1]
    decreases |entries|
  {
    if entries != [] {
      LogsAfterLength(logs, entries[..|entries| - 1]);
    }
  }

  /** One tick's contribution to the chart: which strategy ran and its reward. */
  datatype Sample = Sample(strategy: Strategy, reward: real)

  /** The chart series after a run of ticks, oldest first. */
  function SeriesAfter(ms: seq<MetricPoint>, samples: seq<Sample>): seq<MetricPoint>
    decreases |samples|
  {
    if samples == [] then ms
    else
      var last := samples[|samples| - 1];
      AppendPoint(SeriesAfter(ms, samples[..|samples| - 1]), last.strategy, last.reward)
  }

  lemma {:induction false} SeriesAfterLength(ms: seq<MetricPoint>, samples: seq<Sample>)
    requires |ms| <= WindowSize
    ensures |SeriesAfter(ms, samples)| == Min(|ms| + |samples|, WindowSize)
    decreases |samples|
  {
    if samples != [] {
      SeriesAfterLength(ms, samples[..|samples| - 1]);
    }
  }

  /** Fifty ticks from a fresh dashboard leave 10 log entries and 40 points. */
  lemma FiftyTicks(entries: seq<LogEntry>, samples: seq<Sample>)
    requires |entries| == 50 && |samples| == 50
    ensures |LogsAfter([], entries)| == LogCapacity
    ensures |SeriesAfter([], samples)| == WindowSize
  {
    LogsAfterLength([], entries);
    SeriesAfterLength([], samples);
  }

  /** The dashboard's state cells and the run toggle. */
  class Simulator {
    var isSimulating: bool
    var logs: seq<LogEntry>
    var metrics: seq<MetricPoint>
    var budget: real
    var experimentStats: ExperimentStats
    var totalInterventions: nat

    ghost predicate Valid()
      reads this
    {
      && |logs| <= LogCapacity
      && WellTimed(metrics) && CarriesForward(metrics)
      && 0.0 <= budget <= InitialBudget
      && experimentStats.standard + experimentStats.minimax == totalInterventions
    }

    /** The state at mount: idle, empty feeds, zero counters, a full budget. */
    constructor ()
      ensures Valid()
      ensures !isSimulating && logs == [] && metrics == [] && budget == InitialBudget
      ensures experimentStats == ExperimentStats(0, 0) && totalInterventions == 0
    {
      isSimulating := false;
      logs := [];
      metrics := [];
      budget := InitialBudget;
      experimentStats := ExperimentStats(0, 0);
      totalInterventions := 0;
    }

    /** The run button: flips the run state and nothing else. */
    method Toggle()
      modifies this`isSimulating
      ensures isSimulating == !old(isSimulating)
    {
      isSimulating := !isSimulating;
    }

    /** One timer tick. While idle no timer runs, so nothing changes;
        otherwise the five updaters are applied to one synthesised event. */
    method Tick(d: Draws)
      requires Valid() && ValidDraws(d)
      modifies this`logs, this`metrics, this`budget, this`experimentStats, this`totalInterventions
      ensures Valid()
      ensures !old(isSimulating) ==>
        && logs == old(logs) && metrics == old(metrics) && budget == old(budget)
        && experimentStats == old(experimentStats) && totalInterventions == old(totalInterventions)
      ensures old(isSimulating) ==>
        var e := GenerateEvent(d);
        && logs == PushLog(old(logs), EntryOf(e))
        && metrics == AppendPoint(old(metrics), e.strategy, e.reward)
        && experimentStats == Count(old(experimentStats), e.strategy)
        && budget == (if e.feasible then Spend(old(budget), d.budget) else old(budget))
        && totalInterventions == old(totalInterventions) + 1
      ensures budget <= old(budget)
    {
      if !isSimulating {
        return;
      }
      var e := GenerateEvent(d);
      var next := AppendPoint(metrics, e.strategy, e.reward);
      AppendPointKeepsTimes(metrics, e.strategy, e.reward);
      AppendPointCarriesForward(metrics, e.strategy, e.reward);
      var spent := if e.feasible then Spend(budget, d.budget) else budget;
      logs, metrics, experimentStats, budget, totalInterventions :=
        PushLog(logs, EntryOf(e)), next, Count(experimentStats, e.strategy), spent, totalInterventions + 1;
    }
  }
}
