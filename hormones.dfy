/**
 * The homeostatic signal of the agent (core/hormone_system.py): three levels in [0,1] (stress,
 * reward, stability) that decay toward fixed baselines, move by deltas derived from a feedback
 * signal, and drive the suggested next behaviour.
 */
module Hormones {
  import Strings

  /** The behaviours the modulator can suggest; `Value` is the string the program reports. */
  datatype AgentState = Idle | Thinking | Proactive | Dreaming | Expand | Prune
  {
    function Value(): string {
      match this
      case Idle => "IDLE"
      case Thinking => "THINKING"
      case Proactive => "PROACTIVE"
      case Dreaming => "DREAMING"
      case Expand => "EXPAND"
      case Prune => "PRUNE"
    }
  }

  datatype HormoneState = HormoneState(stress: real, reward: real, stability: real)

  /** The changes `evaluate_state` proposes, one per level. */
  datatype Deltas = Deltas(stress: real, reward: real, stability: real)

  /** The `stress_threshold`, `reward_threshold` and `stability_threshold` settings, which the
      settings file does not define; they are parameters of the model. */
  datatype Thresholds = Thresholds(stress: real, reward: real, stability: real)

  const StressBaseline: real := 0.1
  const RewardBaseline: real := 0.5
  const StabilityBaseline: real := 0.7
  const DecayRate: real := 0.05
  const HistoryLimit: nat := 100

  const Baseline := HormoneState(StressBaseline, RewardBaseline, StabilityBaseline)
  const NoChange := Deltas(0.0, 0.0, 0.0)

  function Min(a: real, b: real): real { if a <= b then a else b }
  function Max(a: real, b: real): real { if a >= b then a else b }
  function Abs(x: real): real { if x < 0.0 then -x else x }

  /** `max(lo, min(hi, x))` */
  function Clamp(x: real, lo: real, hi: real): (r: real)
    requires lo <= hi
    ensures lo <= r <= hi
    ensures lo <= x <= hi ==> r == x
  {
    Max(lo, Min(hi, x))
  }

  ghost predicate InRange(h: HormoneState)
  {
    0.0 <= h.stress <= 1.0 && 0.0 <= h.reward <= 1.0 && 0.0 <= h.stability <= 1.0
  }

  // ---------------------------------------------------------------------------------------
  // evaluate_state

  /** The deltas for a feedback signal, after limiting the signal to [-1,1]. */
  function EvaluateState(feedbackSignal: real): (d: Deltas)
    ensures -0.3 <= d.stress <= 0.8 && -0.2 <= d.reward <= 0.8 && -0.15 <= d.stability <= 0.15
    // negative feedback raises stress and lowers reward and stability; other feedback does the opposite
    ensures feedbackSignal < 0.0 <==> d.stress > 0.0
    ensures feedbackSignal < 0.0 <==> d.reward < 0.0
    ensures feedbackSignal < 0.0 <==> d.stability < 0.0
  {
    var signal := Clamp(feedbackSignal, -1.0, 1.0);
    if signal < -0.5 then Deltas(Abs(signal) * 0.8, -0.2, -0.15)
    else if signal < 0.0 then Deltas(Abs(signal) * 0.4, -0.1, -0.05)
    else if signal < 0.3 then Deltas(-0.1, 0.1, 0.02)
    else if signal < 0.7 then Deltas(-0.2, signal * 0.6, 0.08)
    else Deltas(-0.3, signal * 0.8, 0.15)
  }

  /** The lower edges of bands 1..4; band 0 has no lower edge and band 4 no upper edge. */
  const BandEdges: seq<real> := [-0.5, 0.0, 0.3, 0.7]

  /** Band `k` covers the half-open interval [BandEdges[k-1], BandEdges[k]). */
  ghost predicate InBand(signal: real, k: nat)
  {
    k <= 4 && (k == 0 || BandEdges[k - 1] <= signal) && (k == 4 || signal < BandEdges[k])
  }

  /** The table of deltas, band by band, for a signal in that band. */
  function BandDeltas(k: nat, signal: real): Deltas
    requires k <= 4
  {
    match k
    case 0 => Deltas(-signal * 0.8, -0.2, -0.15)
    case 1 => Deltas(-signal * 0.4, -0.1, -0.05)
    case 2 => Deltas(-0.1, 0.1, 0.02)
    case 3 => Deltas(-0.2, signal * 0.6, 0.08)
    case _ => Deltas(-0.3, signal * 0.8, 0.15)
  }

  /** Every signal lies in exactly one band. */
  lemma BandsPartition(signal: real, j: nat, k: nat)
    ensures exists b :: InBand(signal, b)
    ensures InBand(signal, j) && InBand(signal, k) ==> j == k
  {
    var b := if signal < -0.5 then 0 else if signal < 0.0 then 1 else if signal < 0.3 then 2
             else if signal < 0.7 then 3 else 4;
    assert InBand(signal, b);
  }

  /** `evaluate_state` applies the table row of the band its limited signal falls in. */
  lemma EvaluateStateByBand(feedbackSignal: real, k: nat)
    requires InBand(Clamp(feedbackSignal, -1.0, 1.0), k)
    ensures EvaluateState(feedbackSignal) == BandDeltas(k, Clamp(feedbackSignal, -1.0, 1.0))
  {
  }

  /** Stronger feedback never raises stress more and never raises reward or stability less. */
  lemma EvaluateStateMonotone(a: real, b: real)
    requires a <= b
    ensures EvaluateState(a).stress >= EvaluateState(b).stress
    ensures EvaluateState(a).reward <= EvaluateState(b).reward
    ensures EvaluateState(a).stability <= EvaluateState(b).stability
  {
  }

  lemma EvaluateStateExample()
    ensures EvaluateState(-0.8) == Deltas(0.64, -0.2, -0.15)
    ensures EvaluateState(-3.0) == EvaluateState(-1.0) == Deltas(0.8, -0.2, -0.15)
  {
  }

  // ---------------------------------------------------------------------------------------
  // update_hormones

  /** One level after decay toward `baseline` at `rate`. */
  function Decay(x: real, baseline: real, rate: real): real
  {
    x + (baseline - x) * rate
  }

  /** One level after decay, then the delta, then limiting to [0,1]. */
  function Settle(x: real, baseline: real, delta: real, rate: real): real
  {
    Clamp(Decay(x, baseline, rate) + delta, 0.0, 1.0)
  }

  /** The state `update_hormones` produces from `h`. */
  function Step(h: HormoneState, d: Deltas, rate: real): (r: HormoneState)
    ensures InRange(r)
  {
    HormoneState(Settle(h.stress, StressBaseline, d.stress, rate),
                 Settle(h.reward, RewardBaseline, d.reward, rate),
                 Settle(h.stability, StabilityBaseline, d.stability, rate))
  }

  /** `x` lies between `from` and `target` (inclusive), on whichever side `from` starts. */
  ghost predicate Toward(from: real, x: real, target: real)
  {
    (from <= target ==> from <= x <= target) && (target <= from ==> target <= x <= from)
  }

  /** Decay at a rate in [0,1] lands between the level and its baseline. */
  lemma DecayWithin(x: real, baseline: real, rate: real)
    requires 0.0 <= rate <= 1.0
    ensures Toward(x, Decay(x, baseline, rate), baseline)
  {
    var gap := baseline - x;
    var moved := gap * rate;
    assert Decay(x, baseline, rate) == x + moved;
    if gap >= 0.0 {
      ScaleWithin(gap, rate);
      assert 0.0 <= moved <= gap;
    } else {
      ScaleWithin(-gap, rate);
      assert moved == -((-gap) * rate);
      assert gap <= moved <= 0.0;
    }
  }

  lemma ScaleWithin(g: real, rate: real)
    requires g >= 0.0 && 0.0 <= rate <= 1.0
    ensures 0.0 <= g * rate <= g
  {
    assert g * (1.0 - rate) >= 0.0;
  }

  /** With no delta, a level in [0,1] moves toward its baseline and does not pass it. */
  lemma SettleTowardBaseline(x: real, baseline: real, rate: real)
    requires 0.0 <= x <= 1.0 && 0.0 <= baseline <= 1.0 && 0.0 <= rate <= 1.0
    ensures Toward(x, Settle(x, baseline, 0.0, rate), baseline)
  {
    DecayWithin(x, baseline, rate);
  }

  /** The level after `n` updates with no delta. */
  function Rest(x: real, baseline: real, n: nat, rate: real): real
  {
    if n == 0 then x else Settle(Rest(x, baseline, n - 1, rate), baseline, 0.0, rate)
  }

  /** Repeated decay-only updates approach the baseline monotonically and never overshoot it. */
  lemma {:induction false} RestApproachesBaseline(x: real, baseline: real, n: nat, rate: real)
    requires 0.0 <= x <= 1.0 && 0.0 <= baseline <= 1.0 && 0.0 <= rate <= 1.0
    ensures 0.0 <= Rest(x, baseline, n, rate) <= 1.0
    ensures Toward(x, Rest(x, baseline, n, rate), baseline)
    ensures Toward(Rest(x, baseline, n, rate), Rest(x, baseline, n + 1, rate), baseline)
  {
    if n > 0 {
      RestApproachesBaseline(x, baseline, n - 1, rate);
    }
    SettleTowardBaseline(Rest(x, baseline, n, rate), baseline, rate);
  }

  /** `n` decay-only updates of a whole state. */
  function Rested(h: HormoneState, n: nat, rate: real): HormoneState
  {
    if n == 0 then h else Step(Rested(h, n - 1, rate), NoChange, rate)
  }

  lemma {:induction false} RestedLevels(h: HormoneState, n: nat, rate: real)
    ensures Rested(h, n, rate) == HormoneState(Rest(h.stress, StressBaseline, n, rate),
                                                Rest(h.reward, RewardBaseline, n, rate),
                                                Rest(h.stability, StabilityBaseline, n, rate))
  {
    if n > 0 {
      RestedLevels(h, n - 1, rate);
    }
  }

  /** What the life-cycle tick does to the levels: each moves toward its baseline, step by step,
      without overshooting. */
  lemma RestedApproachesBaseline(h: HormoneState, n: nat, rate: real)
    requires InRange(h) && 0.0 <= rate <= 1.0
    ensures Toward(h.stress, Rested(h, n, rate).stress, StressBaseline)
    ensures Toward(h.reward, Rested(h, n, rate).reward, RewardBaseline)
    ensures Toward(h.stability, Rested(h, n, rate).stability, StabilityBaseline)
    ensures Toward(Rested(h, n, rate).stress, Rested(h, n + 1, rate).stress, StressBaseline)
    ensures Toward(Rested(h, n, rate).reward, Rested(h, n + 1, rate).reward, RewardBaseline)
    ensures Toward(Rested(h, n, rate).stability, Rested(h, n + 1, rate).stability, StabilityBaseline)
  {
    RestedLevels(h, n, rate);
    RestedLevels(h, n + 1, rate);
    RestApproachesBaseline(h.stress, StressBaseline, n, rate);
    RestApproachesBaseline(h.reward, RewardBaseline, n, rate);
    RestApproachesBaseline(h.stability, StabilityBaseline, n, rate);
  }

  /** The two updates of the hormone test: feedback -0.8 from the baselines, then 0.9. */
  lemma TestScenario()
    ensures Step(Baseline, EvaluateState(-0.8), DecayRate) == HormoneState(0.74, 0.3, 0.55)
    ensures Step(HormoneState(0.74, 0.3, 0.55), EvaluateState(0.9), DecayRate)
            == HormoneState(0.408, 1.0, 0.7075)
  {
  }

  /** The history after appending `s`: the oldest snapshot is dropped past `HistoryLimit`. */
  function PushHistory(history: seq<HormoneState>, s: HormoneState): seq<HormoneState>
  {
    var h := history + [s];
    if |h| > HistoryLimit then h[1..] else h
  }

  lemma PushHistoryKeepsNewest(history: seq<HormoneState>, s: HormoneState)
    requires |history| <= HistoryLimit
    ensures var r := PushHistory(history, s);
      && |r| == Strings.Min(|history| + 1, HistoryLimit)
      && r[|r| - 1] == s
      && r == (history + [s])[|history| + 1 - |r|..]
  {
  }

  /** The history after a sequence of updates. */
  function PushAll(history: seq<HormoneState>, states: seq<HormoneState>): seq<HormoneState>
    decreases |states|
  {
    if |states| == 0 then history
    else PushHistory(PushAll(history, states[..|states| - 1]), states[|states| - 1])
  }

  /** Starting empty, the history holds exactly the last (at most 100) states, oldest first. */
  lemma {:induction false} PushAllKeepsLast(states: seq<HormoneState>)
    ensures var r := PushAll([], states);
      |r| == Strings.Min(|states|, HistoryLimit) && r == states[|states| - |r|..]
    decreases |states|
  {
    if |states| > 0 {
      var init := states[..|states| - 1];
      PushAllKeepsLast(init);
      var r0 := PushAll([], init);
      assert r0 + [states[|states| - 1]] == states[|init| - |r0|..];
    }
  }

  // ---------------------------------------------------------------------------------------
  // suggest_state_transition and internal_validation_signal

  /** The decision tree, tested in a fixed order. */
  function Suggest(h: HormoneState, t: Thresholds): AgentState
  {
    if h.stress > t.stress then (if h.stability < 0.4 then Expand else Prune)
    else if h.reward < t.reward then Proactive
    else if h.stability > t.stability then Thinking
    else if h.reward > 0.5 then Dreaming
    else Idle
  }

  /** Each suggestion holds exactly when its branch's conditions do, and the earlier tests fail. */
  lemma SuggestCases(h: HormoneState, t: Thresholds)
    ensures Suggest(h, t) == Expand <==> h.stress > t.stress && h.stability < 0.4
    ensures Suggest(h, t) == Prune <==> h.stress > t.stress && h.stability >= 0.4
    ensures Suggest(h, t) == Proactive <==> h.stress <= t.stress && h.reward < t.reward
    ensures Suggest(h, t) == Thinking
            <==> h.stress <= t.stress && h.reward >= t.reward && h.stability > t.stability
    ensures Suggest(h, t) == Dreaming
            <==> h.stress <= t.stress && h.reward >= t.reward && h.stability <= t.stability && h.reward > 0.5
    ensures Suggest(h, t) == Idle
            <==> h.stress <= t.stress && h.reward >= t.reward && h.stability <= t.stability && h.reward <= 0.5
  {
  }

  /** The self-assessment value, always in [-1,1]. */
  function InternalValidation(h: HormoneState): (v: real)
    ensures -1.0 <= v <= 1.0
  {
    Clamp(h.stability * 0.5 + h.reward * 0.3 - h.stress * 0.4, -1.0, 1.0)
  }

  /** For levels in [0,1] the limiting never applies: the value is the weighted sum, in [-0.4, 0.8]. */
  lemma InternalValidationUnclamped(h: HormoneState)
    requires InRange(h)
    ensures InternalValidation(h) == h.stability * 0.5 + h.reward * 0.3 - h.stress * 0.4
    ensures -0.4 <= InternalValidation(h) <= 0.8
  {
  }

  /** `get_diagnostics`, with the 3-decimal rounding left out. */
  datatype Diagnostics = Diagnostics(current: HormoneState, suggestedState: AgentState,
                                     internalValidation: real, historyLength: nat)

  class HormoneModulator {
    var stress: real
    var reward: real
    var stability: real
    /** `decay_rate`, read from the hormone settings. */
    const decayRate: real := DecayRate
    var history: seq<HormoneState>

    ghost predicate Valid()
      reads this
    {
      InRange(State()) && |history| <= HistoryLimit
    }

    function State(): HormoneState
      reads this
    {
      HormoneState(stress, reward, stability)
    }

    constructor ()
      ensures Valid()
      ensures State() == Baseline && history == []
    {
      stress := StressBaseline;
      reward := RewardBaseline;
      stability := StabilityBaseline;
      history := [];
    }

    /** Decay toward the baselines, add the deltas, limit to [0,1], and record the snapshot. */
    method UpdateHormones(stressDelta: real, rewardDelta: real, stabilityDelta: real)
      returns (newState: HormoneState)
      requires Valid()
      modifies this
      ensures Valid()
      ensures newState == Step(old(State()), Deltas(stressDelta, rewardDelta, stabilityDelta), decayRate)
      ensures State() == newState
      ensures history == PushHistory(old(history), newState)
    {
      stress := stress + (StressBaseline - stress) * decayRate;
      reward := reward + (RewardBaseline - reward) * decayRate;
      stability := stability + (StabilityBaseline - stability) * decayRate;

      stress := stress + stressDelta;
      reward := reward + rewardDelta;
      stability := stability + stabilityDelta;

      stress := Max(0.0, Min(1.0, stress));
      reward := Max(0.0, Min(1.0, reward));
      stability := Max(0.0, Min(1.0, stability));

      newState := HormoneState(stress, reward, stability);
      history := history + [newState];
      if |history| > HistoryLimit {
        history := history[1..];
      }
    }

    function GetDiagnostics(t: Thresholds): (d: Diagnostics)
      reads this
      requires Valid()
      ensures d.current == State() && d.suggestedState == Suggest(State(), t)
      ensures d.historyLength <= HistoryLimit && -0.4 <= d.internalValidation <= 0.8
    {
      InternalValidationUnclamped(State());
      Diagnostics(State(), Suggest(State(), t), InternalValidation(State()), |history|)
    }
  }
}
