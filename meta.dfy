/**
 * `MetaLearner` (meta.py): an exponentially smoothed score per expert, turned into a weight
 * clamped to [0, 2], with 1.0 for an unknown expert and an in-place normalisation.
 *
 * The score history DataFrame is modelled by what `update` reads back from it: the last score
 * of each expert (`scores`) and whether the frame has any row yet (`started`).
 */
module Meta {
  import opened Common
  import opened Market

  /** The learner's mutable state: weights, last scores, and whether any score was recorded. */
  datatype LearnerState = LearnerState(weights: map<string, real>, scores: map<string, real>, started: bool)

  predicate WeightsInRange(w: map<string, real>) {
    forall k :: k in w ==> 0.0 <= w[k] <= 2.0
  }

  function ScoreOf(scores: map<string, real>, name: string): real {
    if name in scores then scores[name] else 0.0
  }

  /** `contrib = direction * strength`. */
  function Contribution(sig: Signal): real {
    (sig.direction as real) * sig.strength
  }

  /** The smoothing recurrence decay * last + (1 - decay) * contrib * pnl. */
  function Smoothed(decay: real, last: real, contrib: real, pnl: real): real {
    decay * last + (1.0 - decay) * contrib * pnl
  }

  /**
   * The score an update records: the frame's very first entry is contrib * pnl; afterwards
   * the expert's last score is smoothed with the new contribution.
   */
  function NextScore(started: bool, last: real, decay: real, sig: Signal, pnl: real): real {
    if !started then Contribution(sig) * pnl else Smoothed(decay, last, Contribution(sig), pnl)
  }

  /**
   * One iteration of the `update` loop for the signal (name, sig). The frame's very first
   * entry is contrib * pnl; afterwards the score is decay * last + (1 - decay) * contrib * pnl.
   */
  function Step(st: LearnerState, decay: real, name: string, sig: Signal, pnl: real): (r: LearnerState)
    ensures name !in st.weights ==> r == st
    ensures name in st.weights ==>
      r.scores.Keys == st.scores.Keys + {name} &&
      r.weights == st.weights[name := Clip(1.0 + r.scores[name], 0.0, 2.0)] &&
      r.started
    ensures name in st.weights && !st.started ==>
      r.scores[name] == (sig.direction as real) * sig.strength * pnl
    ensures name in st.weights && st.started ==>
      r.scores[name] == decay * ScoreOf(st.scores, name) + (1.0 - decay) * ((sig.direction as real) * sig.strength) * pnl
    ensures r.scores.Keys <= st.scores.Keys + {name}
    ensures forall k :: k in st.scores && k != name ==> k in r.scores && r.scores[k] == st.scores[k]
  {
    if name !in st.weights then st
    else
      var score := NextScore(st.started, ScoreOf(st.scores, name), decay, sig, pnl);
      LearnerState(st.weights[name := Clip(1.0 + score, 0.0, 2.0)], st.scores[name := score], true)
  }

  /** The whole `update(signals, realized_pnl)`: the steps in iteration order. */
  function Apply(st: LearnerState, decay: real, signals: seq<(string, Signal)>, pnl: real): LearnerState
    decreases |signals|
  {
    if |signals| == 0 then st
    else
      var last := signals[|signals| - 1];
      Step(Apply(st, decay, signals[..|signals| - 1], pnl), decay, last.0, last.1, pnl)
  }

  /** `update` never adds or removes an expert and keeps every weight in [0, 2]. */
  lemma {:induction false} ApplyKeepsWeights(st: LearnerState, decay: real, signals: seq<(string, Signal)>, pnl: real)
    requires WeightsInRange(st.weights)
    ensures Apply(st, decay, signals, pnl).weights.Keys == st.weights.Keys
    ensures WeightsInRange(Apply(st, decay, signals, pnl).weights)
    decreases |signals|
  {
    if |signals| > 0 {
      ApplyKeepsWeights(st, decay, signals[..|signals| - 1], pnl);
    }
  }

  /** An expert that sends no signal keeps its weight and its score; an unknown name changes nothing. */
  lemma {:induction false} ApplyOthersUnchanged(st: LearnerState, decay: real, signals: seq<(string, Signal)>, pnl: real, name: string)
    requires name in st.weights
    requires forall i :: 0 <= i < |signals| ==> signals[i].0 != name
    ensures name in Apply(st, decay, signals, pnl).weights
    ensures Apply(st, decay, signals, pnl).weights[name] == st.weights[name]
    ensures name in Apply(st, decay, signals, pnl).scores <==> name in st.scores
    ensures name in st.scores ==> Apply(st, decay, signals, pnl).scores[name] == st.scores[name]
    decreases |signals|
  {
    if |signals| > 0 {
      ApplyOthersUnchanged(st, decay, signals[..|signals| - 1], pnl, name);
    }
  }

  /** Signals only from unknown experts leave the whole state as it was. */
  lemma {:induction false} ApplyUnknownOnly(st: LearnerState, decay: real, signals: seq<(string, Signal)>, pnl: real)
    requires forall i :: 0 <= i < |signals| ==> signals[i].0 !in st.weights
    ensures Apply(st, decay, signals, pnl) == st
    decreases |signals|
  {
    if |signals| > 0 {
      ApplyUnknownOnly(st, decay, signals[..|signals| - 1], pnl);
    }
  }

  /** A score within [-1, 1] maps to the weight 1 + score without clamping. */
  lemma WeightOfModerateScore(st: LearnerState, decay: real, name: string, sig: Signal, pnl: real)
    requires name in st.weights
    requires -1.0 <= Step(st, decay, name, sig, pnl).scores[name] <= 1.0
    ensures Step(st, decay, name, sig, pnl).weights[name] == 1.0 + Step(st, decay, name, sig, pnl).scores[name]
  {
  }

  /** The divisor of `normalize_weights`: the sum, or 1.0 when the sum is 0. */
  ghost function Divisor(w: map<string, real>): (t: real)
    ensures t != 0.0
  {
    if SumValues(w) == 0.0 then 1.0 else SumValues(w)
  }

  ghost function Normalized(w: map<string, real>): map<string, real> {
    map k | k in w :: w[k] / Divisor(w)
  }

  /** After normalisation the weights sum to 1 whenever they did not sum to 0. */
  lemma NormalizedSumsToOne(w: map<string, real>)
    requires SumValues(w) != 0.0
    ensures SumValues(Normalized(w)) == 1.0
  {
    var t := SumValues(w);
    assert Normalized(w) == map k | k in w :: w[k] / t;
    SumValuesScale(w, t);
    assert t / t == 1.0;
  }

  /** All-zero weights stay as they are (there is no uniform fallback). */
  lemma NormalizeAllZero(w: map<string, real>)
    requires forall k :: k in w ==> w[k] == 0.0
    ensures Normalized(w) == w
  {
    SumValuesAllZero(w);
  }

  lemma ElementAtMostSum(w: map<string, real>, k: string)
    requires forall j :: j in w ==> w[j] >= 0.0
    requires k in w
    ensures w[k] <= SumValues(w)
  {
    SumValuesRemove(w, k);
    SumValuesNonNegative(w - {k});
  }

  /** Normalising non-negative weights gives weights in [0, 1], hence within [0, 2] again. */
  lemma NormalizeKeepsRange(w: map<string, real>)
    requires WeightsInRange(w)
    ensures forall k :: k in Normalized(w) ==> 0.0 <= Normalized(w)[k] <= 1.0
    ensures WeightsInRange(Normalized(w))
  {
    SumValuesNonNegative(w);
    forall k | k in w
      ensures 0.0 <= w[k] / Divisor(w) <= 1.0
    {
      ElementAtMostSum(w, k);
      if SumValues(w) == 0.0 {
        assert w[k] == 0.0;
      } else {
        QuotientVersusOne(w[k], SumValues(w));
      }
    }
  }

  function NameSet(names: seq<string>): set<string> {
    set n | n in names
  }

  class MetaLearner {
    var expertNames: seq<string>
    var decay: real
    var weights: map<string, real>
    var scores: map<string, real>
    var started: bool

    ghost predicate Valid()
      reads this
    {
      weights.Keys == NameSet(expertNames) && WeightsInRange(weights)
    }

    function State(): LearnerState
      reads this
    {
      LearnerState(weights, scores, started)
    }

    /** `__init__`: every configured expert starts at 1.0; decay is the configured one or 0.9. */
    constructor (cfgDecay: Option<real>, names: seq<string>)
      ensures Valid()
      ensures expertNames == names
      ensures weights == map n | n in names :: 1.0
      ensures scores == map[] && !started
      ensures decay == (if cfgDecay.Some? then cfgDecay.value else 0.9)
    {
      expertNames := names;
      decay := cfgDecay.GetOr(0.9);
      weights := map n | n in names :: 1.0;
      scores := map[];
      started := false;
    }

    /** `get_weight`: the stored weight, failing open to 1.0 for an unknown expert. */
    function GetWeight(name: string): (w: real)
      reads this
      requires Valid()
      ensures name !in weights ==> w == 1.0
      ensures name in weights ==> w == weights[name]
      ensures 0.0 <= w <= 2.0
    {
      if name in weights then weights[name] else 1.0
    }

    /** `update(signals, realized_pnl)`, one loop iteration per (name, signal) entry. */
    method Update(signals: seq<(string, Signal)>, realizedPnl: real)
      requires Valid()
      modifies this
      ensures Valid()
      ensures expertNames == old(expertNames) && decay == old(decay)
      ensures State() == Apply(old(State()), decay, signals, realizedPnl)
    {
      ghost var start := State();
      var i := 0;
      while i < |signals|
        invariant 0 <= i <= |signals|
        invariant expertNames == old(expertNames) && decay == old(decay)
        invariant State() == Apply(start, decay, signals[..i], realizedPnl)
      {
        var name := signals[i].0;
        var sig := signals[i].1;
        assert signals[..i + 1][..i] == signals[..i];
        if name in weights {
          var last := if name in scores then scores[name] else 0.0;
          var score := NextScore(started, last, decay, sig, realizedPnl);
          scores := scores[name := score];
          started := true;
          weights := weights[name := Clip(1.0 + score, 0.0, 2.0)];
        }
        i := i + 1;
      }
      assert signals[..|signals|] == signals;
      ApplyKeepsWeights(start, decay, signals, realizedPnl);
    }

    /** `normalize_weights`: divide every weight in place by the sum (or by 1.0 if it is 0). */
    method NormalizeWeights()
      requires Valid()
      modifies this
      ensures Valid()
      ensures expertNames == old(expertNames) && decay == old(decay)
      ensures scores == old(scores) && started == old(started)
      ensures weights == Normalized(old(weights))
    {
      var total := SumWeights();
      if total == 0.0 {
        total := 1.0;
      }
      ghost var w0 := weights;
      var todo := weights.Keys;
      while todo != {}
        invariant todo <= w0.Keys && weights.Keys == w0.Keys
        invariant forall k :: k in w0 && k !in todo ==> weights[k] == w0[k] / total
        invariant forall k :: k in todo ==> weights[k] == w0[k]
        invariant expertNames == old(expertNames) && decay == old(decay)
        invariant scores == old(scores) && started == old(started)
        decreases |todo|
      {
        var k :| k in todo;
        weights := weights[k := weights[k] / total];
        todo := todo - {k};
      }
      assert total == Divisor(w0);
      assert weights == Normalized(w0);
      NormalizeKeepsRange(w0);
    }

    /** `sum(self.weights.values())`, one entry at a time. */
    method SumWeights() returns (total: real)
      ensures total == SumValues(weights)
    {
      total := 0.0;
      var rest := weights;
      while rest != map[]
        invariant total + SumValues(rest) == SumValues(weights)
        decreases |rest|
      {
        var k :| k in rest;
        SumValuesRemove(rest, k);
        MapRemoveSize(rest, k);
        total := total + rest[k];
        rest := rest - {k};
      }
    }
  }
}
