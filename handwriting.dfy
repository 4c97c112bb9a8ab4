/** The handwriting tilt simulator (`HandwritingSimulator`,
    src/enhanced_font_randomizer.py:15-84), modelled exactly as written.

    Two details of the code decide its behaviour: the eased tilt is stored in
    a local variable only (line 40), and the last statement of
    `_start_new_trend` assigns `current_tilt` to itself (line 76). So
    `current_tilt` keeps its initial value 0 forever, every new trend draws
    its direction at random, and the "return to baseline" correction branch
    (lines 69-73) can never run. The lemmas at the end of this module prove
    these three facts. */
module Handwriting {
  import opened Draws

  /** The five fields of a `HandwritingSimulator`. */
  datatype TiltState = TiltState(
    currentTilt: real,
    charCountSinceCorrection: int,
    currentTrendDuration: int,
    targetTilt: real,
    trendDirection: int)

  /** The state a new simulator starts in (lines 18-23). */
  const Fresh: TiltState := TiltState(0.0, 0, 0, 0.0, 0)

  /** The random values one `get_char_tilt` call may consume. */
  datatype TiltDraws = TiltDraws(
    threshold: int,       // random.randint(10, 20), line 32
    duration: int,        // random.randint(8, 25), line 55
    coin: real,           // random.random(), line 58
    directionPick: real,  // the draw behind random.choice([-1, 1]), line 59
    magnitude: real,      // the draw behind random.uniform(0.8, 1.5), line 65
    correction: int,      // random.randint(3, 8), line 71
    tremor: real)         // the draw behind random.uniform(-0.2, 0.2), line 47

  predicate ValidDraws(d: TiltDraws) {
    && 10 <= d.threshold <= 20
    && 8 <= d.duration <= 25
    && IsUnit(d.coin)
    && IsUnit(d.directionPick)
    && IsUnit(d.magnitude)
    && 3 <= d.correction <= 8
    && IsUnit(d.tremor)
  }

  /** The states a simulator can be in: its tilt is still 0, its target is
      a slight tilt, and the two counters of the current trend add up to at
      most the longest trend. */
  ghost predicate Reachable(s: TiltState) {
    && s.currentTilt == 0.0
    && -1.5 <= s.targetTilt <= 1.5
    && -1 <= s.trendDirection <= 1
    && s.charCountSinceCorrection >= 0
    && s.currentTrendDuration >= 0
    && s.charCountSinceCorrection + s.currentTrendDuration <= 25
  }

  /** The condition of lines 31-33 for starting a new trend. */
  predicate StartsNewTrend(s: TiltState, threshold: int): (b: bool)
    requires 10 <= threshold <= 20
    ensures s.charCountSinceCorrection >= 20 || s.currentTrendDuration <= 0 ==> b
    ensures s.charCountSinceCorrection < 10 && s.currentTrendDuration > 0 ==> !b
  {
    s.charCountSinceCorrection >= threshold || s.currentTrendDuration <= 0
  }

  /** The direction of a new trend (lines 58-62): drawn at random with
      probability 0.7 or when the tilt is small, else the sign of the tilt. */
  function TrendDirection(currentTilt: real, coin: real, pick: real): (dir: int)
    requires IsUnit(pick)
    ensures dir == -1 || dir == 1
    ensures !(coin < 0.7 || Abs(currentTilt) < 0.5) ==> (dir == 1 <==> currentTilt > 0.0)
  {
    if coin < 0.7 || Abs(currentTilt) < 0.5 then [-1, 1][ChoiceIndex(2, pick)]
    else if currentTilt > 0.0 then 1 else -1
  }

  /** `_start_new_trend` (lines 51-76) as a function of the old state. */
  function NewTrend(s: TiltState, d: TiltDraws): (s': TiltState)
    requires ValidDraws(d)
    ensures s'.currentTilt == s.currentTilt
    ensures s'.charCountSinceCorrection == 0
    ensures s'.trendDirection == -1 || s'.trendDirection == 1
    ensures -1.5 <= s'.targetTilt <= 1.5
    ensures
      || (&& 8 <= s'.currentTrendDuration <= 25
          && 0.8 <= Abs(s'.targetTilt) <= 1.5
          && (s'.targetTilt > 0.0 <==> s'.trendDirection == 1))
      || (&& 3 <= s'.currentTrendDuration <= 8
          && s'.targetTilt == 0.0
          && s.currentTilt != 0.0)
  {
    var dir := TrendDirection(s.currentTilt, d.coin, d.directionPick);
    var maxTilt := Uniform(0.8, 1.5, d.magnitude);
    var target := dir as real * maxTilt;
    if s.currentTilt * target < 0.0 then
      TiltState(s.currentTilt, 0, d.correction, 0.0, dir)
    else
      TiltState(s.currentTilt, 0, d.duration, target, dir)
  }

  /** `_ease_in_out` (lines 78-84): a cubic smoothstep from `start` to `end`
      at the clamped position `t`. */
  function EaseInOut(t: real, start: real, end: real): (r: real)
    ensures Between(start, end, r)
    ensures t <= 0.0 ==> r == start
    ensures t >= 1.0 ==> r == end
  {
    var t := Max(0.0, Min(1.0, t));
    SmoothStepInUnit(t);
    ScaledFraction(end - start, SmoothStep(t));
    start + Scale(end - start, SmoothStep(t))
  }

  /** The easing weight `-2 t^3 + 3 t^2` of line 84. */
  function SmoothStep(t: real): real {
    var t2 := t * t;
    var t3 := t2 * t;
    -2.0 * t3 + 3.0 * t2
  }

  lemma SmoothStepInUnit(t: real)
    requires 0.0 <= t <= 1.0
    ensures 0.0 <= SmoothStep(t) <= 1.0
  {
    var t2 := t * t;
    NonNegativeProduct(t, t);
    NonNegativeProduct(t2, 3.0 - 2.0 * t);
    assert SmoothStep(t) == t2 * (3.0 - 2.0 * t);
    var v := 1.0 - t;
    NonNegativeProduct(v, v);
    NonNegativeProduct(v * v, 1.0 + 2.0 * t);
    assert 1.0 - SmoothStep(t) == (v * v) * (1.0 + 2.0 * t);
  }

  /** The progress of line 39, `min(1.0, duration / 15.0)`. */
  function Progress(s: TiltState): (p: real)
    ensures s.currentTrendDuration >= 1 ==> 0.0 < p <= 1.0
    ensures s.currentTrendDuration >= 15 ==> p == 1.0
  {
    Min(1.0, s.currentTrendDuration as real / 15.0)
  }

  /** The state after the new-trend check of lines 31-36. */
  function BeforeEase(s: TiltState, d: TiltDraws): (m: TiltState)
    requires ValidDraws(d)
    ensures m.currentTrendDuration >= 1
    ensures m.currentTilt == s.currentTilt
    ensures -1.5 <= s.targetTilt <= 1.5 ==> -1.5 <= m.targetTilt <= 1.5
  {
    if StartsNewTrend(s, d.threshold) then NewTrend(s, d) else s
  }

  /** The new state and the returned angle of one `get_char_tilt` call. */
  datatype TiltStep = TiltStep(state: TiltState, tilt: real)

  /** `get_char_tilt` (lines 25-49) as a function of the old state. The
      angle is a point between `current_tilt` and the target of the trend
      (the target itself while 15 or more characters remain), plus a
      tremor of at most 0.2 degrees. */
  function NextTilt(s: TiltState, d: TiltDraws): (step: TiltStep)
    requires ValidDraws(d)
    ensures step.state.currentTilt == s.currentTilt
    ensures StartsNewTrend(s, d.threshold) ==>
      && step.state.charCountSinceCorrection == 1
      && step.state.currentTrendDuration == NewTrend(s, d).currentTrendDuration - 1
      && step.state.targetTilt == NewTrend(s, d).targetTilt
      && 2 <= step.state.currentTrendDuration <= 24
    ensures !StartsNewTrend(s, d.threshold) ==>
      && step.state.charCountSinceCorrection == s.charCountSinceCorrection + 1
      && step.state.currentTrendDuration == s.currentTrendDuration - 1
      && step.state.targetTilt == s.targetTilt
      && step.state.trendDirection == s.trendDirection
    ensures var m := BeforeEase(s, d);
      var tremor := Uniform(-0.2, 0.2, d.tremor);
      && -0.2 <= tremor <= 0.2
      && Between(s.currentTilt, m.targetTilt, step.tilt - tremor)
      && (m.currentTrendDuration >= 15 ==> step.tilt - tremor == m.targetTilt)
  {
    var m := BeforeEase(s, d);
    var eased := EaseInOut(Progress(m), m.currentTilt, m.targetTilt);
    var next := m.(charCountSinceCorrection := m.charCountSinceCorrection + 1,
                   currentTrendDuration := m.currentTrendDuration - 1);
    TiltStep(next, eased + Uniform(-0.2, 0.2, d.tremor))
  }

  /** Every call sees a trend of at least one character, so the progress it
      eases with lies in `(0, 1]`. */
  lemma ProgressInUnitInterval(s: TiltState, d: TiltDraws)
    requires ValidDraws(d)
    ensures 0.0 < Progress(BeforeEase(s, d)) <= 1.0
  {
  }

  /** From a reachable state, a new trend never takes the correction branch:
      its direction is the random pick, its duration the drawn one and its
      target a tilt of 0.8 to 1.5 degrees in that direction. */
  lemma CorrectionUnreachable(s: TiltState, d: TiltDraws)
    requires ValidDraws(d) && s.currentTilt == 0.0
    ensures NewTrend(s, d).trendDirection == [-1, 1][ChoiceIndex(2, d.directionPick)]
    ensures NewTrend(s, d).currentTrendDuration == d.duration
    ensures NewTrend(s, d).targetTilt == NewTrend(s, d).trendDirection as real * Uniform(0.8, 1.5, d.magnitude)
  {
  }

  /** One call keeps the simulator reachable, and from a reachable state the
      returned angle is within 1.7 degrees of 0. */
  lemma NextTiltKeepsReachable(s: TiltState, d: TiltDraws)
    requires ValidDraws(d) && Reachable(s)
    ensures Reachable(NextTilt(s, d).state)
    ensures -1.7 <= NextTilt(s, d).tilt <= 1.7
  {
    var m := BeforeEase(s, d);
    if StartsNewTrend(s, d.threshold) {
      CorrectionUnreachable(s, d);
    }
    assert Reachable(m);
    var eased := EaseInOut(Progress(m), m.currentTilt, m.targetTilt);
    assert -1.5 <= eased <= 1.5;
  }

  /** The states and angles of a sequence of calls on one simulator. */
  datatype TiltRun = TiltRun(state: TiltState, tilts: seq<real>)

  function RunTilts(s: TiltState, ds: seq<TiltDraws>): (r: TiltRun)
    requires forall i :: 0 <= i < |ds| ==> ValidDraws(ds[i])
    ensures |r.tilts| == |ds|
    decreases |ds|
  {
    if ds == [] then TiltRun(s, [])
    else
      var before := RunTilts(s, ds[..|ds| - 1]);
      var step := NextTilt(before.state, ds[|ds| - 1]);
      TiltRun(step.state, before.tilts + [step.tilt])
  }

  /** However many characters a simulator tilts, `current_tilt` stays 0 and
      every angle it returns is within 1.7 degrees of 0. */
  lemma {:induction false} RunKeepsTiltAtZero(s: TiltState, ds: seq<TiltDraws>)
    requires forall i :: 0 <= i < |ds| ==> ValidDraws(ds[i])
    requires Reachable(s)
    ensures Reachable(RunTilts(s, ds).state)
    ensures RunTilts(s, ds).state.currentTilt == 0.0
    ensures forall i :: 0 <= i < |ds| ==> -1.7 <= RunTilts(s, ds).tilts[i] <= 1.7
    decreases |ds|
  {
    if ds != [] {
      var init := ds[..|ds| - 1];
      RunKeepsTiltAtZero(s, init);
      NextTiltKeepsReachable(RunTilts(s, init).state, ds[|ds| - 1]);
    }
  }

  /** A fresh simulator is reachable. */
  lemma FreshIsReachable()
    ensures Reachable(Fresh)
  {
  }

  /** `HandwritingSimulator`: the five fields, updated in place. */
  class HandwritingSimulator {
    var currentTilt: real
    var charCountSinceCorrection: int
    var currentTrendDuration: int
    var targetTilt: real
    var trendDirection: int

    function State(): TiltState
      reads this
    {
      TiltState(currentTilt, charCountSinceCorrection, currentTrendDuration, targetTilt, trendDirection)
    }

    constructor ()
      ensures State() == Fresh
    {
      currentTilt := 0.0;
      charCountSinceCorrection := 0;
      currentTrendDuration := 0;
      targetTilt := 0.0;
      trendDirection := 0;
    }

    /** `get_char_tilt`: the character itself plays no part. */
    method GetCharTilt(c: char, d: TiltDraws) returns (tilt: real)
      requires ValidDraws(d)
      modifies this
      ensures State() == NextTilt(old(State()), d).state
      ensures tilt == NextTilt(old(State()), d).tilt
    {
      if charCountSinceCorrection >= d.threshold || currentTrendDuration <= 0 {
        StartNewTrend(d);
      }
      var progress := Min(1.0, currentTrendDuration as real / 15.0);
      var eased := EaseInOut(progress, currentTilt, targetTilt);
      charCountSinceCorrection := charCountSinceCorrection + 1;
      currentTrendDuration := currentTrendDuration - 1;
      var microTremor := Uniform(-0.2, 0.2, d.tremor);
      tilt := eased + microTremor;
    }

    /** `_start_new_trend`. */
    method StartNewTrend(d: TiltDraws)
      requires ValidDraws(d)
      modifies this
      ensures State() == NewTrend(old(State()), d)
    {
      charCountSinceCorrection := 0;
      currentTrendDuration := d.duration;
      if d.coin < 0.7 || Abs(currentTilt) < 0.5 {
        trendDirection := [-1, 1][ChoiceIndex(2, d.directionPick)];
      } else {
        trendDirection := if currentTilt > 0.0 then 1 else -1;
      }
      var maxTilt := Uniform(0.8, 1.5, d.magnitude);
      targetTilt := trendDirection as real * maxTilt;
      if currentTilt * targetTilt < 0.0 {
        var correctionDuration := d.correction;
        currentTrendDuration := correctionDuration;
        targetTilt := 0.0;
      }
      // line 76 assigns current_tilt to itself
      currentTilt := currentTilt;
    }
  }
}
