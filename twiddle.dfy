/** Value-level model of the Twiddle coordinate search: the gain vector p, the
    step vector dp, the active index, the phase and the best score so far, and
    the transition taken after each finished episode. */
module Twiddle {
  import opened Controller

  /** Advance threshold for a step size (MIN_RESOLUTION). */
  const MinResolution: real := 0.1

  /** The "no score yet" value of the best score. It is an ordinary number: a
      real score equal to it is indistinguishable from "unset". */
  const Unset: real := -1.0

  /** Factor by which an accepted step grows, and a twice-failed step shrinks. */
  const Grow: real := 1.1
  const Shrink: real := 0.9

  /** Whether the current trial adds (Up) or subtracts (Down) the step. The
      source also declares an initial phase, but no code ever enters it. */
  datatype Phase = Up | Down

  datatype Tuner = Tuner(p: seq<real>, dp: seq<real>, index: int, phase: Phase, best: real)
  {
    /** Three gains, three steps, and an index into both. */
    ghost predicate Valid() {
      |p| == 3 && |dp| == 3 && 0 <= index < 3
    }

    ghost predicate StepsNonNegative()
      requires Valid()
    {
      forall k :: 0 <= k < 3 ==> dp[k] >= 0.0
    }
  }

  function Abs(x: real): (r: real)
    ensures r >= 0.0 && (r == x || r == -x)
  {
    if x < 0.0 then -x else x
  }

  /** The index tuned after i: round-robin over the three gains. */
  function Next(i: int): (j: int)
    requires 0 <= i < 3
    ensures 0 <= j < 3 && j != i
    ensures j == 0 <==> i == 2
  {
    (i + 1) % 3
  }

  /** The state TwiddleInit sets before it hands the gains to the controller. */
  const Initial: Tuner := Tuner([0.0, 0.0, 0.0], [1.0, 1.0, 1.0], 0, Up, Unset)

  /** The gains the controller receives: p[0] is Kp, p[1] is Kd and p[2] is Ki. */
  function GainsOf(p: seq<real>): (g: Gains)
    requires |p| == 3
    ensures g.kp == p[0] && g.kd == p[1] && g.ki == p[2]
  {
    Gains(p[0], p[2], p[1])
  }

  /** Move on to the next gain and start an upward trial on it. */
  function Advance(s: Tuner): (r: Tuner)
    requires s.Valid()
    ensures r.Valid() && r.index == Next(s.index) && r.phase == Up
    ensures r.p[r.index] == s.p[r.index] + s.dp[r.index]
    ensures forall k :: 0 <= k < 3 && k != r.index ==> r.p[k] == s.p[k]
    ensures r.dp == s.dp && r.best == s.best
  {
    var j := Next(s.index);
    s.(index := j, p := s.p[j := s.p[j] + s.dp[j]], phase := Up)
  }

  /** Whether a finished episode counts as an improvement: a lower score than the
      best, from an episode that ran past startup. */
  predicate Improved(s: Tuner, score: real, steps: int) {
    score < s.best && steps > PidStartup
  }

  /** The result of the part of a transition that works on the active index: the
      new state, and whether the search must move on to the next gain. */
  datatype Trial = Trial(state: Tuner, advance: bool)

  /** The part of a transition that works on the active index, before any advance. */
  function TrialStep(s: Tuner, score: real, steps: int): (r: Trial)
    requires s.Valid()
    ensures r.state.Valid() && r.state.index == s.index
    // Advance is flagged exactly when the active step is frozen at 0, or was just
    // resized to below MinResolution.
    ensures r.advance <==>
      s.dp[s.index] == 0.0 ||
      (r.state.dp[s.index] != s.dp[s.index] && Abs(r.state.dp[s.index]) < MinResolution)
    // Only the active cells change, the step only by one of the two factors.
    ensures forall k :: 0 <= k < 3 && k != s.index ==> r.state.p[k] == s.p[k] && r.state.dp[k] == s.dp[k]
    ensures r.state.dp[s.index] == s.dp[s.index]
         || r.state.dp[s.index] == s.dp[s.index] * Grow
         || r.state.dp[s.index] == s.dp[s.index] * Shrink
    // The best score is kept or replaced by this score; once set, it only improves.
    ensures r.state.best == s.best || r.state.best == score
    ensures s.best != Unset && r.state.best != s.best ==> r.state.best < s.best
    // Down is entered only by reversing a failed upward trial.
    ensures r.state.phase == Down && s.phase == Up ==>
      !r.advance && r.state.dp == s.dp && r.state.best == s.best
  {
    var i := s.index;
    var d := s.dp[i];
    if d == 0.0 then
      Trial(s, true)
    else if s.best == Unset then
      Trial(s.(best := score, phase := Up, p := s.p[i := s.p[i] + d]), false)
    else if Improved(s, score, steps) then
      var grown := d * Grow;
      var kept := s.(best := score, dp := s.dp[i := grown]);
      if Abs(grown) < MinResolution then Trial(kept, true)
      else Trial(kept.(p := s.p[i := s.p[i] + (if s.phase == Up then 1.0 else -1.0) * grown]), false)
    else if s.phase == Up then
      Trial(s.(p := s.p[i := s.p[i] - 2.0 * d], phase := Down), false)
    else
      var shrunk := d * Shrink;
      var restored := s.(p := s.p[i := s.p[i] + d], dp := s.dp[i := shrunk]);
      if Abs(shrunk) < MinResolution then Trial(restored, true)
      else Trial(restored.(phase := Up, p := restored.p[i := restored.p[i] + shrunk]), false)
  }

  /** One Twiddle transition after an episode with the given score and step count. */
  function Step(s: Tuner, score: real, steps: int): (r: Tuner)
    requires s.Valid()
    ensures r.Valid()
    // The index either stays or advances round-robin, and it advances exactly
    // when the active step is frozen at 0, or was just resized to below
    // MinResolution.
    ensures r.index == s.index || r.index == Next(s.index)
    ensures r.index != s.index <==>
      s.dp[s.index] == 0.0 ||
      (r.dp[s.index] != s.dp[s.index] && Abs(r.dp[s.index]) < MinResolution)
    ensures r.index != s.index ==>
      r.phase == Up && r.p[r.index] == s.p[r.index] + s.dp[r.index]
    // Only the active step changes, and only by one of the two factors.
    ensures forall k :: 0 <= k < 3 && k != s.index ==> r.dp[k] == s.dp[k]
    ensures r.dp[s.index] == s.dp[s.index]
         || r.dp[s.index] == s.dp[s.index] * Grow
         || r.dp[s.index] == s.dp[s.index] * Shrink
    // Only the active gain and, on an advance, the next one change.
    ensures forall k :: 0 <= k < 3 && k != s.index && k != Next(s.index) ==> r.p[k] == s.p[k]
    ensures r.index == s.index ==> r.p[Next(s.index)] == s.p[Next(s.index)]
    // The best score is kept or replaced by this score; once set, it only improves.
    ensures r.best == s.best || r.best == score
    ensures s.best != Unset && r.best != s.best ==> r.best < s.best
    // Down is entered only by reversing a failed upward trial, and never on an advance.
    ensures r.phase == Down ==> r.index == s.index
    ensures r.phase == Down && s.phase == Up ==> r.dp == s.dp && r.best == s.best
    // Non-negative steps stay non-negative.
    ensures s.StepsNonNegative() ==> r.StepsNonNegative()
  {
    var t := TrialStep(s, score, steps);
    if t.advance then Advance(t.state) else t.state
  }

  /** A finished episode: the score handed to the tuner and the controller's step count. */
  datatype Episode = Episode(score: real, steps: int)

  /** Successive transitions over a sequence of episodes. */
  function Replay(s: Tuner, eps: seq<Episode>): (r: Tuner)
    requires s.Valid()
    ensures r.Valid()
    ensures s.StepsNonNegative() ==> r.StepsNonNegative()
    decreases |eps|
  {
    if eps == [] then s else Replay(Step(s, eps[0].score, eps[0].steps), eps[1..])
  }

  /** A frozen gain (step 0) is skipped whatever the score. */
  lemma FrozenAdvances(s: Tuner, score: real, steps: int)
    requires s.Valid() && s.dp[s.index] == 0.0
    ensures Step(s, score, steps) == Advance(s)
  {
  }

  /** The first trial records the score and steps the active gain up by its step,
      leaving the other gains alone. */
  lemma FirstTrial(s: Tuner, score: real, steps: int)
    requires s.Valid() && s.dp[s.index] != 0.0 && s.best == Unset
    ensures var r := Step(s, score, steps);
      r.best == score && r.phase == Up && r.index == s.index && r.dp == s.dp &&
      r.p == s.p[s.index := s.p[s.index] + s.dp[s.index]]
  {
  }

  /** An improvement grows the step by 1.1 and keeps moving in the same direction,
      unless the grown step is below MinResolution, which advances. */
  lemma ImprovementGrows(s: Tuner, score: real, steps: int)
    requires s.Valid() && s.dp[s.index] != 0.0 && s.best != Unset
    requires score < s.best && steps > PidStartup
    ensures var r := Step(s, score, steps); var i := s.index; var d := s.dp[i] * Grow;
      r.best == score && r.dp == s.dp[i := d] &&
      (Abs(d) >= MinResolution ==>
        r.index == i && r.phase == s.phase &&
        r.p == s.p[i := if s.phase == Up then s.p[i] + d else s.p[i] - d]) &&
      (Abs(d) < MinResolution ==> r == Advance(s.(best := score, dp := s.dp[i := d])))
  {
  }

  /** A failed upward trial reverses to the same distance below the pre-trial value. */
  lemma FailedUpReverses(s: Tuner, score: real, steps: int)
    requires s.Valid() && s.dp[s.index] != 0.0 && s.best != Unset
    requires !Improved(s, score, steps) && s.phase == Up
    ensures var r := Step(s, score, steps); var i := s.index;
      r == s.(p := s.p[i := s.p[i] - 2.0 * s.dp[i]], phase := Down)
  {
  }

  /** An upward trial that fails both ways returns the gain to its value before the
      trial, shrinks the step by 0.9, and then either starts a new upward trial
      with the smaller step or, below MinResolution, advances. */
  lemma BothDirectionsFail(s: Tuner, e1: Episode, e2: Episode)
    requires s.Valid() && s.dp[s.index] != 0.0 && s.best != Unset && s.phase == Up
    requires !Improved(s, e1.score, e1.steps) && !Improved(s, e2.score, e2.steps)
    ensures var r := Step(Step(s, e1.score, e1.steps), e2.score, e2.steps);
      var i := s.index; var base := s.p[i] - s.dp[i]; var d := s.dp[i] * Shrink;
      r.dp == s.dp[i := d] && r.phase == Up && r.best == s.best &&
      (Abs(d) >= MinResolution ==> r.index == i && r.p == s.p[i := base + d]) &&
      (Abs(d) < MinResolution ==> r.index == Next(i) && r.p[i] == base)
  {
  }

  /** A downward trial that fails, however the Down phase was entered (a failed
      upward trial, or an improvement while going down), restores the gain by one
      step, shrinks the step by 0.9, and then either starts an upward trial with
      the smaller step or, below MinResolution, advances. */
  lemma FailedDownRestores(s: Tuner, score: real, steps: int)
    requires s.Valid() && s.dp[s.index] != 0.0 && s.best != Unset && s.phase == Down
    requires !Improved(s, score, steps)
    ensures var r := Step(s, score, steps); var i := s.index; var d := s.dp[i] * Shrink;
      r.dp == s.dp[i := d] && r.phase == Up && r.best == s.best &&
      (Abs(d) >= MinResolution ==> r.index == i && r.p == s.p[i := s.p[i] + s.dp[i] + d]) &&
      (Abs(d) < MinResolution ==> r == Advance(s.(p := s.p[i := s.p[i] + s.dp[i]], dp := s.dp[i := d])))
  {
  }

  /** Going down after an improvement while Down, from the initial state: scores
      11 and 12 send the first gain up to 1 and then down to -1; a better score 5
      moves it on down by the grown step 1.1, and a worse score 6 then restores it
      to -1 and starts an upward trial with the step shrunk to 0.99. */
  lemma DownAfterImprovement()
    ensures var a := Step(Step(Initial, 11.0, PidStartup + 1), 12.0, PidStartup + 1);
      a.p == [-1.0, 0.0, 0.0] && a.phase == Down && a.best == 11.0 &&
      var b := Step(a, 5.0, PidStartup + 1);
      b.p == [-2.1, 0.0, 0.0] && b.dp == [1.1, 1.0, 1.0] && b.phase == Down && b.best == 5.0 &&
      var c := Step(b, 6.0, PidStartup + 1);
      c.p == [-0.01, 0.0, 0.0] && c.dp == [0.99, 1.0, 1.0] &&
      c.phase == Up && c.index == 0 && c.best == 5.0
  {
  }

  /** Three advances bring the index back and add each gain's step to it once. */
  lemma ThreeAdvances(s: Tuner)
    requires s.Valid()
    ensures var r := Advance(Advance(Advance(s)));
      r.index == s.index && r.dp == s.dp && r.best == s.best &&
      forall k :: 0 <= k < 3 ==> r.p[k] == s.p[k] + s.dp[k]
  {
  }

  /** While no episode scores exactly Unset, a best score that has been set is
      never replaced by a worse one over any number of episodes. */
  lemma {:induction false} ReplayNeverWorse(s: Tuner, eps: seq<Episode>)
    requires s.Valid() && s.best != Unset
    requires forall k :: 0 <= k < |eps| ==> eps[k].score != Unset
    ensures Replay(s, eps).best <= s.best
    ensures Replay(s, eps).best != Unset
    decreases |eps|
  {
    if eps != [] {
      var m := Step(s, eps[0].score, eps[0].steps);
      assert m.best <= s.best;
      forall k | 0 <= k < |eps[1..]| ensures eps[1..][k].score != Unset {
        assert eps[1..][k] == eps[k + 1];
      }
      ReplayNeverWorse(m, eps[1..]);
    }
  }

  /** A score of exactly Unset that is accepted as an improvement erases the best
      score, so the next episode is treated as the first trial again. */
  lemma SentinelCollision(s: Tuner, steps: int, next: Episode)
    requires s.Valid() && s.dp[s.index] != 0.0 && s.best != Unset
    requires Unset < s.best && steps > PidStartup
    requires Abs(s.dp[s.index] * Grow) >= MinResolution
    ensures var m := Step(s, Unset, steps);
      m.best == Unset && m.index == s.index &&
      Step(m, next.score, next.steps).best == next.score
  {
  }

  /** The worked example: scores 10, then 8 after a full episode, then 9. */
  lemma Scenario()
    ensures var a := Step(Initial, 10.0, 0);
      a.p == [1.0, 0.0, 0.0] && a.phase == Up && a.best == 10.0 &&
      var b := Step(a, 8.0, PidStartup + 1);
      b.p == [2.1, 0.0, 0.0] && b.dp == [1.1, 1.0, 1.0] && b.best == 8.0 &&
      var c := Step(b, 9.0, PidStartup + 1);
      c.p == [-0.1, 0.0, 0.0] && c.phase == Down && c.index == 0
  {
  }
}
