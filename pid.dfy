/** The PID object: controller state and Twiddle state in one record, updated in
    place by its methods. Each method is specified by the value-level models in
    Controller and Twiddle. */
module Pid {
  import opened Controller
  import opened Twiddle

  class PID {
    // Error terms
    var pError: real
    var iError: real
    var dError: real

    // Sample counter and cumulative squared error
    var n: int
    var err: real

    // Twiddle state; p and dp hold three entries once TwiddleInit has run
    var p: array<real>
    var dp: array<real>
    var bestErr: real
    var tIndex: int
    var tState: Phase

    // Coefficients
    var kp: real
    var ki: real
    var kd: real

    /** The controller part of the state. */
    ghost function ErrorState(): Errors
      reads this
    {
      Errors(pError, iError, dError, n, err)
    }

    ghost function Coefficients(): Gains
      reads this
    {
      Gains(kp, ki, kd)
    }

    /** The tuner is usable: two distinct vectors of three entries and an index into them. */
    ghost predicate TunerReady()
      reads this
    {
      p.Length == 3 && dp.Length == 3 && p != dp && 0 <= tIndex < 3
    }

    /** The tuner part of the state. */
    ghost function TunerState(): (t: Tuner)
      reads this, p, dp
      requires TunerReady()
      ensures t.Valid()
    {
      Tuner(p[..], dp[..], tIndex, tState, bestErr)
    }

    /** All gains and error terms zero, no best score yet, tuning index 0 going up.
        The gain and step vectors are still empty: TwiddleInit fills them. */
    constructor ()
      ensures ErrorState() == Reset && Coefficients() == Gains(0.0, 0.0, 0.0)
      ensures bestErr == Unset && tState == Up && tIndex == 0
      ensures p.Length == 0 && dp.Length == 0
    {
      kp, ki, kd := 0.0, 0.0, 0.0;
      pError, iError, dError := 0.0, 0.0, 0.0;
      n := 0;
      bestErr := Unset;
      tState := Up;
      tIndex := 0;
      err := 0.0;
      p := new real[0];
      dp := new real[0];
    }

    /** Sets the coefficients and starts a clean episode; the Twiddle state is untouched. */
    method Init(kp': real, ki': real, kd': real)
      modifies this`pError, this`iError, this`dError, this`n, this`err, this`kp, this`ki, this`kd
      ensures ErrorState() == Reset
      ensures Coefficients() == Gains(kp', ki', kd')
    {
      pError, iError, dError := 0.0, 0.0, 0.0;
      n := 0;
      err := 0.0;
      kp, ki, kd := kp', ki', kd';
    }

    /** The control value for the current state; changes nothing. */
    method Guess() returns (u: real)
      ensures u == Controller.Guess(Coefficients(), ErrorState())
    {
      u := -kp * pError - kd * dError - ki * iError;
    }

    /** Takes one cross-track error sample. Only the error terms, the counter and
        the score change. */
    method UpdateError(cte: real)
      modifies this`pError, this`iError, this`dError, this`n, this`err
      ensures ErrorState() == Update(old(ErrorState()), cte)
    {
      dError := cte - pError;
      pError := cte;
      iError := iError + cte;
      n := n + 1;
      if n > PidStartup {
        err := err + cte * cte;
      }
    }

    /** The episode's mean squared error after startup, 0 before it. */
    method TotalError() returns (r: real)
      requires n != PidStartup
      ensures r == Controller.TotalError(ErrorState())
    {
      if n < PidStartup {
        return 0.0;
      }
      r := err / (n - PidStartup) as real;
    }

    /** Starts a tuning session: fresh three-entry vectors p = (0, 0, 0) and
        dp = (1, 1, 1), index 0 going up, no best score, then TwiddleUpdate. */
    method TwiddleInit()
      modifies this
      ensures fresh(p) && fresh(dp) && TunerReady()
      ensures TunerState() == Initial
      ensures Coefficients() == Gains(0.0, 0.0, 0.0) && ErrorState() == Reset
    {
      p := new real[3] [0.0, 0.0, 0.0];
      dp := new real[3] [1.0, 1.0, 1.0];
      tIndex := 0;
      tState := Up;
      bestErr := Unset;
      TwiddleUpdate();
      assert p[..] == [0.0, 0.0, 0.0] && dp[..] == [1.0, 1.0, 1.0];
    }

    /** Hands the gain vector to the controller (p[0] to Kp, p[1] to Kd, p[2] to Ki)
        and starts a clean episode. The Twiddle state is untouched. */
    method TwiddleUpdate()
      requires p.Length == 3
      modifies this`pError, this`iError, this`dError, this`n, this`err, this`kp, this`ki, this`kd
      ensures Coefficients() == GainsOf(p[..])
      ensures ErrorState() == Reset
    {
      kp := p[0];
      kd := p[1];
      ki := p[2];
      n := 0;
      err := 0.0;
      pError, iError, dError := 0.0, 0.0, 0.0;
    }

    /** One Twiddle transition after an episode that scored runErr; the step count
        consulted is the controller's own. Only the Twiddle state changes. */
    method TwiddleStep(runErr: real)
      requires TunerReady()
      modifies this`bestErr, this`tIndex, this`tState, p, dp
      ensures TunerReady()
      ensures TunerState() == Step(old(TunerState()), runErr, n)
    {
      var advance := StepActive(runErr);
      if advance {
        AdvanceIndex();
      }
    }

    /** The part of a transition that works on the active index: it returns
        whether the search must move on to the next gain. */
    method StepActive(runErr: real) returns (advance: bool)
      requires TunerReady()
      modifies this`bestErr, this`tState, p, dp
      ensures TunerReady()
      ensures Trial(TunerState(), advance) == TrialStep(old(TunerState()), runErr, n)
    {
      if dp[tIndex] == 0.0 {
        advance := true;
      } else if bestErr == Unset {
        FirstTrial(runErr);
        advance := false;
      } else if runErr < bestErr && n > PidStartup {
        advance := ImprovedTrial(runErr);
      } else if tState == Up {
        FailedUp();
        advance := false;
      } else {
        advance := FailedDown();
      }
    }

    /** First episode of a session: its score becomes the best and the active
        gain takes its first upward step. */
    method FirstTrial(runErr: real)
      requires TunerReady() && dp[tIndex] != 0.0 && bestErr == Unset
      modifies this`bestErr, this`tState, p
      ensures TunerReady()
      ensures Trial(TunerState(), false) == TrialStep(old(TunerState()), runErr, n)
    {
      ghost var P := p[..];
      bestErr := runErr;
      tState := Up;
      p[tIndex] := p[tIndex] + dp[tIndex];
      assert p[..] == P[tIndex := P[tIndex] + dp[tIndex]];
    }

    /** A new best score: the step grows, and unless it is then below the
        resolution, the gain moves on in the current direction. */
    method ImprovedTrial(runErr: real) returns (advance: bool)
      requires TunerReady() && dp[tIndex] != 0.0 && bestErr != Unset
      requires runErr < bestErr && n > PidStartup
      modifies this`bestErr, p, dp
      ensures TunerReady()
      ensures Trial(TunerState(), advance) == TrialStep(old(TunerState()), runErr, n)
    {
      ghost var P, D := p[..], dp[..];
      var i := tIndex;
      bestErr := runErr;
      dp[i] := dp[i] * Grow;
      advance := Abs(dp[i]) < MinResolution;
      assert dp[..] == D[i := D[i] * Grow];
      if !advance {
        p[i] := p[i] + (if tState == Up then 1.0 else -1.0) * dp[i];
        assert p[..] == P[i := P[i] + (if tState == Up then 1.0 else -1.0) * (D[i] * Grow)];
      }
    }

    /** An upward trial that did not improve: the gain steps down past its start. */
    method FailedUp()
      requires TunerReady() && dp[tIndex] != 0.0 && bestErr != Unset && tState == Up
      modifies this`tState, p
      ensures TunerReady()
      ensures forall runErr: real :: !Improved(old(TunerState()), runErr, n) ==>
        Trial(TunerState(), false) == TrialStep(old(TunerState()), runErr, n)
    {
      ghost var P := p[..];
      p[tIndex] := p[tIndex] - 2.0 * dp[tIndex];
      tState := Down;
      assert p[..] == P[tIndex := P[tIndex] - 2.0 * dp[tIndex]];
    }

    /** A downward trial that did not improve either: the gain returns to its start
        and the step shrinks; unless it is then below the resolution, an upward
        trial with the smaller step begins. */
    method FailedDown() returns (advance: bool)
      requires TunerReady() && dp[tIndex] != 0.0 && bestErr != Unset && tState == Down
      modifies this`tState, p, dp
      ensures TunerReady()
      ensures forall runErr: real :: !Improved(old(TunerState()), runErr, n) ==>
        Trial(TunerState(), advance) == TrialStep(old(TunerState()), runErr, n)
    {
      ghost var P, D := p[..], dp[..];
      var i := tIndex;
      p[i] := p[i] + dp[i];
      dp[i] := dp[i] * Shrink;
      advance := Abs(dp[i]) < MinResolution;
      assert dp[..] == D[i := D[i] * Shrink];
      if !advance {
        tState := Up;
        p[i] := p[i] + dp[i];
        assert p[..] == P[i := P[i] + D[i] + D[i] * Shrink];
      } else {
        assert p[..] == P[i := P[i] + D[i]];
      }
    }

    /** Moves on to the next gain round-robin and starts an upward trial on it. */
    method AdvanceIndex()
      requires TunerReady()
      modifies this`tIndex, this`tState, p
      ensures TunerReady()
      ensures TunerState() == Advance(old(TunerState()))
    {
      tIndex := (tIndex + 1) % 3;
      p[tIndex] := p[tIndex] + dp[tIndex];
      tState := Up;
    }
  }
}
