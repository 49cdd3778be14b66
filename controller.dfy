/** Value-level model of the error-accumulating PID controller: the error terms,
    the sample counter and the post-startup squared-error score, and what one
    sample and a whole sequence of samples do to them. Doubles are modelled as
    exact reals. */
module Controller {

  /** Number of initial samples of an episode that are not scored (PID_STARTUP). */
  const PidStartup: nat := 300

  /** The three gain coefficients. */
  datatype Gains = Gains(kp: real, ki: real, kd: real)

  /** The running error terms, the sample counter and the cumulative squared error. */
  datatype Errors = Errors(pError: real, iError: real, dError: real, n: int, err: real)
  {
    /** What every state reachable from a reset satisfies: the counter is a count,
        and nothing has been scored before the startup samples are over. */
    ghost predicate Inv() {
      n >= 0 && err >= 0.0 && (n <= PidStartup ==> err == 0.0)
    }
  }

  /** The state left by the constructor, Init and TwiddleUpdate. */
  const Reset: Errors := Errors(0.0, 0.0, 0.0, 0, 0.0)

  function Square(x: real): (r: real)
    ensures r >= 0.0
  {
    x * x
  }

  /** One sample: backward-difference derivative against the previous sample,
      running sum, counter, and the squared sample once the counter passes startup. */
  function Update(e: Errors, cte: real): (r: Errors)
    ensures r.n == e.n + 1
    ensures r.pError == cte
    ensures r.pError - r.dError == e.pError
    ensures r.iError - e.iError == cte
    ensures r.err >= e.err
    ensures r.err != e.err ==> r.n > PidStartup
    ensures e.Inv() ==> r.Inv()
  {
    var n' := e.n + 1;
    Errors(cte, e.iError + cte, cte - e.pError, n',
           if n' > PidStartup then e.err + Square(cte) else e.err)
  }

  /** The control value: the negated linear combination of the error terms. */
  function Guess(g: Gains, e: Errors): (u: real)
  {
    -(g.kp * e.pError + g.kd * e.dError + g.ki * e.iError)
  }

  /** Mean squared error over the scored part of the episode; 0 before startup.
      The guard is a strict comparison, so a counter of exactly PidStartup would
      divide by zero: that case is excluded. */
  function TotalError(e: Errors): (r: real)
    requires e.n != PidStartup
    ensures e.n < PidStartup ==> r == 0.0
    ensures e.n > PidStartup ==> r * (e.n - PidStartup) as real == e.err
    ensures e.Inv() ==> r >= 0.0
  {
    if e.n < PidStartup then 0.0 else e.err / (e.n - PidStartup) as real
  }

  /** Samples applied in order, the last one last. */
  function Run(e: Errors, xs: seq<real>): (r: Errors)
    ensures r.n == e.n + |xs|
    decreases |xs|
  {
    if xs == [] then e else Update(Run(e, xs[..|xs| - 1]), xs[|xs| - 1])
  }

  function Sum(xs: seq<real>): real
    decreases |xs|
  {
    if xs == [] then 0.0 else Sum(xs[..|xs| - 1]) + xs[|xs| - 1]
  }

  function SumSquares(xs: seq<real>): (r: real)
    decreases |xs|
  {
    if xs == [] then 0.0 else SumSquares(xs[..|xs| - 1]) + Square(xs[|xs| - 1])
  }

  /** The samples of an episode that count towards its score. */
  function Scored(xs: seq<real>): seq<real>
  {
    if |xs| <= PidStartup then [] else xs[PidStartup..]
  }

  lemma {:induction false} SumSquaresNonNegative(xs: seq<real>)
    ensures SumSquares(xs) >= 0.0
    decreases |xs|
  {
    if xs != [] {
      SumSquaresNonNegative(xs[..|xs| - 1]);
    }
  }

  /** After a reset, N samples leave the counter at N, the integral term at the
      exact sum of the samples, the proportional term at the last sample, the
      derivative term at the last difference, and the score at the sum of the
      squares of the samples after startup. */
  lemma {:induction false} RunFromReset(xs: seq<real>)
    ensures Run(Reset, xs).iError == Sum(xs)
    ensures Run(Reset, xs).err == SumSquares(Scored(xs))
    ensures xs == [] ==> Run(Reset, xs) == Reset
    ensures |xs| >= 1 ==> Run(Reset, xs).pError == xs[|xs| - 1]
    ensures |xs| == 1 ==> Run(Reset, xs).dError == xs[0]
    ensures |xs| >= 2 ==> Run(Reset, xs).dError == xs[|xs| - 1] - xs[|xs| - 2]
    decreases |xs|
  {
    if xs != [] {
      var init := xs[..|xs| - 1];
      RunFromReset(init);
      if |xs| > PidStartup {
        assert Scored(xs) == Scored(init) + [xs[|xs| - 1]];
        assert Scored(xs)[..|Scored(xs)| - 1] == Scored(init);
      }
      if |xs| >= 2 {
        assert init[|init| - 1] == xs[|xs| - 2];
      }
    }
  }

  /** Feeding samples to any state that satisfies Inv keeps Inv, and the score
      never decreases. */
  lemma {:induction false} RunKeepsInvAndScore(e: Errors, xs: seq<real>)
    ensures Run(e, xs).err >= e.err
    ensures e.Inv() ==> Run(e, xs).Inv()
    decreases |xs|
  {
    if xs != [] {
      RunKeepsInvAndScore(e, xs[..|xs| - 1]);
    }
  }

  /** Running two batches one after the other is running their concatenation. */
  lemma {:induction false} RunConcat(e: Errors, xs: seq<real>, ys: seq<real>)
    ensures Run(e, xs + ys) == Run(Run(e, xs), ys)
    decreases |ys|
  {
    if ys == [] {
      assert xs + ys == xs;
    } else {
      var zs := xs + ys;
      assert zs[..|zs| - 1] == xs + ys[..|ys| - 1];
      assert zs[|zs| - 1] == ys[|ys| - 1];
      RunConcat(e, xs, ys[..|ys| - 1]);
    }
  }

  /** Within an episode the score never decreases: every prefix of the samples
      has a score no larger than the whole. */
  lemma PrefixScoreBounded(xs: seq<real>, k: nat)
    requires k <= |xs|
    ensures Run(Reset, xs[..k]).err <= Run(Reset, xs).err
  {
    assert xs == xs[..k] + xs[k..];
    RunConcat(Reset, xs[..k], xs[k..]);
    RunKeepsInvAndScore(Run(Reset, xs[..k]), xs[k..]);
  }

  /** The reported score of an episode of more than PidStartup samples is the
      mean of the squares of the samples after startup; before startup it is 0. */
  lemma MeanSquaredError(xs: seq<real>)
    requires |xs| != PidStartup
    ensures |xs| < PidStartup ==> TotalError(Run(Reset, xs)) == 0.0
    ensures |xs| > PidStartup ==>
      TotalError(Run(Reset, xs)) == SumSquares(xs[PidStartup..]) / (|xs| - PidStartup) as real
  {
    RunFromReset(xs);
  }

  /** The score of an episode is never negative, whatever its samples. */
  lemma ScoreNonNegative(xs: seq<real>)
    ensures Run(Reset, xs).err >= 0.0
  {
    RunFromReset(xs);
    SumSquaresNonNegative(Scored(xs));
  }

  /** After a single sample from a reset every error term is that sample, so the
      control value is the sample scaled by the negated sum of the gains. */
  lemma GuessAfterOneSample(g: Gains, x: real)
    ensures Guess(g, Run(Reset, [x])) == -(g.kp + g.kd + g.ki) * x
  {
    assert [x][..0] == [];
    assert Run(Reset, [x]) == Update(Reset, x);
    GuessOfTerms(g, Run(Reset, [x]), x, x, x);
  }

  /** The control value after at least two samples from a reset, in terms of the
      samples themselves. */
  lemma GuessAfterSamples(g: Gains, xs: seq<real>)
    requires |xs| >= 2
    ensures Guess(g, Run(Reset, xs)) ==
      -(g.kp * xs[|xs| - 1] + g.kd * (xs[|xs| - 1] - xs[|xs| - 2]) + g.ki * Sum(xs))
  {
    TermsAfterSamples(xs);
    GuessOfTerms(g, Run(Reset, xs), xs[|xs| - 1], Sum(xs), xs[|xs| - 1] - xs[|xs| - 2]);
  }

  /** The three error terms of RunFromReset, without its score, which keeps the
      arithmetic of GuessAfterSamples linear. */
  lemma TermsAfterSamples(xs: seq<real>)
    requires |xs| >= 2
    ensures Run(Reset, xs).pError == xs[|xs| - 1] && Run(Reset, xs).iError == Sum(xs)
    ensures Run(Reset, xs).dError == xs[|xs| - 1] - xs[|xs| - 2]
  {
    RunFromReset(xs);
  }

  lemma GuessOfTerms(g: Gains, e: Errors, p: real, i: real, d: real)
    requires e.pError == p && e.iError == i && e.dError == d
    ensures Guess(g, e) == -(g.kp * p + g.kd * d + g.ki * i)
  {
  }
}
