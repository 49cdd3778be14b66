# PID controller with Twiddle tuning: a Dafny model

This project models the `PID` object of a steering and throttle controller for a driving simulator. It also models the pure helpers of the driver program around it.

The `PID` object has two parts that share one state record:

- **The error-accumulating controller.** Each cross-track error sample updates three terms:
  - the proportional term (the last sample);
  - the integral term (the running sum);
  - the derivative term (the difference from the previous sample).
  
  It also counts the sample. Once more than 300 startup samples have been seen, it adds the squared sample to an episode score. `Guess` is the negated linear combination of the three terms with the gains. `TotalError` is the mean squared error over the scored samples.
- **The Twiddle coordinate search.** After each episode it adjusts a gain vector `p` and a step vector `dp`, one index at a time. In turn it tries a step up, then a step down, grows the step after an improvement and shrinks it after two failures. It moves on to the next index round-robin once the step is 0 or has dropped below 0.1.

Doubles are modelled as exact reals. The files:

- `controller.dfy` (module `Controller`): the controller on values. `Update` is one sample and `Run` applies a sequence of samples. Lemmas give the state after N samples from a reset.
- `twiddle.dfy` (module `Twiddle`): the Twiddle state on values. `TrialStep` is the work on the active index, returning the `advance` flag as the source computes it. `Advance` moves to the next index. `Step` is one whole transition and `Replay` runs many. Lemmas cover the rules, the frame and invariants.
- `pid.dfy` (module `Pid`): the class `PID`, with the fields of `PID.h` and `p`/`dp` as arrays. Its methods update the fields in place and are proved against `Controller.Update`, `Controller.TotalError`, `Twiddle.TrialStep`, `Twiddle.Advance` and `Twiddle.Step`.
- `driver.dfy` (module `Driver`):
  - `HasData`, with `std::string::find`, `find_first_of`, `find_last_of` and `substr` written out, and the length computed modulo 2^64;
  - the steering clamp and the throttle map;
  - the episode-end test.

Modelling decisions:

- **Phase flag.** `PID.h` declares three phase values (`T_INIT`, `T_UP`, `T_DOWN`). Only up and down are ever assigned, so the phase is a two-variant datatype. The source's last `else if (t_state == T_DOWN)` therefore becomes a plain `else`.
- **Unset best score.** The "unset" best score is the real number -1, as in the source. `Twiddle.SentinelCollision` shows what follows: an accepted episode score of exactly -1 is later taken for "unset".
- **Empty vectors.** The constructor leaves `p` and `dp` empty, as default-constructed vectors are. `TwiddleInit` gives them three entries.
- **Division by zero at 300.** `TotalError` compares with a strict `<`, so a count of exactly 300 would divide by zero. Its precondition excludes that count. `Driver.ScoreAtReset` shows that the driver calls it only after the count has passed 300.
- **Gain order.** `TwiddleUpdate` gives `p[0]` to Kp, `p[1]` to Kd and `p[2]` to Ki, so the tuning order is P, D, I.
- **Throttle range.** The comment at `src/main.cpp:92-93` claims a throttle range of [-0.7, 1.3]. The code gives [-0.2, 0.8], and that range is what `Driver.Throttle` states.
- **Split transition.** The source's `TwiddleStep` is one method with an `advance` flag. The model splits it into `StepActive` (the block that works on the active index and sets the flag) and `AdvanceIndex` (the block run when the flag is set). `StepActive` in turn hands each arm of its `if` chain to a method of its own: `FirstTrial`, `ImprovedTrial`, `FailedUp` and `FailedDown`. This keeps each proof small. `TwiddleStep` calls the pieces in the source's order, under the same conditions.

## Model

| member | source | states |
|---|---|---|
| Controller.Update | src/PID.cpp:53-68 | one sample sets the proportional term to the sample. The derivative term is measured from the previous proportional term, and the integral term grows by the sample. The count grows by one. The score never decreases; it changes only once the count exceeds 300, and the reachable-state invariant is kept |
| Controller.Reset | src/PID.cpp:27-33 | the state Init and TwiddleUpdate (src/PID.cpp:119-123) leave: all three error terms 0, count 0 and score 0 |
| Controller.Run | src/PID.cpp:63 | N samples raise the count by exactly N |
| Controller.Guess | src/PID.cpp:49 | the control value is the negated sum of each gain times its error term: Kp with the proportional, Kd with the derivative and Ki with the integral term |
| Controller.TotalError | src/PID.cpp:70-77 | 0 below 300 samples. Above 300, the result times (n - 300) is the accumulated score. Never negative on reachable states. A count of exactly 300 is excluded |
| Controller.RunFromReset | src/PID.cpp:59-67 | after N samples from a reset: the integral term is the exact sum of the samples and the proportional term is the last sample. The derivative term is the last difference (the single sample when N = 1). The score is the sum of the squares of the samples after the first 300 |
| Controller.RunKeepsInvAndScore | src/PID.cpp:67 | over any run of samples the score never decreases, and the invariant (count >= 0, score >= 0, score 0 until startup ends) is kept |
| Controller.SumSquaresNonNegative | src/PID.cpp:66-67 | a sum of squared samples, the increments of the score, is never negative |
| Controller.ScoreNonNegative | src/PID.cpp:66-67 | the score of an episode from a reset is never negative, for any samples |
| Controller.RunConcat | src/PID.cpp:53-68 | feeding two batches one after the other equals feeding their concatenation |
| Controller.PrefixScoreBounded | src/PID.cpp:67 | within an episode, the score after any prefix of the samples is at most the final score |
| Controller.MeanSquaredError | src/PID.cpp:75-76 | from a reset, `TotalError` is 0 for fewer than 300 samples. For more, it is the mean of the squared samples after the first 300 |
| Controller.GuessAfterSamples | src/PID.cpp:49 | after at least two samples from a reset, the control value is -(Kp·last + Kd·(last - previous) + Ki·sum of all samples) |
| Controller.GuessAfterOneSample | src/PID.cpp:49 | after a single sample x from a reset every error term is x, so the control value is -(Kp + Kd + Ki)·x |
| Twiddle.Next | src/PID.cpp:172 | the next index is in {0,1,2}, differs from the current one, and is 0 exactly after 2 |
| Twiddle.Initial | src/PID.cpp:93-97 | the state TwiddleInit sets: p = (0,0,0), dp = (1,1,1), index 0, phase up, best unset (-1) |
| Twiddle.GainsOf | src/PID.cpp:116-118 | p[0] becomes Kp, p[1] becomes Kd, p[2] becomes Ki |
| Twiddle.Advance | src/PID.cpp:169-175 | the index moves round-robin and the phase becomes up. The new index's gain grows by its step; no other gain changes. The steps and the best score are untouched (best is not reset) |
| Twiddle.Improved | src/PID.cpp:142 | a finished episode is an improvement exactly when its score is below the best and it ran more than 300 steps |
| Twiddle.TrialStep | src/PID.cpp:134-168 | `advance` is flagged exactly when the active step is 0, or was just resized below 0.1. Only the active gain and step change, the step by 1, 1.1 or 0.9 times. The best score is kept or replaced by this score, and once set only decreases. Down is entered only by reversing a failed upward trial |
| Twiddle.Step | src/PID.cpp:134-175 | the index stays or advances round-robin. It advances exactly when the active step is 0 or was just resized below 0.1, and on advance the next gain grows by its step with phase up. Only p[i], dp[i] and p[next] may change, and the step changes by 1, 1.1 or 0.9 times. The best score only improves once set. Non-negative steps stay non-negative |
| Twiddle.Replay | src/PID.cpp:126-176 | any number of transitions keep three gains, three steps and an index in range, and keep all steps non-negative |
| Twiddle.FrozenAdvances | src/PID.cpp:134 | a step of 0 advances whatever the score |
| Twiddle.FirstTrial | src/PID.cpp:136-141 | with no best score yet, the score is recorded, the phase is up and only the active gain moves, up by its step |
| Twiddle.ImprovementGrows | src/PID.cpp:142-151 | a lower score after more than 300 steps becomes the best and grows the step by 1.1. The gain then moves by the grown step in the current direction, unless the grown step is below 0.1, in which case the search advances |
| Twiddle.FailedUpReverses | src/PID.cpp:152-156 | a failed upward trial moves the gain down by twice its step and enters the down phase, with nothing else changed |
| Twiddle.BothDirectionsFail | src/PID.cpp:152-167 | up and down both failing restore the gain to its pre-trial value and shrink the step by 0.9. The search then retries upward with the smaller step, or advances with the gain left at its pre-trial value |
| Twiddle.FailedDownRestores | src/PID.cpp:157-167 | from any down phase (after a failed upward trial or after an improvement while going down), a score that is no improvement adds the step back to the gain and shrinks the step by 0.9. An upward trial with the smaller step then begins at the same index, or, when that step is below 0.1, the search advances from the restored gain |
| Twiddle.DownAfterImprovement | src/PID.cpp:126-176 | from the initial state, scores 11 and 12 move the first gain to 1 and then to -1 in the down phase. Score 5 is a new best: the step grows to 1.1 and the gain moves on down to -2.1. Score 6 then restores the gain to -1 and starts an upward trial at -0.01 with step 0.99 |
| Twiddle.ThreeAdvances | src/PID.cpp:172-173 | three advances return the index to where it was and add each gain's step to it exactly once |
| Twiddle.ReplayNeverWorse | src/PID.cpp:142-145 | once a best score is set, and while no score equals -1, any number of transitions never leave a worse best score |
| Twiddle.SentinelCollision | src/PID.cpp:136-145 | an accepted score of exactly -1 erases the best score, so the next transition records its score as a first trial |
| Twiddle.Scenario | src/PID.cpp:126-176 | from the initial state, scores 10, 8 (after a full episode) and 9 give p[0] = 1, then 2.1 with step 1.1 and best 8, then -0.1 in the down phase |
| Pid.PID.constructor | src/PID.cpp:7-22 | gains and error terms 0, count and score 0, no best score, index 0 going up, empty gain and step vectors |
| Pid.PID.Init | src/PID.cpp:26-41 | the gains are the arguments and the controller is reset. Only controller fields may change, so the Twiddle state is untouched |
| Pid.PID.Guess | src/PID.cpp:44-50 | returns -(Kp·p_error + Kd·d_error + Ki·i_error) of the current state and changes nothing |
| Pid.PID.UpdateError | src/PID.cpp:53-68 | the new controller state is `Update` of the old one. Only the error terms, the count and the score may change |
| Pid.PID.TotalError | src/PID.cpp:70-77 | returns `Controller.TotalError` of the current state and changes nothing |
| Pid.PID.TwiddleInit | src/PID.cpp:83-99 | fresh three-entry vectors: p = (0,0,0), dp = (1,1,1), index 0, phase up, best unset. Then the gains are all 0 and the controller is reset |
| Pid.PID.TwiddleUpdate | src/PID.cpp:101-124 | the gains are `GainsOf(p)` and the controller is reset. Only controller fields may change, so p, dp, index, phase and best are untouched |
| Pid.PID.TwiddleStep | src/PID.cpp:126-176 | the new Twiddle state is `Step` of the old one, with the controller's own count, and stays ready. Only the best score, index, phase and the arrays may change |
| Pid.PID.StepActive | src/PID.cpp:134-168 | the new Twiddle state and the returned flag are `TrialStep` of the old state |
| Pid.PID.FirstTrial | src/PID.cpp:136-141 | on the first episode of a session the new Twiddle state is `TrialStep` of the old one, with the flag clear |
| Pid.PID.ImprovedTrial | src/PID.cpp:142-151 | on a new best score the new Twiddle state and the returned flag are `TrialStep` of the old state |
| Pid.PID.FailedUp | src/PID.cpp:152-156 | after an upward trial without improvement, for every score that is not a new best, the new Twiddle state is `TrialStep` of the old one, with the flag clear |
| Pid.PID.FailedDown | src/PID.cpp:157-167 | after a downward trial without improvement, for every score that is not a new best, the new Twiddle state and the returned flag are `TrialStep` of the old state |
| Pid.PID.AdvanceIndex | src/PID.cpp:169-175 | the new Twiddle state is `Advance` of the old one |
| Driver.Find | src/main.cpp:24 | the first position at which the pattern occurs, or none when it occurs nowhere |
| Driver.FirstOf | src/main.cpp:25 | the first position holding the character, or none when it occurs nowhere |
| Driver.LastOf | src/main.cpp:26 | the last position holding the character, or none when it occurs nowhere |
| Driver.Substr | src/main.cpp:31 | at most count characters from pos, clamped at the end of the string, in order |
| Driver.HasData | src/main.cpp:23-34 | "" whenever "null" occurs anywhere, even with brackets present, and "" when '[' or ']' is missing. Never longer than the message. Any non-empty result starts with '[' |
| Driver.HasDataBracketed | src/main.cpp:30-31 | with the first '[' at or before the last ']', the result is exactly the text between them inclusive, starting with '[' and ending with ']' |
| Driver.HasDataInverted | src/main.cpp:31 | with the last ']' before the first '[', the wrapped unsigned length gives "" when ']' immediately precedes '[', and otherwise the whole suffix from '[' |
| Driver.FramedPayload | src/main.cpp:23-34 | a message made of a prefix without '[', a bracketed body and a suffix without ']' yields exactly the bracketed body |
| Driver.Clamp | src/main.cpp:90 | the steering value sent is in [-1, 1]. It equals the controller output inside that range and is 1 or -1 outside it |
| Driver.Throttle | src/main.cpp:92-94 | the throttle is in [-0.2, 0.8]. It is 0.3 + u/2 for outputs u in [-1, 1], and the end value outside |
| Driver.ThrottleMonotone | src/main.cpp:94 | the throttle never decreases as the controller output grows |
| Driver.ResetConditions | src/main.cpp:98-102 | an episode ends only after more than 300 steps. It always ends once the count passes 10000. It never ends while on track (at most 3.5 off), at speed 3 or more, and within 10000 steps |
| Driver.ShouldReset | src/main.cpp:98-102 | an episode ends when the count read before the current sample exceeds 300 and the car is more than 3.5 off the centre, slower than 3, or past 10000 steps |
| Driver.ScoreAtReset | src/main.cpp:79-104 | at an episode end the controller has seen the earlier samples and the current one. Its `TotalError` is then defined and equals the mean of the squared samples after startup |

## Left out

- The websocket hub and its callbacks, message sending, `listen`/`run`, and the HTTP and connection handlers of `src/main.cpp`: network I/O.
- JSON parsing and the `std::stod` conversion of the telemetry fields: calls into a foreign library. The model takes the samples as reals.
- All console output in `UpdateError`, `TwiddleUpdate` and `TwiddleStep`: it does not affect state.
- `pi`, `deg2rad` and `rad2deg`: unused floating-point helpers.
- The episode score. The driver's score `TotalError() - n - max_speed` and its `max_speed` update are left out, because the local `max_speed` is read before it is initialised. The model therefore takes the score as an arbitrary real.
- The hard-coded gain and step vectors that the driver assigns to `p` and `dp` after `TwiddleInit`, and the compile-time `TUNE_*` switches: configuration data. The Twiddle lemmas hold for any gain and step values.
- IEEE-754 rounding, NaN and infinities: doubles are exact reals. In particular, the `TotalError` result at a count of exactly 300 (0/0 in the source) is not modelled; the precondition excludes it.
- 32-bit overflow of the `int` counters `n` and `t_index`: they are unbounded integers. The driver ends every episode after 10000 steps, far below the limit.
- Driver.HasDataBracketed, Driver.HasDataInverted, Driver.FramedPayload: require a message shorter than 2^64 characters, which every `std::string` is.
