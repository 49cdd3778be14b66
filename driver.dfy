/** The pure pieces of the simulator driver: extracting the JSON payload of a
    message, bounding the controller outputs to the actuator ranges, and the
    test that ends an episode. */
module Driver {
  import opened Controller
  import opened Twiddle

  datatype Option<T> = None | Some(value: T)

  /** size_t arithmetic is modulo 2^64; a std::string is always shorter than that. */
  const SizeModulus: nat := 0x1_0000_0000_0000_0000

  /** Episode limits of the driver. */
  const MaxSteps: int := 10000
  const OffTrack: real := 3.5
  const MinSpeed: real := 3.0

  predicate OccursAt(s: string, pat: string, k: nat) {
    k + |pat| <= |s| && s[k..k + |pat|] == pat
  }

  ghost predicate Occurs(s: string, pat: string) {
    exists k: nat :: OccursAt(s, pat, k)
  }

  ghost predicate IsFirst(s: string, c: char, k: nat) {
    k < |s| && s[k] == c && forall j :: 0 <= j < k ==> s[j] != c
  }

  ghost predicate IsLast(s: string, c: char, k: nat) {
    k < |s| && s[k] == c && forall j :: k < j < |s| ==> s[j] != c
  }

  /** std::string::find of a pattern at or after from; None is npos. */
  function Find(s: string, pat: string, from: nat): (r: Option<nat>)
    ensures r.Some? ==> from <= r.value && OccursAt(s, pat, r.value)
    ensures r.Some? ==> forall j: nat :: from <= j < r.value ==> !OccursAt(s, pat, j)
    ensures r.None? ==> forall j: nat :: from <= j ==> !OccursAt(s, pat, j)
    decreases |s| - from
  {
    if from + |pat| > |s| then None
    else if OccursAt(s, pat, from) then Some(from)
    else Find(s, pat, from + 1)
  }

  /** std::string::find_first_of for a one-character set, at or after from. */
  function FirstOf(s: string, c: char, from: nat): (r: Option<nat>)
    requires from <= |s|
    ensures r.Some? ==> from <= r.value < |s| && s[r.value] == c
    ensures r.Some? ==> forall j :: from <= j < r.value ==> s[j] != c
    ensures r.None? ==> forall j :: from <= j < |s| ==> s[j] != c
    decreases |s| - from
  {
    if from == |s| then None
    else if s[from] == c then Some(from)
    else FirstOf(s, c, from + 1)
  }

  /** std::string::find_last_of for a one-character set, within s[..upto]. */
  function LastOf(s: string, c: char, upto: nat): (r: Option<nat>)
    requires upto <= |s|
    ensures r.Some? ==> r.value < upto && s[r.value] == c
    ensures r.Some? ==> forall j :: r.value < j < upto ==> s[j] != c
    ensures r.None? ==> forall j :: 0 <= j < upto ==> s[j] != c
    decreases upto
  {
    if upto == 0 then None
    else if s[upto - 1] == c then Some(upto - 1)
    else LastOf(s, c, upto - 1)
  }

  function Min(a: int, b: int): int {
    if a <= b then a else b
  }

  /** std::string::substr: at most count characters from pos, clamped to the end. */
  function Substr(s: string, pos: nat, count: nat): (r: string)
    requires pos <= |s|
    ensures |r| == Min(count, |s| - pos)
    ensures forall k :: 0 <= k < |r| ==> r[k] == s[pos + k]
  {
    s[pos..pos + Min(count, |s| - pos)]
  }

  /** The JSON payload of a message: from the first '[' to the last ']', or ""
      when the message mentions "null" or lacks either bracket. The length is
      computed in unsigned arithmetic, so it wraps when ']' comes before '['. */
  function HasData(s: string): (r: string)
    ensures Occurs(s, "null") ==> r == ""
    ensures '[' !in s || ']' !in s ==> r == ""
    ensures |r| <= |s|
    ensures r != "" ==> r[0] == '[' && !Occurs(s, "null")
  {
    var foundNull := Find(s, "null", 0);
    var b1 := FirstOf(s, '[', 0);
    var b2 := LastOf(s, ']', |s|);
    if foundNull.Some? then ""
    else if b1.Some? && b2.Some? then
      Substr(s, b1.value, (b2.value - b1.value + 1) % SizeModulus)
    else ""
  }

  lemma FirstOfIsFirst(s: string, c: char, k: nat)
    requires IsFirst(s, c, k)
    ensures FirstOf(s, c, 0) == Some(k)
  {
  }

  lemma LastOfIsLast(s: string, c: char, k: nat)
    requires IsLast(s, c, k)
    ensures LastOf(s, c, |s|) == Some(k)
  {
  }

  /** When no "null" occurs and both brackets exist, the payload is the
      substring at the first '[' with the wrapped length. */
  lemma HasDataFound(s: string, b1: nat, b2: nat)
    requires !Occurs(s, "null") && IsFirst(s, '[', b1) && IsLast(s, ']', b2)
    ensures HasData(s) == Substr(s, b1, (b2 - b1 + 1) % SizeModulus)
  {
    NoNullNotFound(s);
    FirstOfIsFirst(s, '[', b1);
    LastOfIsLast(s, ']', b2);
  }

  lemma NoNullNotFound(s: string)
    requires !Occurs(s, "null")
    ensures Find(s, "null", 0) == None
  {
  }

  /** With the first '[' at or before the last ']', the payload is exactly the
      text between them, both brackets included. */
  lemma HasDataBracketed(s: string, b1: nat, b2: nat)
    requires |s| < SizeModulus
    requires !Occurs(s, "null") && IsFirst(s, '[', b1) && IsLast(s, ']', b2) && b1 <= b2
    ensures HasData(s) == s[b1..b2 + 1]
    ensures HasData(s)[0] == '[' && HasData(s)[|HasData(s)| - 1] == ']'
  {
    HasDataFound(s, b1, b2);
    var len := b2 - b1 + 1;
    assert len % SizeModulus == len;
  }

  /** With the last ']' before the first '[', the wrapped length makes substr
      return nothing when ']' immediately precedes '[', and the whole rest of the
      message from '[' otherwise. */
  lemma HasDataInverted(s: string, b1: nat, b2: nat)
    requires |s| < SizeModulus
    requires !Occurs(s, "null") && IsFirst(s, '[', b1) && IsLast(s, ']', b2) && b2 < b1
    ensures HasData(s) == if b2 + 1 == b1 then "" else s[b1..]
  {
    HasDataFound(s, b1, b2);
    var len := (b2 - b1 + 1) % SizeModulus;
    if b2 + 1 == b1 {
      assert len == 0;
    } else {
      assert len == SizeModulus + b2 - b1 + 1;
      assert Min(len, |s| - b1) == |s| - b1;
    }
  }

  /** A message framed as prefix, bracketed body and suffix, with no '[' before
      the body and no ']' after it, yields the bracketed body: framing and
      extraction are inverse. */
  lemma FramedPayload(prefix: string, body: string, suffix: string)
    requires |prefix| + |body| + |suffix| + 2 < SizeModulus
    requires '[' !in prefix && ']' !in suffix
    requires !Occurs(prefix + "[" + body + "]" + suffix, "null")
    ensures HasData(prefix + "[" + body + "]" + suffix) == "[" + body + "]"
  {
    var s := prefix + "[" + body + "]" + suffix;
    FrameBrackets(prefix, body, suffix);
    HasDataBracketed(s, |prefix|, |prefix| + |body| + 1);
  }

  lemma FrameBrackets(prefix: string, body: string, suffix: string)
    requires '[' !in prefix && ']' !in suffix
    ensures IsFirst(prefix + "[" + body + "]" + suffix, '[', |prefix|)
    ensures IsLast(prefix + "[" + body + "]" + suffix, ']', |prefix| + |body| + 1)
    ensures (prefix + "[" + body + "]" + suffix)[|prefix|..|prefix| + |body| + 2] == "[" + body + "]"
  {
    var s := prefix + "[" + body + "]" + suffix;
    var b1, b2 := |prefix|, |prefix| + |body| + 1;
    assert s[b1] == '[' && s[b2] == ']';
    forall j | 0 <= j < b1 ensures s[j] != '[' { assert s[j] == prefix[j]; }
    forall j | b2 < j < |s| ensures s[j] != ']' { assert s[j] == suffix[j - b2 - 1]; }
  }

  /** The steering value sent: the controller output bounded to [-1, 1]. */
  function Clamp(u: real): (r: real)
    ensures -1.0 <= r <= 1.0
    ensures -1.0 <= u <= 1.0 ==> r == u
    ensures u > 1.0 ==> r == 1.0
    ensures u < -1.0 ==> r == -1.0
  {
    var upper := if u < 1.0 then u else 1.0;
    if upper > -1.0 then upper else -1.0
  }

  /** The throttle sent: the bounded controller output mapped affinely onto
      [-0.2, 0.8], centred on 0.3. */
  function Throttle(u: real): (r: real)
    ensures -0.2 <= r <= 0.8
    ensures -1.0 <= u <= 1.0 ==> r == 0.3 + u / 2.0
    ensures u >= 1.0 ==> r == 0.8
    ensures u <= -1.0 ==> r == -0.2
  {
    -0.2 + (Clamp(u) + 1.0) / 2.0
  }

  lemma ThrottleMonotone(u: real, v: real)
    requires u <= v
    ensures Throttle(u) <= Throttle(v)
  {
  }

  /** Whether the episode ends, on the step count read before the current sample. */
  predicate ShouldReset(n: int, cte: real, speed: real)
  {
    n > PidStartup && (Abs(cte) > OffTrack || speed < MinSpeed || n > MaxSteps)
  }

  /** No episode ends during startup; every episode ends after MaxSteps samples;
      and while on track, fast enough and within MaxSteps, none ends. */
  lemma ResetConditions(n: int, cte: real, speed: real)
    ensures ShouldReset(n, cte, speed) ==> n > PidStartup
    ensures n > MaxSteps ==> ShouldReset(n, cte, speed)
    ensures Abs(cte) <= OffTrack && speed >= MinSpeed && n <= MaxSteps ==> !ShouldReset(n, cte, speed)
  {
  }

  /** At an episode end the controller has seen the earlier samples xs and then
      the current one, so its score is defined and is the mean of the squares of
      the samples after startup. */
  lemma ScoreAtReset(xs: seq<real>, cte: real, speed: real)
    requires ShouldReset(|xs|, cte, speed)
    ensures Run(Reset, xs + [cte]).n != PidStartup
    ensures TotalError(Run(Reset, xs + [cte])) ==
      SumSquares((xs + [cte])[PidStartup..]) / (|xs| + 1 - PidStartup) as real
  {
    MeanSquaredError(xs + [cte]);
  }
}
