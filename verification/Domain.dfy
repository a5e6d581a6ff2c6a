/** The domain rules of src/domain/model.cpp: statuses, retry policy and validation. */
module Domain {
  import opened Base

  const INT32_MIN: int := -0x8000_0000
  const INT32_MAX: int := 0x7fff_ffff

  type int32 = i: int | -0x8000_0000 <= i <= 0x7fff_ffff
  type int64 = i: int | -0x8000_0000_0000_0000 <= i <= 0x7fff_ffff_ffff_ffff

  /** Run statuses; an attempt's status column uses the same spellings. */
  datatype RunStatus = Queued | Starting | Running | Finalizing | RetryWait | Succeeded | Failed | Cancelled

  predicate Terminal(s: RunStatus) { s.Succeeded? || s.Failed? || s.Cancelled? }

  /** The three statuses in which an attempt is executing. */
  predicate Active(s: RunStatus) { s.Starting? || s.Running? || s.Finalizing? }

  predicate TransitionAllowed(from: RunStatus, to: RunStatus) {
    if Terminal(from) then false
    else if to.Cancelled? then true
    else match from
      case Queued => to.Starting?
      case Starting => to.Running? || to.RetryWait? || to.Failed?
      case Running => to.Finalizing? || to.RetryWait? || to.Failed?
      case Finalizing => to.Succeeded? || to.RetryWait? || to.Failed?
      case RetryWait => to.Queued?
      case _ => false
  }

  datatype Failure = Infrastructure | ExitError | Timeout | UserCancelled

  datatype RetryPolicy = RetryPolicy(maxAttempts: int32, retryExit: bool, retryTimeout: bool)

  predicate ShouldRetry(policy: RetryPolicy, completed: int, reason: Failure) {
    if completed >= policy.maxAttempts || reason.UserCancelled? then false
    else
      || reason.Infrastructure?
      || (reason.ExitError? && policy.retryExit)
      || (reason.Timeout? && policy.retryTimeout)
  }

  function Pow2(n: nat): (p: int)
    ensures p >= 1
  {
    if n == 0 then 1 else 2 * Pow2(n - 1)
  }

  function Clamp(x: int, low: int, high: int): int {
    if x < low then low else if x > high then high else x
  }

  /** Exponential backoff computed in 64 bits and capped. */
  function RetryDelay(generation: int, base: int, cap: int): int {
    Min(Max(1, cap), Max(1, base) * Pow2(Clamp(generation, 1, 31) - 1))
  }

  lemma {:induction false} Pow2Grows(a: nat, b: nat)
    requires a <= b
    ensures Pow2(a) <= Pow2(b)
    decreases b - a
  {
    if a < b {
      Pow2Grows(a + 1, b);
    }
  }

  lemma Pow2At30()
    ensures Pow2(30) == 0x4000_0000
  {
    assert Pow2(10) == 1024 by {
      assert Pow2(5) == 32;
    }
    assert Pow2(15) == 32768;
    assert Pow2(20) == 1048576;
    assert Pow2(25) == 33554432;
  }

  /**
   * The closed form is the documented schedule: the first delay is the base, each further
   * generation doubles the previous delay up to the cap, and past generation 31 it stays there.
   */
  lemma BackoffDoublesToCap(generation: int, base: int, cap: int)
    ensures generation <= 1 ==> RetryDelay(generation, base, cap) == Min(Max(1, cap), Max(1, base))
    ensures 1 <= generation < 31 ==>
      RetryDelay(generation + 1, base, cap) == Min(Max(1, cap), 2 * RetryDelay(generation, base, cap))
    ensures generation >= 31 ==> RetryDelay(generation + 1, base, cap) == RetryDelay(generation, base, cap)
  {
  }

  lemma ProductBound(b: int, p: int, top: int, q: int)
    requires 1 <= b <= top && 1 <= p <= q
    ensures 1 <= b * p <= top * q
  {
  }

  /** For any int32 settings no 64-bit intermediate overflows and the result is a positive int32. */
  lemma BackoffFits(generation: int, base: int32, cap: int32)
    ensures Max(1, base) * Pow2(Clamp(generation, 1, 31) - 1) <= 0x7fff_ffff_ffff_ffff
    ensures 1 <= RetryDelay(generation, base, cap) <= Max(1, cap) <= INT32_MAX
  {
    var n := Clamp(generation, 1, 31) - 1;
    Pow2Grows(n, 30);
    Pow2At30();
    ProductBound(Max(1, base), Pow2(n), INT32_MAX, 0x4000_0000);
  }

  // ---- Specifications -------------------------------------------------------------------

  /** A C++ double: only finite values carry a number. */
  datatype Double = Finite(value: real) | Infinite(negative: bool) | NaN

  datatype Scalar =
    | NullValue
    | BoolValue(b: bool)
    | IntValue(i: int64)
    | FloatValue(d: Double)
    | TextValue(text: string)

  datatype Resources = Resources(cpuMillis: int32, memoryMib: int32, gpuCount: int32)

  datatype RunSpec = RunSpec(
    version: int32,
    name: string,
    image: string,
    command: seq<string>,
    parameters: map<string, Scalar>,
    environment: map<string, string>,
    labels: map<string, string>,
    resources: Resources,
    retry: RetryPolicy,
    timeoutSeconds: int32,
    priority: int32,
    sourceRepository: string,
    sourceRevision: string)

  predicate SafeString(s: string) { '\0' !in s }

  predicate Digit(c: char) { '0' <= c <= '9' }

  predicate Letter(c: char) { 'a' <= c <= 'z' || 'A' <= c <= 'Z' }

  predicate Hex(c: char) { Digit(c) || 'a' <= c <= 'f' }

  predicate ImageChar(c: char) { Letter(c) || Digit(c) || c in {'.', '_', ':', '/', '-'} }

  /** ^[a-zA-Z0-9][a-zA-Z0-9._:/-]*@sha256:[a-f0-9]{64}$ */
  predicate PinnedImage(s: string) {
    && |s| >= 73
    && (Letter(s[0]) || Digit(s[0]))
    && (forall i | 0 < i < |s| - 72 :: ImageChar(s[i]))
    && s[|s| - 72..|s| - 64] == "@sha256:"
    && (forall i | |s| - 64 <= i < |s| :: Hex(s[i]))
  }

  /** ^[A-Za-z_][A-Za-z0-9_]*$ and not one of the reserved RUNYARD_ names. */
  predicate EnvironmentName(s: string) {
    && |s| > 0
    && (Letter(s[0]) || s[0] == '_')
    && (forall i | 0 < i < |s| :: Letter(s[i]) || Digit(s[i]) || s[i] == '_')
    && !("RUNYARD_" <= s)
  }

  predicate ValidParameter(key: string, value: Scalar) {
    && 0 < |key| <= 200
    && SafeString(key)
    && (value.FloatValue? ==> value.d.Finite?)
    && (value.TextValue? ==> |value.text| <= 16384 && SafeString(value.text))
  }

  predicate ValidSpec(s: RunSpec) {
    && s.version == 1
    && 0 < |s.name| <= 200 && SafeString(s.name)
    && |s.image| <= 1024 && PinnedImage(s.image)
    && 0 < |s.command| <= 256 && s.command[0] != ""
    && (forall i | 0 <= i < |s.command| :: |s.command[i]| <= 16384 && SafeString(s.command[i]))
    && 0 < s.resources.cpuMillis <= 1000000
    && 32 <= s.resources.memoryMib <= 1048576
    && 0 <= s.resources.gpuCount <= 64
    && 0 < s.timeoutSeconds <= 604800
    && 0 <= s.priority <= 9
    && 1 <= s.retry.maxAttempts <= 10
    && |s.parameters| <= 100 && |s.labels| <= 50 && |s.environment| <= 100
    && |s.sourceRepository| <= 2048 && SafeString(s.sourceRepository)
    && |s.sourceRevision| <= 200 && SafeString(s.sourceRevision)
    && (forall k | k in s.labels ::
          0 < |k| <= 200 && |s.labels[k]| <= 1024 && SafeString(k) && SafeString(s.labels[k]))
    && (forall k | k in s.environment ::
          EnvironmentName(k) && |s.environment[k]| <= 16384 && SafeString(s.environment[k]))
    && (forall k | k in s.parameters :: ValidParameter(k, s.parameters[k]))
  }

  predicate ValidSubmission(s: RunSpec) {
    && ValidSpec(s)
    && "NVIDIA_VISIBLE_DEVICES" !in s.environment
    && "NVIDIA_DRIVER_CAPABILITIES" !in s.environment
  }

  // ---- Telemetry records ------------------------------------------------------------------

  datatype Record = Record(
    sequence: int,
    kind: string,
    text: string,
    name: string,
    step: int,
    value: Double,
    timestamp: int)

  predicate ValidRecord(r: Record) {
    && r.sequence > 0
    && r.kind in {"stdout", "stderr", "metric", "notice"}
    && |r.text| <= 65536 && SafeString(r.text)
    && (r.kind == "metric" ==>
          && 0 < |r.name| <= 200 && SafeString(r.name)
          && r.value.Finite? && r.step >= 0)
  }
}
