/** encode and decode_spec (src/serialization/json.cpp) on JSON values. */
module Codec {
  import opened Base
  import opened Domain

  type uint64 = i: int | 0 <= i <= 0xffff_ffff_ffff_ffff

  /** Integers keep whether they were stored signed or unsigned; both are "integer" numbers. */
  datatype Json =
    | Null
    | Bool(b: bool)
    | Signed(i: int64)
    | Unsigned(u: uint64)
    | Float(d: Double)
    | Text(s: string)
    | Array(items: seq<Json>)
    | Object(fields: map<string, Json>)

  type Fields = map<string, Json>

  // ---- Encoding -------------------------------------------------------------------------------

  function EncodeScalar(v: Scalar): Json {
    match v
    case NullValue => Null
    case BoolValue(b) => Bool(b)
    case IntValue(i) => Signed(i)
    case FloatValue(d) => Float(d)
    case TextValue(text) => Text(text)
  }

  function EncodeStrings(m: map<string, string>): Json { Object(map k | k in m :: Text(m[k])) }

  function EncodeScalars(m: map<string, Scalar>): Json { Object(map k | k in m :: EncodeScalar(m[k])) }

  function EncodeCommand(command: seq<string>): Json {
    Array(seq(|command|, i requires 0 <= i < |command| => Text(command[i])))
  }

  /** A GPU count of zero is left out. */
  function EncodeResources(r: Resources): Json {
    var fields := map["cpu_millis" := Signed(r.cpuMillis), "memory_mib" := Signed(r.memoryMib)];
    Object(if r.gpuCount != 0 then fields["gpu_count" := Signed(r.gpuCount)] else fields)
  }

  function EncodeRetry(r: RetryPolicy): Json {
    Object(map["max_attempts" := Signed(r.maxAttempts), "retry_exit" := Bool(r.retryExit),
               "retry_timeout" := Bool(r.retryTimeout)])
  }

  function EncodeSource(repository: string, revision: string): Json {
    Object(map["repository" := Text(repository), "revision" := Text(revision)])
  }

  function EncodeFields(s: RunSpec): Fields {
    map["version" := Signed(s.version),
        "name" := Text(s.name),
        "image" := Text(s.image),
        "command" := EncodeCommand(s.command),
        "parameters" := EncodeScalars(s.parameters),
        "environment" := EncodeStrings(s.environment),
        "labels" := EncodeStrings(s.labels),
        "resources" := EncodeResources(s.resources),
        "retry" := EncodeRetry(s.retry),
        "timeout_seconds" := Signed(s.timeoutSeconds),
        "priority" := Signed(s.priority),
        "source" := EncodeSource(s.sourceRepository, s.sourceRevision)]
  }

  function Encode(s: RunSpec): Json { Object(EncodeFields(s)) }

  // ---- Decoding -------------------------------------------------------------------------------

  function IntegerOf(j: Json): Option<int> {
    match j case Signed(i) => Some(i) case Unsigned(u) => Some(u) case _ => None
  }

  /** A missing key takes the fallback; anything but an integer in 32-bit range is refused. */
  function DecodeInt(fields: Fields, key: string, fallback: int32): Option<int32> {
    if key !in fields then Some(fallback)
    else
      var n := IntegerOf(fields[key]);
      if n.Some? && INT32_MIN <= n.value <= INT32_MAX then Some(n.value) else None
  }

  function DecodeText(fields: Fields, key: string, fallback: Option<string>): Option<string> {
    if key !in fields then fallback else if fields[key].Text? then Some(fields[key].s) else None
  }

  function DecodeBool(fields: Fields, key: string, fallback: bool): Option<bool> {
    if key !in fields then Some(fallback) else if fields[key].Bool? then Some(fields[key].b) else None
  }

  function DecodeScalar(j: Json): Option<Scalar> {
    match j
    case Null => Some(NullValue)
    case Bool(b) => Some(BoolValue(b))
    case Signed(i) => Some(IntValue(i))
    case Unsigned(u) => if u > 0x7fff_ffff_ffff_ffff then None else Some(IntValue(u))
    case Float(d) => Some(FloatValue(d))
    case Text(s) => Some(TextValue(s))
    case _ => None
  }

  function DecodeScalars(j: Json): Option<map<string, Scalar>> {
    if !j.Object? || exists k | k in j.fields :: DecodeScalar(j.fields[k]).None? then None
    else Some(map k | k in j.fields :: DecodeScalar(j.fields[k]).value)
  }

  function DecodeStrings(j: Json): Option<map<string, string>> {
    if !j.Object? || exists k | k in j.fields :: !j.fields[k].Text? then None
    else Some(map k | k in j.fields :: j.fields[k].s)
  }

  function DecodeCommand(j: Json): Option<seq<string>> {
    if !j.Array? || exists i | 0 <= i < |j.items| :: !j.items[i].Text? then None
    else Some(seq(|j.items|, i requires 0 <= i < |j.items| => j.items[i].s))
  }

  function Member(fields: Fields, key: string): Json { if key in fields then fields[key] else Object(map[]) }

  predicate Known(j: Json, allowed: set<string>) { j.Object? && j.fields.Keys <= allowed }

  function DecodeResources(j: Json): Option<Resources> {
    if !Known(j, {"cpu_millis", "memory_mib", "gpu_count"}) then None
    else
      var cpu := DecodeInt(j.fields, "cpu_millis", 1000);
      var memory := DecodeInt(j.fields, "memory_mib", 512);
      var gpus := DecodeInt(j.fields, "gpu_count", 0);
      if cpu.None? || memory.None? || gpus.None? then None
      else Some(Resources(cpu.value, memory.value, gpus.value))
  }

  function DecodeRetry(j: Json): Option<RetryPolicy> {
    if !Known(j, {"max_attempts", "retry_exit", "retry_timeout"}) then None
    else
      var attempts := DecodeInt(j.fields, "max_attempts", 3);
      var onExit := DecodeBool(j.fields, "retry_exit", false);
      var onTimeout := DecodeBool(j.fields, "retry_timeout", false);
      if attempts.None? || onExit.None? || onTimeout.None? then None
      else Some(RetryPolicy(attempts.value, onExit.value, onTimeout.value))
  }

  datatype Source = Source(repository: string, revision: string)

  function DecodeSource(j: Json): Option<Source> {
    if !Known(j, {"repository", "revision"}) then None
    else
      var repository := DecodeText(j.fields, "repository", Some(""));
      var revision := DecodeText(j.fields, "revision", Some(""));
      if repository.None? || revision.None? then None else Some(Source(repository.value, revision.value))
  }

  const SPEC_FIELDS: set<string> := {
    "version", "name", "image", "command", "parameters", "environment", "labels", "resources", "retry",
    "timeout_seconds", "priority", "source"}

  /** The specification before validation. */
  function DecodeFields(f: Fields): Option<RunSpec> {
    var version := DecodeInt(f, "version", 1);
    var name := DecodeText(f, "name", None);
    var image := DecodeText(f, "image", None);
    var command := if "command" in f then DecodeCommand(f["command"]) else None;
    var parameters := DecodeScalars(Member(f, "parameters"));
    var environment := DecodeStrings(Member(f, "environment"));
    var labels := DecodeStrings(Member(f, "labels"));
    var resources := DecodeResources(Member(f, "resources"));
    var retry := DecodeRetry(Member(f, "retry"));
    var timeout := DecodeInt(f, "timeout_seconds", 1800);
    var priority := DecodeInt(f, "priority", 0);
    var source := DecodeSource(Member(f, "source"));
    if version.None? || name.None? || image.None? || command.None? || parameters.None? || environment.None?
       || labels.None? || resources.None? || retry.None? || timeout.None? || priority.None? || source.None?
    then None
    else
      Some(RunSpec(version.value, name.value, image.value, command.value, parameters.value, environment.value,
                   labels.value, resources.value, retry.value, timeout.value, priority.value,
                   source.value.repository, source.value.revision))
  }

  /** Unknown fields, missing fields, wrong types and invalid specifications are all refused. */
  function Decode(j: Json): Option<RunSpec> {
    if !Known(j, SPEC_FIELDS) then None
    else
      var s := DecodeFields(j.fields);
      if s.Some? && ValidSpec(s.value) then s else None
  }

  // ---- What the parser gives back -------------------------------------------------------------

  /** Dumping and parsing again makes nonnegative integers unsigned and floats without a value null. */
  function Reparsed(j: Json): Json {
    match j
    case Signed(i) => if i >= 0 then Unsigned(i) else j
    case Float(d) => if d.Finite? then j else Null
    case Array(items) => Array(seq(|items|, n requires 0 <= n < |items| => Reparsed(items[n])))
    case Object(fields) => Object(map k | k in fields :: Reparsed(fields[k]))
    case _ => j
  }

  function ReparsedFields(f: Fields): Fields { map k | k in f :: Reparsed(f[k]) }

  // ---- Round trips ----------------------------------------------------------------------------

  lemma ScalarRoundTrip(v: Scalar)
    ensures DecodeScalar(EncodeScalar(v)) == Some(v)
    ensures !(v.FloatValue? && !v.d.Finite?) ==> DecodeScalar(Reparsed(EncodeScalar(v))) == Some(v)
  {
  }

  predicate AllFinite(m: map<string, Scalar>) { forall k | k in m && m[k].FloatValue? :: m[k].d.Finite? }

  lemma ScalarsRoundTrip(m: map<string, Scalar>)
    ensures DecodeScalars(EncodeScalars(m)) == Some(m)
  {
    forall k | k in m
      ensures DecodeScalar(EncodeScalar(m[k])) == Some(m[k])
    {
      ScalarRoundTrip(m[k]);
    }
    var f := EncodeScalars(m).fields;
    assert (map k | k in f :: DecodeScalar(f[k]).value) == m;
  }

  lemma ReparsedScalarsRoundTrip(m: map<string, Scalar>)
    requires AllFinite(m)
    ensures DecodeScalars(Reparsed(EncodeScalars(m))) == Some(m)
  {
    forall k | k in m
      ensures DecodeScalar(Reparsed(EncodeScalar(m[k]))) == Some(m[k])
    {
      ScalarRoundTrip(m[k]);
    }
    var f := Reparsed(EncodeScalars(m)).fields;
    assert f.Keys == m.Keys;
    assert (map k | k in f :: DecodeScalar(f[k]).value) == m;
  }

  lemma StringsRoundTrip(m: map<string, string>)
    ensures DecodeStrings(EncodeStrings(m)) == Some(m)
    ensures Reparsed(EncodeStrings(m)) == EncodeStrings(m)
  {
    assert DecodeStrings(EncodeStrings(m)).value == m;
  }

  lemma CommandRoundTrip(command: seq<string>)
    ensures DecodeCommand(EncodeCommand(command)) == Some(command)
    ensures Reparsed(EncodeCommand(command)) == EncodeCommand(command)
  {
    assert DecodeCommand(EncodeCommand(command)).value == command;
  }

  lemma ResourcesRoundTrip(r: Resources)
    ensures DecodeResources(EncodeResources(r)) == Some(r)
    ensures DecodeResources(Reparsed(EncodeResources(r))) == Some(r)
  {
  }

  lemma RetryRoundTrip(r: RetryPolicy)
    ensures DecodeRetry(EncodeRetry(r)) == Some(r)
    ensures DecodeRetry(Reparsed(EncodeRetry(r))) == Some(r)
  {
  }

  lemma SourceRoundTrip(repository: string, revision: string)
    ensures DecodeSource(EncodeSource(repository, revision)) == Some(Source(repository, revision))
    ensures DecodeSource(Reparsed(EncodeSource(repository, revision))) == Some(Source(repository, revision))
  {
  }

  /** What a decoder finds under the keys of an encoded specification, in three groups. */
  ghost predicate HoldsIdentity(f: Fields, s: RunSpec) {
    && DecodeInt(f, "version", 1) == Some(s.version)
    && DecodeText(f, "name", None) == Some(s.name)
    && DecodeText(f, "image", None) == Some(s.image)
    && "command" in f && DecodeCommand(f["command"]) == Some(s.command)
  }

  ghost predicate HoldsTables(f: Fields, s: RunSpec) {
    && DecodeScalars(Member(f, "parameters")) == Some(s.parameters)
    && DecodeStrings(Member(f, "environment")) == Some(s.environment)
    && DecodeStrings(Member(f, "labels")) == Some(s.labels)
    && DecodeSource(Member(f, "source")) == Some(Source(s.sourceRepository, s.sourceRevision))
  }

  ghost predicate HoldsPolicy(f: Fields, s: RunSpec) {
    && DecodeResources(Member(f, "resources")) == Some(s.resources)
    && DecodeRetry(Member(f, "retry")) == Some(s.retry)
    && DecodeInt(f, "timeout_seconds", 1800) == Some(s.timeoutSeconds)
    && DecodeInt(f, "priority", 0) == Some(s.priority)
  }

  lemma HoldsDecodes(f: Fields, s: RunSpec)
    requires HoldsIdentity(f, s) && HoldsTables(f, s) && HoldsPolicy(f, s)
    ensures DecodeFields(f) == Some(s)
  {
  }

  ghost predicate Carries(f: Fields, key: string, j: Json) { key in f && f[key] == j }

  lemma IdentityFields(s: RunSpec)
    ensures
      var f := EncodeFields(s);
      && Carries(f, "version", Signed(s.version))
      && Carries(f, "name", Text(s.name))
      && Carries(f, "image", Text(s.image))
      && Carries(f, "command", EncodeCommand(s.command))
  {
  }

  lemma TableFields(s: RunSpec)
    ensures
      var f := EncodeFields(s);
      && Carries(f, "parameters", EncodeScalars(s.parameters))
      && Carries(f, "environment", EncodeStrings(s.environment))
      && Carries(f, "labels", EncodeStrings(s.labels))
      && Carries(f, "source", EncodeSource(s.sourceRepository, s.sourceRevision))
  {
  }

  lemma PolicyFields(s: RunSpec)
    ensures
      var f := EncodeFields(s);
      && Carries(f, "resources", EncodeResources(s.resources))
      && Carries(f, "retry", EncodeRetry(s.retry))
      && Carries(f, "timeout_seconds", Signed(s.timeoutSeconds))
      && Carries(f, "priority", Signed(s.priority))
  {
  }

  lemma ReparsedCarries(f: Fields, key: string, j: Json)
    requires Carries(f, key, j)
    ensures Carries(ReparsedFields(f), key, Reparsed(j))
  {
  }

  lemma IntegerReads(f: Fields, key: string, fallback: int32, n: int32)
    requires Carries(f, key, Signed(n)) || Carries(f, key, Reparsed(Signed(n)))
    ensures DecodeInt(f, key, fallback) == Some(n)
  {
  }

  lemma IdentityHolds(f: Fields, s: RunSpec)
    requires f == EncodeFields(s) || f == ReparsedFields(EncodeFields(s))
    ensures HoldsIdentity(f, s)
  {
    var e := EncodeFields(s);
    IdentityFields(s);
    ReparsedCarries(e, "version", Signed(s.version));
    ReparsedCarries(e, "name", Text(s.name));
    ReparsedCarries(e, "image", Text(s.image));
    ReparsedCarries(e, "command", EncodeCommand(s.command));
    CommandRoundTrip(s.command);
    IntegerReads(f, "version", 1, s.version);
  }

  lemma TablesHold(f: Fields, s: RunSpec)
    requires f == EncodeFields(s) || (f == ReparsedFields(EncodeFields(s)) && AllFinite(s.parameters))
    ensures HoldsTables(f, s)
  {
    var e := EncodeFields(s);
    TableFields(s);
    ReparsedCarries(e, "parameters", EncodeScalars(s.parameters));
    ReparsedCarries(e, "environment", EncodeStrings(s.environment));
    ReparsedCarries(e, "labels", EncodeStrings(s.labels));
    ReparsedCarries(e, "source", EncodeSource(s.sourceRepository, s.sourceRevision));
    ScalarsRoundTrip(s.parameters);
    if AllFinite(s.parameters) {
      ReparsedScalarsRoundTrip(s.parameters);
    }
    StringsRoundTrip(s.environment);
    StringsRoundTrip(s.labels);
    SourceRoundTrip(s.sourceRepository, s.sourceRevision);
  }

  lemma PolicyHolds(f: Fields, s: RunSpec)
    requires f == EncodeFields(s) || f == ReparsedFields(EncodeFields(s))
    ensures HoldsPolicy(f, s)
  {
    var e := EncodeFields(s);
    PolicyFields(s);
    ReparsedCarries(e, "resources", EncodeResources(s.resources));
    ReparsedCarries(e, "retry", EncodeRetry(s.retry));
    ReparsedCarries(e, "timeout_seconds", Signed(s.timeoutSeconds));
    ReparsedCarries(e, "priority", Signed(s.priority));
    ResourcesRoundTrip(s.resources);
    RetryRoundTrip(s.retry);
    IntegerReads(f, "timeout_seconds", 1800, s.timeoutSeconds);
    IntegerReads(f, "priority", 0, s.priority);
  }

  lemma EncodedKeys(s: RunSpec)
    ensures EncodeFields(s).Keys == SPEC_FIELDS
    ensures ReparsedFields(EncodeFields(s)).Keys == SPEC_FIELDS
  {
  }

  /** Every specification, valid or not, is read back from its fields. */
  lemma FieldsRoundTrip(f: Fields, s: RunSpec)
    requires f == EncodeFields(s) || (f == ReparsedFields(EncodeFields(s)) && AllFinite(s.parameters))
    ensures DecodeFields(f) == Some(s) && f.Keys == SPEC_FIELDS
  {
    IdentityHolds(f, s);
    TablesHold(f, s);
    PolicyHolds(f, s);
    HoldsDecodes(f, s);
    EncodedKeys(s);
  }

  /** decode_spec(encode(s)) == s for every valid specification, and only for those. */
  lemma RoundTrip(s: RunSpec)
    ensures Decode(Encode(s)) == if ValidSpec(s) then Some(s) else None
  {
    FieldsRoundTrip(EncodeFields(s), s);
  }

  /** So it is when the value went through text on the way. */
  lemma ReparsedRoundTrip(s: RunSpec)
    requires ValidSpec(s)
    ensures Decode(Reparsed(Encode(s))) == Some(s)
  {
    ValidIsFinite(s);
    ReparsedObject(EncodeFields(s));
    FieldsRoundTrip(ReparsedFields(EncodeFields(s)), s);
  }

  lemma ReparsedObject(f: Fields)
    ensures Reparsed(Object(f)) == Object(ReparsedFields(f))
  {
  }

  lemma ValidIsFinite(s: RunSpec)
    requires ValidSpec(s)
    ensures AllFinite(s.parameters)
  {
  }

  /** Encoding is injective on all specifications, so equal payloads mean equal requests. */
  lemma EncodeIsInjective(s: RunSpec, t: RunSpec)
    requires Encode(s) == Encode(t)
    ensures s == t
  {
    FieldsRoundTrip(EncodeFields(s), s);
    FieldsRoundTrip(EncodeFields(t), t);
  }

  /** Only valid specifications are ever decoded, and re-encoding one decodes to it again. */
  lemma DecodeIsValid(j: Json)
    requires Decode(j).Some?
    ensures ValidSpec(Decode(j).value) && Decode(Encode(Decode(j).value)) == Decode(j)
  {
    RoundTrip(Decode(j).value);
  }

  /** An explicit GPU count of zero and an omitted one are the same request. */
  lemma ZeroGpusMayBeOmitted(f: Fields, zero: Json)
    requires "gpu_count" !in f && IntegerOf(zero) == Some(0)
    ensures DecodeResources(Object(f["gpu_count" := zero])) == DecodeResources(Object(f))
  {
  }

  // ---- What a request document means ----------------------------------------------------------

  /** Either way of storing an integer will do. */
  predicate IsInteger(j: Json, n: int) { (j.Signed? && j.i == n) || (j.Unsigned? && j.u == n) }

  predicate IntegerAt(f: Fields, key: string, n: int, fallback: int) {
    if key in f then IsInteger(f[key], n) else n == fallback
  }

  predicate FlagAt(f: Fields, key: string, b: bool) { if key in f then f[key] == Bool(b) else !b }

  predicate RequiredText(f: Fields, key: string, text: string) { key in f && f[key] == Text(text) }

  predicate OptionalText(f: Fields, key: string, text: string) { if key in f then f[key] == Text(text) else text == "" }

  predicate IsScalar(j: Json, v: Scalar) {
    match v
    case NullValue => j == Null
    case BoolValue(b) => j == Bool(b)
    case IntValue(i) => IsInteger(j, i)
    case FloatValue(d) => j == Float(d)
    case TextValue(text) => j == Text(text)
  }

  predicate ScalarsAt(f: Fields, key: string, m: map<string, Scalar>) {
    if key !in f then m == map[]
    else f[key].Object? && f[key].fields.Keys == m.Keys && forall k | k in m :: IsScalar(f[key].fields[k], m[k])
  }

  predicate StringsAt(f: Fields, key: string, m: map<string, string>) {
    if key !in f then m == map[]
    else f[key].Object? && f[key].fields.Keys == m.Keys && forall k | k in m :: f[key].fields[k] == Text(m[k])
  }

  predicate CommandAt(f: Fields, command: seq<string>) {
    && "command" in f && f["command"].Array? && |f["command"].items| == |command|
    && forall i | 0 <= i < |command| :: f["command"].items[i] == Text(command[i])
  }

  /** The fields of a nested object; a missing one is an empty one. */
  predicate NestedIn(f: Fields, key: string, allowed: set<string>) {
    key in f ==> f[key].Object? && f[key].fields.Keys <= allowed
  }

  function Nested(f: Fields, key: string): Fields { if key in f && f[key].Object? then f[key].fields else map[] }

  predicate ResourcesAt(f: Fields, r: Resources) {
    && NestedIn(f, "resources", {"cpu_millis", "memory_mib", "gpu_count"})
    && var g := Nested(f, "resources");
       && IntegerAt(g, "cpu_millis", r.cpuMillis, 1000)
       && IntegerAt(g, "memory_mib", r.memoryMib, 512)
       && IntegerAt(g, "gpu_count", r.gpuCount, 0)
  }

  predicate RetryAt(f: Fields, r: RetryPolicy) {
    && NestedIn(f, "retry", {"max_attempts", "retry_exit", "retry_timeout"})
    && var g := Nested(f, "retry");
       && IntegerAt(g, "max_attempts", r.maxAttempts, 3)
       && FlagAt(g, "retry_exit", r.retryExit)
       && FlagAt(g, "retry_timeout", r.retryTimeout)
  }

  predicate SourceAt(f: Fields, repository: string, revision: string) {
    && NestedIn(f, "source", {"repository", "revision"})
    && OptionalText(Nested(f, "source"), "repository", repository)
    && OptionalText(Nested(f, "source"), "revision", revision)
  }

  ghost predicate AsksIdentity(f: Fields, s: RunSpec) {
    && IntegerAt(f, "version", s.version, 1)
    && RequiredText(f, "name", s.name)
    && RequiredText(f, "image", s.image)
    && CommandAt(f, s.command)
  }

  ghost predicate AsksTables(f: Fields, s: RunSpec) {
    && ScalarsAt(f, "parameters", s.parameters)
    && StringsAt(f, "environment", s.environment)
    && StringsAt(f, "labels", s.labels)
    && SourceAt(f, s.sourceRepository, s.sourceRevision)
  }

  ghost predicate AsksPolicy(f: Fields, s: RunSpec) {
    && ResourcesAt(f, s.resources)
    && RetryAt(f, s.retry)
    && IntegerAt(f, "timeout_seconds", s.timeoutSeconds, 1800)
    && IntegerAt(f, "priority", s.priority, 0)
  }

  ghost predicate NamesKnown(f: Fields) {
    forall key | key in f ::
      key in {"version", "name", "image", "command", "parameters", "environment", "labels", "resources", "retry",
              "timeout_seconds", "priority", "source"}
  }

  /** The document asks for this specification: it names nothing unknown, and what it omits has its default. */
  ghost predicate AsksFor(j: Json, s: RunSpec) {
    && j.Object? && NamesKnown(j.fields)
    && AsksIdentity(j.fields, s) && AsksTables(j.fields, s) && AsksPolicy(j.fields, s)
  }

  lemma IntegerMeans(f: Fields, key: string, fallback: int32, n: int32)
    ensures DecodeInt(f, key, fallback) == Some(n) <==> IntegerAt(f, key, n, fallback)
  {
  }

  lemma CommandMeans(f: Fields, command: seq<string>)
    ensures ("command" in f && DecodeCommand(f["command"]) == Some(command)) <==> CommandAt(f, command)
  {
    if "command" in f && DecodeCommand(f["command"]).Some? {
      var items := f["command"].items;
      assert CommandAt(f, command) ==> DecodeCommand(f["command"]).value == command;
    }
  }

  lemma ScalarMeans(j: Json, v: Scalar)
    ensures DecodeScalar(j) == Some(v) <==> IsScalar(j, v)
  {
  }

  lemma ScalarsMean(f: Fields, key: string, m: map<string, Scalar>)
    ensures DecodeScalars(Member(f, key)) == Some(m) <==> ScalarsAt(f, key, m)
  {
    var j := Member(f, key);
    if j.Object? {
      forall k | k in j.fields && k in m
        ensures DecodeScalar(j.fields[k]) == Some(m[k]) <==> IsScalar(j.fields[k], m[k])
      {
        ScalarMeans(j.fields[k], m[k]);
      }
      if ScalarsAt(f, key, m) {
        assert DecodeScalars(j).value == m;
      }
    }
  }

  lemma StringsMean(f: Fields, key: string, m: map<string, string>)
    ensures DecodeStrings(Member(f, key)) == Some(m) <==> StringsAt(f, key, m)
  {
    if StringsAt(f, key, m) {
      assert DecodeStrings(Member(f, key)).value == m;
    }
  }

  lemma ResourcesMean(f: Fields, r: Resources)
    ensures DecodeResources(Member(f, "resources")) == Some(r) <==> ResourcesAt(f, r)
  {
    if Member(f, "resources").Object? {
      var g := Nested(f, "resources");
      IntegerMeans(g, "cpu_millis", 1000, r.cpuMillis);
      IntegerMeans(g, "memory_mib", 512, r.memoryMib);
      IntegerMeans(g, "gpu_count", 0, r.gpuCount);
    }
  }

  lemma RetryMeans(f: Fields, r: RetryPolicy)
    ensures DecodeRetry(Member(f, "retry")) == Some(r) <==> RetryAt(f, r)
  {
    if Member(f, "retry").Object? {
      IntegerMeans(Nested(f, "retry"), "max_attempts", 3, r.maxAttempts);
    }
  }

  lemma SourceMeans(f: Fields, repository: string, revision: string)
    ensures DecodeSource(Member(f, "source")) == Some(Source(repository, revision)) <==> SourceAt(f, repository, revision)
  {
  }

  lemma FieldsMean(f: Fields, s: RunSpec)
    ensures HoldsIdentity(f, s) <==> AsksIdentity(f, s)
    ensures HoldsTables(f, s) <==> AsksTables(f, s)
    ensures HoldsPolicy(f, s) <==> AsksPolicy(f, s)
  {
    IntegerMeans(f, "version", 1, s.version);
    CommandMeans(f, s.command);
    ScalarsMean(f, "parameters", s.parameters);
    StringsMean(f, "environment", s.environment);
    StringsMean(f, "labels", s.labels);
    SourceMeans(f, s.sourceRepository, s.sourceRevision);
    ResourcesMean(f, s.resources);
    RetryMeans(f, s.retry);
    IntegerMeans(f, "timeout_seconds", 1800, s.timeoutSeconds);
    IntegerMeans(f, "priority", 0, s.priority);
  }

  lemma DecodesHeld(f: Fields, s: RunSpec)
    requires DecodeFields(f) == Some(s)
    ensures HoldsIdentity(f, s) && HoldsTables(f, s) && HoldsPolicy(f, s)
  {
  }

  lemma KnownMeans(f: Fields)
    ensures Known(Object(f), SPEC_FIELDS) <==> NamesKnown(f)
  {
  }

  lemma DecodesKnown(f: Fields, s: RunSpec)
    requires Known(Object(f), SPEC_FIELDS)
    ensures Decode(Object(f)) == Some(s) <==> DecodeFields(f) == Some(s) && ValidSpec(s)
  {
  }

  lemma FieldsExact(f: Fields, s: RunSpec)
    ensures DecodeFields(f) == Some(s) <==> AsksIdentity(f, s) && AsksTables(f, s) && AsksPolicy(f, s)
  {
    FieldsMean(f, s);
    if DecodeFields(f) == Some(s) {
      DecodesHeld(f, s);
    } else if HoldsIdentity(f, s) && HoldsTables(f, s) && HoldsPolicy(f, s) {
      HoldsDecodes(f, s);
    }
  }

  /** A document is decoded to a specification exactly when it asks for it and that specification is valid. */
  lemma DecodeIsExact(j: Json, s: RunSpec)
    ensures Decode(j) == Some(s) <==> AsksFor(j, s) && ValidSpec(s)
  {
    if j.Object? {
      KnownMeans(j.fields);
      FieldsExact(j.fields, s);
      if Known(j, SPEC_FIELDS) {
        DecodesKnown(j.fields, s);
      }
    }
  }

  /** No document asks for two different valid specifications. */
  lemma RequestIsUnambiguous(j: Json, s: RunSpec, t: RunSpec)
    requires AsksFor(j, s) && AsksFor(j, t) && ValidSpec(s) && ValidSpec(t)
    ensures s == t
  {
    DecodeIsExact(j, s);
    DecodeIsExact(j, t);
  }
}
