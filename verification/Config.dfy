/** The constraints of src/Config.cpp that the protocol relies on, and the chrono
    conversions the registry, throttle and job waits make from the accepted values. */
module Config {
  import opened Protocol
  import opened Backends
  import opened Registry

  /** A TOML node: absent, an integer, a string, or anything else. */
  datatype Node = Absent | IntNode(value: int) | StringNode(text: string) | OtherNode

  datatype DurationRange = Positive | NonNegative

  function DurationOrExpected(node: Node, fallback: int, range: DurationRange): Result<int> {
    if node.StringNode? || node.OtherNode? then Err(Error(ConfigError, None))
    else
      var duration := if node.IntNode? then node.value else fallback;
      if duration < 0 || (range.Positive? && duration == 0) then Err(Error(ConfigError, None)) else Ok(duration)
  }

  function RequiredString(node: Node, env: Option<string>, fallback: string): Result<string> {
    if node.IntNode? || node.OtherNode? then Err(Error(ConfigError, None))
    else
      var fileValue := if node.StringNode? then node.text else fallback;
      var value := if env.Some? then env.value else fileValue;
      if value == "" then Err(Error(ConfigError, None)) else Ok(value)
  }

  /** The nodes and environment overrides behind the fields kept here. */
  datatype RawConfig = RawConfig(
    compilerQueue: Node, compilerQueueEnv: Option<string>,
    deviceId: Node, deviceIdEnv: Option<string>,
    taskReceiveTimeout: Node,
    jobWaitTimeout: Node,
    entryTimeToLive: Node,
    publishInterval: Node)

  /** Timeouts and intervals in milliseconds, lifetimes and waits in seconds. */
  datatype Settings = Settings(
    compilerQueue: string,
    deviceId: string,
    taskReceiveTimeoutMs: int,
    jobWaitTimeoutS: int,
    entryTimeToLiveS: int,
    publishIntervalMs: int)

  const TWO63: int := 0x8000_0000_0000_0000
  const TWO64: int := 0x1_0000_0000_0000_0000

  /** A 64-bit representation of `x`, wrapping where it does not fit. */
  function Wrap64(x: int): int {
    (x + TWO63) % TWO64 - TWO63
  }

  const NANOS: int := 1_000_000_000

  function SecondsToMs(s: int): int { Wrap64(s * 1_000) }

  function SecondsToNanos(s: int): int { Wrap64(s * NANOS) }

  function MsToNanos(ms: int): int { Wrap64(ms * 1_000_000) }

  function AssembleConfig(raw: RawConfig): Result<Settings> {
    var queue := RequiredString(raw.compilerQueue, raw.compilerQueueEnv, "compiler.tasks.queue");
    var receive := DurationOrExpected(raw.taskReceiveTimeout, 500, NonNegative);
    var device := RequiredString(raw.deviceId, raw.deviceIdEnv, "cxxdevice5q");
    var wait := DurationOrExpected(raw.jobWaitTimeout, 0, NonNegative);
    var ttl := DurationOrExpected(raw.entryTimeToLive, 30, Positive);
    var interval := DurationOrExpected(raw.publishInterval, 5000, Positive);
    if queue.Err? then Err(queue.error)
    else if receive.Err? then Err(receive.error)
    else if device.Err? then Err(device.error)
    else if wait.Err? then Err(wait.error)
    else if ttl.Err? then Err(ttl.error)
    else if interval.Err? then Err(interval.error)
    else if SecondsToMs(ttl.value) <= interval.value then Err(Error(ConfigError, None))
    else Ok(Settings(queue.value, device.value, receive.value, wait.value, ttl.value, interval.value))
  }

  /** An integer where one is given, the default where none is. */
  predicate Duration(node: Node, default: int, value: int) {
    node == IntNode(value) || (node.Absent? && value == default)
  }

  /** The environment's word first, the file's next, the default last; never empty. */
  predicate Text(node: Node, env: Option<string>, default: string, value: string) {
    && |value| > 0 && (node.Absent? || node.StringNode?)
    && (env == Some(value) || (env.None? && (node == StringNode(value) || (node.Absent? && value == default))))
  }

  /** Each setting comes from its own key, with its own default and range, and nothing else
      is asked of a configuration but that the lifetime, in milliseconds, exceeds the
      interval: it is accepted with exactly these settings if and only if they qualify. */
  lemma SettingsComeFromTheirKeys(raw: RawConfig, c: Settings)
    ensures AssembleConfig(raw) == Ok(c) <==>
            && Text(raw.compilerQueue, raw.compilerQueueEnv, "compiler.tasks.queue", c.compilerQueue)
            && Text(raw.deviceId, raw.deviceIdEnv, "cxxdevice5q", c.deviceId)
            && Duration(raw.taskReceiveTimeout, 500, c.taskReceiveTimeoutMs) && c.taskReceiveTimeoutMs >= 0
            && Duration(raw.jobWaitTimeout, 0, c.jobWaitTimeoutS) && c.jobWaitTimeoutS >= 0
            && Duration(raw.entryTimeToLive, 30, c.entryTimeToLiveS) && c.entryTimeToLiveS > 0
            && Duration(raw.publishInterval, 5000, c.publishIntervalMs) && c.publishIntervalMs > 0
            && Wrap64(c.entryTimeToLiveS * 1000) > c.publishIntervalMs
    ensures AssembleConfig(raw).Err? ==> AssembleConfig(raw).error == Error(ConfigError, None)
  {
    hide Wrap64;
  }

  /** A 64-bit count of a smaller unit is exact precisely within its range. */
  lemma ConversionIsExactInRange(x: int)
    ensures Wrap64(x) == x <==> -TWO63 <= x < TWO63
    ensures -TWO63 <= Wrap64(x) < TWO63
  {
  }

  /** What every accepted configuration guarantees: routable names, a receive timeout that
      is never the indefinite-wait sentinel, and, if the lifetime fits the clock's
      nanoseconds, a positive publish interval shorter than the lifetime. */
  lemma AcceptedConfiguration(raw: RawConfig)
    requires AssembleConfig(raw).Ok?
    ensures var c := AssembleConfig(raw).value;
            && c.compilerQueue != "" && c.deviceId != ""
            && c.taskReceiveTimeoutMs >= 0 && c.jobWaitTimeoutS >= 0
            && c.entryTimeToLiveS > 0 && c.publishIntervalMs > 0
            && (c.entryTimeToLiveS * NANOS < TWO63 ==>
                  && SecondsToNanos(c.entryTimeToLiveS) == c.entryTimeToLiveS * NANOS
                  && MsToNanos(c.publishIntervalMs) == c.publishIntervalMs * 1_000_000
                  && 0 < MsToNanos(c.publishIntervalMs) < SecondsToNanos(c.entryTimeToLiveS))
  {
    var c := AssembleConfig(raw).value;
    if c.entryTimeToLiveS * NANOS < TWO63 {
      ConversionIsExactInRange(c.entryTimeToLiveS * NANOS);
      ConversionIsExactInRange(c.entryTimeToLiveS * 1_000);
      ConversionIsExactInRange(c.publishIntervalMs * 1_000_000);
    }
  }

  /** Out of that range the promise fails: a lifetime of 9223372037 seconds is accepted,
      yet its nanosecond count is negative and even a fresh entry is swept at once. */
  lemma OverlongLifetimeExpiresFreshEntries(b: Snapshot, now: int)
    ensures var raw := RawConfig(Absent, None, Absent, None, Absent, Absent, IntNode(9223372037), Absent);
            && AssembleConfig(raw).Ok?
            && AssembleConfig(raw).value.entryTimeToLiveS == 9223372037
            && SecondsToNanos(9223372037) < 0
            && b.name !in ExpireEntries(InsertEntry(map[], b, now), SecondsToNanos(9223372037), now)
  {
  }

  /** Whether a sweep keeps an entry of that age under a lifetime of `ttl` seconds. */
  predicate Survives(b: Snapshot, stamp: int, ttl: int, age: int) {
    b.name in ExpireEntries(map[b.name := Entry(b, stamp)], SecondsToNanos(ttl), stamp + age)
  }

  /** Sweeps honour the configured lifetime, to the nanosecond and at every age the clock
      can show, if and only if the lifetime fits the clock's range. */
  lemma LifetimeIsHonouredExactlyInRange(b: Snapshot, stamp: int, ttl: int)
    requires ttl > 0
    ensures (forall age :: 0 <= age < TWO63 ==> (Survives(b, stamp, ttl, age) <==> age <= ttl * NANOS))
       <==> ttl * NANOS < TWO63
  {
    ConversionIsExactInRange(ttl * NANOS);
    if ttl * NANOS >= TWO63 {
      CountFallsShort(ttl);
      assert !Survives(b, stamp, ttl, TWO63 - 1);
    }
  }

  /** A nanosecond count of whole seconds is even, so it never wraps to the odd maximum. */
  lemma CountFallsShort(seconds: int)
    requires seconds * NANOS >= TWO63
    ensures SecondsToNanos(seconds) < TWO63 - 1
  {
    EvenNeverWrapsToMaximum(seconds * 500_000_000);
  }

  lemma EvenNeverWrapsToMaximum(half: int)
    ensures Wrap64(2 * half) < TWO63 - 1
  {
    var turns := (2 * half + TWO63) / TWO64;
    assert Wrap64(2 * half) == 2 * half - turns * TWO64;
  }
}
