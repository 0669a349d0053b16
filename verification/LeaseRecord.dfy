/** The election record, its Lease wire format, and the timing configuration.

    Durations and instants are integers in nanoseconds. */
module LeaseRecord {
  import opened Wrappers

  const NANOS_PER_SECOND := 1_000_000_000
  const I32_MIN := -0x8000_0000
  const I32_MAX := 0x7fff_ffff

  /** What contenders compare; `holder == ""` is a Lease nobody holds. */
  datatype Record = Record(
    holder: string,
    durationSeconds: int,
    acquireTime: Option<int>,
    renewTime: Option<int>,
    transitions: int)

  const DEFAULT_RECORD := Record("", 0, None, None, 0)

  /** The Lease object's spec: every field may be absent on the wire. */
  datatype LeaseSpec = LeaseSpec(
    holderIdentity: Option<string>,
    leaseDurationSeconds: Option<int>,
    acquireTime: Option<int>,
    renewTime: Option<int>,
    leaseTransitions: Option<int>)

  predicate FitsI32(n: int) {
    I32_MIN <= n <= I32_MAX
  }

  /** The `as i32` cast: reduction modulo 2^32 into the signed range. */
  function ToI32(n: int): (r: int)
    ensures FitsI32(r)
    ensures r == n <==> FitsI32(n)
    ensures (r - n) % 0x1_0000_0000 == 0
  {
    (n - I32_MIN) % 0x1_0000_0000 + I32_MIN
  }

  function SpecToRecord(spec: Option<LeaseSpec>): (r: Record) {
    match spec
    case None => DEFAULT_RECORD
    case Some(s) =>
      Record(
        if s.holderIdentity.Some? then s.holderIdentity.value else "",
        if s.leaseDurationSeconds.Some? then s.leaseDurationSeconds.value else 0,
        s.acquireTime,
        s.renewTime,
        if s.leaseTransitions.Some? then s.leaseTransitions.value else 0)
  }

  function RecordToSpec(r: Record): (s: LeaseSpec) {
    LeaseSpec(Some(r.holder), Some(ToI32(r.durationSeconds)), r.acquireTime, r.renewTime, Some(ToI32(r.transitions)))
  }

  /** What a reader gets back after `r` was written to the Lease. */
  function Stored(r: Record): (s: Record) {
    SpecToRecord(Some(RecordToSpec(r)))
  }

  /** What one contender writes another reads back unchanged exactly when both
      counters fit the wire's 32-bit fields. */
  lemma WireRoundTrip(r: Record)
    ensures Stored(r) == r <==> FitsI32(r.durationSeconds) && FitsI32(r.transitions)
  {
  }

  datatype Config = Config(leaseDuration: nat, renewDeadline: nat, retryPeriod: nat) {
    /** Whole seconds of the lease, the value written into the record. */
    function LeaseSeconds(): nat {
      leaseDuration / NANOS_PER_SECOND
    }

    /** The sanity checks run before the election loop starts; `None` accepts. */
    function Validate(): (err: Option<string>) {
      if leaseDuration <= renewDeadline then
        Some("leaseDuration must be greater than renewDeadline")
      else if 10 * renewDeadline <= 12 * retryPeriod then
        Some("renewDeadline must be greater than retryPeriod*JitterFactor")
      else if leaseDuration < NANOS_PER_SECOND then
        Some("leaseDuration must be greater than zero")
      else if renewDeadline < NANOS_PER_SECOND then
        Some("renewDeadline must be greater than zero")
      else if retryPeriod < NANOS_PER_SECOND then
        Some("retryPeriod must be greater than zero")
      else
        None
    }
  }

  /** The record carries the whole seconds of the lease, rounded down. */
  lemma LeaseIsRoundedDown(c: Config)
    ensures c.LeaseSeconds() * NANOS_PER_SECOND <= c.leaseDuration < (c.LeaseSeconds() + 1) * NANOS_PER_SECOND
  {
  }

  /** A Lease without a spec, or without any field, reads as one nobody holds. */
  lemma AbsentIsVacant()
    ensures SpecToRecord(None) == SpecToRecord(Some(LeaseSpec(None, None, None, None, None))) == Record("", 0, None, None, 0)
  {
  }

  /** The configurations that are accepted. */
  lemma AcceptedExactly(c: Config)
    ensures c.Validate().None? <==>
            && NANOS_PER_SECOND <= c.retryPeriod && NANOS_PER_SECOND <= c.renewDeadline < c.leaseDuration
            && 5 * c.renewDeadline > 6 * c.retryPeriod
  {
  }

  /** The sleeps `Jitter` can return for a period `d`. */
  predicate Jittered(d: nat, nap: nat) {
    d <= nap && 10 * nap <= 22 * d
  }

  /** `d * (1 + 1.2 f)` for a random `f` in [0, 1). */
  function Jitter(d: nat, f: real): (nap: nat)
    requires 0.0 <= f < 1.0
    ensures Jittered(d, nap)
  {
    MulMonotone(d as real, 1.0, f * 1.2 + 1.0);
    MulMonotone(d as real, f * 1.2 + 1.0, 2.2);
    FloorBounds(d, d as real * (f * 1.2 + 1.0));
    (d as real * (f * 1.2 + 1.0)).Floor
  }

  /** Every sleep from the period up to but excluding 2.2 times the period occurs. */
  lemma JitterReaches(d: nat, nap: nat)
    requires d <= nap && 10 * nap < 22 * d
    ensures exists f: real :: 0.0 <= f < 1.0 && Jitter(d, f) == nap
  {
    var f := (nap - d) as real / (1.2 * d as real);
    Quotient((nap - d) as real, 1.2 * d as real);
    assert d as real * (f * 1.2 + 1.0) == f * (1.2 * d as real) + d as real;
    assert Jitter(d, f) == nap;
  }

  lemma Quotient(a: real, b: real)
    requires 0.0 <= a < b
    ensures 0.0 <= a / b < 1.0 && a / b * b == a
  {
  }

  lemma MulMonotone(d: real, x: real, y: real)
    requires 0.0 <= d && x <= y
    ensures d * x <= d * y
  {
  }

  lemma FloorBounds(d: nat, x: real)
    requires d as real <= x <= d as real * 2.2
    ensures Jittered(d, x.Floor)
  {
    var nap := x.Floor;
    assert 10.0 * nap as real <= 22.0 * d as real;
    assert (10 * nap) as real <= (22 * d) as real;
  }
}
