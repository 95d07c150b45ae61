/** The host's plausibility envelope (pulse_integrity.py). */
module PulseIntegrity {
  import opened Common
  import opened Frames
  import opened Decimal

  const MAX_RATE_HZ: int := 10_000
  const BURST_ALLOWANCE: int := 100_000
  const MAX_BOOT_PULSES: int := 1_000_000_000

  /** A measurement was refused as physically impossible. */
  datatype Rejected = MeasurementRejected

  function Unsigned(text: string, maximum: int): Result<nat, Rejected> {
    if !IsDecimal(text) || Value(text) > maximum then Err(MeasurementRejected) else Ok(Value(text))
  }

  /** The code asks it of 32-bit times only. */
  function PulseLimit(elapsedMs: nat): nat {
    var timed := BURST_ALLOWANCE + elapsedMs * MAX_RATE_HZ / 1000;
    if timed < MAX_BOOT_PULSES then timed else MAX_BOOT_PULSES
  }

  predicate Plausible(count: int, elapsedMs: U32) {
    0 <= count <= INT64_MAX && count <= PulseLimit(elapsedMs)
  }

  /** At most 100000 and ten for each millisecond, and never more than a thousand million. */
  predicate WithinRate(pulses: int, elapsedMs: int) {
    pulses <= 100000 + 10 * elapsedMs && pulses <= 1000000000
  }

  lemma PlausibleInNumbers(pulses: nat, elapsedMs: U32)
    ensures Plausible(pulses, elapsedMs) <==> WithinRate(pulses, elapsedMs)
  {
  }

  function ElapsedU32(started: int, ended: int): Result<U32, Rejected> {
    if !(0 <= started <= UINT32_MAX) || !(0 <= ended <= UINT32_MAX) then Err(MeasurementRejected)
    else if Wrap(ended - started) >= TWO_31 then Err(MeasurementRejected)
    else Ok(Wrap(ended - started))
  }

  /** Elapsed time recovers the true duration of anything shorter than half the
      clock from its two truncated timestamps, and refuses anything up to a
      whole rollover that is longer. */
  lemma ElapsedIsTrueDuration(started: nat, ended: nat)
    requires started <= ended < started + TWO_32
    ensures ElapsedU32(Wrap(started), Wrap(ended)) ==
              if ended - started < TWO_31 then Ok(ended - started) else Err(MeasurementRejected)
  {
    var d := ended - started;
    var k := started / TWO_32 - ended / TWO_32;
    assert Wrap(ended) - Wrap(started) == d + TWO_32 * k;
    assert Wrap(d + TWO_32 * k) == Wrap(d) by {
      Shift(d, k);
    }
  }

  lemma Shift(x: int, k: int)
    ensures Wrap(x + TWO_32 * k) == Wrap(x)
  {
  }

  /** The envelope never tightens as time passes. */
  lemma LimitMonotone(a: nat, b: nat)
    requires a <= b
    ensures PulseLimit(a) <= PulseLimit(b)
  {
  }

  datatype CounterSnapshot = CounterSnapshot(accepted: nat, recovery: nat, rejected: nat, noiseGateUs: nat, fault: string)

  predicate IsFaultToken(s: string) {
    IsValue(s)
  }

  function Lookup(fields: seq<(string, string)>, key: string): Option<string> {
    if fields == [] then None
    else if fields[0].0 == key then Some(fields[0].1)
    else Lookup(fields[1..], key)
  }

  function ParseCounterSnapshot(fields: seq<(string, string)>, uptime: int): Result<CounterSnapshot, Rejected> {
    var (a, r, j, g, f) := (Lookup(fields, "accepted"), Lookup(fields, "recovery"), Lookup(fields, "rejected"),
                            Lookup(fields, "noise_gate_us"), Lookup(fields, "fault"));
    if a.None? || r.None? || j.None? || g.None? || f.None? then Err(MeasurementRejected)
    else
      var (accepted, recovery, rejected, gate) :=
        (Unsigned(a.value, UINT64_MAX), Unsigned(r.value, UINT64_MAX), Unsigned(j.value, UINT32_MAX), Unsigned(g.value, UINT32_MAX));
      if accepted.Err? || recovery.Err? || rejected.Err? || gate.Err? then Err(MeasurementRejected)
      else if !IsFaultToken(f.value) || recovery.value > accepted.value then Err(MeasurementRejected)
      else if !(0 <= uptime <= UINT32_MAX) || !Plausible(accepted.value, uptime) then Err(MeasurementRejected)
      else Ok(CounterSnapshot(accepted.value, recovery.value, rejected.value, gate.value, f.value))
  }
}
