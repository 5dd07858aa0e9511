/** Conversions between nanoseconds and ticks of the RISC-V `time` counter
    (hypervisor-nimbos/src/drivers/timer/riscv.rs). `nanosPerTick` stands for
    the constant NANOS_PER_TICK = NANOS_PER_SEC / TIMER_FREQUENCY, which the
    build configuration fixes; it must be positive for the division to be
    defined. Both conversions work on u64; the multiplication wraps. */
module Timer {
  import opened Common
  import opened Cpu

  const NANOS_PER_SEC: uint64 := 1_000_000_000

  /** NANOS_PER_TICK computed from the timer frequency, in integer division. */
  function NanosPerTick(timerFrequency: uint64): (npt: uint64)
    requires timerFrequency > 0
    ensures npt * timerFrequency <= NANOS_PER_SEC < (npt + 1) * timerFrequency
  {
    DivisionBounds(NANOS_PER_SEC, timerFrequency);
    NANOS_PER_SEC / timerFrequency
  }

  lemma DivisionBounds(n: nat, d: nat)
    requires d > 0
    ensures (n / d) * d <= n < (n / d + 1) * d
  {
    var q, r := n / d, n % d;
    assert n == q * d + r;
    assert (q + 1) * d == q * d + d;
  }

  /** `nanos_to_ticks`: the number of whole ticks in `nanos` nanoseconds. */
  function NanosToTicks(nanos: uint64, nanosPerTick: uint64): (ticks: uint64)
    requires nanosPerTick > 0
    ensures ticks * nanosPerTick <= nanos < (ticks + 1) * nanosPerTick
  {
    DivisionBounds(nanos, nanosPerTick);
    nanos / nanosPerTick
  }

  /** `ticks_to_nanos`: `ticks` ticks in nanoseconds, modulo 2^64. */
  function TicksToNanos(ticks: uint64, nanosPerTick: uint64): (nanos: uint64)
    ensures ticks * nanosPerTick < U64_MODULUS ==> nanos == ticks * nanosPerTick
  {
    var product: nat := ticks * nanosPerTick;
    if product < U64_MODULUS then product else product % U64_MODULUS
  }

  /** Ticks survive a round trip through nanoseconds unless the product
      overflows. */
  lemma {:induction false} TicksRoundTrip(ticks: uint64, nanosPerTick: uint64)
    requires nanosPerTick > 0 && ticks * nanosPerTick < U64_MODULUS
    ensures NanosToTicks(TicksToNanos(ticks, nanosPerTick), nanosPerTick) == ticks
  {
    var n := TicksToNanos(ticks, nanosPerTick);
    var t := NanosToTicks(n, nanosPerTick);
    assert n == ticks * nanosPerTick;
    if t < ticks {
      MulMonotone(t + 1, ticks, nanosPerTick);
    } else if t > ticks {
      MulMonotone(ticks + 1, t, nanosPerTick);
    }
  }

  lemma MulMonotone(a: nat, b: nat, c: nat)
    requires a <= b
    ensures a * c <= b * c
  {
  }

  /** Converting nanoseconds to ticks and back rounds down to a whole tick:
      the result is at most the input and less than one tick below it. */
  lemma {:induction false} NanosRoundTrip(nanos: uint64, nanosPerTick: uint64)
    requires nanosPerTick > 0
    ensures TicksToNanos(NanosToTicks(nanos, nanosPerTick), nanosPerTick) <= nanos
    ensures nanos - TicksToNanos(NanosToTicks(nanos, nanosPerTick), nanosPerTick) < nanosPerTick
  {
    var t := NanosToTicks(nanos, nanosPerTick);
    assert t * nanosPerTick <= nanos < (t + 1) * nanosPerTick;
    assert (t + 1) * nanosPerTick == t * nanosPerTick + nanosPerTick;
  }

  /** A later deadline never converts to an earlier tick. */
  lemma {:induction false} NanosToTicksMonotone(n1: uint64, n2: uint64, nanosPerTick: uint64)
    requires nanosPerTick > 0 && n1 <= n2
    ensures NanosToTicks(n1, nanosPerTick) <= NanosToTicks(n2, nanosPerTick)
  {
    var t1, t2 := NanosToTicks(n1, nanosPerTick), NanosToTicks(n2, nanosPerTick);
    if t1 > t2 {
      MulMonotone(t2 + 1, t1, nanosPerTick);
    }
  }

  /** `set_oneshot_timer`: hand the deadline, converted to ticks, to the SBI
      timer. */
  method SetOneshotTimer(hart: Hart, deadlineNs: uint64, nanosPerTick: uint64)
    requires nanosPerTick > 0
    modifies hart`timerDeadline
    ensures hart.timerDeadline == NanosToTicks(deadlineNs, nanosPerTick)
  {
    hart.timerDeadline := NanosToTicks(deadlineNs, nanosPerTick);
  }
}
