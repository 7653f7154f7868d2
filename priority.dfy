/**
  Sizing policy of the pool: a Priority is the number of jobs a pool may run
  at once, derived from the host's CPU count and a rational weight.

  Go's `uint` is modelled as a 64-bit unsigned integer: arithmetic on it is
  written out modulo 2^64. The CPU count, which the Go code reads from the
  runtime, is a parameter here.
 */
module Priority {

  /** 2^64: the modulus of Go's `uint` on a 64-bit platform. */
  const UINT_MOD: int := 0x1_0000_0000_0000_0000

  /** Largest value of Go's `int`, the type the CPU count is reported in. */
  const MAX_INT: int := 0x7FFF_FFFF_FFFF_FFFF

  type Uint = x: int | 0 <= x < UINT_MOD

  /** A Priority is a `uint`: the maximum number of jobs running in parallel. */
  type Priority = Uint

  /** The number of logical CPUs the runtime reports: at least one, and an `int`. */
  type CpuCount = n: int | 1 <= n <= MAX_INT witness 1

  /** The outcome of a Go expression that may panic. */
  datatype Result<T> = Ok(value: T) | Panic(reason: string)

  /** Go's `a * b` on `uint`: the exact product, wrapped modulo 2^64. */
  function MulUint(a: Uint, b: Uint): (r: Uint)
    ensures a * b < UINT_MOD ==> r == a * b
  {
    ModOfSmall(a * b, UINT_MOD);
    (a * b) % UINT_MOD
  }

  lemma ModOfSmall(x: nat, m: nat)
    requires 0 < m
    ensures x < m ==> x % m == x
  {
  }

  /** y / d is the greatest q with q * d <= y. */
  lemma QuotientIsGreatest(q: nat, y: nat, d: nat)
    requires 0 < d && q * d <= y
    ensures q <= y / d
  {
    var r := y / d;
    assert y < (r + 1) * d;
  }

  lemma MulMonotone(q: nat, a: nat, b: nat)
    requires a <= b
    ensures q * a <= q * b
  {
  }

  /** Division by a positive integer is monotone in the dividend and antitone in the divisor. */
  lemma {:induction false} DivMonotone(x: nat, y: nat, d1: nat, d2: nat)
    requires x <= y && 0 < d2 <= d1
    ensures x / d1 <= y / d2
  {
    var q1 := x / d1;
    assert q1 * d1 <= x;
    MulMonotone(q1, d2, d1);
    QuotientIsGreatest(q1, y, d2);
  }

  function Max(a: int, b: int): int
  {
    if a < b then b else a
  }

  /**
    `PriorityRational(num, den)`: the CPU count times num/den, computed as
    `uint(cpus) * num / den` in `uint` arithmetic and clamped up to 1.
    A zero denominator is Go's integer-division panic.
   */
  function PriorityRational(cpus: CpuCount, num: Uint, den: Uint): (r: Result<Priority>)
    ensures r.Panic? <==> den == 0
    ensures r.Ok? ==> 1 <= r.value
    // the quotient is the floor of the wrapped product over den, when that is at least 1
    ensures r.Ok? && den <= MulUint(cpus, num) ==>
              r.value * den <= MulUint(cpus, num) < (r.value + 1) * den
    // otherwise the clamp gives exactly 1
    ensures r.Ok? && MulUint(cpus, num) < den ==> r.value == 1
  {
    if den == 0 then
      Panic("integer divide by zero")
    else
      var max := MulUint(cpus, num) / den;
      Ok(if max < 1 then 1 else max)
  }

  /** MAXIMUM: the largest 32-bit unsigned value, whatever the CPU count. */
  const MAXIMUM: Priority := 0xFFFF_FFFF

  /** HIGH: eight jobs per CPU. */
  function High(cpus: CpuCount): (p: Priority)
    ensures 1 <= p
    ensures 8 * cpus < UINT_MOD ==> p == 8 * cpus
  {
    PriorityRational(cpus, 8, 1).value
  }

  /** NORMAL: one job per CPU. */
  function Normal(cpus: CpuCount): (p: Priority)
    ensures p == cpus
  {
    PriorityRational(cpus, 1, 1).value
  }

  /** LOW: one job per four CPUs, but never fewer than one. */
  function Low(cpus: CpuCount): (p: Priority)
    ensures 1 <= p
    ensures cpus < 8 ==> p == 1
    ensures 4 <= cpus ==> 4 * p <= cpus < 4 * (p + 1)
  {
    PriorityRational(cpus, 1, 4).value
  }

  /** Without wrap-around the result is exactly max(1, floor(cpus * num / den)). */
  lemma PriorityRationalExact(cpus: CpuCount, num: Uint, den: Uint)
    requires den > 0
    requires cpus * num < UINT_MOD
    ensures PriorityRational(cpus, num, den) == Ok(Max(1, cpus * num / den))
  {
  }

  /**
    With a fixed CPU count and no wrap-around, a larger weight never yields a
    smaller priority: the result is monotone in the numerator and antitone in
    the denominator.
   */
  lemma PriorityRationalMonotone(cpus: CpuCount, num1: Uint, den1: Uint, num2: Uint, den2: Uint)
    requires 0 < den2 <= den1
    requires num1 <= num2
    requires cpus * num2 < UINT_MOD
    ensures PriorityRational(cpus, num1, den1).value <= PriorityRational(cpus, num2, den2).value
  {
    MulMonotone(cpus, num1, num2);
    PriorityRationalExact(cpus, num1, den1);
    PriorityRationalExact(cpus, num2, den2);
    DivMonotone(cpus * num1, cpus * num2, den1, den2);
  }

  /**
    The product wraps before the division: with four CPUs and the weight
    (2^62 + 1) / 4 the exact quotient would be 2^62 + 1, but `uint`
    multiplication gives 4, so the priority is 1.
   */
  lemma WrapAroundExample()
    ensures PriorityRational(4, 0x4000_0000_0000_0001, 4) == Ok(1)
  {
  }

  /** The worked values for a host with four CPUs. */
  lemma FourCpuExamples()
    ensures PriorityRational(4, 8, 1) == Ok(32)
    ensures PriorityRational(4, 1, 1) == Ok(4)
    ensures PriorityRational(4, 1, 4) == Ok(1)
    ensures PriorityRational(4, 1, 100) == Ok(1)
    ensures High(4) == 32 && Normal(4) == 4 && Low(4) == 1
  {
  }

  /** The presets are ordered LOW <= NORMAL <= HIGH while 8 * cpus fits in a `uint`. */
  lemma PresetsOrdered(cpus: CpuCount)
    requires 8 * cpus < UINT_MOD
    ensures Low(cpus) <= Normal(cpus) <= High(cpus)
  {
  }

  /** Beyond that bound the order breaks: with 2^61 CPUs, 8 * cpus wraps to 0 and HIGH is clamped to 1. */
  lemma HighWrapsExample()
    ensures High(0x2000_0000_0000_0000) == 1 < Normal(0x2000_0000_0000_0000)
  {
  }
}
