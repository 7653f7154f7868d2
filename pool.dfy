/** The public constructors of a pool: by priority, and by the default priority. */
module Pool {
  import opened Priority
  import opened PoolImpl

  /** `WithPriority(p)`: exactly `New(uint(p))`. */
  method WithPriority(priority: Priority) returns (p: MPool)
    ensures fresh(p) && fresh(p.c) && p.Valid()
    ensures p.Capacity() == Max(1, priority)
    ensures p.Permits() == p.Capacity() && p.outstanding == 0
  {
    p := new MPool.New(priority);
  }

  /** `Default()`: the NORMAL priority, one job per CPU. */
  method Default(cpus: CpuCount) returns (p: MPool)
    ensures fresh(p) && fresh(p.c) && p.Valid()
    ensures p.Capacity() == cpus
    ensures p.Permits() == p.Capacity() && p.outstanding == 0
  {
    p := WithPriority(Normal(cpus));
  }

  /**
    With `New(0)` one job runs at a time: of two submitted jobs, the first
    takes the only token and the second stays blocked.
   */
  method SecondJobWaitsForToken() returns (firstStarts: bool, secondStarts: bool)
    ensures firstStarts && !secondStarts
  {
    var p := new MPool.New(0);
    ghost var a := p.Go();
    ghost var b := p.Go();
    firstStarts := p.Acquire(a);
    secondStarts := p.Acquire(b);
  }
}
