# go-pool, modelled in Dafny

A model of a bounded worker pool written in Go. Callers submit jobs with
`Go`; each job runs on its own goroutine once it has taken a token from a
buffered channel whose size is the pool's capacity, so at most that many jobs
run at once. A wait group counts the jobs submitted and not yet done, and
`Wait` blocks until that count is zero. A small sizing layer derives a
capacity, called a Priority, from the CPU count and a rational weight.

The model has three files, one per Go source file:

- `priority.dfy` (module `Priority`): `PriorityRational` and the presets
  `MAXIMUM`, `HIGH`, `NORMAL`, `LOW` as pure functions of the CPU count.
  Go's `uint` is taken to be 64 bits wide. The product `cpus * num` is
  wrapped modulo 2^64 before the division, as Go computes it. A zero
  denominator is Go's division panic, modelled as a `Panic` result.
- `pool_impl.dfy` (module `PoolImpl`): the pool's steps, first on values
  and then in place. A `PoolState` value holds the capacity, the free
  tokens, the wait-group counter, and the phase of every job: pending
  (waiting for a token), running (holding one), or releasing (token
  returned, `wg.Done()` not yet called). `Next` takes one atomic step:
  submit, take a token, return it, or count the job done. A step whose Go
  statement would block is not enabled and changes nothing. The invariant
  `Inv` says five things:
  - the capacity is at least 1;
  - the running jobs plus the free tokens equal the capacity;
  - the wait-group counter equals pending + running + releasing;
  - the three phases are disjoint;
  - every job identifier is below `nextId`, the next one to be handed out.
  Every step keeps `Inv`, and so does every schedule of steps. `Drain`
  builds, from any state that satisfies `Inv` (which includes every state
  reachable from `New`), a schedule that ends with no job outstanding.
  The classes `TokenChannel` (the buffered channel, kept as a count) and
  `MPool` (the Go `mPool`) perform the same steps in place. Each method of
  `MPool` is proved to move its abstract state from `s` to `Next(s, e)`.
  The constructor `New` is the Go function `New`: it raises a request of 0
  to 1 and fills the channel in a loop.
- `pool.dfy` (module `Pool`): `WithPriority` and `Default`, and a short
  client that drives a pool built with `New(0)`.

`New` takes a `uint`, so 0 is the only request raised to 1.
`PriorityRational` computes `cpus * num` in `uint` and wraps on overflow
before dividing, so its result is not always `max(1, floor(cpus*num/den))`;
`WrapAroundExample` shows an input where they differ.

## Model

| member | source | states |
|---|---|---|
| Priority.MulUint | priority.go:23 | `uint` multiplication; when the exact product fits in 64 bits, the result is that product |
| Priority.PriorityRational | priority.go:22-28 | panics exactly when `den == 0`; otherwise the result is at least 1. If the wrapped product is at least `den`, the result is its floor quotient (`r*den <= prod < (r+1)*den`); otherwise it is exactly 1 |
| Priority.PriorityRationalExact | priority.go:23-27 | without wrap-around, the result is `max(1, cpus*num/den)` |
| Priority.PriorityRationalMonotone | priority.go:22-28 | for a fixed CPU count and no wrap-around, a larger numerator or a smaller denominator never gives a smaller priority |
| Priority.WrapAroundExample | priority.go:23 | with 4 CPUs and weight (2^62+1)/4, the product wraps and the priority is 1, where the exact quotient is 2^62+1 |
| Priority.FourCpuExamples | priority.go:15-28 | with 4 CPUs: (8,1) gives 32, (1,1) gives 4, (1,4) gives 1, and (1,100) is clamped up to 1; HIGH, NORMAL and LOW are 32, 4 and 1 |
| Priority.High | priority.go:15 | HIGH is at least 1, and exactly 8 × cpus when that fits in a `uint` |
| Priority.Normal | priority.go:16 | NORMAL equals the CPU count |
| Priority.Low | priority.go:17 | LOW is at least 1, is 1 below 8 CPUs, and is floor(cpus/4) from 4 CPUs on |
| Priority.PresetsOrdered | priority.go:15-17 | LOW <= NORMAL <= HIGH when 8 × cpus fits in a `uint` |
| Priority.HighWrapsExample | priority.go:15 | beyond that bound the order breaks: with 2^61 CPUs, HIGH wraps and is clamped to 1, below NORMAL = 2^61 |
| PoolImpl.Init | pool.go:25-36 | the state `New(max)` builds satisfies the invariant, with capacity `max(1, max)`, every token free, and no job outstanding |
| PoolImpl.InvBounds | pool_impl.go:22-28 | from the invariant: running jobs <= capacity, free permits <= capacity, and no outstanding job means every token is free |
| PoolImpl.CleanupNeverBlocks | pool_impl.go:26-29 | under the invariant, a running job's `p.c <- true` always finds room in the channel, and a releasing job's `wg.Done()` always finds a positive counter |
| PoolImpl.Next | pool_impl.go:13-32 | one atomic step never changes the capacity, and a step that is not enabled (its Go statement would block) changes nothing |
| PoolImpl.NextKeepsInv | pool_impl.go:13-32 | every step (submit, take a token, return it, count the job done) keeps the invariant |
| PoolImpl.RunKeepsInv | pool_impl.go:13-32 | the invariant holds after any schedule of steps, and the capacity never changes |
| PoolImpl.ReachableStatesBounded | pool_impl.go:22-28 | in every state reachable from `New(max)`, at most `max(1, max)` jobs run, and when no job is outstanding all tokens are back and no job runs |
| PoolImpl.ZeroCapacitySerializes | pool.go:27-30 | with `New(0)`, a second job cannot start while the first holds the token, can start once the first is done, and after both are done Wait passes |
| PoolImpl.Drain | pool_impl.go:20-34 | no deadlock: from any state that satisfies the invariant, which includes every state reachable from `New`, there is a schedule of enabled steps after which no job is outstanding, so Wait passes |
| PoolImpl.TokenChannel.constructor | pool.go:33 | `make(chan bool, n)` yields an empty channel of buffer size n |
| PoolImpl.TokenChannel.Send | pool.go:35 | a send is enabled only when the buffer has room, and adds one value |
| PoolImpl.TokenChannel.Receive | pool_impl.go:23 | a receive is enabled only when a value is buffered, and removes one |
| PoolImpl.MPool.New | pool.go:25-43 | builds exactly the state `Init(max)`: `New(0)` has capacity 1; `New(max)` with `max >= 1` has capacity `max`. The fill loop leaves exactly `capacity` tokens (loop invariant: after i sends the channel holds i, i <= capacity), so all permits are free, no job is outstanding, and the invariant holds |
| PoolImpl.MPool.Go | pool_impl.go:13-20 | the counter goes up by exactly 1; the permits are unchanged, so submission never waits on the gate; a fresh job becomes pending; the invariant is kept |
| PoolImpl.MPool.Acquire | pool_impl.go:22-23 | a pending job starts running if and only if a permit is free; it then takes exactly one. Otherwise nothing changes. The invariant is kept |
| PoolImpl.MPool.Release | pool_impl.go:26-27 | a running job returns its token; the send never blocks, because the invariant leaves room for it; the permits go up by 1 |
| PoolImpl.MPool.Done | pool_impl.go:28 | a job that has returned its token stops being outstanding; the counter goes down by 1 and never below 0 |
| PoolImpl.MPool.Finish | pool_impl.go:25-32 | the deferred cleanup, whatever `work` did: the token is returned first (permits + 1), then the counter drops by 1; the invariant is kept |
| PoolImpl.MPool.Wait | pool_impl.go:38-43 | Wait passes if and only if no job is outstanding; it then finds every permit free and no job pending, running or releasing; it changes no state |
| Pool.WithPriority | pool.go:15-17 | the same pool as `New(uint(p))`: capacity `max(1, p)`, all permits free, nothing outstanding |
| Pool.Default | pool.go:20-22 | `WithPriority(NORMAL)`: capacity equals the CPU count, all permits free |
| Pool.SecondJobWaitsForToken | pool_impl.go:20-23 | on a pool from `New(0)`, of two submitted jobs the first takes the only token and the second stays blocked |

## Left out

- Goroutines, channel blocking and wake-up, and `sync.WaitGroup` internals are not modelled. Each step is one atomic transition, and a blocked step is one that is not enabled (`Acquire` returns false; `Send` and `Receive` require room or a value). Interleavings are not verified.
- A `Go` that races a `Wait` from an unrelated caller is a matter of the Go scheduler and is not expressible in this sequential model.
- `runtime.NumCPU()` is a call into the Go runtime; the CPU count is a parameter `cpus` with 1 <= cpus <= 2^63-1.
- The body of `work()` is not modelled. A job that panics still runs the deferred cleanup, which is `Finish`; in Go the unrecovered panic then ends the whole program once that cleanup has run, so the pool does not keep going after a failing job. Panic propagation itself is not modelled. A job that submits further jobs, or never returns, is not modelled either.
- PoolImpl.MPool.New: does not model the panic "makechan: size out of range" that Go's `make(chan bool, max)` raises when `max` exceeds the runtime's allocation limit (2^48 bytes on linux/amd64) or exceeds 2^63-1 (converted to a negative `int`); the model returns a valid pool for every `uint`, so `New` and `Pool.WithPriority` with such a huge capacity or priority succeed here where Go panics.
- Go's `uint` is 32 bits wide on 32-bit platforms; the model fixes it at 64 bits.
- The channel's buffer is a count, since every token is the same `true` value. The memory a buffer of 2^32-1 tokens for `MAXIMUM` would take is not modelled, and neither is FIFO order among tokens or among blocked receivers.
- `MAXIMUM` is a constant (2^32-1), not a function; it does not depend on the CPU count.
- The `Pool` interface has one implementation; the model exposes `MPool` directly. `Go` takes no `work` argument, since the job body is not modelled.
- Whole schedules (`RunKeepsInv`, `ReachableStatesBounded`, `Drain`) are proved on `PoolState` values. A sequence of `MPool` calls inherits these results through each method's `Next` postcondition; they are not restated per call sequence.
- example/main.go is a demonstration program built on `time.Sleep` and printing, and is not part of this model.
