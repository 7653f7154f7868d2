/**
  The pool itself: a buffered channel of tokens that acts as a counting
  semaphore, and a wait-group counter of outstanding jobs.

  The Go code runs each submitted job on its own goroutine. This model is
  sequential: every channel operation and every counter update is one atomic
  step, and a step whose Go statement would block is not enabled. Which job a
  step belongs to is named by a job identifier; the Go pool keeps no such
  identity, so in the class the identifiers and the sets of pending, running
  and releasing jobs are ghost state.

  The steps are first defined on values (PoolState, Next), where the
  invariant and the behaviour of whole schedules are proved; the class
  MPool then performs them in place, and each of its methods is proved to
  take the state from `s` to `Next(s, e)`.
 */
module PoolImpl {
  import opened Priority

  /** A name for one submitted job (one goroutine spawned by Go). */
  type JobId = nat

  /** One atomic step of the pool. */
  datatype Event =
    | Submit               // Go: wg.Add(1), and the goroutine is spawned
    | Acquire(id: JobId)   // the goroutine's `<-p.c`
    | Release(id: JobId)   // the deferred `p.c <- true`
    | Done(id: JobId)      // the deferred `p.wg.Done()`

  /**
    The pool's state: the channel's buffer size and the number of tokens in
    it, the wait-group counter, and the phase of every job not yet done.
   */
  datatype PoolState = PoolState(
    capacity: nat,          // cap(c)
    permits: nat,           // len(c): tokens free in the channel
    outstanding: nat,       // the wait-group counter
    pending: set<JobId>,    // waiting at `<-p.c`
    running: set<JobId>,    // holding a token: running work(), or about to return the token
    releasing: set<JobId>,  // token returned, wg.Done() not yet called
    nextId: JobId)          // identifiers handed out so far are below this

  /**
    The invariant: every job is in exactly one phase, each running job holds
    exactly one token, and the counter counts the jobs that are not done.
   */
  ghost predicate Inv(s: PoolState)
  {
    && 1 <= s.capacity
    && s.pending !! s.running && s.pending !! s.releasing && s.running !! s.releasing
    && (forall id :: id in s.pending ==> id < s.nextId)
    && (forall id :: id in s.running ==> id < s.nextId)
    && (forall id :: id in s.releasing ==> id < s.nextId)
    && |s.running| + s.permits == s.capacity
    && s.outstanding == |s.pending| + |s.running| + |s.releasing|
  }

  /** The counting consequences of the invariant: the concurrency bound and the range of the permit count. */
  lemma InvBounds(s: PoolState)
    requires Inv(s)
    ensures |s.running| <= s.capacity
    ensures s.permits <= s.capacity
    ensures |s.pending| + |s.running| <= s.outstanding
    ensures s.outstanding == 0 ==> s.permits == s.capacity
  {
  }

  /** Wait lets its caller through exactly in a quiescent state. */
  predicate Quiescent(s: PoolState)
  {
    s.outstanding == 0
  }

  /** The state `New(max)` builds: capacity max(1, max), every token in the channel, no job. */
  function Init(max: Uint): (s: PoolState)
    ensures Inv(s)
    ensures 1 <= max ==> s.capacity == max
    ensures max == 0 ==> s.capacity == 1
    ensures s.permits == s.capacity && Quiescent(s)
  {
    var m := if max < 1 then 1 else max;
    PoolState(m, m, 0, {}, {}, {}, 0)
  }

  /**
    Whether a step can happen now. A submission always can. A receive needs a
    token in the channel, a send needs room in it, and `wg.Done()` needs a
    positive counter (Go panics otherwise).
   */
  predicate Enabled(s: PoolState, e: Event)
  {
    match e
    case Submit => true
    case Acquire(id) => id in s.pending && 0 < s.permits
    case Release(id) => id in s.running && s.permits < s.capacity
    case Done(id) => id in s.releasing && 0 < s.outstanding
  }

  /** Under the invariant, returning a token and counting the job done never block or panic. */
  lemma CleanupNeverBlocks(s: PoolState, id: JobId)
    requires Inv(s)
    ensures id in s.running ==> Enabled(s, Release(id))
    ensures id in s.releasing ==> Enabled(s, Done(id))
  {
  }

  /**
    One step. A step that is not enabled leaves the state as it is: the
    goroutine that would take it stays blocked.
   */
  function Next(s: PoolState, e: Event): (t: PoolState)
    ensures t.capacity == s.capacity
    ensures !Enabled(s, e) ==> t == s
  {
    if !Enabled(s, e) then s
    else
      match e
      case Submit =>
        s.(outstanding := s.outstanding + 1, pending := s.pending + {s.nextId}, nextId := s.nextId + 1)
      case Acquire(id) =>
        s.(permits := s.permits - 1, pending := s.pending - {id}, running := s.running + {id})
      case Release(id) =>
        s.(permits := s.permits + 1, running := s.running - {id}, releasing := s.releasing + {id})
      case Done(id) =>
        s.(outstanding := s.outstanding - 1, releasing := s.releasing - {id})
  }

  /** Every step keeps the invariant. */
  lemma NextKeepsInv(s: PoolState, e: Event)
    requires Inv(s)
    ensures Inv(Next(s, e))
  {
  }

  /** A schedule: the steps of `trace` taken one after the other. */
  function Run(s: PoolState, trace: seq<Event>): PoolState
    decreases |trace|
  {
    if trace == [] then s else Run(Next(s, trace[0]), trace[1..])
  }

  /** Every step of `trace` is enabled when its turn comes. */
  ghost predicate Feasible(s: PoolState, trace: seq<Event>)
    decreases |trace|
  {
    trace == [] || (Enabled(s, trace[0]) && Feasible(Next(s, trace[0]), trace[1..]))
  }

  /** The invariant holds after any schedule, and the capacity never changes. */
  lemma {:induction false} RunKeepsInv(s: PoolState, trace: seq<Event>)
    requires Inv(s)
    ensures Inv(Run(s, trace))
    ensures Run(s, trace).capacity == s.capacity
    decreases |trace|
  {
    if trace != [] {
      NextKeepsInv(s, trace[0]);
      RunKeepsInv(Next(s, trace[0]), trace[1..]);
    }
  }

  /**
    In every state a pool built by `New(max)` can reach, at most capacity
    jobs run, and when no job is outstanding every token is back.
   */
  lemma ReachableStatesBounded(max: Uint, trace: seq<Event>)
    ensures var s := Run(Init(max), trace);
      && |s.running| <= s.capacity
      && s.capacity == (if max < 1 then 1 else max)
      && (Quiescent(s) ==> s.permits == s.capacity && s.running == {})
  {
    RunKeepsInv(Init(max), trace);
    InvBounds(Run(Init(max), trace));
  }

  /**
    A pool requested with zero parallelism still runs jobs, one at a time:
    of two submitted jobs the second cannot start while the first holds the
    token, starts once the first is done, and after both are done Wait
    lets its caller through.
   */
  lemma ZeroCapacitySerializes()
    ensures var s := Run(Init(0), [Submit, Submit, Acquire(0)]);
      0 in s.running && !Enabled(s, Acquire(1))
    ensures var s := Run(Init(0), [Submit, Submit, Acquire(0), Release(0), Done(0)]);
      Enabled(s, Acquire(1))
    ensures Quiescent(Run(Init(0), [Submit, Submit, Acquire(0), Release(0), Done(0), Acquire(1), Release(1), Done(1)]))
  {
  }

  /** A measure of the steps left before every outstanding job is done. */
  function Work(s: PoolState): nat
  {
    3 * |s.pending| + 2 * |s.running| + |s.releasing|
  }

  /**
    No deadlock: from any state that satisfies the invariant (so from every
    state reachable from `New`), there is a schedule of enabled steps after
    which no job is outstanding, so Wait lets its caller through. Jobs that
    have returned their token are counted done first, then running jobs
    return their tokens, and when none is running every token is free for a
    pending job.
   */
  ghost function Drain(s: PoolState): (trace: seq<Event>)
    requires Inv(s)
    ensures Feasible(s, trace)
    ensures Quiescent(Run(s, trace))
    decreases Work(s)
  {
    if s.releasing != {} then
      var id :| id in s.releasing;
      CleanupNeverBlocks(s, id);
      NextKeepsInv(s, Done(id));
      [Done(id)] + Drain(Next(s, Done(id)))
    else if s.running != {} then
      var id :| id in s.running;
      CleanupNeverBlocks(s, id);
      NextKeepsInv(s, Release(id));
      [Release(id)] + Drain(Next(s, Release(id)))
    else if s.pending != {} then
      var id :| id in s.pending;
      NextKeepsInv(s, Acquire(id));
      [Acquire(id)] + Drain(Next(s, Acquire(id)))
    else
      []
  }

  /**
    A buffered `chan bool` whose values are all `true`: only the number of
    buffered values matters, so the buffer is kept as a count.
   */
  class TokenChannel {
    /** The buffer size given to `make`. */
    const capacity: nat
    /** The number of values currently buffered. */
    var len: nat

    ghost predicate Valid()
      reads this
    {
      len <= capacity
    }

    /** `make(chan bool, capacity)`: an empty channel. */
    constructor (capacity: nat)
      ensures Valid()
      ensures this.capacity == capacity && len == 0
    {
      this.capacity := capacity;
      len := 0;
    }

    /** `c <- true`: enabled only while the buffer has room (otherwise the sender blocks). */
    method Send()
      requires Valid() && len < capacity
      modifies this
      ensures Valid()
      ensures len == old(len) + 1
    {
      len := len + 1;
    }

    /** `<-c`: enabled only while a value is buffered (otherwise the receiver blocks). */
    method Receive()
      requires Valid() && 0 < len
      modifies this
      ensures Valid()
      ensures len == old(len) - 1
    {
      len := len - 1;
    }
  }

  /** `mPool`: the channel `c` and the wait group `wg`, updated in place. */
  class MPool {
    /** `c`: the token channel; a token in the buffer is a free permit. */
    const c: TokenChannel
    /** `wg`: the wait-group counter of jobs submitted and not yet done. */
    var outstanding: nat

    /** The phases of the jobs not yet done, as in PoolState. */
    ghost var pending: set<JobId>
    ghost var running: set<JobId>
    ghost var releasing: set<JobId>
    ghost var nextId: JobId

    /** The number of jobs the pool may run at once: the channel's buffer size. */
    function Capacity(): nat
    {
      c.capacity
    }

    /** The number of permits currently free. */
    function Permits(): nat
      reads c
    {
      c.len
    }

    /** The abstract state of this pool. */
    ghost function State(): PoolState
      reads this, c
    {
      PoolState(c.capacity, c.len, outstanding, pending, running, releasing, nextId)
    }

    ghost predicate Valid()
      reads this, c
    {
      c.Valid() && Inv(State())
    }

    /**
      `New(max)`: a zero request is raised to one, then a channel of that size
      is filled with one token per permit, so every permit starts free.
     */
    constructor New(max: Uint)
      ensures Valid() && fresh(c)
      ensures State() == Init(max)
      ensures 1 <= max ==> Capacity() == max
      ensures max == 0 ==> Capacity() == 1
      ensures Permits() == Capacity() && outstanding == 0
    {
      var m := max;
      if m < 1 {
        m := 1;
      }
      var ch := new TokenChannel(m);
      var i := 0;
      while i < m
        invariant 0 <= i <= m
        invariant ch.Valid() && ch.capacity == m
        invariant ch.len == i
      {
        ch.Send();
        i := i + 1;
      }
      c := ch;
      outstanding := 0;
      pending, running, releasing := {}, {}, {};
      nextId := 0;
    }

    /**
      `Go(work)`: counts the job in the wait group and spawns its goroutine,
      which starts out waiting for a token. Submission never touches the
      channel, so it never waits on the gate.
     */
    method Go() returns (ghost id: JobId)
      requires Valid()
      modifies this
      ensures Valid()
      ensures State() == Next(old(State()), Submit)
      ensures outstanding == old(outstanding) + 1
      ensures Permits() == old(Permits())
      ensures id !in old(pending + running + releasing)
      ensures pending == old(pending) + {id}
    {
      id := nextId;
      nextId := nextId + 1;
      outstanding := outstanding + 1;
      pending := pending + {id};
    }

    /**
      The spawned goroutine's `<-p.c`: a pending job takes a token and starts
      running. With no token buffered the goroutine stays blocked and nothing
      changes.
     */
    method Acquire(ghost id: JobId) returns (acquired: bool)
      requires Valid() && id in pending
      modifies c, this`pending, this`running
      ensures Valid()
      ensures State() == Next(old(State()), Event.Acquire(id))
      ensures acquired <==> old(Permits()) > 0
      ensures acquired ==> Permits() == old(Permits()) - 1 && running == old(running) + {id}
      ensures !acquired ==> State() == old(State())
    {
      acquired := c.len > 0;
      if acquired {
        c.Receive();
        pending := pending - {id};
        running := running + {id};
      }
    }

    /**
      The deferred `p.c <- true`: a running job puts its token back. The
      channel always has room for it, so this send never blocks.
     */
    method Release(ghost id: JobId)
      requires Valid() && id in running
      modifies c, this`running, this`releasing
      ensures Valid()
      ensures State() == Next(old(State()), Event.Release(id))
      ensures Permits() == old(Permits()) + 1
      ensures running == old(running) - {id}
      ensures outstanding == old(outstanding)
    {
      CleanupNeverBlocks(State(), id);
      c.Send();
      running := running - {id};
      releasing := releasing + {id};
    }

    /** The deferred `p.wg.Done()`: a job that has returned its token is no longer outstanding. */
    method Done(ghost id: JobId)
      requires Valid() && id in releasing
      modifies this`outstanding, this`releasing
      ensures Valid()
      ensures State() == Next(old(State()), Event.Done(id))
      ensures outstanding == old(outstanding) - 1
      ensures Permits() == old(Permits())
    {
      CleanupNeverBlocks(State(), id);
      outstanding := outstanding - 1;
      releasing := releasing - {id};
    }

    /**
      The whole deferred function, which runs when `work()` returns and also
      when it panics: the token goes back first, then the counter drops.
     */
    method Finish(ghost id: JobId)
      requires Valid() && id in running
      modifies c, this`outstanding, this`running, this`releasing
      ensures Valid()
      ensures State() == Run(old(State()), [Event.Release(id), Event.Done(id)])
      ensures Permits() == old(Permits()) + 1
      ensures outstanding == old(outstanding) - 1
      ensures running == old(running) - {id} && pending == old(pending) && releasing == old(releasing)
    {
      ghost var s0 := State();
      Release(id);
      ghost var s1 := State();
      Done(id);
      assert [Event.Release(id), Event.Done(id)][1..] == [Event.Done(id)];
      assert Run(s1, [Event.Done(id)]) == State();
    }

    /**
      `Wait()`: the wait group lets the caller through exactly when no job is
      outstanding. At that point every token is back in the channel, since a
      job returns its token before it is counted done. Wait changes nothing.
     */
    method Wait() returns (done: bool)
      requires Valid()
      ensures done <==> outstanding == 0
      ensures done ==> Permits() == Capacity()
      ensures done ==> pending == {} && running == {} && releasing == {}
    {
      done := outstanding == 0;
    }
  }
}
