/** ConcurrencyLimitMiddleware: any number of requests around one asyncio.Semaphore. */
module ConcurrencyLimit {
  import opened Options

  /** asyncio.wait_for was rewritten in Python 3.12. Later semaphores also wake as many
      waiters as they have permits for, where 3.11's wakes one at a time. */
  datatype Python = Eleven | Later

  /** Busy: answered 503; `lost` if it had got a permit that nobody gives back. */
  datatype Outcome = Returned | Raised | Busy(lost: bool)

  /** Waiting: in the semaphore's queue.
      Granted: its future in the queue has been set, its acquire task has not run on yet.
      Acquired: its acquire task has ended with a permit, the middleware has not run on yet.
      Passing: not an HTTP scope, so handed to the application without a permit. */
  datatype Phase = Waiting | Granted | Acquired | Inside | Passing | Done(outcome: Outcome, http: bool)

  datatype State = State(free: nat, queue: seq<nat>, requests: seq<Phase>, busy: nat)

  /** Wake: the acquire task runs on. Resume: the middleware does. */
  datatype Event = Arrive(http: bool) | Wake(r: nat) | Resume(r: nat) | TimeOut(r: nat) | Leave(r: nat, raised: bool)

  function Start(max: nat): State { State(max, [], [], 0) }

  predicate Is(s: State, r: nat, phase: Phase) { r < |s.requests| && s.requests[r] == phase }

  /** The waiters are requests. */
  predicate Sane(s: State) { forall i | 0 <= i < |s.queue| :: s.queue[i] < |s.requests| }

  /** Up to Python 3.11 wait_for lets a finished task win over its deadline. */
  predicate Enabled(py: Python, s: State, ev: Event) {
    Sane(s) &&
    match ev
    case Arrive(_) => true
    case Wake(r) => Is(s, r, Granted)
    case Resume(r) => Is(s, r, Acquired)
    case TimeOut(r) => Is(s, r, Waiting) || Is(s, r, Granted) || (py.Later? && Is(s, r, Acquired))
    case Leave(r, _) => Is(s, r, Inside) || Is(s, r, Passing)
  }

  function Put(s: State, r: nat, phase: Phase): State
    requires r < |s.requests|
  {
    s.(requests := s.requests[r := phase])
  }

  /** The first waiter gets a free permit. */
  function Grant(s: State): State
    requires Sane(s) && s.free > 0 && s.queue != []
  {
    Put(s, s.queue[0], Granted).(free := s.free - 1, queue := s.queue[1..])
  }

  /** Up to n waiters get one, as long as there are any. */
  function HandOut(s: State, n: nat): State
    requires Sane(s)
    decreases n
  {
    if n == 0 || s.free == 0 || s.queue == [] then s else HandOut(Grant(s), n - 1)
  }

  /** How many waiters an acquire task wakes on its way out. */
  function Turns(py: Python, s: State): nat { if py.Eleven? then 1 else |s.queue| }

  /** asyncio.Semaphore.release */
  function Release(s: State): State
    requires Sane(s)
  {
    HandOut(s.(free := s.free + 1), 1)
  }

  function Without(queue: seq<nat>, r: nat): seq<nat> {
    if queue == [] then [] else if queue[0] == r then queue[1..] else [queue[0]] + Without(queue[1..], r)
  }

  predicate SomeGranted(s: State) { exists r: nat | r < |s.requests| :: s.requests[r] == Granted }

  /** asyncio.Semaphore.locked: a waiter that has been granted a permit but has not run on
      yet keeps its place in the queue. */
  predicate Locked(s: State) { s.free == 0 || s.queue != [] || SomeGranted(s) }

  function Acquire(s: State): State {
    if Locked(s) then s.(queue := s.queue + [|s.requests|], requests := s.requests + [Waiting])
    else s.(free := s.free - 1, requests := s.requests + [Acquired])
  }

  function Refuse(s: State, r: nat, lost: bool): State
    requires r < |s.requests|
  {
    Put(s, r, Done(Busy(lost), true)).(busy := s.busy + 1)
  }

  /** A cancelled acquire task leaves the queue, or gives back the permit it was granted;
      one that has ended cannot be cancelled. */
  function TimeOutStep(py: Python, s: State, r: nat): State
    requires Enabled(py, s, TimeOut(r))
  {
    match s.requests[r]
    case Waiting =>
      var s' := Refuse(s, r, false).(queue := Without(s.queue, r));
      WithoutStaysBelow(s.queue, r, |s.requests|);
      if py.Eleven? then s' else HandOut(s', |s'.queue|)
    case Granted =>
      var s' := Refuse(s, r, false);
      HandOut(s'.(free := s'.free + 1), Turns(py, s'))
    case _ => Refuse(s, r, true)
  }

  function Apply(py: Python, s: State, ev: Event): State
    requires Enabled(py, s, ev)
  {
    match ev
    case Arrive(http) => if http then Acquire(s) else s.(requests := s.requests + [Passing])
    case Wake(r) => HandOut(Put(s, r, Acquired), Turns(py, s))
    case Resume(r) => Put(s, r, Inside)
    case TimeOut(r) => TimeOutStep(py, s, r)
    case Leave(r, raised) =>
      var outcome := if raised then Raised else Returned;
      if s.requests[r] == Passing then Put(s, r, Done(outcome, false)) else Release(Put(s, r, Done(outcome, true)))
  }

  lemma {:induction false} WithoutStaysBelow(queue: seq<nat>, r: nat, bound: nat)
    requires forall i | 0 <= i < |queue| :: queue[i] < bound
    ensures forall i | 0 <= i < |Without(queue, r)| :: Without(queue, r)[i] < bound
  {
    if queue != [] { WithoutStaysBelow(queue[1..], r, bound); }
  }

  // ------------------------------------------------------------------ the invariant

  predicate Increasing(queue: seq<nat>) { forall i, j | 0 <= i < j < |queue| :: queue[i] < queue[j] }

  /** The queue holds exactly the waiting requests, in the order they arrived. */
  ghost predicate QueueOk(s: State) {
    Increasing(s.queue) &&
    (forall i | 0 <= i < |s.queue| :: Is(s, s.queue[i], Waiting)) &&
    forall r: nat | Is(s, r, Waiting) :: r in s.queue
  }

  predicate Holds(phase: Phase) { phase == Granted || phase == Acquired || phase == Inside }

  function Holders(s: State): set<nat> { set r: nat | r < |s.requests| && Holds(s.requests[r]) }

  predicate IsRefused(phase: Phase) { phase.Done? && phase.http && phase.outcome.Busy? }

  function Refused(s: State): set<nat> { set r: nat | r < |s.requests| && IsRefused(s.requests[r]) }

  /** The requests whose permit nobody gives back. */
  function Lost(s: State): set<nat> { set r: nat | r < |s.requests| && s.requests[r] == Done(Busy(true), true) }

  /** The request got a permit. */
  predicate Admitted(s: State, r: nat) {
    r < |s.requests| &&
    match s.requests[r]
    case Waiting => false
    case Passing => false
    case Done(outcome, http) => http && outcome != Busy(false)
    case _ => true
  }

  ghost predicate InOrder(s: State) {
    forall r: nat, later: nat | Is(s, r, Waiting) && r < later :: !Admitted(s, later)
  }

  ghost predicate Core(max: nat, s: State) {
    QueueOk(s) && InOrder(s) && s.free + |Holders(s)| + |Lost(s)| == max && s.busy == |Refused(s)|
  }

  /** Whoever waits beside a free permit waits for a granted waiter to run on. */
  ghost predicate Inv(max: nat, s: State) {
    Core(max, s) && (s.free > 0 && s.queue != [] ==> SomeGranted(s))
  }

  // ------------------------------------------------------------------ sets of requests

  /** Moving one request changes the sets by at most that request. */
  lemma PutSets(s: State, r: nat, phase: Phase)
    requires r < |s.requests|
    ensures var s' := Put(s, r, phase);
            Holders(s') == (if Holds(phase) then Holders(s) + {r} else Holders(s) - {r}) &&
            Refused(s') == (if IsRefused(phase) then Refused(s) + {r} else Refused(s) - {r}) &&
            Lost(s') == (if phase == Done(Busy(true), true) then Lost(s) + {r} else Lost(s) - {r})
  {
  }

  lemma AddSets(s: State, s': State, phase: Phase)
    requires s'.requests == s.requests + [phase]
    ensures Holders(s') == (if Holds(phase) then Holders(s) + {|s.requests|} else Holders(s))
    ensures Refused(s') == (if IsRefused(phase) then Refused(s) + {|s.requests|} else Refused(s))
    ensures Lost(s') == (if phase == Done(Busy(true), true) then Lost(s) + {|s.requests|} else Lost(s))
  {
  }

  lemma SameSets(s: State, s': State)
    requires s'.requests == s.requests
    ensures Holders(s') == Holders(s) && Refused(s') == Refused(s) && Lost(s') == Lost(s)
  {
  }

  // ------------------------------------------------------------------ the queue

  lemma {:induction false} WithoutContents(queue: seq<nat>, r: nat, q: nat)
    requires Increasing(queue)
    ensures q in Without(queue, r) <==> q in queue && q != r
  {
    if queue != [] {
      assert q in queue <==> q == queue[0] || q in queue[1..];
      WithoutContents(queue[1..], r, q);
      assert queue[0] == r ==> r !in queue[1..];
    }
  }

  lemma {:induction false} WithoutIncreasing(queue: seq<nat>, r: nat)
    requires Increasing(queue)
    ensures Increasing(Without(queue, r))
  {
    if queue != [] && queue[0] != r {
      var rest := Without(queue[1..], r);
      WithoutIncreasing(queue[1..], r);
      forall i | 0 <= i < |rest| ensures queue[0] < rest[i] {
        WithoutContents(queue[1..], r, rest[i]);
        assert rest[i] in rest;
      }
    }
  }

  lemma SameQueue(s: State, s': State)
    requires QueueOk(s) && InOrder(s) && s'.queue == s.queue && s'.requests == s.requests
    ensures QueueOk(s') && InOrder(s')
  {
    assert forall q: nat, phase :: Is(s', q, phase) <==> Is(s, q, phase);
    assert forall q: nat :: Admitted(s', q) <==> Admitted(s, q);
  }

  /** Moving a request that is not waiting keeps the queue and the order. */
  lemma MoveKeepsQueue(s: State, r: nat, phase: Phase)
    requires QueueOk(s) && InOrder(s) && r < |s.requests| && s.requests[r] != Waiting && phase != Waiting
    requires Admitted(s, r) || phase == Done(Returned, false) || phase == Done(Raised, false)
    ensures QueueOk(Put(s, r, phase)) && InOrder(Put(s, r, phase))
  {
    var s' := Put(s, r, phase);
    assert forall q: nat :: Is(s', q, Waiting) <==> Is(s, q, Waiting);
    assert forall q: nat | Admitted(s', q) :: Admitted(s, q);
  }

  lemma WithdrawKeepsQueue(s: State, r: nat)
    requires QueueOk(s) && InOrder(s) && Is(s, r, Waiting)
    ensures var s' := Put(s, r, Done(Busy(false), true)).(queue := Without(s.queue, r));
            QueueOk(s') && InOrder(s')
  {
    var s' := Put(s, r, Done(Busy(false), true)).(queue := Without(s.queue, r));
    WithoutIncreasing(s.queue, r);
    forall q: nat ensures q in s'.queue <==> q in s.queue && q != r { WithoutContents(s.queue, r, q); }
    assert forall q: nat :: Is(s', q, Waiting) <==> Is(s, q, Waiting) && q != r;
    assert forall q: nat | Admitted(s', q) :: Admitted(s, q);
    forall i | 0 <= i < |s'.queue| ensures Is(s', s'.queue[i], Waiting) { assert s'.queue[i] in s.queue; }
  }

  lemma GrantKeepsQueue(s: State)
    requires QueueOk(s) && s.queue != [] && s.free > 0
    ensures QueueOk(Grant(s))
  {
    var s' := Grant(s);
    assert Is(s, s.queue[0], Waiting);
    forall r: nat | Is(s', r, Waiting) ensures r in s'.queue { assert Is(s, r, Waiting); }
    forall i | 0 <= i < |s'.queue| ensures Is(s', s'.queue[i], Waiting) { assert Is(s, s.queue[i + 1], Waiting); }
  }

  lemma GrantKeepsOrder(s: State)
    requires QueueOk(s) && InOrder(s) && s.queue != [] && s.free > 0
    ensures InOrder(Grant(s))
  {
    var s' := Grant(s);
    assert Is(s, s.queue[0], Waiting);
    forall r: nat, later: nat | Is(s', r, Waiting) && r < later ensures !Admitted(s', later) {
      assert Is(s, r, Waiting) && r in s.queue;
      assert s.queue[0] <= r;
      assert !Admitted(s, later);
    }
  }

  // ------------------------------------------------------------------ handing out permits

  lemma GrantKeepsCore(max: nat, s: State)
    requires Core(max, s) && s.queue != [] && s.free > 0
    ensures Core(max, Grant(s)) && Is(Grant(s), s.queue[0], Granted)
  {
    GrantKeepsQueue(s);
    GrantKeepsOrder(s);
    assert Is(s, s.queue[0], Waiting);
    PutSets(s, s.queue[0], Granted);
    SameSets(Put(s, s.queue[0], Granted), Grant(s));
    assert s.queue[0] !in Holders(s);
  }

  /** Handing out keeps the sums, and nobody who was granted a permit loses it. */
  lemma {:induction false} HandOutKeepsCore(max: nat, s: State, n: nat)
    requires Core(max, s)
    ensures var s' := HandOut(s, n);
            Core(max, s') && |s'.requests| == |s.requests| && (SomeGranted(s) ==> SomeGranted(s')) &&
            (n > 0 && s.free > 0 && s.queue != [] ==> SomeGranted(s'))
    decreases n
  {
    if n > 0 && s.free > 0 && s.queue != [] {
      GrantKeepsCore(max, s);
      HandOutKeepsCore(max, Grant(s), n - 1);
    }
  }

  /** Whoever hands out at least one permit leaves nobody waiting without reason. */
  lemma HandOutKeepsInv(max: nat, s: State, n: nat)
    requires Core(max, s) && (n > 0 || s.queue == [] || SomeGranted(s))
    ensures Inv(max, HandOut(s, n))
  {
    HandOutKeepsCore(max, s, n);
  }

  // ------------------------------------------------------------------ every step keeps it

  lemma QueueingKeepsInv(max: nat, s: State)
    requires Inv(max, s) && Locked(s)
    ensures Inv(max, Acquire(s))
  {
    var s' := Acquire(s);
    AddSets(s, s', Waiting);
    assert forall r: nat | Is(s', r, Waiting) && r < |s.requests| :: Is(s, r, Waiting);
    assert forall r: nat | Admitted(s', r) :: Admitted(s, r);
    if SomeGranted(s) {
      var g: nat :| g < |s.requests| && s.requests[g] == Granted;
      assert s'.requests[g] == Granted;
    }
  }

  lemma EnteringKeepsInv(max: nat, s: State)
    requires Inv(max, s) && !Locked(s)
    ensures Inv(max, Acquire(s))
  {
    var s' := Acquire(s);
    AddSets(s, s', Acquired);
    forall r: nat ensures !Is(s', r, Waiting) {
      assert !Is(s, r, Waiting);
    }
  }

  lemma PassKeepsInv(py: Python, max: nat, s: State)
    requires Inv(max, s)
    ensures Inv(max, Apply(py, s, Arrive(false)))
  {
    var s' := Apply(py, s, Arrive(false));
    AddSets(s, s', Passing);
    assert forall q: nat :: Is(s', q, Waiting) <==> Is(s, q, Waiting);
    assert forall q: nat | Admitted(s', q) :: Admitted(s, q);
    if SomeGranted(s) {
      var g: nat :| g < |s.requests| && s.requests[g] == Granted;
      assert s'.requests[g] == Granted;
    }
  }

  /** A holder moves on and keeps its permit. */
  lemma HoldingOnKeepsCore(max: nat, s: State, r: nat, phase: Phase)
    requires Core(max, s) && r in Holders(s) && Holds(phase)
    ensures Core(max, Put(s, r, phase))
  {
    PutSets(s, r, phase);
    assert r !in Refused(s) && r !in Lost(s);
    assert Holders(Put(s, r, phase)) == Holders(s);
    MoveKeepsQueue(s, r, phase);
  }

  lemma WakeKeepsInv(py: Python, max: nat, s: State, r: nat)
    requires Inv(max, s) && Enabled(py, s, Wake(r))
    ensures Inv(max, Apply(py, s, Wake(r)))
  {
    HoldingOnKeepsCore(max, s, r, Acquired);
    HandOutKeepsInv(max, Put(s, r, Acquired), Turns(py, s));
  }

  lemma ResumeKeepsInv(py: Python, max: nat, s: State, r: nat)
    requires Inv(max, s) && Enabled(py, s, Resume(r))
    ensures Inv(max, Apply(py, s, Resume(r)))
  {
    HoldingOnKeepsCore(max, s, r, Inside);
    if SomeGranted(s) { OthersStayGranted(s, r, Inside); }
  }

  lemma OthersStayGranted(s: State, r: nat, phase: Phase)
    requires SomeGranted(s) && r < |s.requests| && s.requests[r] != Granted
    ensures SomeGranted(Put(s, r, phase))
  {
    var g: nat :| g < |s.requests| && s.requests[g] == Granted;
    assert Put(s, r, phase).requests[g] == Granted;
  }

  /** A request that gives up its permit: the sums hold once that is counted as free. */
  lemma GiveBackKeepsCore(max: nat, s: State, r: nat, phase: Phase, busy: nat)
    requires Core(max, s) && r in Holders(s) && !Holds(phase) && phase != Done(Busy(true), true) && phase != Waiting
    requires busy == s.busy + (if IsRefused(phase) then 1 else 0)
    ensures Core(max, Put(s, r, phase).(free := s.free + 1, busy := busy))
  {
    var s1 := Put(s, r, phase);
    var s' := s1.(free := s.free + 1, busy := busy);
    PutSets(s, r, phase);
    SameSets(s1, s');
    MoveKeepsQueue(s, r, phase);
    SameQueue(s1, s');
    assert r !in Refused(s) && r !in Lost(s);
  }

  lemma WithdrawKeepsCore(max: nat, s: State, r: nat)
    requires Core(max, s) && Is(s, r, Waiting)
    ensures Core(max, Refuse(s, r, false).(queue := Without(s.queue, r)))
  {
    var s1 := Put(s, r, Done(Busy(false), true));
    var s2 := s1.(queue := Without(s.queue, r));
    var s' := s2.(busy := s.busy + 1);
    PutSets(s, r, Done(Busy(false), true));
    SameSets(s1, s');
    WithdrawKeepsQueue(s, r);
    SameQueue(s2, s');
    assert r !in Holders(s) && r !in Refused(s) && r !in Lost(s);
  }

  lemma WithdrawKeepsInv(py: Python, max: nat, s: State, r: nat)
    requires Inv(max, s) && Enabled(py, s, TimeOut(r)) && Is(s, r, Waiting)
    ensures Inv(max, TimeOutStep(py, s, r))
  {
    var s' := Refuse(s, r, false).(queue := Without(s.queue, r));
    WithdrawKeepsCore(max, s, r);
    assert r in s.queue;
    if s.free > 0 { OthersStayGranted(s, r, Done(Busy(false), true)); }
    if py.Later? { HandOutKeepsInv(max, s', |s'.queue|); }
  }

  lemma LoseKeepsInv(max: nat, s: State, r: nat)
    requires Inv(max, s) && Is(s, r, Acquired)
    ensures Inv(max, Refuse(s, r, true))
  {
    var s1 := Put(s, r, Done(Busy(true), true));
    PutSets(s, r, Done(Busy(true), true));
    SameSets(s1, Refuse(s, r, true));
    MoveKeepsQueue(s, r, Done(Busy(true), true));
    SameQueue(s1, Refuse(s, r, true));
    assert r in Holders(s) && r !in Refused(s) && r !in Lost(s);
    if SomeGranted(s) { OthersStayGranted(s, r, Done(Busy(true), true)); }
  }

  lemma TimeOutKeepsInv(py: Python, max: nat, s: State, r: nat)
    requires Inv(max, s) && Enabled(py, s, TimeOut(r))
    ensures Inv(max, TimeOutStep(py, s, r))
  {
    match s.requests[r]
    case Waiting => WithdrawKeepsInv(py, max, s, r);
    case Granted =>
      GiveBackKeepsCore(max, s, r, Done(Busy(false), true), s.busy + 1);
      var s' := Refuse(s, r, false);
      HandOutKeepsInv(max, s'.(free := s'.free + 1), Turns(py, s'));
    case Acquired => LoseKeepsInv(max, s, r);
  }

  lemma PassedKeepsInv(max: nat, s: State, r: nat, phase: Phase)
    requires Inv(max, s) && Is(s, r, Passing) && (phase == Done(Returned, false) || phase == Done(Raised, false))
    ensures Inv(max, Put(s, r, phase))
  {
    PutSets(s, r, phase);
    MoveKeepsQueue(s, r, phase);
    assert r !in Holders(s) && r !in Refused(s) && r !in Lost(s);
    if SomeGranted(s) { OthersStayGranted(s, r, phase); }
  }

  lemma LeaveKeepsInv(py: Python, max: nat, s: State, r: nat, raised: bool)
    requires Inv(max, s) && Enabled(py, s, Leave(r, raised))
    ensures Inv(max, Apply(py, s, Leave(r, raised)))
  {
    var outcome := if raised then Raised else Returned;
    if s.requests[r] == Passing {
      PassedKeepsInv(max, s, r, Done(outcome, false));
    } else {
      GiveBackKeepsCore(max, s, r, Done(outcome, true), s.busy);
      HandOutKeepsInv(max, Put(s, r, Done(outcome, true)).(free := s.free + 1), 1);
    }
  }

  lemma StepKeepsInv(py: Python, max: nat, s: State, ev: Event)
    requires Inv(max, s) && Enabled(py, s, ev)
    ensures Inv(max, Apply(py, s, ev))
  {
    match ev
    case Arrive(http) =>
      if !http { PassKeepsInv(py, max, s); }
      else if Locked(s) { QueueingKeepsInv(max, s); }
      else { EnteringKeepsInv(max, s); }
    case Wake(r) => WakeKeepsInv(py, max, s, r);
    case Resume(r) => ResumeKeepsInv(py, max, s, r);
    case TimeOut(r) => TimeOutKeepsInv(py, max, s, r);
    case Leave(r, raised) => LeaveKeepsInv(py, max, s, r, raised);
  }

  lemma {:induction false} HandOutSpares(max: nat, s: State, n: nat, r: nat)
    requires Core(max, s) && r < |s.requests| && s.requests[r] != Waiting
    ensures |HandOut(s, n).requests| == |s.requests| && HandOut(s, n).requests[r] == s.requests[r]
    decreases n
  {
    if n > 0 && s.free > 0 && s.queue != [] {
      assert Is(s, s.queue[0], Waiting);
      GrantKeepsCore(max, s);
      HandOutSpares(max, Grant(s), n - 1, r);
    }
  }

  function Least(a: nat, b: nat): nat { if a <= b then a else b }

  lemma {:induction false} HandOutTakes(max: nat, s: State, n: nat)
    requires Core(max, s)
    ensures var k := Least(n, Least(s.free, |s.queue|));
            HandOut(s, n).queue == s.queue[k..] && HandOut(s, n).free == s.free - k
    decreases n
  {
    if n > 0 && s.free > 0 && s.queue != [] {
      GrantKeepsCore(max, s);
      HandOutTakes(max, Grant(s), n - 1);
    }
  }

  /** An acquire task that ends wakes at most one more waiter in Python 3.11, and later as many
      as there are free permits; a permit given back wakes one. */
  lemma WakesInOrder(py: Python, max: nat, s: State, r: nat, raised: bool)
    requires Inv(max, s)
    ensures Is(s, r, Granted) ==>
              var s' := Apply(py, s, Wake(r));
              var k := Least(if py.Eleven? then 1 else |s.queue|, Least(s.free, |s.queue|));
              s'.queue == s.queue[k..] && s'.free == s.free - k
    ensures Is(s, r, Inside) ==>
              var s' := Apply(py, s, Leave(r, raised));
              var k := Least(1, |s.queue|);
              s'.queue == s.queue[k..] && s'.free == s.free + 1 - k
  {
    if Is(s, r, Granted) {
      HoldingOnKeepsCore(max, s, r, Acquired);
      HandOutTakes(max, Put(s, r, Acquired), Turns(py, s));
    }
    if Is(s, r, Inside) {
      var phase := Done(if raised then Raised else Returned, true);
      GiveBackKeepsCore(max, s, r, phase, s.busy);
      HandOutTakes(max, Put(s, r, phase).(free := s.free + 1), 1);
    }
  }

  /** What becomes of an HTTP request that leaves, or gives up. */
  lemma EndsAs(py: Python, max: nat, s: State, ev: Event)
    requires Inv(max, s) && Enabled(py, s, ev) && (ev.Leave? || ev.TimeOut?)
    requires Is(s, ev.r, Inside) || Is(s, ev.r, Waiting) || Is(s, ev.r, Granted) || Is(s, ev.r, Acquired)
    ensures Is(Apply(py, s, ev), ev.r,
               if ev.TimeOut? then Done(Busy(Is(s, ev.r, Acquired)), true)
               else Done(if ev.raised then Raised else Returned, true))
  {
    var r := ev.r;
    if ev.Leave? {
      var phase := Done(if ev.raised then Raised else Returned, true);
      GiveBackKeepsCore(max, s, r, phase, s.busy);
      HandOutSpares(max, Put(s, r, phase).(free := s.free + 1), 1, r);
    } else if Is(s, r, Waiting) {
      WithdrawsAs(py, max, s, r);
    } else if Is(s, r, Granted) {
      GivesUpAs(py, max, s, r);
    }
  }

  lemma GivesUpAs(py: Python, max: nat, s: State, r: nat)
    requires Inv(max, s) && Is(s, r, Granted)
    ensures Is(Apply(py, s, TimeOut(r)), r, Done(Busy(false), true))
  {
    GiveBackKeepsCore(max, s, r, Done(Busy(false), true), s.busy + 1);
    HandOutSpares(max, Refuse(s, r, false).(free := s.free + 1), Turns(py, s), r);
  }

  lemma WithdrawsAs(py: Python, max: nat, s: State, r: nat)
    requires Inv(max, s) && Is(s, r, Waiting)
    ensures Is(Apply(py, s, TimeOut(r)), r, Done(Busy(false), true))
  {
    WithdrawKeepsCore(max, s, r);
    HandOutSpares(max, Refuse(s, r, false).(queue := Without(s.queue, r)), |Without(s.queue, r)|, r);
  }

  /** A request of another scope goes straight to the application, takes no part in the queue
      and ends as the application does, at any load. */
  lemma OtherScopesPass(py: Python, max: nat, s: State, r: nat, raised: bool)
    requires Inv(max, s)
    ensures Apply(py, s, Arrive(false)) == s.(requests := s.requests + [Passing])
    ensures Is(s, r, Passing) ==>
              Apply(py, s, Leave(r, raised)) ==
              s.(requests := s.requests[r := Done(if raised then Raised else Returned, false)])
  {
  }

  /** A granted request enters the application in two steps, whatever happens to others. */
  lemma EntersInTwoSteps(py: Python, max: nat, s: State, r: nat)
    requires Inv(max, s)
    ensures Is(s, r, Granted) ==> Is(Apply(py, s, Wake(r)), r, Acquired)
    ensures Is(s, r, Acquired) ==> Is(Apply(py, s, Resume(r)), r, Inside)
  {
    if Is(s, r, Granted) {
      HoldingOnKeepsCore(max, s, r, Acquired);
      HandOutSpares(max, Put(s, r, Acquired), Turns(py, s), r);
    }
  }

  // ------------------------------------------------------------------ whole runs

  function Exec(py: Python, max: nat, evs: seq<Event>): Option<State> {
    if evs == [] then Some(Start(max))
    else
      var n := |evs| - 1;
      var s := Exec(py, max, evs[..n]);
      if s.Some? && Enabled(py, s.value, evs[n]) then Some(Apply(py, s.value, evs[n])) else None
  }

  predicate Reaches(py: Python, max: nat, evs: seq<Event>, s: State) { Exec(py, max, evs) == Some(s) }

  lemma {:induction false} RunKeepsInv(py: Python, max: nat, evs: seq<Event>, s: State)
    requires Reaches(py, max, evs, s)
    ensures Inv(max, s)
  {
    if evs != [] {
      var n := |evs| - 1;
      RunKeepsInv(py, max, evs[..n], Exec(py, max, evs[..n]).value);
      StepKeepsInv(py, max, Exec(py, max, evs[..n]).value, evs[n]);
    } else {
      assert Holders(s) == {} && Refused(s) == {} && Lost(s) == {};
    }
  }

  /** Permits are conserved, whatever succeeded, raised or timed out on the way: each is free,
      held or lost. So at most `max` HTTP requests are inside the application at once; whoever
      waits beside a free permit waits for a granted waiter to run on; once nothing holds a
      permit, all that are not lost are free. */
  lemma PermitsConserved(py: Python, max: nat, evs: seq<Event>, s: State)
    requires Reaches(py, max, evs, s)
    ensures s.free + |Holders(s)| + |Lost(s)| == max
    ensures |set r: nat | r < |s.requests| && s.requests[r] == Inside| <= max - |Lost(s)|
    ensures (exists r: nat :: Is(s, r, Waiting)) && s.free > 0 ==> SomeGranted(s)
    ensures Holders(s) == {} ==> s.free == max - |Lost(s)|
  {
    RunKeepsInv(py, max, evs, s);
    var inside := set r: nat | r < |s.requests| && s.requests[r] == Inside;
    assert Holders(s) == inside + (Holders(s) - inside);
  }

  /** Permits are handed out in order of arrival: while a request waits, no later one has
      got a permit. */
  lemma FirstComeFirstServed(py: Python, max: nat, evs: seq<Event>, s: State, r: nat, later: nat)
    requires Reaches(py, max, evs, s) && Is(s, r, Waiting) && r < later
    ensures !Admitted(s, later)
  {
    RunKeepsInv(py, max, evs, s);
  }

  /** The busy counter counts exactly the requests that were answered 503. */
  lemma BusyCountsRefusals(py: Python, max: nat, evs: seq<Event>, s: State)
    requires Reaches(py, max, evs, s)
    ensures s.busy == |Refused(s)|
  {
    RunKeepsInv(py, max, evs, s);
  }

  // ------------------------------------------------------------------ lost permits

  /** A deadline that fires after the acquire task has ended and before the middleware runs on. */
  predicate LateTimeOut(py: Python, max: nat, evs: seq<Event>, i: nat, r: nat) {
    i < |evs| && evs[i] == TimeOut(r) && Exec(py, max, evs[..i]).Some? && Is(Exec(py, max, evs[..i]).value, r, Acquired)
  }

  lemma GrantKeepsLost(s: State)
    requires Sane(s) && s.free > 0 && s.queue != [] && Is(s, s.queue[0], Waiting)
    ensures Lost(Grant(s)) == Lost(s)
  {
    PutSets(s, s.queue[0], Granted);
    SameSets(Put(s, s.queue[0], Granted), Grant(s));
    assert s.queue[0] !in Lost(s);
  }

  lemma {:induction false} HandOutKeepsLost(max: nat, s: State, n: nat)
    requires Core(max, s)
    ensures Lost(HandOut(s, n)) == Lost(s)
    decreases n
  {
    if n > 0 && s.free > 0 && s.queue != [] {
      assert Is(s, s.queue[0], Waiting);
      GrantKeepsCore(max, s);
      GrantKeepsLost(s);
      HandOutKeepsLost(max, Grant(s), n - 1);
    }
  }

  lemma GivingBackLosesNothing(max: nat, s: State, r: nat, phase: Phase, busy: nat, n: nat)
    requires Core(max, s) && r in Holders(s) && !Holds(phase) && phase != Done(Busy(true), true) && phase != Waiting
    requires busy == s.busy + (if IsRefused(phase) then 1 else 0)
    ensures var s' := Put(s, r, phase).(free := s.free + 1, busy := busy);
            Core(max, s') && Lost(HandOut(s', n)) == Lost(s)
  {
    var s' := Put(s, r, phase).(free := s.free + 1, busy := busy);
    GiveBackKeepsCore(max, s, r, phase, busy);
    HandOutKeepsLost(max, s', n);
    PutSets(s, r, phase);
    SameSets(Put(s, r, phase), s');
    assert r !in Lost(s);
  }

  lemma WithdrawingLosesNothing(max: nat, s: State, r: nat, n: nat)
    requires Core(max, s) && Is(s, r, Waiting)
    ensures var s' := Refuse(s, r, false).(queue := Without(s.queue, r));
            Core(max, s') && Lost(HandOut(s', n)) == Lost(s)
  {
    var s' := Refuse(s, r, false).(queue := Without(s.queue, r));
    WithdrawKeepsCore(max, s, r);
    HandOutKeepsLost(max, s', n);
    PutSets(s, r, Done(Busy(false), true));
    SameSets(Put(s, r, Done(Busy(false), true)), s');
    assert r !in Lost(s);
  }

  lemma WaiterLosesNothing(py: Python, max: nat, s: State, r: nat)
    requires Inv(max, s) && Enabled(py, s, TimeOut(r)) && Is(s, r, Waiting)
    ensures Lost(TimeOutStep(py, s, r)) == Lost(s)
  {
    WithdrawingLosesNothing(max, s, r, if py.Eleven? then 0 else |Without(s.queue, r)|);
  }

  lemma GrantedLosesNothing(py: Python, max: nat, s: State, r: nat)
    requires Inv(max, s) && Enabled(py, s, TimeOut(r)) && Is(s, r, Granted)
    ensures Lost(TimeOutStep(py, s, r)) == Lost(s)
  {
    GivingBackLosesNothing(max, s, r, Done(Busy(false), true), s.busy + 1, Turns(py, Refuse(s, r, false)));
  }

  lemma TimeOutLoses(py: Python, max: nat, s: State, r: nat)
    requires Inv(max, s) && Enabled(py, s, TimeOut(r))
    ensures Lost(TimeOutStep(py, s, r)) == Lost(s) + (if Is(s, r, Acquired) then {r} else {})
  {
    if s.requests[r] == Waiting {
      WaiterLosesNothing(py, max, s, r);
    } else if s.requests[r] == Granted {
      GrantedLosesNothing(py, max, s, r);
    } else {
      PutSets(s, r, Done(Busy(true), true));
      SameSets(Put(s, r, Done(Busy(true), true)), Refuse(s, r, true));
    }
  }

  lemma LeaveLosesNothing(py: Python, max: nat, s: State, r: nat, raised: bool)
    requires Inv(max, s) && Enabled(py, s, Leave(r, raised))
    ensures Lost(Apply(py, s, Leave(r, raised))) == Lost(s)
  {
    var outcome := if raised then Raised else Returned;
    if s.requests[r] == Passing {
      PutSets(s, r, Done(outcome, false));
    } else {
      GivingBackLosesNothing(max, s, r, Done(outcome, true), s.busy, 1);
    }
  }

  lemma MovingLosesNothing(py: Python, max: nat, s: State, ev: Event)
    requires Inv(max, s) && Enabled(py, s, ev) && (ev.Arrive? || ev.Wake? || ev.Resume?)
    ensures Lost(Apply(py, s, ev)) == Lost(s)
  {
    match ev
    case Arrive(http) =>
      AddSets(s, Apply(py, s, ev), if !http then Passing else if Locked(s) then Waiting else Acquired);
    case Wake(r) => WakingLosesNothing(py, max, s, r);
    case Resume(r) => PutSets(s, r, Inside);
  }

  lemma WakingLosesNothing(py: Python, max: nat, s: State, r: nat)
    requires Inv(max, s) && Is(s, r, Granted)
    ensures Lost(Apply(py, s, Wake(r))) == Lost(s)
  {
    PutSets(s, r, Acquired);
    HoldingOnKeepsCore(max, s, r, Acquired);
    HandOutKeepsLost(max, Put(s, r, Acquired), Turns(py, s));
  }

  lemma StepLoses(py: Python, max: nat, s: State, ev: Event)
    requires Inv(max, s) && Enabled(py, s, ev)
    ensures Lost(Apply(py, s, ev)) == Lost(s) + (if ev.TimeOut? && Is(s, ev.r, Acquired) then {ev.r} else {})
  {
    if ev.TimeOut? { TimeOutLoses(py, max, s, ev.r); }
    else if ev.Leave? { LeaveLosesNothing(py, max, s, ev.r, ev.raised); }
    else { MovingLosesNothing(py, max, s, ev); }
  }

  lemma LateTimeOutSnoc(py: Python, max: nat, evs: seq<Event>, r: nat)
    requires evs != []
    ensures var past := evs[..|evs| - 1];
            (exists i: nat :: LateTimeOut(py, max, evs, i, r)) <==>
            (exists i: nat :: LateTimeOut(py, max, past, i, r)) || LateTimeOut(py, max, evs, |evs| - 1, r)
  {
    var n := |evs| - 1;
    forall i: nat | i < n
      ensures LateTimeOut(py, max, evs, i, r) <==> LateTimeOut(py, max, evs[..n], i, r)
    {
      assert evs[..n][..i] == evs[..i];
    }
  }

  /** In every run of either Python the requests whose permit is lost are exactly those whose
      deadline fired after their acquire task had ended. */
  lemma {:induction false} LostExactlyByLateTimeOut(py: Python, max: nat, evs: seq<Event>, s: State, r: nat)
    requires Reaches(py, max, evs, s)
    ensures r in Lost(s) <==> exists i: nat :: LateTimeOut(py, max, evs, i, r)
  {
    if evs != [] {
      var n := |evs| - 1;
      var before := Exec(py, max, evs[..n]).value;
      LostExactlyByLateTimeOut(py, max, evs[..n], before, r);
      RunKeepsInv(py, max, evs[..n], before);
      StepLoses(py, max, before, evs[n]);
      LateTimeOutSnoc(py, max, evs, r);
    }
  }

  /** Up to Python 3.11 no permit is ever lost. */
  lemma NothingLostInEleven(max: nat, evs: seq<Event>, s: State)
    requires Reaches(Eleven, max, evs, s)
    ensures Lost(s) == {} && s.free + |Holders(s)| == max
  {
    forall r: nat | r in Lost(s) ensures false { NoLateTimeOut(max, evs, s, r); }
    RunKeepsInv(Eleven, max, evs, s);
  }

  lemma NoLateTimeOut(max: nat, evs: seq<Event>, s: State, r: nat)
    requires Reaches(Eleven, max, evs, s)
    ensures r !in Lost(s)
  {
    LostExactlyByLateTimeOut(Eleven, max, evs, s, r);
    forall i: nat ensures !LateTimeOut(Eleven, max, evs, i, r) {
      if i < |evs| {
        assert evs[..i + 1][..i] == evs[..i];
        LegalPrefix(Eleven, max, evs, i + 1);
      }
    }
  }

  lemma {:induction false} LegalPrefix(py: Python, max: nat, evs: seq<Event>, i: nat)
    requires Exec(py, max, evs).Some? && i <= |evs|
    ensures Exec(py, max, evs[..i]).Some?
  {
    if i < |evs| {
      var n := |evs| - 1;
      LegalPrefix(py, max, evs[..n], i);
      assert evs[..n][..i] == evs[..i];
    } else {
      assert evs[..i] == evs;
    }
  }

  lemma DeadStep(py: Python, max: nat, s: State, ev: Event, r: nat)
    requires Inv(max, s) && Enabled(py, s, ev) && |Lost(s)| == max
    ensures Lost(Apply(py, s, ev)) == Lost(s) && (Admitted(Apply(py, s, ev), r) ==> Admitted(s, r))
  {
    StepLoses(py, max, s, ev);
    NobodyHolds(s);
    match ev
    case TimeOut(q) =>
      var s' := Refuse(s, q, false).(queue := Without(s.queue, q));
      WithoutStaysBelow(s.queue, q, |s.requests|);
      assert HandOut(s', |s'.queue|) == s';
    case _ =>
  }

  lemma NobodyHolds(s: State)
    requires Holders(s) == {}
    ensures forall q: nat :: !Is(s, q, Granted) && !Is(s, q, Acquired) && !Is(s, q, Inside)
  {
    forall q: nat ensures !Is(s, q, Granted) && !Is(s, q, Acquired) && !Is(s, q, Inside) {
      assert q !in Holders(s);
    }
  }

  /** Once all permits are lost, no request that has none ever gets one: everybody who waits
      and everybody who comes is answered 503. */
  lemma {:induction false} AllLostIsForever(py: Python, max: nat, evs: seq<Event>, more: seq<Event>,
                                            s: State, s': State, r: nat)
    requires Reaches(py, max, evs, s) && Reaches(py, max, evs + more, s') && |Lost(s)| == max
    ensures Lost(s') == Lost(s) && s'.free == 0 && (Admitted(s', r) ==> Admitted(s, r))
  {
    RunKeepsInv(py, max, evs, s);
    if more == [] {
      assert evs + more == evs;
    } else {
      var n := |more| - 1;
      assert (evs + more)[..|evs| + n] == evs + more[..n];
      var before := Exec(py, max, evs + more[..n]).value;
      AllLostIsForever(py, max, evs, more[..n], s, before, r);
      RunKeepsInv(py, max, evs + more[..n], before);
      DeadStep(py, max, before, more[n], r);
      RunKeepsInv(py, max, evs + more, s');
    }
  }

  function Fill(n: nat, phase: Phase): seq<Phase> { seq(n, _ => phase) }

  lemma ExecSnoc(py: Python, max: nat, evs: seq<Event>, ev: Event)
    requires Exec(py, max, evs).Some? && Enabled(py, Exec(py, max, evs).value, ev)
    ensures Exec(py, max, evs + [ev]) == Some(Apply(py, Exec(py, max, evs).value, ev))
  {
    assert (evs + [ev])[..|evs|] == evs;
  }

  lemma {:induction false} FreeForAll(py: Python, max: nat, n: nat) returns (evs: seq<Event>)
    requires n <= max
    ensures Reaches(py, max, evs, State(max - n, [], Fill(n, Acquired), 0))
  {
    if n == 0 {
      evs := [];
      assert Fill(0, Acquired) == [];
    } else {
      evs := FreeForAll(py, max, n - 1);
      ExecSnoc(py, max, evs, Arrive(true));
      OneMore(max, n - 1);
      evs := evs + [Arrive(true)];
    }
  }

  lemma OneMore(max: nat, n: nat)
    requires n < max
    ensures Acquire(State(max - n, [], Fill(n, Acquired), 0)) == State(max - (n + 1), [], Fill(n + 1, Acquired), 0)
  {
    assert Fill(n, Acquired) + [Acquired] == Fill(n + 1, Acquired);
  }

  function Half(max: nat, n: nat): State
    requires n <= max
  {
    State(0, [], Fill(n, Done(Busy(true), true)) + Fill(max - n, Acquired), n)
  }

  lemma {:induction false} LoseSome(max: nat, n: nat) returns (evs: seq<Event>)
    requires n <= max
    ensures Reaches(Later, max, evs, Half(max, n))
  {
    if n == 0 {
      evs := FreeForAll(Later, max, max);
      assert Fill(max, Acquired) == Half(max, 0).requests;
    } else {
      evs := LoseSome(max, n - 1);
      ExecSnoc(Later, max, evs, TimeOut(n - 1));
      assert Half(max, n - 1).requests[n - 1 := Done(Busy(true), true)] == Half(max, n).requests;
      evs := evs + [TimeOut(n - 1)];
    }
  }

  /** It can happen to all permits, however many there are: `max` requests come, and the
      deadline of each fires in that turn, as it does if the event loop stalls meanwhile. */
  lemma CanLoseAll(max: nat) returns (evs: seq<Event>, s: State)
    ensures Reaches(Later, max, evs, s) && |Lost(s)| == max && |s.requests| == max
  {
    evs := LoseSome(max, max);
    s := Half(max, max);
    RunKeepsInv(Later, max, evs, s);
    assert Holders(s) == {};
  }

  // ------------------------------------------------------------------ the middleware

  /** The semaphore and one method for each stretch between two suspensions. */
  class Middleware {
    const py: Python
    const max: nat
    var free: nat
    var queue: seq<nat>
    var requests: seq<Phase>
    var busy: nat

    ghost function Snapshot(): State
      reads this
    {
      State(free, queue, requests, busy)
    }

    constructor (py: Python, max: nat)
      ensures this.py == py && this.max == max && Snapshot() == Start(max) && Inv(max, Snapshot())
    {
      this.py, this.max, free, queue, requests, busy := py, max, max, [], [], 0;
      new;
      assert Holders(Snapshot()) == {} && Refused(Snapshot()) == {} && Lost(Snapshot()) == {};
    }

    /** Up to n waiters get a free permit. */
    method WakeNext(n: nat)
      requires Sane(Snapshot())
      modifies this`free, this`queue, this`requests
      ensures Snapshot() == HandOut(old(Snapshot()), n)
    {
      var i := 0;
      while i < n && free > 0 && queue != []
        invariant 0 <= i <= n && busy == old(busy) && Sane(Snapshot())
        invariant HandOut(Snapshot(), n - i) == HandOut(old(Snapshot()), n)
      {
        free, requests, queue := free - 1, requests[queue[0] := Granted], queue[1..];
        i := i + 1;
      }
    }

    /** The acquire task of a waiter is cancelled and leaves the queue. */
    method Withdraw(r: nat)
      requires Inv(max, Snapshot()) && Is(Snapshot(), r, Waiting)
      modifies this
      ensures Snapshot() == TimeOutStep(py, old(Snapshot()), r)
    {
      WithdrawKeepsCore(max, Snapshot(), r);
      requests, busy, queue := requests[r := Done(Busy(false), true)], busy + 1, Without(queue, r);
      if py.Later? { WakeNext(|queue|); }
    }

    /** A holder's permit becomes free, and up to n waiters are woken. */
    method GiveBack(r: nat, phase: Phase, total: nat, n: nat)
      requires Core(max, Snapshot()) && r in Holders(Snapshot()) && !Holds(phase)
      requires phase != Done(Busy(true), true) && phase != Waiting
      requires total == busy + (if IsRefused(phase) then 1 else 0)
      modifies this
      ensures Sane(old(Put(Snapshot(), r, phase).(free := free + 1, busy := total)))
      ensures Snapshot() == HandOut(old(Put(Snapshot(), r, phase).(free := free + 1, busy := total)), n)
    {
      GiveBackKeepsCore(max, Snapshot(), r, phase, total);
      requests, busy, free := requests[r := phase], total, free + 1;
      WakeNext(n);
    }

    method Begin(http: bool) returns (r: nat)
      requires Inv(max, Snapshot())
      modifies this`free, this`queue, this`requests
      ensures r == |old(requests)| && Snapshot() == Apply(py, old(Snapshot()), Arrive(http)) && Inv(max, Snapshot())
    {
      StepKeepsInv(py, max, Snapshot(), Arrive(http));
      r := |requests|;
      if !http {
        requests := requests + [Passing];
      } else if free == 0 || queue != [] || exists i | 0 <= i < |requests| :: requests[i] == Granted {
        queue, requests := queue + [r], requests + [Waiting];
      } else {
        free, requests := free - 1, requests + [Acquired];
      }
    }

    /** The acquire task of a granted waiter ends, and passes on what it may. */
    method EndAcquire(r: nat)
      requires Inv(max, Snapshot()) && Enabled(py, Snapshot(), Wake(r))
      modifies this`free, this`queue, this`requests
      ensures Snapshot() == Apply(py, old(Snapshot()), Wake(r)) && Inv(max, Snapshot())
    {
      StepKeepsInv(py, max, Snapshot(), Wake(r));
      HoldingOnKeepsCore(max, Snapshot(), r, Acquired);
      requests := requests[r := Acquired];
      WakeNext(if py.Eleven? then 1 else |queue|);
    }

    method Proceed(r: nat)
      requires Inv(max, Snapshot()) && Enabled(py, Snapshot(), Resume(r))
      modifies this`requests
      ensures Snapshot() == Apply(py, old(Snapshot()), Resume(r)) && Inv(max, Snapshot())
    {
      StepKeepsInv(py, max, Snapshot(), Resume(r));
      requests := requests[r := Inside];
    }

    method GiveUp(r: nat)
      requires Inv(max, Snapshot()) && Enabled(py, Snapshot(), TimeOut(r))
      modifies this
      ensures Snapshot() == Apply(py, old(Snapshot()), TimeOut(r)) && Inv(max, Snapshot())
    {
      StepKeepsInv(py, max, Snapshot(), TimeOut(r));
      if requests[r] == Waiting {
        Withdraw(r);
      } else if requests[r] == Granted {
        GiveBack(r, Done(Busy(false), true), busy + 1, if py.Eleven? then 1 else |queue|);
      } else {
        requests, busy := requests[r := Done(Busy(true), true)], busy + 1;
      }
    }

    method Finish(r: nat, raised: bool)
      requires Inv(max, Snapshot()) && Enabled(py, Snapshot(), Leave(r, raised))
      modifies this
      ensures Snapshot() == Apply(py, old(Snapshot()), Leave(r, raised)) && Inv(max, Snapshot())
    {
      StepKeepsInv(py, max, Snapshot(), Leave(r, raised));
      var outcome := if raised then Raised else Returned;
      if requests[r] == Passing {
        requests := requests[r := Done(outcome, false)];
      } else {
        GiveBack(r, Done(outcome, true), busy, 1);
      }
    }
  }
}
