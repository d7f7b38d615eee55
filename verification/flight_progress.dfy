/** Nobody waits forever without cause: what can still move, and how many steps a run
    of single-flight reads can take. */
module FlightProgress {
  import opened Options
  import opened SingleFlight
  import opened FlightSafety

  /** A step that brings some caller closer to its outcome on its own account. */
  predicate Advances(ev: Event) { !ev.Tick? && !ev.Arrive? && !ev.Cancel? }

  /** A joiner of an unsettled flight whose owner has left. */
  predicate Stranded(s: State, c: nat) {
    At(s, c) && PhaseOf(s, c).Joined? && PhaseOf(s, c).joined < |s.flights| &&
    s.flights[PhaseOf(s, c).joined].future.Pending? &&
    !Running(s, s.flights[PhaseOf(s, c).joined].owner)
  }

  predicate Unfinished(s: State, c: nat) { At(s, c) && !PhaseOf(s, c).Done? }

  /** The step an owner or a reader can take next when the lock is free. */
  function NextStep(s: State, c: nat): Event
    requires At(s, c)
  {
    match PhaseOf(s, c)
    case Arrived => FirstRead(c)
    case Queued => Acquire(c)
    case Locked => Reread(c)
    case Missed => Decide(c)
    case Joined(_) => Await(c)
    case Building(_) => BuildOk(c, Dict("{}"))
    case Auditing(_, _) => Audited(c)
    case Storing(_, _) => Store(c)
    case Stored(_, _) => Resolve(c)
    case Releasing(_, _) => Release(c)
    case Done(_, _) => Tick(0)
  }

  /** Whoever holds the lock, runs a flight or still reads can always take a step. */
  lemma CanMove(d: Dialect, s: State, c: nat) returns (ev: Event)
    requires Inv(d, s) && Unfinished(s, c) && !Stranded(s, c)
    ensures Advances(ev) && Enabled(d, s, ev)
  {
    assert CallerOk(s, c);
    if s.lock.Some? {
      var h := s.lock.value;
      assert CallerOk(s, h);
      ev := NextStep(s, h);
    } else if PhaseOf(s, c).Joined? && s.flights[PhaseOf(s, c).joined].future.Pending? {
      var owner := s.flights[PhaseOf(s, c).joined].owner;
      assert CallerOk(s, owner);
      ev := NextStep(s, owner);
    } else {
      ev := NextStep(s, c);
    }
  }

  lemma StrandedCannotMove(d: Dialect, s: State, ev: Event, c: nat)
    requires Inv(d, s) && Advances(ev) && Enabled(d, s, ev) && Stranded(s, c)
    ensures ev.c != c
  {
  }

  /** Exactly when the machine can advance: while some unfinished caller is not stranded. */
  lemma AdvanceIff(d: Dialect, evs: seq<Event>)
    requires Legal(d, evs)
    ensures var s := Exec(d, evs).value;
            (exists ev: Event :: Advances(ev) && Enabled(d, s, ev)) <==>
            (exists c: nat :: Unfinished(s, c) && !Stranded(s, c))
  {
    var s := Exec(d, evs).value;
    RunKeepsInv(d, evs);
    if c: nat :| Unfinished(s, c) && !Stranded(s, c) {
      var ev := CanMove(d, s, c);
      assert Advances(ev) && Enabled(d, s, ev);
    }
    if ev: Event :| Advances(ev) && Enabled(d, s, ev) {
      if Stranded(s, ev.c) { StrandedCannotMove(d, s, ev, ev.c); }
      assert Unfinished(s, ev.c) && !Stranded(s, ev.c);
    }
  }

  // ------------------------------------------------------------------ bounded work

  /** More steps than a caller in this phase can still take. */
  function Rank(phase: Phase): nat {
    match phase
    case Arrived => 8
    case Queued => 7
    case Locked => 6
    case Missed => 5
    case Building(_) => 4
    case Storing(_, _) => 3
    case Stored(_, _) => 2
    case Joined(_) => 1
    case Auditing(_, _) => 1
    case Releasing(_, _) => 1
    case Done(_, _) => 0
  }

  function Work(callers: seq<Caller>): nat {
    if callers == [] then 0 else Rank(callers[0].phase) + Work(callers[1..])
  }

  lemma {:induction false} WorkOfUpdate(callers: seq<Caller>, c: nat, caller: Caller)
    requires c < |callers|
    ensures Work(callers[c := caller]) == Work(callers) - Rank(callers[c].phase) + Rank(caller.phase)
  {
    if c == 0 {
      assert callers[0 := caller][1..] == callers[1..];
    } else {
      assert callers[c := caller][1..] == callers[1..][c - 1 := caller];
      WorkOfUpdate(callers[1..], c - 1, caller);
    }
  }

  lemma {:induction false} WorkOfArrival(callers: seq<Caller>, caller: Caller)
    ensures Work(callers + [caller]) == Work(callers) + Rank(caller.phase)
  {
    if callers == [] {
      assert callers + [caller] == [caller];
    } else {
      assert (callers + [caller])[1..] == callers[1..] + [caller];
      WorkOfArrival(callers[1..], caller);
    }
  }

  lemma ReaderRankFalls(d: Dialect, s: State, ev: Event)
    requires Enabled(d, s, ev) && Reads(ev) && !ev.Cancel? && |Apply(d, s, ev).callers| == |s.callers|
    ensures Rank(Apply(d, s, ev).callers[ev.c].phase) < Rank(s.callers[ev.c].phase)
  {
  }

  lemma CancelRankFalls(d: Dialect, s: State, c: nat)
    requires Enabled(d, s, Cancel(c)) && |CancelStep(d, s, c).callers| == |s.callers|
    ensures Rank(CancelStep(d, s, c).callers[c].phase) < Rank(s.callers[c].phase)
  {
  }

  lemma OwnerRankFalls(d: Dialect, s: State, ev: Event)
    requires Enabled(d, s, ev) && !Reads(ev) && !ev.Tick? && !ev.Arrive? && |Apply(d, s, ev).callers| == |s.callers|
    ensures Rank(Apply(d, s, ev).callers[ev.c].phase) < Rank(s.callers[ev.c].phase)
  {
  }

  lemma StepSpendsWork(d: Dialect, s: State, ev: Event)
    requires Enabled(d, s, ev) && !ev.Tick? && !ev.Arrive?
    ensures Work(Apply(d, s, ev).callers) < Work(s.callers)
  {
    MovesAlone(d, s, ev);
    if ev.Cancel? {
      CancelRankFalls(d, s, ev.c);
    } else if Reads(ev) {
      ReaderRankFalls(d, s, ev);
    } else {
      OwnerRankFalls(d, s, ev);
    }
    var callers := Apply(d, s, ev).callers;
    assert callers == s.callers[ev.c := callers[ev.c]];
    WorkOfUpdate(s.callers, ev.c, callers[ev.c]);
  }

  function Arrivals(evs: seq<Event>): nat {
    if evs == [] then 0 else Arrivals(evs[..|evs| - 1]) + (if evs[|evs| - 1].Arrive? then 1 else 0)
  }

  function Steps(evs: seq<Event>): nat {
    if evs == [] then 0
    else Steps(evs[..|evs| - 1]) + (if evs[|evs| - 1].Tick? || evs[|evs| - 1].Arrive? then 0 else 1)
  }

  /** A run of n callers takes at most 8n steps, however they interleave. */
  lemma {:induction false} BoundedWork(d: Dialect, evs: seq<Event>)
    requires Legal(d, evs)
    ensures Steps(evs) + Work(Exec(d, evs).value.callers) <= 8 * Arrivals(evs)
  {
    if evs != [] {
      var n := |evs| - 1;
      var s, ev := Exec(d, evs[..n]).value, evs[n];
      BoundedWork(d, evs[..n]);
      if ev.Arrive? {
        WorkOfArrival(s.callers, Caller(ev.key, ev.ttl, Arrived));
      } else if !ev.Tick? {
        StepSpendsWork(d, s, ev);
      }
    }
  }

  /** Every way to fail is open to caller c where the code can fail: both cache reads can raise,
      a build can fail in each of its ways, and so can storing what it gave. */
  predicate CanFail(d: Dialect, s: State, c: nat, error: Failure, cause: string)
    requires At(s, c)
  {
    match PhaseOf(s, c)
    case Arrived => Enabled(d, s, ReadFail(c, error)) && Enabled(d, s, Cancel(c))
    case Locked => Enabled(d, s, ReadFail(c, error)) && Enabled(d, s, Cancel(c))
    case Building(_) =>
      Enabled(d, s, BuildFail(c, error)) && Enabled(d, s, Cancel(c)) &&
      (d.Resolver? ==> Enabled(d, s, Strand(c, error)) && Enabled(d, s, DecodeFail(c, error))) &&
      (d.Resolver? && error.Error? ==> Enabled(d, s, TransportFail(c, error)))
    case Auditing(_, _) => Enabled(d, s, Audited(c)) && Enabled(d, s, AuditFail(c, cause))
    case Storing(_, _) => Enabled(d, s, StoreFail(c, error)) && Enabled(d, s, Cancel(c))
    case Stored(_, _) => Enabled(d, s, StoreFail(c, error)) && Enabled(d, s, Cancel(c))
    case Missed => !Enabled(d, s, Cancel(c))
    case Done(_, _) => !Enabled(d, s, Cancel(c))
    case _ => Enabled(d, s, Cancel(c))
  }

  lemma OkCanFail(d: Dialect, s: State, c: nat, error: Failure, cause: string)
    requires At(s, c) && CallerOk(s, c)
    ensures CanFail(d, s, c, error, cause)
  {
    if Running(s, c) { OkOwnerCanFail(d, s, c, error, cause); }
  }

  lemma OkOwnerCanFail(d: Dialect, s: State, c: nat, error: Failure, cause: string)
    requires Running(s, c) && CallerOk(s, c)
    ensures CanFail(d, s, c, error, cause)
  {
    assert Owns(s, c, Owner(PhaseOf(s, c)).value) && Flying(s, c);
  }

  /** In every reachable state time can pass, callers can come, and everybody can fail. */
  lemma AnythingCanFail(d: Dialect, evs: seq<Event>, c: nat, key: Key, ttl: nat, elapsed: nat, error: Failure,
                        cause: string)
    requires Legal(d, evs) && ttl >= 1
    ensures var s := Exec(d, evs).value;
            Enabled(d, s, Tick(elapsed)) && Enabled(d, s, Arrive(key, ttl)) &&
            (At(s, c) ==> CanFail(d, s, c, error, cause))
  {
    var s := Exec(d, evs).value;
    RunKeepsInv(d, evs);
    if At(s, c) { OkCanFail(d, s, c, error, cause); }
  }
}
