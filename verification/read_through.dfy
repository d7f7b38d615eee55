/** The two services as an object: the shared cache, the in-flight table, the lock and the
    futures are fields, each stretch of a coroutine between two awaits is a method, and the
    whole coroutines let other callers take any steps in between.

    `log` lists the steps taken so far, so that whatever holds of every run of the machine
    holds of the object. */
module ReadThrough {
  import opened Options
  import opened SingleFlight
  import opened FlightSafety

  /** Time passing, a new caller, or a step of a caller other than c. */
  predicate Foreign(ev: Event, c: nat) { ev.Tick? || ev.Arrive? || ev.c != c }

  lemma ForeignKeepsCaller(d: Dialect, s: State, ev: Event, c: nat)
    requires Enabled(d, s, ev) && Foreign(ev, c) && At(s, c)
    ensures At(Apply(d, s, ev), c) && Apply(d, s, ev).callers[c] == s.callers[c]
  {
    if !ev.Tick? && !ev.Arrive? { MovesAlone(d, s, ev); }
  }

  /** A flight as the steps of others leave it: they touch no more than its future, which a
      cancelled joiner withdraws. */
  predicate Kept(a: Flight, b: Flight) { b == a || (a.future.Pending? && b == a.(future := Withdrawn)) }

  predicate OwnKept(a: seq<Flight>, b: seq<Flight>, c: nat) {
    |a| <= |b| && forall f: nat | f < |a| && a[f].owner == c :: Kept(a[f], b[f])
  }

  lemma OwnKeptTwice(a: seq<Flight>, b: seq<Flight>, e: seq<Flight>, c: nat)
    requires OwnKept(a, b, c) && OwnKept(b, e, c)
    ensures OwnKept(a, e, c)
  {
    forall f: nat | f < |a| && a[f].owner == c ensures Kept(a[f], e[f]) {
      assert Kept(a[f], b[f]) && Kept(b[f], e[f]);
    }
  }

  lemma CancelKeepsFlights(d: Dialect, s: State, ev: Event, c: nat)
    requires Inv(d, s) && Enabled(d, s, ev) && ev.Cancel? && ev.c != c
    ensures OwnKept(s.flights, Apply(d, s, ev).flights, c)
  {
    assert CallerOk(s, ev.c);
  }

  lemma ForeignKeepsFlights(d: Dialect, evs: seq<Event>, ev: Event, c: nat)
    requires Legal(d, evs) && Enabled(d, Exec(d, evs).value, ev) && Foreign(ev, c) && At(Exec(d, evs).value, c)
    ensures OwnKept(Exec(d, evs).value.flights, Apply(d, Exec(d, evs).value, ev).flights, c)
  {
    var s := Exec(d, evs).value;
    RunKeepsInv(d, evs);
    if ev.Cancel? { CancelKeepsFlights(d, s, ev, c); } else { BystanderFrame(d, s, ev, c); }
  }

  lemma OnlyCancelWithdraws(d: Dialect, s: State, ev: Event, f: nat)
    requires Enabled(d, s, ev) && !ev.Cancel?
    requires f < |Apply(d, s, ev).flights| && Apply(d, s, ev).flights[f].future.Withdrawn?
    ensures f < |s.flights| && s.flights[f].future.Withdrawn?
  {
  }

  lemma LastWithdraws(d: Dialect, evs: seq<Event>, f: nat)
    requires Legal(d, evs) && evs != [] && !evs[|evs| - 1].Cancel?
    requires f < |Exec(d, evs).value.flights| && Exec(d, evs).value.flights[f].future.Withdrawn?
    ensures var past := evs[..|evs| - 1];
            Legal(d, past) && f < |Exec(d, past).value.flights| && Exec(d, past).value.flights[f].future.Withdrawn?
  {
    OnlyCancelWithdraws(d, Exec(d, evs[..|evs| - 1]).value, evs[|evs| - 1], f);
  }

  /** The future of a flight begun in `more` is withdrawn only if somebody is cancelled there. */
  lemma {:induction false} WithdrawnByCancel(d: Dialect, before: seq<Event>, more: seq<Event>, f: nat)
    requires Legal(d, before) && Legal(d, before + more)
    requires |Exec(d, before).value.flights| <= f < |Exec(d, before + more).value.flights|
    requires Exec(d, before + more).value.flights[f].future.Withdrawn?
    ensures !Uncancelled(more)
  {
    var evs := before + more;
    assert more == [] ==> evs == before;
    if more != [] && !evs[|evs| - 1].Cancel? {
      var rest := more[..|more| - 1];
      assert evs[..|evs| - 1] == before + rest && evs[|evs| - 1] == more[|more| - 1];
      LastWithdraws(d, evs, f);
      WithdrawnByCancel(d, before, rest, f);
      var ev :| ev in rest && ev.Cancel?;
      assert ev in more;
    }
    assert more != [] ==> evs[|evs| - 1] in more;
  }

  /** A running owner can always take its next step: its flight exists. */
  lemma OwnerFlies(d: Dialect, evs: seq<Event>, c: nat)
    requires Legal(d, evs) && Running(Exec(d, evs).value, c)
    ensures Flying(Exec(d, evs).value, c)
  {
    RunKeepsInv(d, evs);
    assert CallerOk(Exec(d, evs).value, c);
  }

  lemma JoinedExists(d: Dialect, evs: seq<Event>, c: nat)
    requires Legal(d, evs) && At(Exec(d, evs).value, c) && PhaseOf(Exec(d, evs).value, c).Joined?
    ensures PhaseOf(Exec(d, evs).value, c).joined < |Exec(d, evs).value.flights|
  {
    RunKeepsInv(d, evs);
    assert CallerOk(Exec(d, evs).value, c);
  }

  /** v was built for key k by an owner of k, in a flight c joined, ran, or read back from
      the cache before its entry expired. */
  ghost predicate Traced(s: State, log: seq<Event>, c: nat, k: Key, v: Json) {
    At(s, c) &&
    exists f: nat, i: nat :: ServedBy(s, c, f) && s.flights[f].key == k && BuiltIn(log, i, s.flights[f].owner, v)
  }

  function Later(s: State, elapsed: nat): State { s.(clock := s.clock + elapsed) }

  /** Where a coroutine that has not finished can be: waiting for the lock, or for the
      future of somebody else's flight. */
  predicate Suspended(s: State, c: nat) {
    At(s, c) &&
    match PhaseOf(s, c)
    case Queued => s.lock.Some?
    case Releasing(_, _) => s.lock.Some?
    case Joined(f) => f < |s.flights| && s.flights[f].future.Pending?
    case _ => false
  }

  lemma FinishedIsBacked(d: Dialect, evs: seq<Event>, c: nat)
    requires Legal(d, evs) && At(Exec(d, evs).value, c) && PhaseOf(Exec(d, evs).value, c).Done?
    ensures var s := Exec(d, evs).value;
            var out := PhaseOf(s, c).outcome;
            Backed(s, c, out, PhaseOf(s, c).source) &&
            (out.Returned? ==> Traced(s, evs, c, s.callers[c].key, out.value))
  {
    RunKeepsInv(d, evs);
    assert CallerOk(Exec(d, evs).value, c);
    if PhaseOf(Exec(d, evs).value, c).outcome.Returned? { ReturnedWasBuilt(d, evs, c); }
  }

  /** What the builder, or the resolver's upstream, comes up with. */
  datatype Reply =
    | Built(value: Json)
    | Failed(error: Failure)                         // the builder raised; a status of 400 or more
    | Unreachable(text: string, audit: Option<string>)   // a transport failure, and what logging it raised
    | Unsent(error: Failure)                         // signing failed, or logging the completed request
    | Garbled(error: Failure)                        // no JSON in a successful response

  /** What the caller that asked upstream gets, the cache left aside. */
  function Upstream(reply: Reply): Outcome {
    match reply
    case Built(v) => Returned(v)
    case Failed(e) => Raised(e)
    case Unreachable(text, audit) => Raised(if audit.Some? then Unaudited(audit.value) else Error(text))
    case Unsent(e) => Raised(e)
    case Garbled(e) => Raised(e)
  }

  /** What the caller that asked ends with. In Loki a joiner that was cancelled before the
      future was settled costs the owner its answer. */
  function OutcomeAfter(d: Dialect, reply: Reply, stored: Option<Failure>, withdrawn: bool): Outcome {
    if d.Loki? && withdrawn then Raised(InvalidState)
    else if reply.Built? && stored.Some? then Raised(stored.value)
    else Upstream(reply)
  }

  /** What everybody who joined gets, unless the future was withdrawn. */
  function FutureAfter(d: Dialect, reply: Reply, stored: Option<Failure>): Future {
    match reply
    case Built(v) => if stored.None? then Resolved(v) else if d.Loki? then Rejected(stored.value) else Pending
    case Failed(e) => Rejected(e)
    case Unreachable(text, _) => Rejected(Error(text))
    case Unsent(_) => Pending
    case Garbled(e) => Rejected(e)
  }

  /** The flight of an owner that has got `reply` and ends with `out`. */
  predicate Settled(d: Dialect, fl: Flight, reply: Reply, stored: Option<Failure>, out: Outcome) {
    (fl.future == FutureAfter(d, reply, stored) || fl.future.Withdrawn?) &&
    fl.produced == (if reply.Built? then Some(reply.value) else None) &&
    (fl.storedAt.Some? <==> reply.Built? && stored.None?) &&
    out == OutcomeAfter(d, reply, stored, fl.future.Withdrawn?)
  }

  predicate LokiReply(reply: Reply) { (reply.Built? && reply.value.Dict?) || reply.Failed? }

  lemma SettledStays(d: Dialect, a: Flight, b: Flight, reply: Reply, stored: Option<Failure>, out: Outcome)
    requires Settled(d, a, reply, stored, out) && Kept(a, b) && (d.Loki? ==> LokiReply(reply))
    ensures Settled(d, b, reply, stored, out)
  {
  }

  /** c ran a flight of its own. */
  predicate Ran(phase: Phase) {
    Owner(phase).Some? || (phase.Done? && (phase.source.Owned? || phase.source.Stopped?))
  }

  function OwnFlight(phase: Phase): nat
    requires Ran(phase)
  {
    if phase.Done? then (if phase.source.Owned? then phase.source.own else phase.source.left) else Owner(phase).value
  }

  // ------------------------------------------------------------------ which requests are cacheable

  const JOBS := "/api/v1/jobs"
  const REPORTS := "/api/v1/reports"

  predicate VolatileRead(path: string) { JOBS <= path || REPORTS <= path }

  /** _resolve_cache_ttl, the method being upper-cased; `configured` is the service's own ttl. */
  function ResolveCacheTtl(verb: string, path: string, requested: Option<int>, configured: nat): nat {
    var chosen := if requested.None? then configured else if requested.value < 0 then 0 else requested.value;
    if verb == "GET" && VolatileRead(path) then 0 else chosen
  }

  /** GETs outside jobs and reports, with a positive ttl. */
  predicate Cacheable(verb: string, path: string, requested: Option<int>, configured: nat) {
    verb == "GET" && !("/api/v1/jobs" <= path) && !("/api/v1/reports" <= path) &&
    (if requested.Some? then requested.value > 0 else configured > 0)
  }

  class Service {
    const dialect: Dialect
    var clock: int
    var lock: Option<nat>
    var cache: map<Key, Entry>
    var inflight: map<Key, nat>
    var flights: seq<Flight>
    var callers: seq<Caller>
    ghost var log: seq<Event>

    function Snapshot(): State
      reads this
    {
      State(clock, lock, cache, inflight, flights, callers)
    }

    /** The object is where the steps taken lead. */
    ghost predicate Valid()
      reads this
    {
      Exec(dialect, log) == Some(Snapshot())
    }

    /** The flight c has run is settled by `reply`, and c ends with `out`. */
    ghost predicate FlightSettled(c: nat, reply: Reply, stored: Option<Failure>, out: Outcome)
      reads this
    {
      c < |callers| && Ran(callers[c].phase) && OwnFlight(callers[c].phase) < |flights| &&
      var fl := flights[OwnFlight(callers[c].phase)];
      fl.owner == c && fl.key == callers[c].key && Settled(dialect, fl, reply, stored, out)
    }

    /** Caller c waits, or has ended with `outcome`: settled by `reply` if it asked, or else
        backed by a live cache entry or by the flight it joined. */
    ghost predicate Served(c: nat, key: Key, ttl: nat, reply: Reply, stored: Option<Failure>, asked: bool,
                           outcome: Option<Outcome>)
      reads this
    {
      c < |callers| && callers[c].key == key && callers[c].ttl == ttl && (asked <==> Ran(callers[c].phase)) &&
      match outcome
      case None => Suspended(Snapshot(), c)
      case Some(out) =>
        callers[c].phase.Done? && callers[c].phase.outcome == out &&
        Backed(Snapshot(), c, out, callers[c].phase.source) &&
        (out.Returned? ==> Traced(Snapshot(), log, c, key, out.value)) &&
        if asked then FlightSettled(c, reply, stored, out)
        else callers[c].phase.source.Cached? || callers[c].phase.source.Shared?
    }

    constructor (dialect: Dialect)
      ensures Valid() && log == [] && this.dialect == dialect
    {
      this.dialect := dialect;
      clock, lock, cache, inflight, flights, callers := 0, None, map[], map[], [], [];
      log := [];
    }

    method SetPhase(c: nat, phase: Phase)
      requires c < |callers|
      modifies this`callers
      ensures Snapshot() == Move(old(Snapshot()), c, phase)
    {
      callers := callers[c := callers[c].(phase := phase)];
    }

    /** TTLCache.get */
    method GetCached(key: Key) returns (hit: Option<Entry>)
      modifies this`cache
      ensures hit == Read(old(Snapshot()), key) && Snapshot() == DropExpired(old(Snapshot()), key)
      ensures forall k: Key :: Read(Snapshot(), k) == old(Read(Snapshot(), k))
    {
      forall k: Key ensures Read(DropExpired(Snapshot(), key), k) == Read(Snapshot(), k) {
        ReadingDisturbsNothing(Snapshot(), key, k);
      }
      hit := None;
      if key in cache {
        if clock > cache[key].expires {
          cache := cache - {key};
        } else if cache[key].value != Null {
          hit := Some(cache[key]);
        }
      }
    }

    method Reject(f: nat, error: Failure)
      requires f < |flights|
      modifies this`flights
      ensures Snapshot() == RejectPending(old(Snapshot()), f, error)
    {
      if flights[f].future.Pending? {
        flights := flights[f := flights[f].(future := Rejected(error))];
      }
    }

    // ---------------------------------------------------------------- the stretches

    method Begin(key: Key, ttl: nat) returns (c: nat)
      requires Valid() && ttl >= 1
      modifies this
      ensures Valid() && log == old(log) + [Arrive(key, ttl)] && c == |old(callers)|
      ensures Snapshot() == Apply(dialect, old(Snapshot()), Arrive(key, ttl))
    {
      ExecSnoc(dialect, log, Arrive(key, ttl));
      c := |callers|;
      callers := callers + [Caller(key, ttl, Arrived)];
      log := log + [Arrive(key, ttl)];
    }

    method ReadBeforeLock(c: nat)
      requires Valid() && Enabled(dialect, Snapshot(), FirstRead(c))
      modifies this
      ensures Valid() && log == old(log) + [FirstRead(c)]
      ensures Snapshot() == Apply(dialect, old(Snapshot()), FirstRead(c))
    {
      ExecSnoc(dialect, log, FirstRead(c));
      var hit := GetCached(callers[c].key);
      if hit.Some? {
        SetPhase(c, Done(Returned(View(dialect, hit.value.value)), Cached(hit.value.flight, clock)));
      } else {
        SetPhase(c, Queued);
      }
      log := log + [FirstRead(c)];
    }

    method TakeLock(c: nat)
      requires Valid() && Enabled(dialect, Snapshot(), Acquire(c))
      modifies this
      ensures Valid() && log == old(log) + [Acquire(c)]
      ensures Snapshot() == Apply(dialect, old(Snapshot()), Acquire(c))
    {
      ExecSnoc(dialect, log, Acquire(c));
      lock := Some(c);
      SetPhase(c, Locked);
      log := log + [Acquire(c)];
    }

    method ReadUnderLock(c: nat)
      requires Valid() && Enabled(dialect, Snapshot(), Reread(c))
      modifies this
      ensures Valid() && log == old(log) + [Reread(c)]
      ensures Snapshot() == Apply(dialect, old(Snapshot()), Reread(c))
    {
      ExecSnoc(dialect, log, Reread(c));
      var hit := GetCached(callers[c].key);
      if hit.Some? {
        SetPhase(c, Done(Returned(View(dialect, hit.value.value)), Cached(hit.value.flight, clock)));
        lock := None;
      } else {
        SetPhase(c, Missed);
      }
      log := log + [Reread(c)];
    }

    /** Join the registered flight, or register a new future and become the one caller that
        runs a flight for the key. */
    method JoinOrRegister(c: nat)
      requires Valid() && Enabled(dialect, Snapshot(), Decide(c))
      modifies this
      ensures Valid() && log == old(log) + [Decide(c)]
      ensures Snapshot() == Apply(dialect, old(Snapshot()), Decide(c))
      ensures var key := callers[c].key;
              (Running(Snapshot(), c) <==> key !in old(inflight)) &&
              (Running(Snapshot(), c) ==>
                 flights[inflight[key]].future.Pending? && inflight[key] !in old(inflight).Values &&
                 forall o: nat :: Running(Snapshot(), o) && callers[o].key == key ==> o == c) &&
              forall k: Key :: k != key ==> KeyFrame(old(Snapshot()), Snapshot(), k)
    {
      ExecSnoc(dialect, log, Decide(c));
      NewFlightIsNew(dialect, log, c);
      var key := callers[c].key;
      if key in inflight {
        SetPhase(c, Joined(inflight[key]));
      } else {
        var f := |flights|;
        flights := flights + [Flight(key, c, Pending, None, None)];
        inflight := inflight[key := f];
        SetPhase(c, Building(f));
      }
      lock := None;
      log := log + [Decide(c)];
    }

    method AwaitFlight(c: nat)
      requires Valid() && Enabled(dialect, Snapshot(), Await(c))
      modifies this
      ensures Valid() && log == old(log) + [Await(c)]
      ensures Snapshot() == Apply(dialect, old(Snapshot()), Await(c))
    {
      ExecSnoc(dialect, log, Await(c));
      var f := callers[c].phase.joined;
      SetPhase(c, Done(OutcomeOf(flights[f].future), Shared(f)));
      log := log + [Await(c)];
    }

    method FinishBuild(c: nat, value: Json)
      requires Valid() && Enabled(dialect, Snapshot(), BuildOk(c, value))
      modifies this
      ensures Valid() && log == old(log) + [BuildOk(c, value)]
      ensures Snapshot() == Apply(dialect, old(Snapshot()), BuildOk(c, value))
    {
      ExecSnoc(dialect, log, BuildOk(c, value));
      var f := callers[c].phase.own;
      flights := flights[f := flights[f].(produced := Some(value))];
      SetPhase(c, Storing(f, value));
      log := log + [BuildOk(c, value)];
    }

    /** Loki's builder raised, or the resolver's upstream answered with status >= 400. */
    method FailBuild(c: nat, error: Failure)
      requires Valid() && Enabled(dialect, Snapshot(), BuildFail(c, error))
      modifies this
      ensures Valid() && log == old(log) + [BuildFail(c, error)]
      ensures Snapshot() == Apply(dialect, old(Snapshot()), BuildFail(c, error))
    {
      ExecSnoc(dialect, log, BuildFail(c, error));
      var f := callers[c].phase.own;
      var seen := LokiError(Snapshot(), f, error);
      Reject(f, error);
      if dialect.Loki? {
        SetPhase(c, Releasing(f, Raised(seen)));
      } else {
        SetPhase(c, Done(Raised(error), Stopped(f)));
      }
      log := log + [BuildFail(c, error)];
    }

    method FailTransport(c: nat, error: Failure)
      requires Valid() && Enabled(dialect, Snapshot(), TransportFail(c, error))
      modifies this
      ensures Valid() && log == old(log) + [TransportFail(c, error)]
      ensures Snapshot() == Apply(dialect, old(Snapshot()), TransportFail(c, error))
    {
      ExecSnoc(dialect, log, TransportFail(c, error));
      var f := callers[c].phase.own;
      Reject(f, error);
      SetPhase(c, Auditing(f, error));
      log := log + [TransportFail(c, error)];
    }

    /** The transport failure has been logged, or logging it raised `failed`. */
    method RaiseTransport(c: nat, failed: Option<string>)
      requires Valid() && Enabled(dialect, Snapshot(), Audited(c))
      modifies this
      ensures var ev := if failed.Some? then AuditFail(c, failed.value) else Audited(c);
              Valid() && log == old(log) + [ev] && Enabled(dialect, old(Snapshot()), ev) &&
              Snapshot() == Apply(dialect, old(Snapshot()), ev)
    {
      ghost var ev := if failed.Some? then AuditFail(c, failed.value) else Audited(c);
      ExecSnoc(dialect, log, ev);
      var f, error := callers[c].phase.own, callers[c].phase.error;
      SetPhase(c, Done(Raised(if failed.Some? then Unaudited(failed.value) else error), Stopped(f)));
      log := log + [ev];
    }

    /** Signing, or the audit of a completed request, raised: the future is not told. */
    method AbandonFlight(c: nat, error: Failure)
      requires Valid() && Enabled(dialect, Snapshot(), Strand(c, error))
      modifies this
      ensures Valid() && log == old(log) + [Strand(c, error)]
      ensures Snapshot() == Apply(dialect, old(Snapshot()), Strand(c, error))
    {
      ExecSnoc(dialect, log, Strand(c, error));
      SetPhase(c, Done(Raised(error), Stopped(callers[c].phase.own)));
      log := log + [Strand(c, error)];
    }

    method FailDecode(c: nat, error: Failure)
      requires Valid() && Enabled(dialect, Snapshot(), DecodeFail(c, error))
      modifies this
      ensures Valid() && log == old(log) + [DecodeFail(c, error)]
      ensures Snapshot() == Apply(dialect, old(Snapshot()), DecodeFail(c, error))
    {
      ExecSnoc(dialect, log, DecodeFail(c, error));
      var f := callers[c].phase.own;
      Reject(f, error);
      SetPhase(c, Releasing(f, Raised(error)));
      log := log + [DecodeFail(c, error)];
    }

    /** From now until the ttl is over every reader of the key hits this value. */
    method FillCache(c: nat)
      requires Valid() && Enabled(dialect, Snapshot(), Store(c))
      modifies this
      ensures Valid() && log == old(log) + [Store(c)]
      ensures Snapshot() == Apply(dialect, old(Snapshot()), Store(c))
      ensures forall later: nat ::
                Read(Later(Snapshot(), later), callers[c].key).Some? <==>
                later <= callers[c].ttl && old(callers[c].phase.value) != Null
      ensures old(callers[c].phase.value) != Null ==>
                Read(Snapshot(), callers[c].key).value.value == old(callers[c].phase.value)
      ensures forall k: Key :: k != callers[c].key ==> Read(Snapshot(), k) == old(Read(Snapshot(), k))
    {
      ExecSnoc(dialect, log, Store(c));
      var f, v := callers[c].phase.own, callers[c].phase.value;
      cache := cache[callers[c].key := Entry(v, clock + callers[c].ttl, f)];
      flights := flights[f := flights[f].(storedAt := Some(clock))];
      SetPhase(c, Stored(f, v));
      log := log + [Store(c)];
    }

    method FailStore(c: nat, error: Failure)
      requires Valid() && Enabled(dialect, Snapshot(), StoreFail(c, error))
      modifies this
      ensures Valid() && log == old(log) + [StoreFail(c, error)]
      ensures Snapshot() == Apply(dialect, old(Snapshot()), StoreFail(c, error))
    {
      ExecSnoc(dialect, log, StoreFail(c, error));
      var f := callers[c].phase.own;
      if dialect.Loki? {
        var seen := LokiError(Snapshot(), f, error);
        Reject(f, error);
        SetPhase(c, Releasing(f, Raised(seen)));
      } else {
        SetPhase(c, Releasing(f, Raised(error)));
      }
      log := log + [StoreFail(c, error)];
    }

    method SettleFlight(c: nat)
      requires Valid() && Enabled(dialect, Snapshot(), Resolve(c))
      modifies this
      ensures Valid() && log == old(log) + [Resolve(c)]
      ensures Snapshot() == Apply(dialect, old(Snapshot()), Resolve(c))
    {
      ExecSnoc(dialect, log, Resolve(c));
      var f, v := callers[c].phase.own, callers[c].phase.value;
      if flights[f].future.Pending? {
        flights := flights[f := flights[f].(future := Resolved(v))];
        SetPhase(c, Releasing(f, Returned(v)));
      } else if dialect.Loki? {
        SetPhase(c, Releasing(f, Raised(InvalidState)));
      } else {
        SetPhase(c, Releasing(f, Returned(v)));
      }
      log := log + [Resolve(c)];
    }

    /** The pop takes out the caller's own flight, whatever happened meanwhile, and nothing
        else; afterwards nobody runs a flight for the key. */
    method Deregister(c: nat)
      requires Valid() && Enabled(dialect, Snapshot(), Release(c))
      modifies this
      ensures Valid() && log == old(log) + [Release(c)]
      ensures Snapshot() == Apply(dialect, old(Snapshot()), Release(c))
      ensures var key := callers[c].key;
              key in old(inflight) && old(inflight)[key] == old(callers[c].phase.own) && key !in inflight &&
              (forall k: Key :: k != key ==> KeyFrame(old(Snapshot()), Snapshot(), k)) &&
              forall o: nat :: Running(Snapshot(), o) ==> callers[o].key != key
    {
      ExecSnoc(dialect, log, Release(c));
      NobodyRunsAfter(dialect, log, c);
      var f, out := callers[c].phase.own, callers[c].phase.outcome;
      inflight := inflight - {callers[c].key};
      SetPhase(c, Done(out, Owned(f)));
      log := log + [Release(c)];
    }

    method FailRead(c: nat, error: Failure)
      requires Valid() && Enabled(dialect, Snapshot(), ReadFail(c, error))
      modifies this
      ensures Valid() && log == old(log) + [ReadFail(c, error)]
      ensures Snapshot() == Apply(dialect, old(Snapshot()), ReadFail(c, error))
    {
      ExecSnoc(dialect, log, ReadFail(c, error));
      if callers[c].phase.Locked? { lock := None; }
      SetPhase(c, Done(Raised(error), Nothing));
      log := log + [ReadFail(c, error)];
    }

    method CancelCaller(c: nat)
      requires Valid() && Enabled(dialect, Snapshot(), Cancel(c))
      modifies this
      ensures Valid() && log == old(log) + [Cancel(c)]
      ensures Snapshot() == Apply(dialect, old(Snapshot()), Cancel(c))
    {
      ExecSnoc(dialect, log, Cancel(c));
      match callers[c].phase {
        case Locked =>
          lock := None;
          SetPhase(c, Done(Raised(Cancelled), Nothing));
        case Joined(f) =>
          if flights[f].future.Pending? { flights := flights[f := flights[f].(future := Withdrawn)]; }
          SetPhase(c, Done(Raised(Cancelled), Nothing));
        case Building(f) =>
          SetPhase(c, if dialect.Loki? then Releasing(f, Raised(Cancelled)) else Done(Raised(Cancelled), Stopped(f)));
        case Storing(f, _) => SetPhase(c, Releasing(f, Raised(Cancelled)));
        case Stored(f, _) => SetPhase(c, Releasing(f, Raised(Cancelled)));
        case Releasing(f, _) => SetPhase(c, Done(Raised(Cancelled), Stopped(f)));
        case Auditing(f, _) => SetPhase(c, Done(Raised(Cancelled), Stopped(f)));
        case Arrived => SetPhase(c, Done(Raised(Cancelled), Nothing));
        case Queued => SetPhase(c, Done(Raised(Cancelled), Nothing));
      }
      log := log + [Cancel(c)];
    }

    method PassTime(elapsed: nat)
      requires Valid()
      modifies this
      ensures Valid() && log == old(log) + [Tick(elapsed)]
      ensures Snapshot() == Apply(dialect, old(Snapshot()), Tick(elapsed))
    {
      ExecSnoc(dialect, log, Tick(elapsed));
      clock := clock + elapsed;
      log := log + [Tick(elapsed)];
    }

    // ---------------------------------------------------------------- other callers

    method PerformRead(ev: Event)
      requires Valid() && Enabled(dialect, Snapshot(), ev) && (Reads(ev) || ev.Tick? || ev.Arrive?)
      modifies this
      ensures Valid() && log == old(log) + [ev] && Snapshot() == Apply(dialect, old(Snapshot()), ev)
    {
      match ev {
        case Tick(n) => PassTime(n);
        case Arrive(key, ttl) => var _ := Begin(key, ttl);
        case FirstRead(c) => ReadBeforeLock(c);
        case Acquire(c) => TakeLock(c);
        case Reread(c) => ReadUnderLock(c);
        case Decide(c) => JoinOrRegister(c);
        case Await(c) => AwaitFlight(c);
        case ReadFail(c, e) => FailRead(c, e);
        case Cancel(c) => CancelCaller(c);
      }
    }

    method PerformRun(ev: Event)
      requires Valid() && Enabled(dialect, Snapshot(), ev) && !Reads(ev) && !ev.Tick? && !ev.Arrive?
      modifies this
      ensures Valid() && log == old(log) + [ev] && Snapshot() == Apply(dialect, old(Snapshot()), ev)
    {
      match ev {
        case BuildOk(c, v) => FinishBuild(c, v);
        case BuildFail(c, e) => FailBuild(c, e);
        case TransportFail(c, e) => FailTransport(c, e);
        case Audited(c) => RaiseTransport(c, None);
        case AuditFail(c, cause) => RaiseTransport(c, Some(cause));
        case Strand(c, e) => AbandonFlight(c, e);
        case DecodeFail(c, e) => FailDecode(c, e);
        case Store(c) => FillCache(c);
        case StoreFail(c, e) => FailStore(c, e);
        case Resolve(c) => SettleFlight(c);
        case Release(c) => Deregister(c);
      }
    }

    /** While c is suspended, others take whichever of these steps are open to them. */
    method Others(c: nat, evs: seq<Event>)
      requires Valid() && c < |callers|
      modifies this
      ensures Valid() && old(log) <= log && c < |callers| && callers[c] == old(callers[c])
      ensures OwnKept(old(flights), flights, c)
      ensures evs == [] ==> log == old(log) && Snapshot() == old(Snapshot())
    {
      var i := 0;
      while i < |evs|
        invariant Valid() && old(log) <= log && c < |callers| && callers[c] == old(callers[c])
        invariant OwnKept(old(flights), flights, c)
        invariant evs == [] ==> log == old(log) && Snapshot() == old(Snapshot())
      {
        var ev := evs[i];
        if Foreign(ev, c) && Enabled(dialect, Snapshot(), ev) { Other(c, ev); }
        i := i + 1;
      }
    }

    method Other(c: nat, ev: Event)
      requires Valid() && c < |callers| && Foreign(ev, c) && Enabled(dialect, Snapshot(), ev)
      modifies this
      ensures Valid() && log == old(log) + [ev] && c < |callers| && callers[c] == old(callers[c])
      ensures forall earlier :: OwnKept(earlier, old(flights), c) ==> OwnKept(earlier, flights, c)
    {
      ForeignKeepsCaller(dialect, Snapshot(), ev, c);
      ForeignKeepsFlights(dialect, log, ev, c);
      if Reads(ev) || ev.Tick? || ev.Arrive? { PerformRead(ev); } else { PerformRun(ev); }
      forall earlier | OwnKept(earlier, old(flights), c) ensures OwnKept(earlier, flights, c) {
        OwnKeptTwice(earlier, old(flights), flights, c);
      }
    }

    /** Suspended until the lock is free; others move in the gaps that are left. */
    method AwaitLock(c: nat, gaps: seq<seq<Event>>) returns (left: seq<seq<Event>>)
      requires Valid() && c < |callers|
      modifies this
      ensures Valid() && old(log) <= log && c < |callers| && callers[c] == old(callers[c])
      ensures OwnKept(old(flights), flights, c)
      ensures lock.Some? ==> left == []
      ensures gaps == [] ==> left == [] && log == old(log) && Snapshot() == old(Snapshot())
    {
      left := gaps;
      while lock.Some? && left != []
        invariant Valid() && old(log) <= log && c < |callers| && callers[c] == old(callers[c])
        invariant OwnKept(old(flights), flights, c)
        invariant gaps == [] ==> left == [] && log == old(log) && Snapshot() == old(Snapshot())
        decreases |left|
      {
        ghost var before := flights;
        Others(c, left[0]);
        OwnKeptTwice(old(flights), before, flights, c);
        left := left[1..];
      }
    }

    /** Suspended until the future c has joined is settled. */
    method AwaitFuture(c: nat, gaps: seq<seq<Event>>)
      requires Valid() && c < |callers| && callers[c].phase.Joined?
      modifies this
      ensures Valid() && old(log) <= log && c < |callers| && callers[c] == old(callers[c])
      ensures callers[c].phase.joined < |flights|
    {
      var left := gaps;
      JoinedExists(dialect, log, c);
      while flights[callers[c].phase.joined].future.Pending? && left != []
        invariant Valid() && old(log) <= log && c < |callers| && callers[c] == old(callers[c])
        invariant callers[c].phase.joined < |flights|
        decreases |left|
      {
        Others(c, left[0]);
        JoinedExists(dialect, log, c);
        left := left[1..];
      }
    }

    // ---------------------------------------------------------------- the coroutines

    /** From the arrival to the lock. */
    method ReadOrQueue(key: Key, ttl: nat, gaps: seq<seq<Event>>) returns (c: nat, left: seq<seq<Event>>)
      requires Valid() && ttl >= 1
      modifies this
      ensures Valid() && old(log) <= log && c < |callers| && callers[c].key == key && callers[c].ttl == ttl
      ensures |old(flights)| <= |flights|
      ensures match old(Read(Snapshot(), key))
              case Some(hit) =>
                callers[c].phase == Done(Returned(View(dialect, hit.value)), Cached(hit.flight, old(clock)))
              case None => callers[c].phase == Queued
      ensures callers[c].phase.Queued? && lock.Some? ==> Suspended(Snapshot(), c)
      ensures gaps == [] && callers[c].phase.Queued? ==>
                left == [] && lock == old(lock) && inflight == old(inflight) && Read(Snapshot(), key).None?
    {
      c := Begin(key, ttl);
      left := gaps;
      ReadBeforeLock(c);
      if callers[c].phase.Queued? { left := AwaitLock(c, left); }
    }

    /** The second read and the decision, under the lock. */
    method DecideUnderLock(c: nat, gap: seq<Event>)
      requires Valid() && c < |callers| && callers[c].phase.Queued? && lock.None?
      modifies this
      ensures Valid() && old(log) <= log && c < |callers|
      ensures callers[c].key == old(callers[c].key) && callers[c].ttl == old(callers[c].ttl)
      ensures callers[c].phase.Done? || callers[c].phase.Joined? || callers[c].phase.Building?
      ensures callers[c].phase.Done? ==> callers[c].phase.source.Cached?
      ensures callers[c].phase.Building? ==>
                |old(flights)| <= callers[c].phase.own < |flights| &&
                flights[callers[c].phase.own] == Flight(callers[c].key, c, Pending, None, None)
      ensures gap == [] && Read(old(Snapshot()), callers[c].key).None? ==>
                if callers[c].key in old(inflight) then callers[c].phase == Joined(old(inflight)[callers[c].key])
                else callers[c].phase.Building?
    {
      TakeLock(c);
      Others(c, gap);
      DecideNow(c);
    }

    method DecideNow(c: nat)
      requires Valid() && c < |callers| && callers[c].phase.Locked?
      modifies this
      ensures Valid() && old(log) <= log && c < |callers|
      ensures callers[c].key == old(callers[c].key) && callers[c].ttl == old(callers[c].ttl)
      ensures if Read(old(Snapshot()), callers[c].key).Some? then
                callers[c].phase.Done? && callers[c].phase.source.Cached?
              else if callers[c].key in old(inflight) then
                callers[c].phase == Joined(old(inflight)[callers[c].key])
              else
                callers[c].phase == Building(|old(flights)|) &&
                flights == old(flights) + [Flight(callers[c].key, c, Pending, None, None)]
    {
      ReadUnderLock(c);
      if callers[c].phase.Missed? { JoinOrRegister(c); }
    }

    /** From the arrival to the point where c has an answer, waits for somebody else's
        flight, or runs one. */
    method ReadOrDecide(key: Key, ttl: nat, gaps: seq<seq<Event>>) returns (c: nat, left: seq<seq<Event>>)
      requires Valid() && ttl >= 1
      modifies this
      ensures Valid() && old(log) <= log && c < |callers| && callers[c].key == key && callers[c].ttl == ttl
      ensures callers[c].phase.Done? || callers[c].phase.Joined? || callers[c].phase.Building? ||
              (callers[c].phase.Queued? && Suspended(Snapshot(), c))
      ensures callers[c].phase.Done? ==> callers[c].phase.source.Cached?
      ensures callers[c].phase.Building? ==>
                |old(flights)| <= callers[c].phase.own < |flights| &&
                flights[callers[c].phase.own] == Flight(key, c, Pending, None, None)
      ensures match old(Read(Snapshot(), key))
              case Some(hit) =>
                callers[c].phase == Done(Returned(View(dialect, hit.value)), Cached(hit.flight, old(clock)))
              case None =>
                gaps == [] && old(lock).None? ==>
                  if key in old(inflight) then callers[c].phase == Joined(old(inflight)[key])
                  else callers[c].phase.Building?
    {
      c, left := ReadOrQueue(key, ttl, gaps);
      if callers[c].phase.Queued? && lock.None? {
        DecideUnderLock(c, if left != [] then left[0] else []);
        left := if left != [] then left[1..] else [];
      }
    }

    /** From the joined future to its outcome. */
    method Join(c: nat, gaps: seq<seq<Event>>)
      requires Valid() && c < |callers| && callers[c].phase.Joined?
      modifies this
      ensures Valid() && old(log) <= log && c < |callers|
      ensures callers[c].key == old(callers[c].key) && callers[c].ttl == old(callers[c].ttl)
      ensures (callers[c].phase.Done? && callers[c].phase.source == Shared(old(callers[c].phase.joined))) ||
              (callers[c].phase == old(callers[c].phase) && Suspended(Snapshot(), c))
    {
      AwaitFuture(c, gaps);
      if !flights[callers[c].phase.joined].future.Pending? { AwaitFlight(c); }
    }

    /** From a built value to the finally block. */
    method Finalise(c: nat, ghost reply: Reply, stored: Option<Failure>, gap: seq<Event>)
      requires Valid() && c < |callers| && callers[c].phase.Storing? && callers[c].phase.own < |flights|
      requires reply == Built(callers[c].phase.value)
      requires Kept(Flight(callers[c].key, c, Pending, Some(callers[c].phase.value), None),
                    flights[callers[c].phase.own])
      modifies this
      ensures Valid() && old(log) <= log && c < |callers| && callers[c].phase.Releasing?
      ensures callers[c].key == old(callers[c].key) && callers[c].ttl == old(callers[c].ttl)
      ensures callers[c].phase.own == old(callers[c].phase.own)
      ensures FlightSettled(c, reply, stored, callers[c].phase.outcome)
    {
      Others(c, gap);
      OwnerFlies(dialect, log, c);
      assert Kept(old(flights[callers[c].phase.own]), flights[callers[c].phase.own]);
      if stored.Some? { FailStore(c, stored.value); } else { StoreAndSettle(c, reply); }
    }

    method StoreAndSettle(c: nat, ghost reply: Reply)
      requires Valid() && Flying(Snapshot(), c) && callers[c].phase.Storing?
      requires reply == Built(callers[c].phase.value)
      requires Kept(Flight(callers[c].key, c, Pending, Some(callers[c].phase.value), None),
                    flights[callers[c].phase.own])
      modifies this
      ensures Valid() && old(log) <= log && c < |callers| && callers[c].phase.Releasing?
      ensures callers[c].key == old(callers[c].key) && callers[c].ttl == old(callers[c].ttl)
      ensures callers[c].phase.own == old(callers[c].phase.own)
      ensures FlightSettled(c, reply, None, callers[c].phase.outcome)
    {
      FillCache(c);
      OwnerFlies(dialect, log, c);
      SettleFlight(c);
    }

    /** The finally block. */
    method Leave(c: nat, ghost reply: Reply, ghost stored: Option<Failure>, gaps: seq<seq<Event>>)
      requires Valid() && c < |callers| && callers[c].phase.Releasing?
      requires FlightSettled(c, reply, stored, callers[c].phase.outcome) && (dialect.Loki? ==> LokiReply(reply))
      modifies this
      ensures Valid() && old(log) <= log && c < |callers|
      ensures callers[c].key == old(callers[c].key) && callers[c].ttl == old(callers[c].ttl)
      ensures Ran(callers[c].phase) && OwnFlight(callers[c].phase) == old(OwnFlight(callers[c].phase))
      ensures callers[c].phase.Done? || (callers[c].phase.Releasing? && Suspended(Snapshot(), c))
      ensures callers[c].phase.Done? ==>
                callers[c].key !in inflight && FlightSettled(c, reply, stored, callers[c].phase.outcome)
    {
      var left := AwaitLock(c, gaps);
      ghost var f := callers[c].phase.own;
      SettledStays(dialect, old(flights[callers[c].phase.own]), flights[f], reply, stored, callers[c].phase.outcome);
      if lock.None? {
        OwnerFlies(dialect, log, c);
        Deregister(c);
      }
    }

    /** Loki's try and except blocks. */
    method BuildVolume(c: nat, reply: Reply, stored: Option<Failure>, gap: seq<Event>)
      requires Valid() && dialect.Loki? && c < |callers| && callers[c].phase.Building? && LokiReply(reply)
      requires callers[c].phase.own < |flights|
      requires Kept(Flight(callers[c].key, c, Pending, None, None), flights[callers[c].phase.own])
      modifies this
      ensures Valid() && old(log) <= log && c < |callers| && callers[c].phase.Releasing?
      ensures callers[c].key == old(callers[c].key) && callers[c].ttl == old(callers[c].ttl)
      ensures callers[c].phase.own == old(callers[c].phase.own)
      ensures FlightSettled(c, reply, stored, callers[c].phase.outcome)
    {
      OwnerFlies(dialect, log, c);
      if reply.Failed? {
        FailBuild(c, reply.error);
      } else {
        FinishBuild(c, reply.value);
        Finalise(c, reply, stored, gap);
      }
    }

    /** The owner's part of LokiService._get_or_build_volume. */
    method RunVolume(c: nat, reply: Reply, stored: Option<Failure>, gaps: seq<seq<Event>>)
      requires Valid() && dialect.Loki? && c < |callers| && callers[c].phase.Building? && LokiReply(reply)
      requires callers[c].phase.own < |flights|
      requires flights[callers[c].phase.own] == Flight(callers[c].key, c, Pending, None, None)
      modifies this
      ensures Valid() && old(log) <= log && c < |callers|
      ensures callers[c].key == old(callers[c].key) && callers[c].ttl == old(callers[c].ttl)
      ensures Ran(callers[c].phase) && OwnFlight(callers[c].phase) == old(callers[c].phase.own)
      ensures callers[c].phase.Done? || (callers[c].phase.Releasing? && Suspended(Snapshot(), c))
      ensures callers[c].phase.Done? ==>
                callers[c].key !in inflight && FlightSettled(c, reply, stored, callers[c].phase.outcome)
    {
      var left := gaps;
      if left != [] { Others(c, left[0]); left := left[1..]; }
      OwnerFlies(dialect, log, c);
      assert Kept(old(flights[callers[c].phase.own]), flights[callers[c].phase.own]);
      BuildVolume(c, reply, stored, if left != [] then left[0] else []);
      Leave(c, reply, stored, left);
    }

    /** LokiService._get_or_build_volume, with `reply` what the builder comes up with,
        `stored` what storing it raises, and other callers moving in the gaps. */
    method GetOrBuildVolume(key: Key, ttl: nat, reply: Reply, stored: Option<Failure>, gaps: seq<seq<Event>>)
      returns (c: nat, asked: bool, outcome: Option<Outcome>)
      requires Valid() && dialect.Loki? && ttl >= 1 && LokiReply(reply)
      modifies this
      ensures Valid() && old(log) <= log && Served(c, key, ttl, reply, stored, asked, outcome)
      ensures asked && outcome.Some? ==> key !in inflight
      ensures asked && outcome.Some? && Uncancelled(log[|old(log)|..]) ==>
                outcome.value == if reply.Built? && stored.Some? then Raised(stored.value) else Upstream(reply)
      ensures asked && outcome.Some? ==>
                outcome.value == Raised(InvalidState) ||
                outcome.value == if reply.Built? && stored.Some? then Raised(stored.value) else Upstream(reply)
      ensures match old(Read(Snapshot(), key))
              case Some(hit) => !asked && outcome == Some(Returned(if hit.value.Dict? then hit.value else Dict("{}")))
              case None => gaps == [] && old(lock).None? ==> (asked <==> key !in old(inflight))
    {
      var left;
      c, left := ReadOrDecide(key, ttl, gaps);
      asked, outcome := callers[c].phase.Building?, None;
      if callers[c].phase.Joined? { Join(c, left); } else if asked { RunVolume(c, reply, stored, left); }
      if callers[c].phase.Done? {
        outcome := Some(callers[c].phase.outcome);
        FinishedIsBacked(dialect, log, c);
        if asked { OnlyCancelCosts(dialect, old(log), log, OwnFlight(callers[c].phase)); }
      }
    }

    /** The resolver's upstream request: what each reply does to the flight. */
    method Receive(c: nat, reply: Reply, stored: Option<Failure>, gap: seq<Event>)
      requires Valid() && dialect.Resolver? && c < |callers| && callers[c].phase.Building?
      requires callers[c].phase.own < |flights|
      requires Kept(Flight(callers[c].key, c, Pending, None, None), flights[callers[c].phase.own])
      modifies this
      ensures Valid() && old(log) <= log && c < |callers|
      ensures callers[c].key == old(callers[c].key) && callers[c].ttl == old(callers[c].ttl)
      ensures Ran(callers[c].phase) && OwnFlight(callers[c].phase) == old(callers[c].phase.own) < |flights|
      ensures match reply
              case Built(v) =>
                callers[c].phase.Storing? && callers[c].phase.value == v &&
                Kept(Flight(callers[c].key, c, Pending, Some(v), None), flights[callers[c].phase.own])
              case Garbled(_) =>
                callers[c].phase.Releasing? && FlightSettled(c, reply, stored, callers[c].phase.outcome)
              case _ =>
                callers[c].phase.Done? && callers[c].phase.source.Stopped? &&
                FlightSettled(c, reply, stored, callers[c].phase.outcome)
    {
      OwnerFlies(dialect, log, c);
      match reply {
        case Built(value) => FinishBuild(c, value);
        case Garbled(error) => FailDecode(c, error);
        case Failed(error) => FailBuild(c, error);
        case Unsent(error) => AbandonFlight(c, error);
        case Unreachable(text, audit) => FailUpstream(c, text, audit, stored, gap);
      }
    }

    /** The joiners are told at once; the owner raises only after it has logged the failure. */
    method FailUpstream(c: nat, text: string, audit: Option<string>, ghost stored: Option<Failure>, gap: seq<Event>)
      requires Valid() && dialect.Resolver? && Flying(Snapshot(), c) && callers[c].phase.Building?
      requires Kept(Flight(callers[c].key, c, Pending, None, None), flights[callers[c].phase.own])
      modifies this
      ensures Valid() && old(log) <= log && c < |callers|
      ensures callers[c].key == old(callers[c].key) && callers[c].ttl == old(callers[c].ttl)
      ensures callers[c].phase.Done? && callers[c].phase.source == Stopped(old(callers[c].phase.own))
      ensures FlightSettled(c, Unreachable(text, audit), stored, callers[c].phase.outcome)
    {
      TellJoiners(c, Error(text));
      Others(c, gap);
      OwnerFlies(dialect, log, c);
      RaiseTransport(c, audit);
    }

    method TellJoiners(c: nat, error: Failure)
      requires Valid() && dialect.Resolver? && Flying(Snapshot(), c) && callers[c].phase.Building? && error.Error?
      requires Kept(Flight(callers[c].key, c, Pending, None, None), flights[callers[c].phase.own])
      modifies this
      ensures Valid() && old(log) <= log && c < |callers|
      ensures callers[c] == old(callers[c]).(phase := Auditing(old(callers[c].phase.own), error))
      ensures callers[c].phase.own < |flights|
      ensures flights[callers[c].phase.own] == Flight(callers[c].key, c, Rejected(error), None, None) ||
              flights[callers[c].phase.own] == Flight(callers[c].key, c, Withdrawn, None, None)
    {
      FailTransport(c, error);
    }

    /** The owner's part of ResolverProxyService.request_json. */
    method RunRequest(c: nat, reply: Reply, stored: Option<Failure>, gaps: seq<seq<Event>>)
      requires Valid() && dialect.Resolver? && c < |callers| && callers[c].phase.Building?
      requires callers[c].phase.own < |flights|
      requires flights[callers[c].phase.own] == Flight(callers[c].key, c, Pending, None, None)
      modifies this
      ensures Valid() && old(log) <= log && c < |callers|
      ensures callers[c].key == old(callers[c].key) && callers[c].ttl == old(callers[c].ttl)
      ensures Ran(callers[c].phase) && OwnFlight(callers[c].phase) == old(callers[c].phase.own)
      ensures callers[c].phase.Done? || (callers[c].phase.Releasing? && Suspended(Snapshot(), c))
      ensures callers[c].phase.Done? ==>
                FlightSettled(c, reply, stored, callers[c].phase.outcome) &&
                (callers[c].key in inflight <==> reply.Failed? || reply.Unsent? || reply.Unreachable?)
    {
      var left := gaps;
      if left != [] { Others(c, left[0]); left := left[1..]; }
      OwnerFlies(dialect, log, c);
      assert Kept(old(flights[callers[c].phase.own]), flights[callers[c].phase.own]);
      Receive(c, reply, stored, if left != [] then left[0] else []);
      if callers[c].phase.Storing? { Finalise(c, reply, stored, if left != [] then left[0] else []); }
      if callers[c].phase.Releasing? { Leave(c, reply, stored, left); } else { StoppedIsRegistered(dialect, log, c); }
    }

    /** ResolverProxyService.request_json for a cacheable GET. */
    method ReadOrRequest(key: Key, ttl: nat, reply: Reply, stored: Option<Failure>, gaps: seq<seq<Event>>)
      returns (c: nat, asked: bool, outcome: Option<Outcome>)
      requires Valid() && dialect.Resolver? && ttl >= 1
      modifies this
      ensures Valid() && old(log) <= log && Served(c, key, ttl, reply, stored, asked, outcome)
      ensures asked && outcome.Some? ==>
                (key in inflight <==> reply.Failed? || reply.Unsent? || reply.Unreachable?) &&
                outcome.value == if reply.Built? && stored.Some? then Raised(stored.value) else Upstream(reply)
      ensures match old(Read(Snapshot(), key))
              case Some(hit) => !asked && outcome == Some(Returned(hit.value))
              case None => gaps == [] && old(lock).None? ==> (asked <==> key !in old(inflight))
    {
      var left;
      c, left := ReadOrDecide(key, ttl, gaps);
      asked, outcome := callers[c].phase.Building?, None;
      if callers[c].phase.Joined? { Join(c, left); } else if asked { RunRequest(c, reply, stored, left); }
      if callers[c].phase.Done? {
        outcome := Some(callers[c].phase.outcome);
        FinishedIsBacked(dialect, log, c);
      }
    }

    /** ResolverProxyService.request_json: whatever is not cacheable goes straight upstream
        and leaves cache, table, lock and futures alone. */
    method RequestJson(verb: string, path: string, requested: Option<int>, configured: nat, key: Key,
                       reply: Reply, stored: Option<Failure>, gaps: seq<seq<Event>>)
      returns (c: nat, asked: bool, outcome: Option<Outcome>)
      requires Valid() && dialect.Resolver?
      modifies this
      ensures Valid() && old(log) <= log
      ensures !Cacheable(verb, path, requested, configured) ==>
                Snapshot() == old(Snapshot()) && log == old(log) && asked && outcome == Some(Upstream(reply))
      ensures Cacheable(verb, path, requested, configured) ==>
                Served(c, key, if requested.Some? then requested.value else configured, reply, stored, asked,
                       outcome) &&
                (asked && outcome.Some? ==>
                   (key in inflight <==> reply.Failed? || reply.Unsent? || reply.Unreachable?) &&
                   outcome.value == if reply.Built? && stored.Some? then Raised(stored.value) else Upstream(reply)) &&
                match old(Read(Snapshot(), key))
                case Some(hit) => !asked && outcome == Some(Returned(hit.value))
                case None => gaps == [] && old(lock).None? ==> (asked <==> key !in old(inflight))
    {
      var ttl := ResolveCacheTtl(verb, path, requested, configured);
      if verb == "GET" && ttl > 0 {
        c, asked, outcome := ReadOrRequest(key, ttl, reply, stored, gaps);
      } else {
        c, asked, outcome := 0, true, Some(Upstream(reply));
      }
    }
  }

  /** A flight begun after `past` is withdrawn only if somebody has been cancelled since. */
  lemma OnlyCancelCosts(d: Dialect, past: seq<Event>, evs: seq<Event>, f: nat)
    requires Legal(d, past) && Legal(d, evs) && past <= evs
    requires |Exec(d, past).value.flights| <= f < |Exec(d, evs).value.flights|
    ensures Uncancelled(evs[|past|..]) ==> !Exec(d, evs).value.flights[f].future.Withdrawn?
  {
    assert evs == past + evs[|past|..];
    if Exec(d, evs).value.flights[f].future.Withdrawn? { WithdrawnByCancel(d, past, evs[|past|..], f); }
  }

  lemma StoppedIsRegistered(d: Dialect, evs: seq<Event>, c: nat)
    requires Legal(d, evs) && At(Exec(d, evs).value, c)
    requires PhaseOf(Exec(d, evs).value, c).Done? && PhaseOf(Exec(d, evs).value, c).source.Stopped?
    ensures Exec(d, evs).value.callers[c].key in Exec(d, evs).value.inflight
  {
    RunKeepsInv(d, evs);
    assert CallerOk(Exec(d, evs).value, c);
  }

  lemma NewFlightIsNew(d: Dialect, evs: seq<Event>, c: nat)
    requires Legal(d, evs) && Enabled(d, Exec(d, evs).value, Decide(c))
    ensures var s := Exec(d, evs).value;
            var s' := Apply(d, s, Decide(c));
            |s.flights| !in s.inflight.Values && (Running(s', c) <==> s.callers[c].key !in s.inflight) &&
            (s.callers[c].key !in s.inflight ==>
               forall o: nat :: Running(s', o) && s'.callers[o].key == s.callers[c].key ==> o == c)
  {
    var s := Exec(d, evs).value;
    RunKeepsInv(d, evs);
    forall k | k in s.inflight ensures s.inflight[k] < |s.flights| { assert RegistrationOk(s, k); }
    forall o: nat | Running(s, o) ensures s.callers[o].key in s.inflight { assert CallerOk(s, o); }
  }

  lemma NobodyRunsAfter(d: Dialect, evs: seq<Event>, c: nat)
    requires Legal(d, evs) && Enabled(d, Exec(d, evs).value, Release(c))
    ensures var s := Exec(d, evs).value;
            var key := s.callers[c].key;
            key in s.inflight && s.inflight[key] == PhaseOf(s, c).own &&
            forall o: nat :: Running(s, o) && s.callers[o].key == key ==> o == c
  {
    var s := Exec(d, evs).value;
    OneOwnerPerKey(d, evs, c, c);
    forall o: nat | Running(s, o) && s.callers[o].key == s.callers[c].key ensures o == c {
      OneOwnerPerKey(d, evs, c, o);
    }
  }
}
