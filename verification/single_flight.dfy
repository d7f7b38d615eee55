/** Single-flight cached reads: LokiService._get_or_build_volume and
    ResolverProxyService.request_json (for cacheable GETs) as one interleaving
    machine over an unbounded set of callers.

    A step is what one coroutine does between two suspension points.  The two
    services share the read, lock and join steps; `Dialect` selects what an owner
    does with its future and its registration when the flight fails. */
module SingleFlight {
  import opened Options

  type Key = string

  /** A JSON value.  `None` read back from the cache counts as a miss. */
  datatype Json = Null | Dict(text: string) | Other(text: string)

  /** Unaudited: what the audit log's database raised. */
  datatype Failure = Error(text: string) | Unaudited(text: string) | InvalidState | Cancelled

  datatype Future = Pending | Resolved(value: Json) | Rejected(error: Failure) | Withdrawn

  datatype Outcome = Returned(value: Json) | Raised(error: Failure)

  /** What a finished caller's outcome rests on. */
  datatype Source =
    | Cached(hit: nat, at: int)   // a cache entry stored by flight `hit`, read at time `at`
    | Shared(joined: nat)         // the future of flight `joined`
    | Owned(own: nat)             // the caller ran flight `own` and deregistered it
    | Stopped(left: nat)          // the caller owned flight `left` and never deregistered it
    | Nothing                     // it failed before reaching any flight

  datatype Phase =
    | Arrived
    | Queued
    | Locked
    | Missed
    | Joined(joined: nat)
    | Building(own: nat)
    | Auditing(own: nat, error: Failure)   // the future is rejected, the failure is yet to be logged and raised
    | Storing(own: nat, value: Json)
    | Stored(own: nat, value: Json)
    | Releasing(own: nat, outcome: Outcome)
    | Done(outcome: Outcome, source: Source)

  datatype Caller = Caller(key: Key, ttl: nat, phase: Phase)

  datatype Flight = Flight(key: Key, owner: nat, future: Future, produced: Option<Json>, storedAt: Option<int>)

  datatype Entry = Entry(value: Json, expires: int, flight: nat)

  datatype State = State(
    clock: int,
    lock: Option<nat>,
    cache: map<Key, Entry>,
    inflight: map<Key, nat>,
    flights: seq<Flight>,
    callers: seq<Caller>)

  datatype Dialect = Loki | Resolver

  datatype Event =
    | Tick(elapsed: nat)
    | Arrive(key: Key, ttl: nat)
    | FirstRead(c: nat)
    | Acquire(c: nat)
    | Reread(c: nat)
    | Decide(c: nat)
    | Await(c: nat)
    | BuildOk(c: nat, value: Json)
    | BuildFail(c: nat, error: Failure)
    | TransportFail(c: nat, error: Failure)
    | Audited(c: nat)
    | AuditFail(c: nat, cause: string)
    | Strand(c: nat, error: Failure)
    | DecodeFail(c: nat, error: Failure)
    | Store(c: nat)
    | StoreFail(c: nat, error: Failure)
    | Resolve(c: nat)
    | Release(c: nat)
    | ReadFail(c: nat, error: Failure)
    | Cancel(c: nat)

  const START := State(0, None, map[], map[], [], [])

  // ------------------------------------------------------------------ steps

  predicate At(s: State, c: nat) { c < |s.callers| }

  function PhaseOf(s: State, c: nat): Phase
    requires At(s, c)
  {
    s.callers[c].phase
  }

  function Move(s: State, c: nat, phase: Phase): State
    requires At(s, c)
  {
    s.(callers := s.callers[c := s.callers[c].(phase := phase)])
  }

  /** TTLCache.get: an entry past its expiry is dropped; `Null` reads as a miss. */
  function Read(s: State, key: Key): Option<Entry> {
    if key in s.cache && s.clock <= s.cache[key].expires && s.cache[key].value != Null then
      Some(s.cache[key])
    else
      None
  }

  function DropExpired(s: State, key: Key): State {
    if key in s.cache && s.clock > s.cache[key].expires then s.(cache := s.cache - {key}) else s
  }

  /** Loki substitutes {} for a cached value that is not a dict. */
  function View(d: Dialect, value: Json): Json {
    if d.Loki? && !value.Dict? then Dict("{}") else value
  }

  function Hit(d: Dialect, s: State, e: Entry): Phase {
    Done(Returned(View(d, e.value)), Cached(e.flight, s.clock))
  }

  function SetFuture(s: State, f: nat, future: Future): State
    requires f < |s.flights|
  {
    s.(flights := s.flights[f := s.flights[f].(future := future)])
  }

  /** _resolve_inflight_error, and asyncio's refusal to settle a future twice. */
  function RejectPending(s: State, f: nat, error: Failure): State
    requires f < |s.flights|
  {
    if s.flights[f].future.Pending? then SetFuture(s, f, Rejected(error)) else s
  }

  /** The exception that leaves Loki's `except` block: future.set_exception itself
      raises when a cancelled joiner has already settled the future. */
  function LokiError(s: State, f: nat, error: Failure): Failure
    requires f < |s.flights|
  {
    if s.flights[f].future.Pending? then error else InvalidState
  }

  function OutcomeOf(future: Future): Outcome
    requires !future.Pending?
  {
    match future
    case Resolved(v) => Returned(v)
    case Rejected(e) => Raised(e)
    case Withdrawn => Raised(Cancelled)
  }

  function Unlock(s: State): State { s.(lock := None) }

  function Owner(phase: Phase): Option<nat> {
    match phase
    case Building(f) => Some(f)
    case Auditing(f, _) => Some(f)
    case Storing(f, _) => Some(f)
    case Stored(f, _) => Some(f)
    case Releasing(f, _) => Some(f)
    case _ => None
  }

  predicate Running(s: State, c: nat) { At(s, c) && Owner(PhaseOf(s, c)).Some? }

  /** The owner's flight is a flight of the state: part of every reachable state. */
  predicate Flying(s: State, c: nat) {
    Running(s, c) && Owner(PhaseOf(s, c)).value < |s.flights|
  }

  predicate Enabled(d: Dialect, s: State, ev: Event) {
    match ev
    case Tick(_) => true
    case Arrive(_, ttl) => ttl >= 1
    case FirstRead(c) => At(s, c) && PhaseOf(s, c).Arrived?
    case Acquire(c) => At(s, c) && PhaseOf(s, c).Queued? && s.lock.None?
    case Reread(c) => At(s, c) && PhaseOf(s, c).Locked?
    case Decide(c) => At(s, c) && PhaseOf(s, c).Missed?
    case Await(c) =>
      At(s, c) && PhaseOf(s, c).Joined? && PhaseOf(s, c).joined < |s.flights| &&
      !s.flights[PhaseOf(s, c).joined].future.Pending?
    case BuildOk(c, v) => Flying(s, c) && PhaseOf(s, c).Building? && (d.Loki? ==> v.Dict?)
    case BuildFail(c, _) => Flying(s, c) && PhaseOf(s, c).Building?
    case TransportFail(c, e) => d.Resolver? && Flying(s, c) && PhaseOf(s, c).Building? && e.Error?
    case Audited(c) => Flying(s, c) && PhaseOf(s, c).Auditing?
    case AuditFail(c, _) => Flying(s, c) && PhaseOf(s, c).Auditing?
    case Strand(c, _) => d.Resolver? && Flying(s, c) && PhaseOf(s, c).Building?
    case DecodeFail(c, _) => d.Resolver? && Flying(s, c) && !PhaseOf(s, c).Auditing? && !PhaseOf(s, c).Releasing?
    case Store(c) => Flying(s, c) && PhaseOf(s, c).Storing?
    case StoreFail(c, _) => Flying(s, c) && (PhaseOf(s, c).Storing? || PhaseOf(s, c).Stored?)
    case Resolve(c) => Flying(s, c) && PhaseOf(s, c).Stored?
    case Release(c) => Flying(s, c) && PhaseOf(s, c).Releasing? && s.lock.None?
    case ReadFail(c, _) => At(s, c) && (PhaseOf(s, c).Arrived? || PhaseOf(s, c).Locked?)
    case Cancel(c) =>
      At(s, c) &&
      match PhaseOf(s, c) {
        case Done(_, _) => false
        case Missed => false
        case Joined(f) => f < |s.flights|
        case _ => true
      }
  }

  function Apply(d: Dialect, s: State, ev: Event): State
    requires Enabled(d, s, ev)
  {
    match ev
    case Tick(n) => s.(clock := s.clock + n)
    case Arrive(key, ttl) => s.(callers := s.callers + [Caller(key, ttl, Arrived)])
    case FirstRead(c) => FirstReadStep(d, s, c)
    case Acquire(c) => Move(s, c, Locked).(lock := Some(c))
    case Reread(c) => RereadStep(d, s, c)
    case Decide(c) => DecideStep(s, c)
    case Await(c) =>
      var f := PhaseOf(s, c).joined;
      Move(s, c, Done(OutcomeOf(s.flights[f].future), Shared(f)))
    case BuildOk(c, v) =>
      var f := PhaseOf(s, c).own;
      Move(s.(flights := s.flights[f := s.flights[f].(produced := Some(v))]), c, Storing(f, v))
    case BuildFail(c, e) => BuildFailStep(d, s, c, e)
    case TransportFail(c, e) =>
      var f := PhaseOf(s, c).own;
      Move(RejectPending(s, f, e), c, Auditing(f, e))
    case Audited(c) => Move(s, c, Done(Raised(PhaseOf(s, c).error), Stopped(PhaseOf(s, c).own)))
    case AuditFail(c, cause) => Move(s, c, Done(Raised(Unaudited(cause)), Stopped(PhaseOf(s, c).own)))
    case Strand(c, e) => Move(s, c, Done(Raised(e), Stopped(PhaseOf(s, c).own)))
    case DecodeFail(c, e) =>
      var f := PhaseOf(s, c).own;
      Move(RejectPending(s, f, e), c, Releasing(f, Raised(e)))
    case Store(c) => StoreStep(s, c)
    case StoreFail(c, e) => StoreFailStep(d, s, c, e)
    case Resolve(c) => ResolveStep(d, s, c)
    case Release(c) => ReleaseStep(s, c)
    case ReadFail(c, e) =>
      var s' := Move(s, c, Done(Raised(e), Nothing));
      if PhaseOf(s, c).Locked? then Unlock(s') else s'
    case Cancel(c) => CancelStep(d, s, c)
  }

  function FirstReadStep(d: Dialect, s: State, c: nat): State
    requires At(s, c)
  {
    var key := s.callers[c].key;
    var hit := Read(s, key);
    Move(DropExpired(s, key), c, if hit.Some? then Hit(d, s, hit.value) else Queued)
  }

  function RereadStep(d: Dialect, s: State, c: nat): State
    requires At(s, c)
  {
    var key := s.callers[c].key;
    var hit := Read(s, key);
    var s' := DropExpired(s, key);
    if hit.Some? then Unlock(Move(s', c, Hit(d, s, hit.value))) else Move(s', c, Missed)
  }

  function DecideStep(s: State, c: nat): State
    requires At(s, c)
  {
    var key := s.callers[c].key;
    if key in s.inflight then
      Unlock(Move(s, c, Joined(s.inflight[key])))
    else
      var f := |s.flights|;
      Unlock(Move(s, c, Building(f))).(
        flights := s.flights + [Flight(key, c, Pending, None, None)],
        inflight := s.inflight[key := f])
  }

  /** Loki rejects the future and goes on to its `finally`; the resolver, given a status of
      400 or more, rejects the future and leaves without one. */
  function BuildFailStep(d: Dialect, s: State, c: nat, e: Failure): State
    requires Flying(s, c)
  {
    var f := Owner(PhaseOf(s, c)).value;
    match d
    case Loki => Move(RejectPending(s, f, e), c, Releasing(f, Raised(LokiError(s, f, e))))
    case Resolver => Move(RejectPending(s, f, e), c, Done(Raised(e), Stopped(f)))
  }

  function StoreStep(s: State, c: nat): State
    requires Flying(s, c) && PhaseOf(s, c).Storing?
  {
    var f, v := PhaseOf(s, c).own, PhaseOf(s, c).value;
    Move(s, c, Stored(f, v)).(
      cache := s.cache[s.callers[c].key := Entry(v, s.clock + s.callers[c].ttl, f)],
      flights := s.flights[f := s.flights[f].(storedAt := Some(s.clock))])
  }

  /** Only Loki's handler catches what the cache backend raises. */
  function StoreFailStep(d: Dialect, s: State, c: nat, e: Failure): State
    requires Flying(s, c)
  {
    var f := Owner(PhaseOf(s, c)).value;
    match d
    case Loki => Move(RejectPending(s, f, e), c, Releasing(f, Raised(LokiError(s, f, e))))
    case Resolver => Move(s, c, Releasing(f, Raised(e)))
  }

  function ResolveStep(d: Dialect, s: State, c: nat): State
    requires Flying(s, c) && PhaseOf(s, c).Stored?
  {
    var f, v := PhaseOf(s, c).own, PhaseOf(s, c).value;
    if s.flights[f].future.Pending? then
      Move(SetFuture(s, f, Resolved(v)), c, Releasing(f, Returned(v)))
    else
      Move(s, c, Releasing(f, if d.Loki? then Raised(InvalidState) else Returned(v)))
  }

  function ReleaseStep(s: State, c: nat): State
    requires At(s, c) && PhaseOf(s, c).Releasing?
  {
    var f, out := PhaseOf(s, c).own, PhaseOf(s, c).outcome;
    Move(s, c, Done(out, Owned(f))).(inflight := s.inflight - {s.callers[c].key})
  }

  /** Cancellation of one coroutine.  A joiner takes the shared future with it; an
      owner outside any `finally`, or waiting for the lock inside one, leaves its
      registration behind. */
  function CancelStep(d: Dialect, s: State, c: nat): State
    requires Enabled(d, s, Cancel(c))
  {
    match PhaseOf(s, c)
    case Arrived => Move(s, c, Done(Raised(Cancelled), Nothing))
    case Queued => Move(s, c, Done(Raised(Cancelled), Nothing))
    case Locked => Unlock(Move(s, c, Done(Raised(Cancelled), Nothing)))
    case Joined(f) =>
      var s' := if s.flights[f].future.Pending? then SetFuture(s, f, Withdrawn) else s;
      Move(s', c, Done(Raised(Cancelled), Nothing))
    case Building(f) =>
      Move(s, c, if d.Loki? then Releasing(f, Raised(Cancelled)) else Done(Raised(Cancelled), Stopped(f)))
    case Auditing(f, _) => Move(s, c, Done(Raised(Cancelled), Stopped(f)))
    case Storing(f, _) => Move(s, c, Releasing(f, Raised(Cancelled)))
    case Stored(f, _) => Move(s, c, Releasing(f, Raised(Cancelled)))
    case Releasing(f, _) => Move(s, c, Done(Raised(Cancelled), Stopped(f)))
  }

  // ------------------------------------------------------------------ runs

  /** The state after a run, or None when some step of it was not enabled. */
  function Exec(d: Dialect, evs: seq<Event>): Option<State> {
    if evs == [] then Some(START)
    else
      var s := Exec(d, evs[..|evs| - 1]);
      var ev := evs[|evs| - 1];
      if s.Some? && Enabled(d, s.value, ev) then Some(Apply(d, s.value, ev)) else None
  }

  predicate Legal(d: Dialect, evs: seq<Event>) { Exec(d, evs).Some? }

  predicate Uncancelled(evs: seq<Event>) { forall ev <- evs :: !ev.Cancel? }

  // ------------------------------------------------------------------ invariant

  predicate Owns(s: State, c: nat, f: nat) {
    At(s, c) && f < |s.flights| &&
    s.flights[f].owner == c && s.flights[f].key == s.callers[c].key &&
    s.callers[c].key in s.inflight && s.inflight[s.callers[c].key] == f
  }

  function OwnerTtl(s: State, f: nat): nat
    requires f < |s.flights|
  {
    if At(s, s.flights[f].owner) then s.callers[s.flights[f].owner].ttl else 0
  }

  /** Flight f produced v for key k and put it in the cache no more than its ttl before `at`. */
  predicate Fresh(s: State, k: Key, f: nat, v: Json, at: int) {
    f < |s.flights| && s.flights[f].key == k && s.flights[f].produced == Some(v) &&
    s.flights[f].storedAt.Some? && s.flights[f].storedAt.value <= at <= s.flights[f].storedAt.value + OwnerTtl(s, f)
  }

  /** The outcome of a finished caller is backed by the source it names. */
  predicate Backed(s: State, c: nat, out: Outcome, src: Source)
    requires At(s, c)
  {
    var key := s.callers[c].key;
    match src
    case Cached(f, at) => out.Returned? && Fresh(s, key, f, out.value, at)
    case Shared(f) =>
      f < |s.flights| && s.flights[f].key == key && !s.flights[f].future.Pending? &&
      out == OutcomeOf(s.flights[f].future)
    case Owned(f) =>
      f < |s.flights| && s.flights[f].key == key && s.flights[f].owner == c &&
      (out.Returned? ==> s.flights[f].produced == Some(out.value))
    case Stopped(f) => Owns(s, c, f) && out.Raised?
    case Nothing => out.Raised?
  }

  predicate CallerOk(s: State, c: nat)
    requires At(s, c)
  {
    (s.lock == Some(c) <==> PhaseOf(s, c).Locked? || PhaseOf(s, c).Missed?) &&
    match PhaseOf(s, c)
    case Joined(f) => f < |s.flights| && s.flights[f].key == s.callers[c].key
    case Building(f) => Owns(s, c, f) && s.flights[f].produced.None? && s.flights[f].storedAt.None?
    case Auditing(f, _) => Owns(s, c, f)
    case Storing(f, v) => Owns(s, c, f) && s.flights[f].produced == Some(v) && s.flights[f].storedAt.None?
    case Stored(f, v) => Owns(s, c, f) && s.flights[f].produced == Some(v)
    case Releasing(f, out) => Owns(s, c, f) && (out.Returned? ==> s.flights[f].produced == Some(out.value))
    case Done(out, src) => Backed(s, c, out, src)
    case _ => true
  }

  /** The owner of a flight is still running it, or has finished it. */
  predicate FlownBy(s: State, f: nat, phase: Phase) {
    Owner(phase) == Some(f) ||
    (phase.Done? && (phase.source == Owned(f) || phase.source == Stopped(f)))
  }

  predicate FlightOk(d: Dialect, s: State, f: nat)
    requires f < |s.flights|
  {
    var fl := s.flights[f];
    At(s, fl.owner) && s.callers[fl.owner].key == fl.key && FlownBy(s, f, PhaseOf(s, fl.owner)) &&
    (fl.future.Resolved? ==> fl.produced == Some(fl.future.value)) &&
    (fl.storedAt.Some? ==> fl.storedAt.value <= s.clock && fl.produced.Some?) &&
    (fl.produced.Some? && d.Loki? ==> fl.produced.value.Dict?)
  }

  /** A registered flight has an owner that is running it or has left it behind. */
  predicate RegistrationOk(s: State, k: Key)
    requires k in s.inflight
  {
    var f := s.inflight[k];
    f < |s.flights| && s.flights[f].key == k && At(s, s.flights[f].owner) &&
    var p := PhaseOf(s, s.flights[f].owner);
    Owner(p) == Some(f) || (p.Done? && p.source == Stopped(f))
  }

  predicate EntryOk(s: State, k: Key)
    requires k in s.cache
  {
    var e := s.cache[k];
    e.flight < |s.flights| && s.flights[e.flight].key == k && s.flights[e.flight].produced == Some(e.value) &&
    s.flights[e.flight].storedAt.Some? && e.expires == s.flights[e.flight].storedAt.value + OwnerTtl(s, e.flight)
  }

  ghost predicate Inv(d: Dialect, s: State) {
    (forall c: nat :: At(s, c) ==> CallerOk(s, c)) &&
    (s.lock.Some? ==> At(s, s.lock.value)) &&
    (forall f: nat :: f < |s.flights| ==> FlightOk(d, s, f)) &&
    (forall k <- s.inflight :: RegistrationOk(s, k)) &&
    (forall k <- s.cache :: EntryOk(s, k))
  }

  // ------------------------------------------------------------------ frame

  /** Flights only gain information; a settled future never changes. */
  predicate Grows(a: Flight, b: Flight) {
    a.key == b.key && a.owner == b.owner &&
    (a.future.Pending? || b.future == a.future) &&
    (a.produced.None? || b.produced == a.produced) &&
    (a.storedAt.None? || b.storedAt == a.storedAt)
  }

  predicate FlightFrame(s: State, s': State, c: nat, f: nat)
    requires f < |s.flights| <= |s'.flights|
  {
    Grows(s.flights[f], s'.flights[f]) &&
    (s.flights[f].owner == c || s'.flights[f] == s.flights[f] ||
     s'.flights[f] == s.flights[f].(future := Withdrawn))
  }

  predicate KeyFrame(s: State, s': State, k: Key) {
    (k in s.inflight <==> k in s'.inflight) && (k in s.inflight ==> s.inflight[k] == s'.inflight[k])
  }

  predicate Mine(s: State, c: nat, k: Key) {
    k in s.inflight && s.inflight[k] < |s.flights| && s.flights[s.inflight[k]].owner == c
  }

  /** A key keeps its registration, or c withdraws its own, or c registers a free one. */
  predicate KeyChange(s: State, s': State, c: nat, k: Key) {
    KeyFrame(s, s', k) ||
    (Mine(s, c, k) && k !in s'.inflight) ||
    (k !in s.inflight && Mine(s', c, k))
  }

  /** One step of caller c, as seen by everybody else. */
  ghost predicate Evolves(s: State, s': State, c: nat) {
    At(s, c) && |s'.callers| == |s.callers| && s'.clock == s.clock &&
    s'.callers[c].key == s.callers[c].key && s'.callers[c].ttl == s.callers[c].ttl &&
    (forall i: nat :: At(s, i) && i != c ==> s'.callers[i] == s.callers[i]) &&
    |s.flights| <= |s'.flights| &&
    (forall f: nat :: f < |s.flights| ==> FlightFrame(s, s', c, f)) &&
    (forall f: nat :: |s.flights| <= f < |s'.flights| ==> s'.flights[f].owner == c) &&
    (forall k: Key :: KeyChange(s, s', c, k)) &&
    (s'.lock == s.lock || (s.lock.None? && s'.lock == Some(c)) || (s.lock == Some(c) && s'.lock.None?))
  }

  /** No caller but c is moved, and c was not finished. */
  ghost predicate Alone(s: State, s': State, c: nat) {
    At(s, c) && !PhaseOf(s, c).Done? && |s'.callers| == |s.callers| &&
    forall i: nat :: At(s, i) && i != c ==> s'.callers[i] == s.callers[i]
  }

  predicate Reads(ev: Event) {
    ev.FirstRead? || ev.Acquire? || ev.Reread? || ev.Decide? || ev.Await? || ev.ReadFail? || ev.Cancel?
  }

  lemma ReaderMovesAlone(d: Dialect, s: State, ev: Event)
    requires Enabled(d, s, ev) && Reads(ev)
    ensures Alone(s, Apply(d, s, ev), ev.c)
  {
  }

  lemma MovesAlone(d: Dialect, s: State, ev: Event)
    requires Enabled(d, s, ev) && !ev.Tick? && !ev.Arrive?
    ensures Alone(s, Apply(d, s, ev), ev.c)
  {
    if Reads(ev) { ReaderMovesAlone(d, s, ev); }
  }

  lemma OtherCallerKept(s: State, s': State, c: nat, i: nat)
    requires Evolves(s, s', c) && At(s, i) && i != c && CallerOk(s, i)
    requires forall k <- s.inflight :: RegistrationOk(s, k)
    ensures CallerOk(s', i)
  {
    var k := s.callers[i].key;
    assert KeyChange(s, s', c, k);
    match PhaseOf(s, i)
    case Joined(f) => assert FlightFrame(s, s', c, f);
    case Building(f) => assert FlightFrame(s, s', c, f);
    case Auditing(f, _) => assert FlightFrame(s, s', c, f);
    case Storing(f, _) => assert FlightFrame(s, s', c, f);
    case Stored(f, _) => assert FlightFrame(s, s', c, f);
    case Releasing(f, _) => assert FlightFrame(s, s', c, f);
    case Done(out, src) => OtherDoneKept(s, s', c, i);
    case _ =>
  }

  lemma OtherDoneKept(s: State, s': State, c: nat, i: nat)
    requires Evolves(s, s', c) && At(s, i) && i != c && PhaseOf(s, i).Done?
    requires Backed(s, i, PhaseOf(s, i).outcome, PhaseOf(s, i).source)
    ensures Backed(s', i, PhaseOf(s, i).outcome, PhaseOf(s, i).source)
  {
    var k := s.callers[i].key;
    match PhaseOf(s, i).source
    case Cached(f, _) => assert FlightFrame(s, s', c, f); TtlKept(s, s', c, f);
    case Shared(f) => assert FlightFrame(s, s', c, f);
    case Owned(f) => assert FlightFrame(s, s', c, f);
    case Stopped(f) =>
      assert FlightFrame(s, s', c, f);
      assert KeyChange(s, s', c, k);
    case Nothing =>
  }

  lemma TtlKept(s: State, s': State, c: nat, f: nat)
    requires Evolves(s, s', c) && f < |s.flights|
    ensures f < |s'.flights| && OwnerTtl(s', f) == OwnerTtl(s, f)
  {
    assert FlightFrame(s, s', c, f);
  }

  lemma OtherFlightKept(d: Dialect, s: State, s': State, c: nat, f: nat)
    requires Evolves(s, s', c) && f < |s.flights| && s.flights[f].owner != c && FlightOk(d, s, f)
    ensures FlightOk(d, s', f)
  {
    assert FlightFrame(s, s', c, f);
  }

  lemma OtherEntryKept(s: State, s': State, c: nat, k: Key)
    requires Evolves(s, s', c) && k in s.cache && EntryOk(s, k)
    requires k in s'.cache && s'.cache[k] == s.cache[k]
    ensures EntryOk(s', k)
  {
    assert FlightFrame(s, s', c, s.cache[k].flight);
    TtlKept(s, s', c, s.cache[k].flight);
  }

  lemma RegistrationKept(s: State, s': State, c: nat, k: Key)
    requires Evolves(s, s', c) && k in s.inflight && RegistrationOk(s, k) && !Mine(s, c, k)
    ensures k in s'.inflight && RegistrationOk(s', k)
  {
    assert KeyChange(s, s', c, k);
    assert FlightFrame(s, s', c, s.inflight[k]);
  }

  /** What a step of caller c still has to show about c's own flight. */
  ghost predicate OwnOk(d: Dialect, s: State, c: nat) {
    (forall f: nat :: f < |s.flights| && s.flights[f].owner == c ==> FlightOk(d, s, f)) &&
    (forall k <- s.inflight :: Mine(s, c, k) ==> RegistrationOk(s, k))
  }

  lemma EvolvingKeepsInv(d: Dialect, s: State, s': State, c: nat)
    requires Inv(d, s) && Evolves(s, s', c)
    requires CallerOk(s', c) && OwnOk(d, s', c)
    requires forall k <- s'.cache :: (k in s.cache && s'.cache[k] == s.cache[k]) || EntryOk(s', k)
    ensures Inv(d, s')
  {
    forall i: nat | At(s', i) ensures CallerOk(s', i) {
      if i != c { assert At(s, i); OtherCallerKept(s, s', c, i); }
    }
    forall f: nat | f < |s'.flights| ensures FlightOk(d, s', f) {
      if f < |s.flights| {
        assert FlightFrame(s, s', c, f);
        if s.flights[f].owner != c { OtherFlightKept(d, s, s', c, f); }
      }
    }
    forall k | k in s'.inflight ensures RegistrationOk(s', k) {
      assert KeyChange(s, s', c, k);
      if k in s.inflight {
        if Mine(s, c, k) {
          assert FlightFrame(s, s', c, s.inflight[k]);
          assert Mine(s', c, k);
        } else {
          RegistrationKept(s, s', c, k);
        }
      }
    }
    forall k | k in s'.cache ensures EntryOk(s', k) {
      if k in s.cache && s'.cache[k] == s.cache[k] { OtherEntryKept(s, s', c, k); }
    }
  }

  // ------------------------------------------------------------------ each step keeps the invariant

  /** c has no flight of its own until it decides to run one. */
  lemma NoFlightYet(d: Dialect, s: State, c: nat, f: nat)
    requires Inv(d, s) && At(s, c) && f < |s.flights| && s.flights[f].owner == c
    ensures FlownBy(s, f, PhaseOf(s, c))
  {
    assert FlightOk(d, s, f);
  }

  /** A step that only moves a caller without a flight. */
  lemma WaitingMoveKeepsInv(d: Dialect, s: State, s': State, c: nat)
    requires Inv(d, s) && At(s, c) && Owner(PhaseOf(s, c)).None? && !PhaseOf(s, c).Done?
    requires s'.flights == s.flights && s'.inflight == s.inflight && s'.clock == s.clock
    requires |s'.callers| == |s.callers| && s'.callers == s.callers[c := s.callers[c].(phase := s'.callers[c].phase)]
    requires forall k <- s'.cache :: k in s.cache && s'.cache[k] == s.cache[k]
    requires s'.lock == s.lock || (s.lock.None? && s'.lock == Some(c)) || (s.lock == Some(c) && s'.lock.None?)
    requires CallerOk(s', c)
    ensures Inv(d, s')
  {
    forall k: Key ensures KeyChange(s, s', c, k) {}
    forall f: nat | f < |s.flights| ensures FlightFrame(s, s', c, f) {}
    forall f: nat | f < |s.flights| ensures s.flights[f].owner != c {
      if s.flights[f].owner == c { NoFlightYet(d, s, c, f); }
    }
    EvolvingKeepsInv(d, s, s', c);
  }

  /** A cache hit is a fresh value of the caller's own key. */
  lemma HitIsBacked(d: Dialect, s: State, s': State, c: nat)
    requires Inv(d, s) && At(s, c) && Read(s, s.callers[c].key).Some?
    requires s'.flights == s.flights && s'.clock == s.clock && |s'.callers| == |s.callers|
    requires s'.callers == s.callers[c := s.callers[c].(phase := s'.callers[c].phase)]
    ensures var e := Read(s, s.callers[c].key).value;
            Backed(s', c, Returned(View(d, e.value)), Cached(e.flight, s.clock))
  {
    var k := s.callers[c].key;
    assert EntryOk(s, k);
    assert FlightOk(d, s, s.cache[k].flight);
    assert OwnerTtl(s', s.cache[k].flight) == OwnerTtl(s, s.cache[k].flight);
  }

  lemma FirstReadKeepsInv(d: Dialect, s: State, c: nat)
    requires Inv(d, s) && At(s, c) && PhaseOf(s, c).Arrived?
    ensures Inv(d, FirstReadStep(d, s, c))
  {
    var s' := FirstReadStep(d, s, c);
    assert CallerOk(s, c);
    if Read(s, s.callers[c].key).Some? { HitIsBacked(d, s, s', c); }
    WaitingMoveKeepsInv(d, s, s', c);
  }

  lemma RereadKeepsInv(d: Dialect, s: State, c: nat)
    requires Inv(d, s) && At(s, c) && PhaseOf(s, c).Locked?
    ensures Inv(d, RereadStep(d, s, c))
  {
    var s' := RereadStep(d, s, c);
    assert CallerOk(s, c);
    if Read(s, s.callers[c].key).Some? { HitIsBacked(d, s, s', c); }
    WaitingMoveKeepsInv(d, s, s', c);
  }

  lemma LockingKeepsInv(d: Dialect, s: State, ev: Event)
    requires Inv(d, s) && (ev.Acquire? || ev.ReadFail?) && Enabled(d, s, ev)
    ensures Inv(d, Apply(d, s, ev))
  {
    assert CallerOk(s, ev.c);
    WaitingMoveKeepsInv(d, s, Apply(d, s, ev), ev.c);
  }

  lemma AwaitKeepsInv(d: Dialect, s: State, c: nat)
    requires Inv(d, s) && Enabled(d, s, Await(c))
    ensures Inv(d, Apply(d, s, Await(c)))
  {
    assert CallerOk(s, c);
    WaitingMoveKeepsInv(d, s, Apply(d, s, Await(c)), c);
  }

  lemma DecideKeepsInv(d: Dialect, s: State, c: nat)
    requires Inv(d, s) && At(s, c) && PhaseOf(s, c).Missed?
    ensures Inv(d, DecideStep(s, c))
  {
    if s.callers[c].key in s.inflight { JoinKeepsInv(d, s, c); } else { RegisterKeepsInv(d, s, c); }
  }

  lemma JoinKeepsInv(d: Dialect, s: State, c: nat)
    requires Inv(d, s) && At(s, c) && PhaseOf(s, c).Missed? && s.callers[c].key in s.inflight
    ensures Inv(d, DecideStep(s, c))
  {
    assert CallerOk(s, c) && RegistrationOk(s, s.callers[c].key);
    WaitingMoveKeepsInv(d, s, DecideStep(s, c), c);
  }

  lemma RegisterKeepsInv(d: Dialect, s: State, c: nat)
    requires Inv(d, s) && At(s, c) && PhaseOf(s, c).Missed? && s.callers[c].key !in s.inflight
    ensures Inv(d, DecideStep(s, c))
  {
    var s' := DecideStep(s, c);
    assert CallerOk(s, c);
    forall f: nat | f < |s.flights| ensures s.flights[f].owner != c {
      if s.flights[f].owner == c { NoFlightYet(d, s, c, f); }
    }
    forall k: Key ensures KeyChange(s, s', c, k) {}
    forall f: nat | f < |s.flights| ensures FlightFrame(s, s', c, f) {}
    EvolvingKeepsInv(d, s, s', c);
  }

  /** An owner changes its own phase, its own flight and, on release, its own registration. */
  lemma OwnerStepKeepsInv(d: Dialect, s: State, s': State, c: nat, f: nat)
    requires Inv(d, s) && At(s, c) && Owner(PhaseOf(s, c)) == Some(f) && f < |s.flights|
    requires |s'.callers| == |s.callers| && s'.callers == s.callers[c := s.callers[c].(phase := s'.callers[c].phase)]
    requires |s'.flights| == |s.flights| && s'.flights == s.flights[f := s'.flights[f]]
    requires Grows(s.flights[f], s'.flights[f])
    requires s'.clock == s.clock && s'.lock == s.lock
    requires s'.inflight == s.inflight || s'.inflight == s.inflight - {s.callers[c].key}
    requires CallerOk(s', c) && FlightOk(d, s', f)
    requires s.callers[c].key in s'.inflight ==> RegistrationOk(s', s.callers[c].key)
    requires forall k <- s'.cache :: (k in s.cache && s'.cache[k] == s.cache[k]) || EntryOk(s', k)
    ensures Inv(d, s')
  {
    assert CallerOk(s, c) && Owns(s, c, f);
    forall g: nat | g < |s.flights| ensures FlightFrame(s, s', c, g) {}
    forall g: nat | g < |s.flights| && s.flights[g].owner == c ensures g == f {
      NoFlightYet(d, s, c, g);
    }
    forall k: Key ensures KeyChange(s, s', c, k) {}
    forall k | k in s'.inflight && Mine(s', c, k) ensures RegistrationOk(s', k) {
      assert RegistrationOk(s, k);
    }
    EvolvingKeepsInv(d, s, s', c);
  }

  lemma BuildOkKeepsInv(d: Dialect, s: State, c: nat, v: Json)
    requires Inv(d, s) && Enabled(d, s, BuildOk(c, v))
    ensures Inv(d, Apply(d, s, BuildOk(c, v)))
  {
    var f := PhaseOf(s, c).own;
    assert CallerOk(s, c) && FlightOk(d, s, f);
    OwnerStepKeepsInv(d, s, Apply(d, s, BuildOk(c, v)), c, f);
  }

  /** An owner settles its future, or leaves it, and moves on. */
  lemma SettleKeepsInv(d: Dialect, s: State, c: nat, f: nat, future: Future, phase: Phase)
    requires Inv(d, s) && At(s, c) && Owner(PhaseOf(s, c)) == Some(f) && f < |s.flights|
    requires s.flights[f].future.Pending? || future == s.flights[f].future
    requires future.Resolved? ==> s.flights[f].produced == Some(future.value)
    requires FlownBy(s, f, phase)
    requires match phase {
               case Releasing(_, out) => out.Returned? ==> s.flights[f].produced == Some(out.value)
               case Done(out, src) => src == Stopped(f) && out.Raised?
               case Auditing(_, _) => true
               case _ => false
             }
    ensures Inv(d, Move(SetFuture(s, f, future), c, phase))
  {
    var s' := Move(SetFuture(s, f, future), c, phase);
    assert CallerOk(s, c) && FlightOk(d, s, f) && Owns(s, c, f);
    assert CallerOk(s', c);
    assert RegistrationOk(s', s.callers[c].key);
    OwnerStepKeepsInv(d, s, s', c, f);
  }

  /** Rejecting a future that is already settled changes nothing. */
  lemma RejectIsSettle(s: State, f: nat, e: Failure)
    requires f < |s.flights|
    ensures RejectPending(s, f, e) ==
            SetFuture(s, f, if s.flights[f].future.Pending? then Rejected(e) else s.flights[f].future)
    ensures s == SetFuture(s, f, s.flights[f].future)
  {
    assert s.flights == s.flights[f := s.flights[f]];
  }

  /** Loki's handler, for whatever its builder or its cache raised. */
  lemma LokiFailureKeepsInv(s: State, ev: Event)
    requires Inv(Loki, s) && Enabled(Loki, s, ev) && (ev.BuildFail? || ev.StoreFail?)
    ensures Inv(Loki, Apply(Loki, s, ev))
  {
    var c, e := ev.c, ev.error;
    var f := Owner(PhaseOf(s, c)).value;
    var left := s.flights[f].future;
    assert FlightOk(Loki, s, f);
    RejectIsSettle(s, f, e);
    var settled := if left.Pending? then Rejected(e) else left;
    SettleKeepsInv(Loki, s, c, f, settled, Releasing(f, Raised(LokiError(s, f, e))));
  }

  /** The resolver's exits that reject the future. */
  lemma RejectingKeepsInv(s: State, ev: Event)
    requires Inv(Resolver, s) && Enabled(Resolver, s, ev) && (ev.BuildFail? || ev.DecodeFail? || ev.TransportFail?)
    ensures Inv(Resolver, Apply(Resolver, s, ev))
  {
    var c, e := ev.c, ev.error;
    var f := Owner(PhaseOf(s, c)).value;
    var left := s.flights[f].future;
    assert FlightOk(Resolver, s, f);
    RejectIsSettle(s, f, e);
    var phase := match ev
                 case BuildFail(_, _) => Done(Raised(e), Stopped(f))
                 case DecodeFail(_, _) => Releasing(f, Raised(e))
                 case _ => Auditing(f, e);
    SettleKeepsInv(Resolver, s, c, f, if left.Pending? then Rejected(e) else left, phase);
  }

  /** The resolver's exits that leave the future alone. */
  lemma LeavingKeepsInv(s: State, ev: Event)
    requires Inv(Resolver, s) && Enabled(Resolver, s, ev) && (ev.Strand? || ev.StoreFail?)
    ensures Inv(Resolver, Apply(Resolver, s, ev))
  {
    var c, e := ev.c, ev.error;
    var f := Owner(PhaseOf(s, c)).value;
    assert FlightOk(Resolver, s, f);
    RejectIsSettle(s, f, e);
    SettleKeepsInv(Resolver, s, c, f, s.flights[f].future,
                   if ev.Strand? then Done(Raised(e), Stopped(f)) else Releasing(f, Raised(e)));
  }

  lemma FailureKeepsInv(d: Dialect, s: State, ev: Event)
    requires Inv(d, s) && Enabled(d, s, ev)
    requires ev.BuildFail? || ev.StoreFail? || ev.DecodeFail? || ev.Strand? || ev.TransportFail?
    ensures Inv(d, Apply(d, s, ev))
  {
    if d.Loki? {
      LokiFailureKeepsInv(s, ev);
    } else if ev.Strand? || ev.StoreFail? {
      LeavingKeepsInv(s, ev);
    } else {
      RejectingKeepsInv(s, ev);
    }
  }

  lemma AuditKeepsInv(d: Dialect, s: State, ev: Event)
    requires Inv(d, s) && Enabled(d, s, ev) && (ev.Audited? || ev.AuditFail?)
    ensures Inv(d, Apply(d, s, ev))
  {
    var c := ev.c;
    var f := PhaseOf(s, c).own;
    assert FlightOk(d, s, f);
    RejectIsSettle(s, f, InvalidState);
    SettleKeepsInv(d, s, c, f, s.flights[f].future, Apply(d, s, ev).callers[c].phase);
  }

  lemma StoreKeepsInv(d: Dialect, s: State, c: nat)
    requires Inv(d, s) && Enabled(d, s, Store(c))
    ensures Inv(d, StoreStep(s, c))
  {
    var f := PhaseOf(s, c).own;
    assert CallerOk(s, c) && FlightOk(d, s, f);
    OwnerStepKeepsInv(d, s, StoreStep(s, c), c, f);
  }

  lemma ResolveKeepsInv(d: Dialect, s: State, c: nat)
    requires Inv(d, s) && Enabled(d, s, Resolve(c))
    ensures Inv(d, ResolveStep(d, s, c))
  {
    var f, v := PhaseOf(s, c).own, PhaseOf(s, c).value;
    assert CallerOk(s, c) && FlightOk(d, s, f);
    RejectIsSettle(s, f, InvalidState);
    if s.flights[f].future.Pending? {
      SettleKeepsInv(d, s, c, f, Resolved(v), Releasing(f, Returned(v)));
    } else {
      SettleKeepsInv(d, s, c, f, s.flights[f].future, Releasing(f,
          if d.Loki? then Raised(InvalidState) else Returned(v)));
    }
  }

  lemma ReleaseKeepsInv(d: Dialect, s: State, c: nat)
    requires Inv(d, s) && Enabled(d, s, Release(c))
    ensures Inv(d, ReleaseStep(s, c))
  {
    var f := PhaseOf(s, c).own;
    assert CallerOk(s, c) && FlightOk(d, s, f);
    OwnerStepKeepsInv(d, s, ReleaseStep(s, c), c, f);
  }

  lemma CancelKeepsInv(d: Dialect, s: State, c: nat)
    requires Inv(d, s) && Enabled(d, s, Cancel(c))
    ensures Inv(d, CancelStep(d, s, c))
  {
    var phase := PhaseOf(s, c);
    assert CallerOk(s, c);
    if phase.Joined? {
      JoinerCancelKeepsInv(d, s, c, phase.joined);
    } else if Owner(phase).Some? {
      OwnerCancelKeepsInv(d, s, c, Owner(phase).value);
    } else {
      WaitingMoveKeepsInv(d, s, CancelStep(d, s, c), c);
    }
  }

  lemma OwnerCancelKeepsInv(d: Dialect, s: State, c: nat, f: nat)
    requires Inv(d, s) && Enabled(d, s, Cancel(c)) && Owner(PhaseOf(s, c)) == Some(f)
    ensures Inv(d, CancelStep(d, s, c))
  {
    if PhaseOf(s, c).Releasing? || PhaseOf(s, c).Auditing? || (PhaseOf(s, c).Building? && d.Resolver?) {
      StopKeepsInv(d, s, c, f);
    } else {
      GiveUpKeepsInv(d, s, c, f);
    }
  }

  lemma StopKeepsInv(d: Dialect, s: State, c: nat, f: nat)
    requires Inv(d, s) && Enabled(d, s, Cancel(c)) && Owner(PhaseOf(s, c)) == Some(f)
    requires PhaseOf(s, c).Releasing? || PhaseOf(s, c).Auditing? || (PhaseOf(s, c).Building? && d.Resolver?)
    ensures Inv(d, CancelStep(d, s, c))
  {
    assert CallerOk(s, c) && FlightOk(d, s, f);
    RejectIsSettle(s, f, Cancelled);
    SettleKeepsInv(d, s, c, f, s.flights[f].future, Done(Raised(Cancelled), Stopped(f)));
  }

  lemma GiveUpKeepsInv(d: Dialect, s: State, c: nat, f: nat)
    requires Inv(d, s) && Enabled(d, s, Cancel(c)) && Owner(PhaseOf(s, c)) == Some(f)
    requires PhaseOf(s, c).Storing? || PhaseOf(s, c).Stored? || (PhaseOf(s, c).Building? && d.Loki?)
    ensures Inv(d, CancelStep(d, s, c))
  {
    assert CallerOk(s, c) && FlightOk(d, s, f);
    RejectIsSettle(s, f, Cancelled);
    SettleKeepsInv(d, s, c, f, s.flights[f].future, Releasing(f, Raised(Cancelled)));
  }

  lemma JoinerCancelKeepsInv(d: Dialect, s: State, c: nat, f: nat)
    requires Inv(d, s) && Enabled(d, s, Cancel(c)) && PhaseOf(s, c) == Joined(f)
    ensures Inv(d, CancelStep(d, s, c))
  {
    var s' := CancelStep(d, s, c);
    forall g: nat | g < |s.flights| ensures s.flights[g].owner != c {
      if s.flights[g].owner == c { NoFlightYet(d, s, c, g); }
    }
    assert CallerOk(s, c);
    forall g: nat | g < |s.flights| ensures FlightFrame(s, s', c, g) {}
    forall k: Key ensures KeyChange(s, s', c, k) {}
    EvolvingKeepsInv(d, s, s', c);
  }

  lemma TickKeepsInv(d: Dialect, s: State, n: nat)
    requires Inv(d, s)
    ensures Inv(d, s.(clock := s.clock + n))
  {
    var s' := s.(clock := s.clock + n);
    forall c: nat | At(s', c) ensures CallerOk(s', c) {
      assert CallerOk(s, c);
    }
    forall f: nat | f < |s'.flights| ensures FlightOk(d, s', f) {
      assert FlightOk(d, s, f);
    }
    forall k | k in s'.cache ensures EntryOk(s', k) {
      assert EntryOk(s, k);
    }
  }

  lemma ArriveKeepsInv(d: Dialect, s: State, key: Key, ttl: nat)
    requires Inv(d, s)
    ensures Inv(d, s.(callers := s.callers + [Caller(key, ttl, Arrived)]))
  {
    var s' := s.(callers := s.callers + [Caller(key, ttl, Arrived)]);
    forall f: nat | f < |s'.flights| ensures FlightOk(d, s', f) && OwnerTtl(s', f) == OwnerTtl(s, f) {
      assert FlightOk(d, s, f);
    }
    forall c: nat | At(s', c) ensures CallerOk(s', c) {
      if At(s, c) { assert CallerOk(s, c); }
    }
    forall k | k in s'.cache ensures EntryOk(s', k) {
      assert EntryOk(s, k);
    }
    forall k | k in s'.inflight ensures RegistrationOk(s', k) {
      assert RegistrationOk(s, k);
    }
  }

  lemma StepKeepsInv(d: Dialect, s: State, ev: Event)
    requires Inv(d, s) && Enabled(d, s, ev)
    ensures Inv(d, Apply(d, s, ev))
  {
    match ev
    case Tick(n) => TickKeepsInv(d, s, n);
    case Arrive(key, ttl) => ArriveKeepsInv(d, s, key, ttl);
    case FirstRead(c) => FirstReadKeepsInv(d, s, c);
    case Acquire(_) => LockingKeepsInv(d, s, ev);
    case Reread(c) => RereadKeepsInv(d, s, c);
    case Decide(c) => DecideKeepsInv(d, s, c);
    case Await(c) => AwaitKeepsInv(d, s, c);
    case BuildOk(c, v) => BuildOkKeepsInv(d, s, c, v);
    case BuildFail(_, _) => FailureKeepsInv(d, s, ev);
    case TransportFail(_, _) => FailureKeepsInv(d, s, ev);
    case Audited(_) => AuditKeepsInv(d, s, ev);
    case AuditFail(_, _) => AuditKeepsInv(d, s, ev);
    case Strand(_, _) => FailureKeepsInv(d, s, ev);
    case DecodeFail(_, _) => FailureKeepsInv(d, s, ev);
    case Store(c) => StoreKeepsInv(d, s, c);
    case StoreFail(_, _) => FailureKeepsInv(d, s, ev);
    case Resolve(c) => ResolveKeepsInv(d, s, c);
    case Release(c) => ReleaseKeepsInv(d, s, c);
    case ReadFail(_, _) => LockingKeepsInv(d, s, ev);
    case Cancel(c) => CancelKeepsInv(d, s, c);
  }

  /** Every reachable state, of either service, with or without cancellations. */
  lemma {:induction false} RunKeepsInv(d: Dialect, evs: seq<Event>)
    requires Legal(d, evs)
    ensures Inv(d, Exec(d, evs).value)
  {
    if evs != [] {
      var n := |evs| - 1;
      RunKeepsInv(d, evs[..n]);
      StepKeepsInv(d, Exec(d, evs[..n]).value, evs[n]);
    }
  }
}
