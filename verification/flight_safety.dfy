/** What holds of single-flight reads in every run, cancellations included, and what
    joins the outcome of a flight to the outcome of its callers when nobody is cancelled. */
module FlightSafety {
  import opened Options
  import opened SingleFlight

  // ------------------------------------------------------------------ one owner per key

  /** Two running owners of one key are the same caller, and the registered flight is theirs. */
  lemma OneOwnerPerKey(d: Dialect, evs: seq<Event>, a: nat, b: nat)
    requires Legal(d, evs)
    ensures var s := Exec(d, evs).value;
            Running(s, a) ==>
            Flying(s, a) && s.callers[a].key in s.inflight &&
            Owner(PhaseOf(s, a)) == Some(s.inflight[s.callers[a].key]) &&
            (Running(s, b) && s.callers[a].key == s.callers[b].key ==> a == b)
  {
    var s := Exec(d, evs).value;
    RunKeepsInv(d, evs);
    if Running(s, a) {
      assert CallerOk(s, a);
      if Running(s, b) { assert CallerOk(s, b); }
    }
  }

  /** The final pop takes out the releasing caller's own flight and no other registration. */
  lemma ReleaseRemovesOwnFlight(d: Dialect, evs: seq<Event>, c: nat)
    requires Legal(d, evs + [Release(c)])
    ensures Legal(d, evs)
    ensures var s, s' := Exec(d, evs).value, Exec(d, evs + [Release(c)]).value;
            At(s, c) && PhaseOf(s, c).Releasing? &&
            var k := s.callers[c].key;
            k in s.inflight && s.inflight[k] == PhaseOf(s, c).own &&
            k !in s'.inflight && forall j :: j != k ==> KeyFrame(s, s', j)
  {
    assert (evs + [Release(c)])[..|evs|] == evs;
    RunKeepsInv(d, evs);
    ReleaseStepFrame(d, Exec(d, evs).value, c);
  }

  lemma ReleaseStepFrame(d: Dialect, s: State, c: nat)
    requires Inv(d, s) && Enabled(d, s, Release(c))
    ensures var k, s' := s.callers[c].key, Apply(d, s, Release(c));
            k in s.inflight && s.inflight[k] == PhaseOf(s, c).own &&
            k !in s'.inflight && forall j :: j != k ==> KeyFrame(s, s', j)
  {
    assert CallerOk(s, c);
  }

  /** A finished owner's flight is not the one registered. */
  lemma RegisteredIsNotOver(d: Dialect, s: State, c: nat, k: Key)
    requires Inv(d, s) && At(s, c) && PhaseOf(s, c).Done? && PhaseOf(s, c).source.Owned? && k in s.inflight
    ensures s.inflight[k] != PhaseOf(s, c).source.own
  {
    assert RegistrationOk(s, k) && CallerOk(s, c);
  }

  /** Reading a key does not change what is read of it or of any other key, and leaves nothing
      that has expired. */
  lemma ReadingDisturbsNothing(s: State, key: Key, other: Key)
    ensures Read(DropExpired(s, key), other) == Read(s, other)
    ensures key in DropExpired(s, key).cache ==> key in s.cache && s.clock <= s.cache[key].expires
    ensures key in s.cache && s.clock <= s.cache[key].expires && s.cache[key].value != Null ==>
              Read(s, key) == Some(s.cache[key])
  {
  }

  // ------------------------------------------------------------------ provenance

  predicate BuiltIn(evs: seq<Event>, i: nat, owner: nat, v: Json) {
    i < |evs| && evs[i] == BuildOk(owner, v)
  }

  lemma OnlyBuildProduces(d: Dialect, s: State, ev: Event, f: nat)
    requires Enabled(d, s, ev) && !ev.BuildOk?
    requires f < |Apply(d, s, ev).flights| && Apply(d, s, ev).flights[f].produced.Some?
    ensures f < |s.flights| && s.flights[f].produced == Apply(d, s, ev).flights[f].produced
  {
  }

  lemma BuildProducesOwn(d: Dialect, s: State, ev: Event, f: nat, v: Json)
    requires Inv(d, s) && Enabled(d, s, ev) && ev.BuildOk?
    requires f < |Apply(d, s, ev).flights| && Apply(d, s, ev).flights[f].produced == Some(v)
    ensures f < |s.flights|
    ensures s.flights[f].produced == Some(v) || ev == BuildOk(s.flights[f].owner, v)
  {
    assert CallerOk(s, ev.c);
  }

  lemma ReaderKeepsOwners(d: Dialect, s: State, ev: Event, f: nat)
    requires Enabled(d, s, ev) && Reads(ev) && f < |s.flights|
    ensures f < |Apply(d, s, ev).flights| && Apply(d, s, ev).flights[f].owner == s.flights[f].owner
  {
  }

  lemma OwnerIsFixed(d: Dialect, s: State, ev: Event, f: nat)
    requires Enabled(d, s, ev) && f < |s.flights|
    ensures f < |Apply(d, s, ev).flights| && Apply(d, s, ev).flights[f].owner == s.flights[f].owner
  {
    if Reads(ev) { ReaderKeepsOwners(d, s, ev, f); }
  }

  /** A flight's product is the value of a build of its owner. */
  lemma {:induction false} ProducedByBuild(d: Dialect, evs: seq<Event>, f: nat, v: Json)
    requires Legal(d, evs)
    requires f < |Exec(d, evs).value.flights| && Exec(d, evs).value.flights[f].produced == Some(v)
    ensures exists i: nat :: BuiltIn(evs, i, Exec(d, evs).value.flights[f].owner, v)
  {
    if evs != [] {
      var n := |evs| - 1;
      var s := Exec(d, evs[..n]).value;
      RunKeepsInv(d, evs[..n]);
      if evs[n].BuildOk? { BuildProducesOwn(d, s, evs[n], f, v); } else { OnlyBuildProduces(d, s, evs[n], f); }
      OwnerIsFixed(d, s, evs[n], f);
      if f < |s.flights| && s.flights[f].produced == Some(v) {
        ProducedByBuild(d, evs[..n], f, v);
        var i: nat :| BuiltIn(evs[..n], i, s.flights[f].owner, v);
        assert BuiltIn(evs, i, s.flights[f].owner, v);
      } else {
        assert BuiltIn(evs, n, Exec(d, evs).value.flights[f].owner, v);
      }
    }
  }

  /** Caller c took part in flight f, or was served from an entry f stored at most its
      ttl before the read. */
  predicate ServedBy(s: State, c: nat, f: nat)
    requires At(s, c)
  {
    f < |s.flights| && PhaseOf(s, c).Done? &&
    match PhaseOf(s, c).source
    case Cached(g, at) =>
      f == g && s.flights[f].storedAt.Some? &&
      s.flights[f].storedAt.value <= at <= s.flights[f].storedAt.value + OwnerTtl(s, f)
    case Shared(g) => f == g
    case Owned(g) => f == g
    case _ => false
  }

  /** Every returned value was built during the run, by an owner of the caller's own key,
      in a flight the caller joined, ran, or read back from the cache before it expired. */
  lemma ReturnedWasBuilt(d: Dialect, evs: seq<Event>, c: nat)
    requires Legal(d, evs) && At(Exec(d, evs).value, c)
    requires PhaseOf(Exec(d, evs).value, c).Done? && PhaseOf(Exec(d, evs).value, c).outcome.Returned?
    ensures var s := Exec(d, evs).value;
            exists f: nat, i: nat ::
              ServedBy(s, c, f) && s.flights[f].key == s.callers[c].key &&
              BuiltIn(evs, i, s.flights[f].owner, PhaseOf(s, c).outcome.value)
  {
    var s := Exec(d, evs).value;
    var v := PhaseOf(s, c).outcome.value;
    RunKeepsInv(d, evs);
    assert CallerOk(s, c);
    var f := match PhaseOf(s, c).source case Cached(g, _) => g case Shared(g) => g case Owned(g) => g case _ => 0;
    assert FlightOk(d, s, f);
    ProducedByBuild(d, evs, f, v);
    var i: nat :| BuiltIn(evs, i, s.flights[f].owner, v);
    assert ServedBy(s, c, f) && s.flights[f].key == s.callers[c].key && BuiltIn(evs, i, s.flights[f].owner, v);
  }

  // ------------------------------------------------------------------ finished callers stay finished

  lemma DoneIsFinal(d: Dialect, s: State, ev: Event, c: nat)
    requires Enabled(d, s, ev) && At(s, c) && PhaseOf(s, c).Done?
    ensures At(Apply(d, s, ev), c) && Apply(d, s, ev).callers[c] == s.callers[c]
  {
    if !ev.Tick? && !ev.Arrive? { MovesAlone(d, s, ev); }
  }

  lemma {:induction false} DoneForever(d: Dialect, evs: seq<Event>, more: seq<Event>, c: nat)
    requires Legal(d, evs + more) && Legal(d, evs)
    requires At(Exec(d, evs).value, c) && PhaseOf(Exec(d, evs).value, c).Done?
    ensures At(Exec(d, evs + more).value, c)
    ensures Exec(d, evs + more).value.callers[c] == Exec(d, evs).value.callers[c]
  {
    if more == [] {
      assert evs + more == evs;
    } else {
      var n := |more| - 1;
      assert (evs + more)[..|evs| + n] == evs + more[..n];
      DoneForever(d, evs, more[..n], c);
      DoneIsFinal(d, Exec(d, evs + more[..n]).value, more[n], c);
    }
  }

  // ------------------------------------------------------------------ runs without cancellation

  predicate IsLost(out: Outcome, future: Future) {
    out.Raised? && out.error.Unaudited? && future.Rejected? && future.error.Error?
  }

  /** The future of a flight agrees with the outcome of the caller that runs it or ran it. */
  predicate Agrees(d: Dialect, s: State, f: nat, out: Outcome) {
    f < |s.flights| &&
    if s.flights[f].future.Pending? then d.Resolver? && out.Raised? else OutcomeOf(s.flights[f].future) == out
  }

  predicate CoherentCaller(d: Dialect, s: State, c: nat)
    requires At(s, c)
  {
    match PhaseOf(s, c)
    case Building(f) => f < |s.flights| && s.flights[f].future.Pending?
    case Auditing(f, e) => d.Resolver? && f < |s.flights| && s.flights[f].future == Rejected(e) && e.Error?
    case Storing(f, _) => f < |s.flights| && s.flights[f].future.Pending?
    case Stored(f, _) => f < |s.flights| && s.flights[f].future.Pending?
    case Releasing(f, out) => Agrees(d, s, f, out)
    case Done(out, src) =>
      (match src
       case Owned(f) => Agrees(d, s, f, out)
       case Stopped(f) => d.Resolver? && (Agrees(d, s, f, out) || (f < |s.flights| && IsLost(out, s.flights[f].future)))
       case _ => true)
    case _ => true
  }

  ghost predicate Coherent(d: Dialect, s: State) {
    forall c: nat :: At(s, c) ==> CoherentCaller(d, s, c)
  }

  /** A step of c that leaves everybody else's flight alone. */
  lemma CoherentAfter(d: Dialect, s: State, s': State, c: nat)
    requires Inv(d, s) && Coherent(d, s) && At(s, c) && |s'.callers| == |s.callers|
    requires forall i: nat :: At(s, i) && i != c ==> s'.callers[i] == s.callers[i]
    requires |s.flights| <= |s'.flights|
    requires forall f: nat :: f < |s.flights| && s.flights[f].owner != c ==> s'.flights[f] == s.flights[f]
    requires CoherentCaller(d, s', c)
    ensures Coherent(d, s')
  {
    forall i: nat | At(s', i) ensures CoherentCaller(d, s', i) {
      if i != c { assert CoherentCaller(d, s, i) && CallerOk(s, i); }
    }
  }

  lemma ReadingKeepsCoherence(d: Dialect, s: State, ev: Event)
    requires Inv(d, s) && Coherent(d, s) && Enabled(d, s, ev)
    requires ev.FirstRead? || ev.Acquire? || ev.Reread? || ev.ReadFail? || ev.Await?
    ensures Coherent(d, Apply(d, s, ev))
  {
    CoherentAfter(d, s, Apply(d, s, ev), ev.c);
  }

  lemma DecidingKeepsCoherence(d: Dialect, s: State, ev: Event)
    requires Inv(d, s) && Coherent(d, s) && Enabled(d, s, ev) && ev.Decide?
    ensures Coherent(d, Apply(d, s, ev))
  {
    CoherentAfter(d, s, Apply(d, s, ev), ev.c);
  }

  lemma OwningKeepsCoherence(d: Dialect, s: State, ev: Event)
    requires Inv(d, s) && Coherent(d, s) && Enabled(d, s, ev)
    requires ev.BuildOk? || ev.Strand? || ev.Store?
    ensures Coherent(d, Apply(d, s, ev))
  {
    assert CoherentCaller(d, s, ev.c) && CallerOk(s, ev.c);
    CoherentAfter(d, s, Apply(d, s, ev), ev.c);
  }

  lemma LeavingKeepsCoherence(d: Dialect, s: State, ev: Event)
    requires Inv(d, s) && Coherent(d, s) && Enabled(d, s, ev) && (ev.Resolve? || ev.Release?)
    ensures Coherent(d, Apply(d, s, ev))
  {
    assert CoherentCaller(d, s, ev.c) && CallerOk(s, ev.c);
    CoherentAfter(d, s, Apply(d, s, ev), ev.c);
  }

  lemma FailingKeepsCoherence(d: Dialect, s: State, ev: Event)
    requires Inv(d, s) && Coherent(d, s) && Enabled(d, s, ev)
    requires ev.BuildFail? || ev.DecodeFail?
    ensures Coherent(d, Apply(d, s, ev))
  {
    assert CoherentCaller(d, s, ev.c) && CallerOk(s, ev.c);
    CoherentAfter(d, s, Apply(d, s, ev), ev.c);
  }

  lemma StoreFailKeepsCoherence(d: Dialect, s: State, ev: Event)
    requires Inv(d, s) && Coherent(d, s) && Enabled(d, s, ev) && ev.StoreFail?
    ensures Coherent(d, Apply(d, s, ev))
  {
    assert CoherentCaller(d, s, ev.c) && CallerOk(s, ev.c);
    CoherentAfter(d, s, Apply(d, s, ev), ev.c);
  }

  lemma AuditingKeepsCoherence(d: Dialect, s: State, ev: Event)
    requires Inv(d, s) && Coherent(d, s) && Enabled(d, s, ev)
    requires ev.TransportFail? || ev.Audited? || ev.AuditFail?
    ensures Coherent(d, Apply(d, s, ev))
  {
    assert CoherentCaller(d, s, ev.c) && CallerOk(s, ev.c);
    CoherentAfter(d, s, Apply(d, s, ev), ev.c);
  }

  lemma StepKeepsCoherence(d: Dialect, s: State, ev: Event)
    requires Inv(d, s) && Coherent(d, s) && Enabled(d, s, ev) && !ev.Cancel?
    ensures Coherent(d, Apply(d, s, ev))
  {
    match ev
    case Tick(_) =>
      forall c: nat | At(s, c) ensures CoherentCaller(d, Apply(d, s, ev), c) { assert CoherentCaller(d, s, c); }
    case Arrive(_, _) =>
      forall c: nat | At(s, c) ensures CoherentCaller(d, Apply(d, s, ev), c) { assert CoherentCaller(d, s, c); }
    case Decide(_) => DecidingKeepsCoherence(d, s, ev);
    case BuildOk(_, _) => OwningKeepsCoherence(d, s, ev);
    case TransportFail(_, _) => AuditingKeepsCoherence(d, s, ev);
    case Audited(_) => AuditingKeepsCoherence(d, s, ev);
    case AuditFail(_, _) => AuditingKeepsCoherence(d, s, ev);
    case Strand(_, _) => OwningKeepsCoherence(d, s, ev);
    case Store(_) => OwningKeepsCoherence(d, s, ev);
    case Resolve(_) => LeavingKeepsCoherence(d, s, ev);
    case Release(_) => LeavingKeepsCoherence(d, s, ev);
    case BuildFail(_, _) => FailingKeepsCoherence(d, s, ev);
    case DecodeFail(_, _) => FailingKeepsCoherence(d, s, ev);
    case StoreFail(_, _) => StoreFailKeepsCoherence(d, s, ev);
    case _ => ReadingKeepsCoherence(d, s, ev);
  }

  lemma {:induction false} RunIsCoherent(d: Dialect, evs: seq<Event>)
    requires Legal(d, evs) && Uncancelled(evs)
    ensures Coherent(d, Exec(d, evs).value)
  {
    if evs != [] {
      var n := |evs| - 1;
      RunIsCoherent(d, evs[..n]);
      RunKeepsInv(d, evs[..n]);
      StepKeepsCoherence(d, Exec(d, evs[..n]).value, evs[n]);
    }
  }

  // ------------------------------------------------------------------ flights as seen by their owners

  lemma ReaderLeavesFlights(d: Dialect, s: State, ev: Event)
    requires Enabled(d, s, ev) && Reads(ev) && !ev.Cancel?
    ensures s.flights <= Apply(d, s, ev).flights
  {
  }

  lemma OwnerTouchesOwnFlight(d: Dialect, s: State, ev: Event, f: nat)
    requires Inv(d, s) && Enabled(d, s, ev) && !Reads(ev) && !ev.Tick? && !ev.Arrive? && f < |s.flights|
    requires s.flights[f].owner != ev.c
    ensures f < |Apply(d, s, ev).flights| && Apply(d, s, ev).flights[f] == s.flights[f]
  {
    assert CallerOk(s, ev.c);
  }

  /** One step, as seen by a caller that does not take it. */
  lemma BystanderFrame(d: Dialect, s: State, ev: Event, c: nat)
    requires Inv(d, s) && Enabled(d, s, ev) && !ev.Cancel? && At(s, c)
    requires ev.Tick? || ev.Arrive? || ev.c != c
    ensures var s' := Apply(d, s, ev);
            At(s', c) && s'.callers[c] == s.callers[c] && |s.flights| <= |s'.flights| &&
            forall f: nat :: f < |s.flights| && s.flights[f].owner == c ==> s'.flights[f] == s.flights[f]
  {
    if !ev.Tick? && !ev.Arrive? {
      MovesAlone(d, s, ev);
      forall f: nat | f < |s.flights|
        ensures f < |Apply(d, s, ev).flights|
        ensures s.flights[f].owner == c ==> Apply(d, s, ev).flights[f] == s.flights[f]
      {
        if Reads(ev) { ReaderLeavesFlights(d, s, ev); }
        else if s.flights[f].owner == c { OwnerTouchesOwnFlight(d, s, ev, f); }
        else { OwnerIsFixed(d, s, ev, f); }
      }
      FlightsRemain(d, s, ev);
    }
  }

  lemma FlightsRemain(d: Dialect, s: State, ev: Event)
    requires Enabled(d, s, ev)
    ensures |s.flights| <= |Apply(d, s, ev).flights|
  {
    if s.flights != [] { OwnerIsFixed(d, s, ev, |s.flights| - 1); }
  }

  // ------------------------------------------------------------------ who ends differently

  /** Caller c could not log a transport failure. */
  predicate AuditLost(evs: seq<Event>, c: nat) {
    exists i | 0 <= i < |evs| :: evs[i].AuditFail? && evs[i].c == c
  }

  lemma AuditLostSnoc(evs: seq<Event>, c: nat)
    requires evs != []
    ensures var last := evs[|evs| - 1];
            AuditLost(evs, c) <==> AuditLost(evs[..|evs| - 1], c) || (last.AuditFail? && last.c == c)
  {
    var n := |evs| - 1;
    if AuditLost(evs[..n], c) {
      var i :| 0 <= i < n && evs[..n][i].AuditFail? && evs[..n][i].c == c;
      assert evs[i].AuditFail? && evs[i].c == c;
    }
    if AuditLost(evs, c) && !(evs[n].AuditFail? && evs[n].c == c) {
      var i :| 0 <= i < |evs| && evs[i].AuditFail? && evs[i].c == c;
      assert evs[..n][i].AuditFail? && evs[..n][i].c == c;
    }
  }

  /** The owner's exception is the database's while its flight holds the transport's. */
  predicate EndedLost(s: State, c: nat) {
    At(s, c) && PhaseOf(s, c).Done? && PhaseOf(s, c).source.Stopped? &&
    PhaseOf(s, c).source.left < |s.flights| &&
    IsLost(PhaseOf(s, c).outcome, s.flights[PhaseOf(s, c).source.left].future)
  }

  lemma OwnStepLost(d: Dialect, s: State, ev: Event)
    requires Inv(d, s) && Coherent(d, s) && Enabled(d, s, ev) && !ev.Tick? && !ev.Arrive? && !ev.Cancel?
    ensures !EndedLost(s, ev.c)
    ensures EndedLost(Apply(d, s, ev), ev.c) <==> ev.AuditFail?
  {
    MovesAlone(d, s, ev);
    assert CoherentCaller(d, s, ev.c) && CallerOk(s, ev.c);
  }

  lemma StepLost(d: Dialect, s: State, ev: Event, c: nat)
    requires Inv(d, s) && Coherent(d, s) && Enabled(d, s, ev) && !ev.Cancel?
    ensures EndedLost(Apply(d, s, ev), c) <==> EndedLost(s, c) || (ev.AuditFail? && ev.c == c)
  {
    if ev.Tick? || ev.Arrive? || ev.c != c {
      if At(s, c) {
        BystanderFrame(d, s, ev, c);
        assert CallerOk(s, c);
      } else {
        NewcomerIsFresh(d, s, ev, c);
      }
    } else {
      OwnStepLost(d, s, ev);
    }
  }

  lemma NewcomerIsFresh(d: Dialect, s: State, ev: Event, c: nat)
    requires Enabled(d, s, ev) && !At(s, c)
    ensures At(Apply(d, s, ev), c) ==> PhaseOf(Apply(d, s, ev), c).Arrived?
    ensures ev.Tick? || ev.Arrive? || ev.c != c
  {
    if !ev.Tick? && !ev.Arrive? { MovesAlone(d, s, ev); }
  }

  lemma {:induction false} RunLost(d: Dialect, evs: seq<Event>, c: nat)
    requires Legal(d, evs) && Uncancelled(evs)
    ensures EndedLost(Exec(d, evs).value, c) <==> AuditLost(evs, c)
  {
    if evs != [] {
      var n := |evs| - 1;
      var s := Exec(d, evs[..n]).value;
      RunLost(d, evs[..n], c);
      RunKeepsInv(d, evs[..n]);
      RunIsCoherent(d, evs[..n]);
      StepLost(d, s, evs[n], c);
      AuditLostSnoc(evs, c);
    }
  }

  predicate TookPartIn(s: State, c: nat, f: nat) {
    At(s, c) && PhaseOf(s, c).Done? &&
    (PhaseOf(s, c).source == Shared(f) || PhaseOf(s, c).source == Owned(f) || PhaseOf(s, c).source == Stopped(f))
  }

  lemma JoinerOutcome(d: Dialect, s: State, c: nat, f: nat)
    requires Inv(d, s) && TookPartIn(s, c, f)
    ensures f < |s.flights| && (s.flights[f].owner == c <==> PhaseOf(s, c).source != Shared(f))
    ensures s.flights[f].owner != c ==>
              !s.flights[f].future.Pending? && PhaseOf(s, c).outcome == OutcomeOf(s.flights[f].future)
  {
    assert CallerOk(s, c);
    if s.flights[f].owner == c { assert FlightOk(d, s, f); }
  }

  lemma OwnerOutcome(d: Dialect, s: State, c: nat, f: nat)
    requires Inv(d, s) && Coherent(d, s) && TookPartIn(s, c, f) && f < |s.flights| && s.flights[f].owner == c
    requires !s.flights[f].future.Pending?
    ensures PhaseOf(s, c).outcome == OutcomeOf(s.flights[f].future) <==> !EndedLost(s, c)
  {
    JoinerOutcome(d, s, c, f);
    assert CoherentCaller(d, s, c);
  }

  /** Two callers that took part in a flight end with the same value or the same exception,
      unless one of them ran the flight, its upstream request failed in transport, and the
      failure could not be logged: then the other got the transport's error, and it did not. */
  lemma SameOutcomeForAll(d: Dialect, evs: seq<Event>, f: nat, a: nat, b: nat)
    requires Legal(d, evs) && Uncancelled(evs)
    requires TookPartIn(Exec(d, evs).value, a, f) && TookPartIn(Exec(d, evs).value, b, f)
    ensures var s := Exec(d, evs).value;
            f < |s.flights| && var owner := s.flights[f].owner;
            (PhaseOf(s, a).outcome == PhaseOf(s, b).outcome <==>
               a == b || !AuditLost(evs, owner) || (a != owner && b != owner))
  {
    var s := Exec(d, evs).value;
    RunKeepsInv(d, evs);
    RunIsCoherent(d, evs);
    JoinerOutcome(d, s, a, f);
    JoinerOutcome(d, s, b, f);
    RunLost(d, evs, s.flights[f].owner);
    if a != b && s.flights[f].owner == a { OwnerOutcome(d, s, a, f); }
    if a != b && s.flights[f].owner == b { OwnerOutcome(d, s, b, f); }
  }

  /** Loki logs nothing between settling the future and raising: there everybody agrees. */
  lemma SameOutcomeInLoki(evs: seq<Event>, f: nat, a: nat, b: nat)
    requires Legal(Loki, evs) && Uncancelled(evs)
    requires TookPartIn(Exec(Loki, evs).value, a, f) && TookPartIn(Exec(Loki, evs).value, b, f)
    ensures PhaseOf(Exec(Loki, evs).value, a).outcome == PhaseOf(Exec(Loki, evs).value, b).outcome
  {
    var s := Exec(Loki, evs).value;
    RunKeepsInv(Loki, evs);
    RunIsCoherent(Loki, evs);
    SameOutcomeForAll(Loki, evs, f, a, b);
    RunLost(Loki, evs, s.flights[f].owner);
    if EndedLost(s, s.flights[f].owner) { assert CoherentCaller(Loki, s, s.flights[f].owner); }
  }

  lemma ExecSnoc(d: Dialect, evs: seq<Event>, ev: Event)
    requires Legal(d, evs) && Enabled(d, Exec(d, evs).value, ev)
    ensures Exec(d, evs + [ev]) == Some(Apply(d, Exec(d, evs).value, ev))
  {
    assert (evs + [ev])[..|evs|] == evs;
  }

  /** It happens to every joiner of a flight whose request fails in transport and whose
      owner then cannot log it: the joiner gets the transport's error, the owner raises
      what the audit log's database raised. */
  lemma OutcomesCanDiffer(evs: seq<Event>, owner: nat, joiner: nat, error: Failure, cause: string)
    returns (after: seq<Event>)
    requires Legal(Resolver, evs) && error.Error?
    requires var s := Exec(Resolver, evs).value;
             Flying(s, owner) && PhaseOf(s, owner).Building? && s.flights[PhaseOf(s, owner).own].future.Pending? &&
             At(s, joiner) && PhaseOf(s, joiner) == Joined(PhaseOf(s, owner).own)
    ensures after == evs + [TransportFail(owner, error)] + [AuditFail(owner, cause)] + [Await(joiner)]
    ensures Legal(Resolver, after)
    ensures var s := Exec(Resolver, after).value;
            At(s, owner) && At(s, joiner) &&
            PhaseOf(s, joiner) == Done(Raised(error), Shared(PhaseOf(Exec(Resolver, evs).value, owner).own)) &&
            PhaseOf(s, owner).Done? && PhaseOf(s, owner).outcome == Raised(Unaudited(cause))
  {
    var f := PhaseOf(Exec(Resolver, evs).value, owner).own;
    ExecSnoc(Resolver, evs, TransportFail(owner, error));
    var failed := evs + [TransportFail(owner, error)];
    ExecSnoc(Resolver, failed, AuditFail(owner, cause));
    var raised := failed + [AuditFail(owner, cause)];
    assert Exec(Resolver, raised).value.flights[f].future == Rejected(error);
    ExecSnoc(Resolver, raised, Await(joiner));
    after := raised + [Await(joiner)];
  }
}
