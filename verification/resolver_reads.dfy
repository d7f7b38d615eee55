/** ResolverProxyService.request_json for cacheable GETs: only the success path
    deregisters a flight, so an early exit of the owner parks its key for good. */
module ResolverReads {
  import opened Options
  import opened SingleFlight
  import opened FlightSafety
  import opened FlightProgress

  // ------------------------------------------------------------------ what stays registered

  predicate Parked(s: State, c: nat) {
    At(s, c) && PhaseOf(s, c).Done? && PhaseOf(s, c).source.Stopped?
  }

  /** In every run of either service, a key without a running owner is registered
      exactly when an owner of that key left without deregistering. */
  lemma RegisteredAtRest(d: Dialect, evs: seq<Event>, k: Key)
    requires Legal(d, evs)
    requires forall c: nat :: Running(Exec(d, evs).value, c) ==> Exec(d, evs).value.callers[c].key != k
    ensures var s := Exec(d, evs).value;
            k in s.inflight <==> exists c: nat :: Parked(s, c) && s.callers[c].key == k
  {
    var s := Exec(d, evs).value;
    RunKeepsInv(d, evs);
    if k in s.inflight {
      assert RegistrationOk(s, k);
      var c := s.flights[s.inflight[k]].owner;
      assert FlightOk(d, s, s.inflight[k]) && CallerOk(s, c);
      assert Parked(s, c) && s.callers[c].key == k;
    }
    if c: nat :| Parked(s, c) && s.callers[c].key == k {
      assert CallerOk(s, c);
    }
  }

  /** A parked key stays parked: whatever happens later, its flight is still the one
      registered and no caller of that key contacts upstream again. */
  lemma ParkedForever(d: Dialect, evs: seq<Event>, more: seq<Event>, c: nat, other: nat)
    requires Legal(d, evs) && Legal(d, evs + more) && Parked(Exec(d, evs).value, c)
    ensures var s, s' := Exec(d, evs).value, Exec(d, evs + more).value;
            var k := s.callers[c].key;
            k in s'.inflight && s'.inflight[k] == PhaseOf(s, c).source.left &&
            (At(s', other) && s'.callers[other].key == k ==> !Running(s', other)) &&
            (At(s', other) && s'.callers[other].key == k && PhaseOf(s', other).Missed? ==>
               PhaseOf(Apply(d, s', Decide(other)), other) == Joined(PhaseOf(s, c).source.left))
  {
    var s' := Exec(d, evs + more).value;
    DoneForever(d, evs, more, c);
    RunKeepsInv(d, evs + more);
    assert CallerOk(s', c);
    if At(s', other) { assert CallerOk(s', other); }
  }

  // ------------------------------------------------------------------ which events park a key or hang its readers

  /** Status >= 400 (BuildFail), transport failure, and (Strand) a signing failure or a
      failing audit of the completed request. */
  predicate StopsEarly(ev: Event, c: nat) {
    (ev.BuildFail? && ev.c == c) || (ev.TransportFail? && ev.c == c) || (ev.Strand? && ev.c == c)
  }

  /** Exits that leave the future unsettled: a signing failure, a failing audit of the
      completed request, a cache write that fails with anything but a ValueError. */
  predicate LeavesUnsettled(ev: Event, c: nat) {
    (ev.Strand? && ev.c == c) || (ev.StoreFail? && ev.c == c)
  }

  predicate StoppedBy(evs: seq<Event>, c: nat) { exists i | 0 <= i < |evs| :: StopsEarly(evs[i], c) }

  predicate UnsettledBy(evs: seq<Event>, c: nat) { exists i | 0 <= i < |evs| :: LeavesUnsettled(evs[i], c) }

  lemma HistoryGrows(evs: seq<Event>, c: nat)
    requires evs != []
    ensures var past, ev := evs[..|evs| - 1], evs[|evs| - 1];
            (StoppedBy(evs, c) <==> StoppedBy(past, c) || StopsEarly(ev, c)) &&
            (UnsettledBy(evs, c) <==> UnsettledBy(past, c) || LeavesUnsettled(ev, c))
  {
    var n := |evs| - 1;
    var past := evs[..n];
    if StoppedBy(past, c) {
      var i :| 0 <= i < |past| && StopsEarly(past[i], c);
      assert StopsEarly(evs[i], c);
    }
    if UnsettledBy(past, c) {
      var i :| 0 <= i < |past| && LeavesUnsettled(past[i], c);
      assert LeavesUnsettled(evs[i], c);
    }
    if StoppedBy(evs, c) && !StopsEarly(evs[n], c) {
      var i :| 0 <= i < |evs| && StopsEarly(evs[i], c);
      assert StopsEarly(past[i], c);
    }
    if UnsettledBy(evs, c) && !LeavesUnsettled(evs[n], c) {
      var i :| 0 <= i < |evs| && LeavesUnsettled(evs[i], c);
      assert LeavesUnsettled(past[i], c);
    }
  }

  predicate Unsettled(s: State, f: nat) { f < |s.flights| && s.flights[f].future.Pending? }

  /** What a caller's phase says about the events that ended its flight. */
  predicate HistoryOk(s: State, c: nat, stopped: bool, unsettled: bool)
    requires At(s, c)
  {
    match PhaseOf(s, c)
    case Auditing(f, _) => stopped && !unsettled && !Unsettled(s, f)
    case Releasing(f, _) => !stopped && (unsettled <==> Unsettled(s, f))
    case Done(_, src) =>
      (match src
       case Owned(f) => !stopped && (unsettled <==> Unsettled(s, f))
       case Stopped(f) => stopped && (unsettled <==> Unsettled(s, f))
       case _ => !stopped && !unsettled)
    case _ => !stopped && !unsettled
  }

  lemma HistorySurvives(s: State, s': State, c: nat, stopped: bool, unsettled: bool)
    requires At(s, c) && CallerOk(s, c) && HistoryOk(s, c, stopped, unsettled)
    requires At(s', c) && s'.callers[c] == s.callers[c] && |s.flights| <= |s'.flights|
    requires forall f: nat :: f < |s.flights| && s.flights[f].owner == c ==> s'.flights[f] == s.flights[f]
    ensures HistoryOk(s', c, stopped, unsettled)
  {
  }

  lemma ReaderHistory(s: State, ev: Event)
    requires Inv(Resolver, s) && Enabled(Resolver, s, ev) && Reads(ev) && !ev.Cancel?
    requires HistoryOk(s, ev.c, false, false)
    ensures HistoryOk(Apply(Resolver, s, ev), ev.c, false, false)
  {
    MovesAlone(Resolver, s, ev);
  }

  lemma BuilderHistory(s: State, ev: Event)
    requires ev.BuildOk? || ev.BuildFail? || ev.TransportFail? || ev.Strand?
    requires Inv(Resolver, s) && Coherent(Resolver, s) && Enabled(Resolver, s, ev) && HistoryOk(s, ev.c, false, false)
    ensures HistoryOk(Apply(Resolver, s, ev), ev.c, StopsEarly(ev, ev.c), LeavesUnsettled(ev, ev.c))
  {
    assert CallerOk(s, ev.c) && CoherentCaller(Resolver, s, ev.c);
  }

  lemma StorerHistory(s: State, ev: Event)
    requires ev.DecodeFail? || ev.Store? || ev.StoreFail? || ev.Resolve?
    requires Inv(Resolver, s) && Coherent(Resolver, s) && Enabled(Resolver, s, ev) && HistoryOk(s, ev.c, false, false)
    ensures HistoryOk(Apply(Resolver, s, ev), ev.c, false, LeavesUnsettled(ev, ev.c))
  {
    assert CallerOk(s, ev.c) && CoherentCaller(Resolver, s, ev.c);
  }

  lemma LeaverHistory(s: State, ev: Event, stopped: bool, unsettled: bool)
    requires ev.Release? || ev.Audited? || ev.AuditFail?
    requires Inv(Resolver, s) && Enabled(Resolver, s, ev) && HistoryOk(s, ev.c, stopped, unsettled)
    ensures HistoryOk(Apply(Resolver, s, ev), ev.c, stopped, unsettled)
  {
    assert CallerOk(s, ev.c);
  }

  lemma ActorHistory(s: State, ev: Event, stopped: bool, unsettled: bool)
    requires Inv(Resolver, s) && Coherent(Resolver, s) && Enabled(Resolver, s, ev)
    requires !ev.Tick? && !ev.Arrive? && !ev.Cancel?
    requires HistoryOk(s, ev.c, stopped, unsettled)
    ensures HistoryOk(Apply(Resolver, s, ev), ev.c,
                      stopped || StopsEarly(ev, ev.c), unsettled || LeavesUnsettled(ev, ev.c))
  {
    if Reads(ev) {
      ReaderHistory(s, ev);
    } else if ev.BuildOk? || ev.BuildFail? || ev.TransportFail? || (ev.Strand? && PhaseOf(s, ev.c).Building?) {
      BuilderHistory(s, ev);
    } else if ev.Release? || ev.Audited? || ev.AuditFail? {
      LeaverHistory(s, ev, stopped, unsettled);
    } else {
      StorerHistory(s, ev);
    }
  }

  lemma NewcomerHistory(s: State, ev: Event, c: nat)
    requires Enabled(Resolver, s, ev) && !At(s, c)
    ensures !StopsEarly(ev, c) && !LeavesUnsettled(ev, c)
    ensures At(Apply(Resolver, s, ev), c) ==> PhaseOf(Apply(Resolver, s, ev), c).Arrived?
  {
  }

  lemma StepHistory(s: State, ev: Event, c: nat, stopped: bool, unsettled: bool)
    requires Inv(Resolver, s) && Coherent(Resolver, s) && Enabled(Resolver, s, ev) && !ev.Cancel?
    requires At(Apply(Resolver, s, ev), c)
    requires if At(s, c) then HistoryOk(s, c, stopped, unsettled) else !stopped && !unsettled
    ensures HistoryOk(Apply(Resolver, s, ev), c,
                      stopped || StopsEarly(ev, c), unsettled || LeavesUnsettled(ev, c))
  {
    if !At(s, c) {
      NewcomerHistory(s, ev, c);
    } else if ev.Tick? || ev.Arrive? || ev.c != c {
      assert CallerOk(s, c);
      BystanderFrame(Resolver, s, ev, c);
      HistorySurvives(s, Apply(Resolver, s, ev), c, stopped, unsettled);
    } else {
      ActorHistory(s, ev, stopped, unsettled);
    }
  }

  lemma CallersRemain(s: State, ev: Event, c: nat)
    requires Enabled(Resolver, s, ev) && At(s, c)
    ensures At(Apply(Resolver, s, ev), c)
  {
  }

  lemma {:induction false} NothingHappenedYet(evs: seq<Event>, c: nat)
    requires Legal(Resolver, evs) && !At(Exec(Resolver, evs).value, c)
    ensures !StoppedBy(evs, c) && !UnsettledBy(evs, c)
  {
    if evs != [] {
      var n := |evs| - 1;
      var s := Exec(Resolver, evs[..n]).value;
      if At(s, c) { CallersRemain(s, evs[n], c); }
      NothingHappenedYet(evs[..n], c);
      NewcomerHistory(s, evs[n], c);
      HistoryGrows(evs, c);
    }
  }

  lemma {:induction false} RunHistory(evs: seq<Event>, c: nat)
    requires Legal(Resolver, evs) && Uncancelled(evs) && At(Exec(Resolver, evs).value, c)
    ensures HistoryOk(Exec(Resolver, evs).value, c, StoppedBy(evs, c), UnsettledBy(evs, c))
  {
    if evs != [] {
      var n := |evs| - 1;
      var s := Exec(Resolver, evs[..n]).value;
      RunKeepsInv(Resolver, evs[..n]);
      RunIsCoherent(Resolver, evs[..n]);
      HistoryGrows(evs, c);
      if At(s, c) {
        RunHistory(evs[..n], c);
      } else {
        NothingHappenedYet(evs[..n], c);
      }
      StepHistory(s, evs[n], c, StoppedBy(evs[..n], c), UnsettledBy(evs[..n], c));
    }
  }

  /** Without cancellation, and with no owner of k running, k is registered exactly when
      some owner of k failed to sign, failed in transport, got a status >= 400, or failed to
      audit the completed request. */
  lemma ParkedExactlyByEarlyExit(evs: seq<Event>, k: Key)
    requires Legal(Resolver, evs) && Uncancelled(evs)
    requires forall c: nat :: Running(Exec(Resolver, evs).value, c) ==> Exec(Resolver, evs).value.callers[c].key != k
    ensures var s := Exec(Resolver, evs).value;
            k in s.inflight <==> exists c: nat :: At(s, c) && s.callers[c].key == k && StoppedBy(evs, c)
  {
    var s := Exec(Resolver, evs).value;
    RegisteredAtRest(Resolver, evs, k);
    if c: nat :| Parked(s, c) && s.callers[c].key == k {
      RunHistory(evs, c);
      assert At(s, c) && s.callers[c].key == k && StoppedBy(evs, c);
    }
    if c: nat :| At(s, c) && s.callers[c].key == k && StoppedBy(evs, c) {
      RunHistory(evs, c);
      assert Parked(s, c) && s.callers[c].key == k;
    }
  }

  /** Without cancellation a joiner is stranded exactly when the owner of its flight is
      gone after a signing failure, a failed audit of the completed request, or a failed cache
      write. A failed audit of a transport failure is none of these: it comes after the
      future has been rejected. */
  lemma StrandedExactlyByUnsettledExit(evs: seq<Event>, c: nat)
    requires Legal(Resolver, evs) && Uncancelled(evs)
    requires At(Exec(Resolver, evs).value, c) && PhaseOf(Exec(Resolver, evs).value, c).Joined?
    ensures var s := Exec(Resolver, evs).value;
            var f := PhaseOf(s, c).joined;
            f < |s.flights| &&
            (Stranded(s, c) <==> !Running(s, s.flights[f].owner) && UnsettledBy(evs, s.flights[f].owner))
  {
    var s := Exec(Resolver, evs).value;
    var f := PhaseOf(s, c).joined;
    RunKeepsInv(Resolver, evs);
    assert CallerOk(s, c) && FlightOk(Resolver, s, f);
    RunHistory(evs, s.flights[f].owner);
  }

  /** A flight that reached finalisation is no longer registered, whatever its outcome. */
  lemma FinalisedIsDeregistered(evs: seq<Event>, c: nat, k: Key)
    requires Legal(Resolver, evs) && At(Exec(Resolver, evs).value, c)
    requires PhaseOf(Exec(Resolver, evs).value, c).Done? && PhaseOf(Exec(Resolver, evs).value, c).source.Owned?
    requires k in Exec(Resolver, evs).value.inflight
    ensures Exec(Resolver, evs).value.inflight[k] != PhaseOf(Exec(Resolver, evs).value, c).source.own
  {
    RunKeepsInv(Resolver, evs);
    RegisteredIsNotOver(Resolver, Exec(Resolver, evs).value, c, k);
  }
}
