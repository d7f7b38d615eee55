/** LokiService._get_or_build_volume: its try/finally settles every future and frees
    every key, as long as no coroutine is cancelled. */
module LokiVolume {
  import opened Options
  import opened SingleFlight
  import opened FlightSafety
  import opened FlightProgress

  /** Once a flight's owner has finished, none of its joiners waits. */
  lemma NobodyStranded(evs: seq<Event>, c: nat)
    requires Legal(Loki, evs) && Uncancelled(evs)
    ensures !Stranded(Exec(Loki, evs).value, c)
  {
    var s := Exec(Loki, evs).value;
    RunKeepsInv(Loki, evs);
    RunIsCoherent(Loki, evs);
    if At(s, c) && PhaseOf(s, c).Joined? {
      assert CallerOk(s, c);
      var f := PhaseOf(s, c).joined;
      assert FlightOk(Loki, s, f);
      assert CoherentCaller(Loki, s, s.flights[f].owner);
    }
  }

  /** A run that cannot advance has answered every caller. */
  lemma EveryoneIsAnswered(evs: seq<Event>)
    requires Legal(Loki, evs) && Uncancelled(evs)
    requires forall ev: Event :: Advances(ev) ==> !Enabled(Loki, Exec(Loki, evs).value, ev)
    ensures forall c: nat :: At(Exec(Loki, evs).value, c) ==> PhaseOf(Exec(Loki, evs).value, c).Done?
  {
    var s := Exec(Loki, evs).value;
    AdvanceIff(Loki, evs);
    forall c: nat | At(s, c) ensures PhaseOf(s, c).Done? {
      NobodyStranded(evs, c);
      assert Unfinished(s, c) ==> exists ev: Event :: Advances(ev) && Enabled(Loki, s, ev);
    }
  }

  /** A key is registered exactly while some caller runs a flight for it. */
  lemma RegisteredIffRunning(evs: seq<Event>, k: Key)
    requires Legal(Loki, evs) && Uncancelled(evs)
    ensures var s := Exec(Loki, evs).value;
            k in s.inflight <==> exists c: nat :: Running(s, c) && s.callers[c].key == k
  {
    var s := Exec(Loki, evs).value;
    RunKeepsInv(Loki, evs);
    RunIsCoherent(Loki, evs);
    if k in s.inflight {
      assert RegistrationOk(s, k);
      var c := s.flights[s.inflight[k]].owner;
      assert CoherentCaller(Loki, s, c) && FlightOk(Loki, s, s.inflight[k]);
      assert Running(s, c);
    }
    if c: nat :| Running(s, c) && s.callers[c].key == k {
      assert CallerOk(s, c);
    }
  }

  /** After any failed flight the key is free again: the next caller that misses starts
      a flight of its own unless another caller is already running one. */
  lemma FailureFreesKey(evs: seq<Event>, failed: nat, next: nat)
    requires Legal(Loki, evs) && Uncancelled(evs)
    requires At(Exec(Loki, evs).value, failed) && PhaseOf(Exec(Loki, evs).value, failed).Done?
    requires PhaseOf(Exec(Loki, evs).value, failed).source.Owned? &&
             PhaseOf(Exec(Loki, evs).value, failed).outcome.Raised?
    requires At(Exec(Loki, evs).value, next) && PhaseOf(Exec(Loki, evs).value, next).Missed?
    requires Exec(Loki, evs).value.callers[next].key == Exec(Loki, evs).value.callers[failed].key
    ensures var s := Exec(Loki, evs).value;
            var s' := Apply(Loki, s, Decide(next));
            if exists c: nat :: Running(s, c) && s.callers[c].key == s.callers[failed].key then
              PhaseOf(s', next).Joined? && PhaseOf(s', next).joined != PhaseOf(s, failed).source.own
            else
              PhaseOf(s', next) == Building(|s.flights|)
  {
    var s := Exec(Loki, evs).value;
    var k := s.callers[failed].key;
    RunKeepsInv(Loki, evs);
    RegisteredIffRunning(evs, k);
    if k in s.inflight { RegisteredIsNotOver(Loki, s, failed, k); }
  }

  /** Cancelling an owner while it waits for the lock in its `finally` leaves the key
      registered, so the characterisation above needs the absence of cancellation. */
  lemma CancelledReleaseKeepsKey(evs: seq<Event>, c: nat)
    requires Legal(Loki, evs) && At(Exec(Loki, evs).value, c) && PhaseOf(Exec(Loki, evs).value, c).Releasing?
    ensures var s := Exec(Loki, evs).value;
            var s' := Apply(Loki, s, Cancel(c));
            Enabled(Loki, s, Cancel(c)) && s.callers[c].key in s'.inflight &&
            forall o: nat :: Running(s', o) ==> s'.callers[o].key != s.callers[c].key
  {
    var s := Exec(Loki, evs).value;
    var s' := Apply(Loki, s, Cancel(c));
    RunKeepsInv(Loki, evs);
    StepKeepsInv(Loki, s, Cancel(c));
    assert CallerOk(s', c);
    forall o: nat | Running(s', o) ensures s'.callers[o].key != s.callers[c].key {
      assert CallerOk(s', o);
    }
  }
}
