/** useAlertManagerData: overlapping loads, of which only the newest may write. */
module AlertManagerData {
  import opened Options

  /** One endpoint's answer; `items` is what the hook would show of a fulfilled one. */
  datatype Settled = Fulfilled(items: seq<string>) | Rejected(message: string)

  /** The four answers of a load, and the message thrown if the rules cannot be normalised. */
  datatype Results = Results(alerts: Settled, silences: Settled, rules: Settled, channels: Settled,
      thrown: Option<string>)

  datatype Shown = Shown(
    alerts: seq<string>, silences: seq<string>, rules: seq<string>, channels: seq<string>,
    loading: bool, error: Option<string>)

  const BLANK := Shown([], [], [], [], true, None)

  /** Dropped: it settled when it was no longer the newest. */
  datatype Phase = Pending | Dropped | Applied(results: Results)

  /** hit: a cleanup came while this load was the newest, and pending. */
  datatype Load = Load(id: nat, phase: Phase, hit: bool)

  datatype State = State(latest: nat, loads: seq<Load>, shown: Shown)

  /** Cleanup is the effect's: on unmounting, or before the effect runs again. */
  datatype Event = Begin | Cleanup | Settle(load: nat, results: Results)

  const START := State(0, [], BLANK)

  predicate AllFulfilled(r: Results) {
    r.alerts.Fulfilled? && r.silences.Fulfilled? && r.rules.Fulfilled? && r.channels.Fulfilled?
  }

  predicate Throws(r: Results) { r.rules.Fulfilled? && r.thrown.Some? }

  function Failure(name: string, s: Settled): seq<string> {
    if s.Rejected? then [name + " (" + s.message + ")"] else []
  }

  function Failures(r: Results): seq<string> {
    Failure("alerts", r.alerts) + Failure("silences", r.silences) + Failure("rules", r.rules) +
    Failure("channels", r.channels)
  }

  function CommaJoin(parts: seq<string>): string {
    if parts == [] then "" else if |parts| == 1 then parts[0] else parts[0] + ", " + CommaJoin(parts[1..])
  }

  /** The error a load leaves behind; its own start has cleared the previous one. */
  function ErrorOf(r: Results): Option<string> {
    if Throws(r) then r.thrown
    else if Failures(r) != [] then Some("Failed to load " + CommaJoin(Failures(r)))
    else None
  }

  function Keep(before: seq<string>, s: Settled): seq<string> { if s.Fulfilled? then s.items else before }

  /** What the setters make of the display; a throw stops them at the rules. */
  function Written(shown: Shown, r: Results): Shown {
    Shown(
      Keep(shown.alerts, r.alerts), Keep(shown.silences, r.silences),
      if Throws(r) then shown.rules else Keep(shown.rules, r.rules),
      if Throws(r) then shown.channels else Keep(shown.channels, r.channels),
      false, if ErrorOf(r).Some? then ErrorOf(r) else shown.error)
  }

  predicate Enabled(s: State, ev: Event) {
    ev.Settle? ==> ev.load < |s.loads| && s.loads[ev.load].phase.Pending?
  }

  function Hit(loads: seq<Load>): seq<Load> {
    if loads == [] || !loads[|loads| - 1].phase.Pending? then loads
    else loads[|loads| - 1 := loads[|loads| - 1].(hit := true)]
  }

  function Apply(s: State, ev: Event): State
    requires Enabled(s, ev)
  {
    match ev
    case Begin =>
      State(s.latest + 1, s.loads + [Load(s.latest + 1, Pending, false)], s.shown.(loading := true, error := None))
    case Cleanup => s.(latest := s.latest + 1, loads := Hit(s.loads))
    case Settle(i, r) =>
      if s.loads[i].id != s.latest then s.(loads := s.loads[i := s.loads[i].(phase := Dropped)])
      else s.(loads := s.loads[i := s.loads[i].(phase := Applied(r))], shown := Written(s.shown, r))
  }

  function Exec(evs: seq<Event>): Option<State> {
    if evs == [] then Some(START)
    else
      var s := Exec(evs[..|evs| - 1]);
      var ev := evs[|evs| - 1];
      if s.Some? && Enabled(s.value, ev) then Some(Apply(s.value, ev)) else None
  }

  // ------------------------------------------------------------------ what ought to be shown

  /** The display after the loads that were applied, one after the other in the order they
      were begun. */
  function Reference(loads: seq<Load>): Shown {
    if loads == [] then BLANK
    else
      var before := Reference(loads[..|loads| - 1]).(error := None);
      match loads[|loads| - 1].phase
      case Applied(r) => Written(before, r)
      case _ => before.(loading := true)
  }

  predicate Ordered(s: State) {
    (forall i, j | 0 <= i < j < |s.loads| :: s.loads[i].id < s.loads[j].id) &&
    forall i | 0 <= i < |s.loads| ::
      s.loads[i].id <= s.latest && (s.loads[i].phase.Dropped? ==> s.loads[i].id < s.latest)
  }

  /** The newest load is stale, or will be dropped, exactly if a cleanup hit it. */
  predicate HitOk(s: State) {
    s.loads != [] ==>
      var last := s.loads[|s.loads| - 1];
      match last.phase
      case Pending => last.hit <==> last.id < s.latest
      case Dropped => last.hit
      case Applied(_) => !last.hit
  }

  predicate Inv(s: State) { Ordered(s) && HitOk(s) && s.shown == Reference(s.loads) }

  lemma {:induction false} ReferenceIgnoresDropped(loads: seq<Load>, i: nat)
    requires i < |loads| && loads[i].phase.Pending?
    ensures Reference(loads[i := loads[i].(phase := Dropped)]) == Reference(loads)
  {
    var n := |loads| - 1;
    var loads' := loads[i := loads[i].(phase := Dropped)];
    if i < n {
      ReferenceIgnoresDropped(loads[..n], i);
      assert loads'[..n] == loads[..n][i := loads[i].(phase := Dropped)];
    } else {
      assert loads'[..n] == loads[..n];
    }
  }

  lemma ReferenceIgnoresHit(loads: seq<Load>)
    ensures Reference(Hit(loads)) == Reference(loads) && |Hit(loads)| == |loads|
  {
    if Hit(loads) != loads { assert Hit(loads)[..|loads| - 1] == loads[..|loads| - 1]; }
  }

  lemma NewestIsLast(s: State, i: nat)
    requires Ordered(s) && i < |s.loads| && s.loads[i].id == s.latest
    ensures i == |s.loads| - 1
  {
    assert s.loads[|s.loads| - 1].id <= s.loads[i].id;
  }

  lemma BeginKeepsInv(s: State)
    requires Inv(s)
    ensures Inv(Apply(s, Begin))
  {
    assert Apply(s, Begin).loads[..|s.loads|] == s.loads;
  }

  lemma CleanupKeepsInv(s: State)
    requires Inv(s)
    ensures Inv(Apply(s, Cleanup))
  {
    ReferenceIgnoresHit(s.loads);
  }

  lemma DropKeepsInv(s: State, i: nat, r: Results)
    requires Inv(s) && Enabled(s, Settle(i, r)) && s.loads[i].id != s.latest
    ensures Inv(Apply(s, Settle(i, r)))
  {
    ReferenceIgnoresDropped(s.loads, i);
  }

  lemma WriteKeepsInv(s: State, i: nat, r: Results)
    requires Inv(s) && Enabled(s, Settle(i, r)) && s.loads[i].id == s.latest
    ensures Inv(Apply(s, Settle(i, r)))
  {
    NewestIsLast(s, i);
    assert s.loads[i := s.loads[i].(phase := Applied(r))][..i] == s.loads[..i];
  }

  lemma StepKeepsInv(s: State, ev: Event)
    requires Inv(s) && Enabled(s, ev)
    ensures Inv(Apply(s, ev))
  {
    match ev
    case Begin => BeginKeepsInv(s);
    case Cleanup => CleanupKeepsInv(s);
    case Settle(i, r) =>
      if s.loads[i].id != s.latest { DropKeepsInv(s, i, r); } else { WriteKeepsInv(s, i, r); }
  }

  lemma {:induction false} RunKeepsInv(evs: seq<Event>)
    requires Exec(evs).Some?
    ensures Inv(Exec(evs).value)
  {
    if evs != [] {
      var n := |evs| - 1;
      RunKeepsInv(evs[..n]);
      StepKeepsInv(Exec(evs[..n]).value, evs[n]);
    }
  }

  /** Over all completion orders the page shows what the applied loads would have shown had
      they run one after the other, and its spinner and error are the newest load's. */
  lemma ShowsReference(evs: seq<Event>)
    requires Exec(evs).Some?
    ensures var s := Exec(evs).value;
            s.shown == Reference(s.loads) &&
            (s.shown.loading <==> s.loads == [] || !s.loads[|s.loads| - 1].phase.Applied?)
  {
    RunKeepsInv(evs);
  }

  /** Once load n has begun, let alone written, no load begun before it writes: when it
      settles it is dropped, and nothing that is shown changes. */
  lemma NoOlderWrites(evs: seq<Event>, m: nat, n: nat, r: Results)
    requires Exec(evs).Some? && m < n < |Exec(evs).value.loads|
    requires Enabled(Exec(evs).value, Settle(m, r))
    ensures Apply(Exec(evs).value, Settle(m, r)).shown == Exec(evs).value.shown
    ensures Apply(Exec(evs).value, Settle(m, r)).loads[m].phase.Dropped?
  {
    RunKeepsInv(evs);
    assert Exec(evs).value.loads[m].id < Exec(evs).value.loads[n].id;
  }

  /** Once the newest load has settled without a cleanup hitting it on the way, the page
      shows that load: each list it got, its error, and no spinner. */
  lemma NewestWins(evs: seq<Event>)
    requires Exec(evs).Some? && Exec(evs).value.loads != []
    requires !Exec(evs).value.loads[|Exec(evs).value.loads| - 1].phase.Pending?
    requires !Exec(evs).value.loads[|Exec(evs).value.loads| - 1].hit
    ensures var s := Exec(evs).value;
            var last := s.loads[|s.loads| - 1].phase;
            last.Applied? && !s.shown.loading && s.shown.error == ErrorOf(last.results) &&
            (s.shown.error.None? <==> AllFulfilled(last.results) && !Throws(last.results)) &&
            (last.results.alerts.Fulfilled? ==> s.shown.alerts == last.results.alerts.items) &&
            (last.results.silences.Fulfilled? ==> s.shown.silences == last.results.silences.items) &&
            (last.results.rules.Fulfilled? && !Throws(last.results) ==> s.shown.rules == last.results.rules.items) &&
            (last.results.channels.Fulfilled? && !Throws(last.results) ==>
               s.shown.channels == last.results.channels.items)
  {
    RunKeepsInv(evs);
  }

  /** With all loads settled the spinner is on exactly if a cleanup hit the last load while
      it was pending, or there was none at all. */
  lemma SpinnerStaysIff(evs: seq<Event>)
    requires Exec(evs).Some?
    requires forall i | 0 <= i < |Exec(evs).value.loads| :: !Exec(evs).value.loads[i].phase.Pending?
    ensures var s := Exec(evs).value;
            s.shown.loading <==> s.loads == [] || s.loads[|s.loads| - 1].hit
  {
    RunKeepsInv(evs);
  }

  // ------------------------------------------------------------------ the error's text

  lemma {:induction false} JoinSnoc(parts: seq<string>, last: string)
    ensures CommaJoin(parts + [last]) == (if parts == [] then last else CommaJoin(parts) + ", " + last)
  {
    if parts == [] {
      assert parts + [last] == [last];
    } else {
      assert (parts + [last])[1..] == parts[1..] + [last];
      JoinSnoc(parts[1..], last);
      if parts[1..] != [] {
        assert parts[0] + ", " + (CommaJoin(parts[1..]) + ", " + last) ==
               parts[0] + ", " + CommaJoin(parts[1..]) + ", " + last;
      }
    }
  }

  /** The text for one more failed endpoint. */
  function Also(text: string, name: string, s: Settled): string {
    if s.Fulfilled? then text
    else if text == "" then name + " (" + s.message + ")"
    else text + ", " + (name + " (" + s.message + ")")
  }

  lemma JoinFailure(parts: seq<string>, name: string, s: Settled)
    requires forall i | 0 <= i < |parts| :: parts[i] != ""
    ensures CommaJoin(parts + Failure(name, s)) == Also(CommaJoin(parts), name, s)
    ensures name != "" ==> forall i | 0 <= i < |parts + Failure(name, s)| :: (parts + Failure(name, s))[i] != ""
  {
    if s.Rejected? {
      JoinSnoc(parts, name + " (" + s.message + ")");
      if parts != [] { assert CommaJoin(parts) != ""; }
    } else {
      assert parts + Failure(name, s) == parts;
    }
  }

  lemma FailuresInOrder(r: Results)
    ensures Failures(r) ==
            ((([] + Failure("alerts", r.alerts)) + Failure("silences", r.silences)) + Failure("rules", r.rules)) +
            Failure("channels", r.channels)
  {
    assert [] + Failure("alerts", r.alerts) == Failure("alerts", r.alerts);
  }

  /** The error names every failed endpoint with its message, in a fixed order, unless the
      rules have thrown one of their own. */
  lemma ErrorNamesFailures(r: Results)
    ensures ErrorOf(r) ==
            if r.rules.Fulfilled? && r.thrown.Some? then r.thrown
            else if AllFulfilled(r) then None
            else Some("Failed to load " +
                     Also(Also(Also(Also("", "alerts", r.alerts), "silences", r.silences), "rules", r.rules),
                          "channels", r.channels))
  {
    FailuresInOrder(r);
    var a := [] + Failure("alerts", r.alerts);
    var b := a + Failure("silences", r.silences);
    JoinFailure([], "alerts", r.alerts);
    JoinFailure(a, "silences", r.silences);
    JoinFailure(b, "rules", r.rules);
    JoinFailure(b + Failure("rules", r.rules), "channels", r.channels);
  }

  // ------------------------------------------------------------------ the hook

  class Hook {
    var requestId: nat
    var shown: Shown
    ghost var loads: seq<Load>

    ghost function Snapshot(): State
      reads this
    {
      State(requestId, loads, shown)
    }

    constructor ()
      ensures Snapshot() == START
    {
      requestId, shown, loads := 0, BLANK, [];
    }

    /** loadData up to its await. */
    method BeginLoad() returns (id: nat)
      modifies this
      ensures Snapshot() == Apply(old(Snapshot()), Begin) && id == requestId
    {
      id := requestId + 1;
      requestId := id;
      shown := shown.(loading := true);
      shown := shown.(error := None);
      loads := loads + [Load(id, Pending, false)];
    }

    method CleanUp()
      modifies this
      ensures Snapshot() == Apply(old(Snapshot()), Cleanup)
    {
      requestId := requestId + 1;
      loads := Hit(loads);
    }

    /** loadData from its await on, for the load that was given `id`. */
    method FinishLoad(id: nat, r: Results, ghost i: nat)
      requires Enabled(Snapshot(), Settle(i, r)) && loads[i].id == id
      modifies this
      ensures Snapshot() == Apply(old(Snapshot()), Settle(i, r))
    {
      if id != requestId {
        loads := loads[i := loads[i].(phase := Dropped)];
        return;
      }
      loads := loads[i := loads[i].(phase := Applied(r))];
      if r.alerts.Fulfilled? { shown := shown.(alerts := r.alerts.items); }
      if r.silences.Fulfilled? { shown := shown.(silences := r.silences.items); }
      if r.rules.Fulfilled? && r.thrown.Some? {
        shown := shown.(error := r.thrown);
      } else {
        if r.rules.Fulfilled? { shown := shown.(rules := r.rules.items); }
        if r.channels.Fulfilled? { shown := shown.(channels := r.channels.items); }
        var failed := Failures(r);
        if |failed| > 0 { shown := shown.(error := Some("Failed to load " + CommaJoin(failed))); }
      }
      shown := shown.(loading := false);
    }
  }
}
