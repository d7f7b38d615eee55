/** useRcaReport: overlapping report loads and insight fetches, guarded by two sequence
    numbers. */
module RcaReport {
  import opened Options

  /** How a load that is still the newest ends. */
  datatype Outcome = Ready | NotReady | Failed(error: Option<string>)

  /** What requestSeq counts: loads, early ones that only reset the page, and the effect's
      bumps, when the selection is cleared or the selected job has failed. */
  datatype Move = Pending | Dropped | Accepted(outcome: Outcome) | Early | Bumped(error: Option<string>)

  datatype View = View(report: Option<nat>, error: Option<string>, loading: bool)

  /** An insight fetch for the report of load `report`. */
  datatype Fetch = Fetch(number: nat, insight: nat, report: nat, loadPending: bool, waiting: bool)

  /** insights: the loads whose reports the insights shown were fetched for. */
  datatype State = State(
    requestSeq: nat, moves: seq<Move>, view: View,
    insightSeq: nat, fetches: seq<Fetch>, insights: set<nat>, loadingInsights: bool)

  datatype Event =
    | Load(early: bool)
    | Bump(error: Option<string>)
    | Finish(load: nat, outcome: Outcome)
    | StartFetch
    | FinishFetch(fetch: nat)

  const START := State(0, [], View(None, None, false), 0, [], {}, false)

  predicate NewestPending(s: State) { s.moves != [] && s.moves[|s.moves| - 1].Pending? }

  predicate Enabled(s: State, ev: Event) {
    match ev
    case Finish(i, _) => i < |s.moves| && s.moves[i].Pending?
    case StartFetch => s.view.report.Some?
    case FinishFetch(j) => j < |s.fetches| && s.fetches[j].waiting
    case _ => true
  }

  /** reset and clearReportData */
  function Reset(s: State): State {
    s.(view := s.view.(report := None), insights := {}, loadingInsights := false)
  }

  function Begin(s: State, early: bool): State {
    var s' := s.(requestSeq := s.requestSeq + 1, moves := s.moves + [if early then Early else Pending]);
    if early then Reset(s').(view := View(None, None, false))
    else s'.(view := View(s.view.report, None, true))
  }

  function Accept(s: State, i: nat, outcome: Outcome): State
    requires i < |s.moves|
  {
    var s' := s.(moves := s.moves[i := Accepted(outcome)]);
    match outcome
    case Ready => s'.(view := View(Some(i), s.view.error, false), insights := {i}, loadingInsights := false)
    case NotReady => Reset(s').(view := View(None, s.view.error, false))
    case Failed(error) => Reset(s').(view := View(None, error, false))
  }

  predicate Guards(s: State, j: nat) {
    j < |s.fetches| && s.fetches[j].number == s.requestSeq && s.fetches[j].insight == s.insightSeq
  }

  function Settle(s: State, j: nat): State
    requires j < |s.fetches|
  {
    var s' := s.(fetches := s.fetches[j := s.fetches[j].(waiting := false)]);
    if Guards(s, j) then s'.(insights := s.insights + {s.fetches[j].report}, loadingInsights := false) else s'
  }

  function Apply(s: State, ev: Event): State
    requires Enabled(s, ev)
  {
    match ev
    case Load(early) => Begin(s, early)
    case Bump(error) =>
      var s' := Reset(s).(requestSeq := s.requestSeq + 1, moves := s.moves + [Bumped(error)]);
      s'.(view := s'.view.(error := error))
    case Finish(i, outcome) =>
      if i + 1 != s.requestSeq then s.(moves := s.moves[i := Dropped]) else Accept(s, i, outcome)
    case StartFetch =>
      s.(insightSeq := s.insightSeq + 1, loadingInsights := true,
         fetches := s.fetches + [Fetch(s.requestSeq, s.insightSeq + 1, s.view.report.value, NewestPending(s), true)])
    case FinishFetch(j) => Settle(s, j)
  }

  function Exec(evs: seq<Event>): Option<State> {
    if evs == [] then Some(START)
    else
      var s := Exec(evs[..|evs| - 1]);
      var ev := evs[|evs| - 1];
      if s.Some? && Enabled(s.value, ev) then Some(Apply(s.value, ev)) else None
  }

  // ------------------------------------------------------------------ the report shown

  /** The view after the moves, one after the other in the order of their numbers. */
  function Reference(moves: seq<Move>): View {
    if moves == [] then View(None, None, false)
    else
      var n := |moves| - 1;
      var before := Reference(moves[..n]);
      match moves[n]
      case Pending => View(before.report, None, true)
      case Dropped => View(before.report, None, true)
      case Early => View(None, None, false)
      case Bumped(error) => View(None, error, before.loading)
      case Accepted(Ready) => View(Some(n), None, false)
      case Accepted(NotReady) => View(None, None, false)
      case Accepted(Failed(error)) => View(None, error, false)
  }

  predicate MovesOk(s: State) {
    s.requestSeq == |s.moves| && s.view == Reference(s.moves) &&
    (s.moves != [] ==> !s.moves[|s.moves| - 1].Dropped?)
  }

  lemma {:induction false} ReferenceIgnoresDropped(moves: seq<Move>, i: nat)
    requires i < |moves| && moves[i].Pending?
    ensures Reference(moves[i := Dropped]) == Reference(moves)
  {
    var n := |moves| - 1;
    if i < n {
      ReferenceIgnoresDropped(moves[..n], i);
      assert moves[i := Dropped][..n] == moves[..n][i := Dropped];
    } else {
      assert moves[i := Dropped][..n] == moves[..n];
    }
  }

  lemma {:induction false} ReferenceReport(moves: seq<Move>)
    requires Reference(moves).report.Some?
    ensures Reference(moves).report.value < |moves|
    ensures moves[Reference(moves).report.value] == Accepted(Ready)
  {
    var n := |moves| - 1;
    if moves[n].Pending? || moves[n].Dropped? { ReferenceReport(moves[..n]); }
  }

  lemma MoveKeepsMoves(s: State, ev: Event)
    requires MovesOk(s) && (ev.Load? || ev.Bump?)
    ensures MovesOk(Apply(s, ev))
  {
    assert Apply(s, ev).moves[..|s.moves|] == s.moves;
  }

  lemma FinishKeepsMoves(s: State, i: nat, outcome: Outcome)
    requires MovesOk(s) && Enabled(s, Finish(i, outcome))
    ensures MovesOk(Apply(s, Finish(i, outcome)))
  {
    if i + 1 != s.requestSeq {
      ReferenceIgnoresDropped(s.moves, i);
    } else {
      assert s.moves[i := Accepted(outcome)][..i] == s.moves[..i];
    }
  }

  lemma StepKeepsMoves(s: State, ev: Event)
    requires MovesOk(s) && Enabled(s, ev)
    ensures MovesOk(Apply(s, ev))
  {
    match ev
    case Load(_) => MoveKeepsMoves(s, ev);
    case Bump(_) => MoveKeepsMoves(s, ev);
    case Finish(i, outcome) => FinishKeepsMoves(s, i, outcome);
    case _ =>
  }

  // ------------------------------------------------------------------ the insights shown

  /** The fetch was begun while the load of its number was pending; it is no longer. */
  predicate Overtaken(s: State, f: Fetch) {
    f.loadPending && 0 < f.number <= |s.moves| && s.moves[f.number - 1].Accepted?
  }

  predicate FetchOk(s: State, f: Fetch) {
    0 < f.number <= s.requestSeq && f.insight <= s.insightSeq &&
    (f.number == s.requestSeq ==>
       (s.view.report == Some(f.report) <==> !Overtaken(s, f)) &&
       (NewestPending(s) ==> f.loadPending) && (f.loadPending ==> f.report < f.number - 1))
  }

  /** Something in flight will clear the insight spinner. */
  ghost predicate WillSettle(s: State) {
    NewestPending(s) || exists j :: 0 <= j < |s.fetches| && s.fetches[j].waiting && Guards(s, j)
  }

  predicate OwnFetches(s: State) { forall j | 0 <= j < |s.fetches| :: !s.fetches[j].loadPending }

  ghost predicate Inv(s: State) {
    MovesOk(s) && (forall j | 0 <= j < |s.fetches| :: FetchOk(s, s.fetches[j])) &&
    (s.loadingInsights ==> WillSettle(s)) &&
    (forall j | 0 <= j < |s.fetches| && s.fetches[j].insight == s.insightSeq :: j == |s.fetches| - 1) &&
    (OwnFetches(s) ==> forall i | i in s.insights :: s.view.report == Some(i)) && SpinnerOk(s)
  }

  /** The insight spinner shows the fetch under way, unless its report has been replaced. */
  predicate SpinnerOk(s: State) {
    forall j | 0 <= j < |s.fetches| && s.fetches[j].waiting && Guards(s, j) ::
      s.loadingInsights <==> !Overtaken(s, s.fetches[j])
  }

  /** A new move: every fetch in flight loses its guard. */
  lemma MoveKeepsInv(s: State, ev: Event)
    requires Inv(s) && (ev.Load? || ev.Bump?)
    ensures Inv(Apply(s, ev))
  {
    StepKeepsMoves(s, ev);
    var s' := Apply(s, ev);
    forall j | 0 <= j < |s'.fetches| ensures FetchOk(s', s'.fetches[j]) {
      assert FetchOk(s, s.fetches[j]);
    }
  }

  lemma DropKeepsInv(s: State, i: nat, outcome: Outcome)
    requires Inv(s) && Enabled(s, Finish(i, outcome)) && i + 1 != s.requestSeq
    ensures Inv(Apply(s, Finish(i, outcome)))
  {
    StepKeepsMoves(s, Finish(i, outcome));
    var s' := Apply(s, Finish(i, outcome));
    forall j | 0 <= j < |s'.fetches| ensures FetchOk(s', s'.fetches[j]) {
      assert FetchOk(s, s.fetches[j]);
    }
    if s.loadingInsights && !NewestPending(s) {
      var j :| 0 <= j < |s.fetches| && s.fetches[j].waiting && Guards(s, j);
      assert Guards(s', j);
    }
  }

  lemma AcceptKeepsInv(s: State, i: nat, outcome: Outcome)
    requires Inv(s) && Enabled(s, Finish(i, outcome)) && i + 1 == s.requestSeq
    ensures Inv(Apply(s, Finish(i, outcome)))
  {
    StepKeepsMoves(s, Finish(i, outcome));
    var s' := Apply(s, Finish(i, outcome));
    forall j | 0 <= j < |s'.fetches| ensures FetchOk(s', s'.fetches[j]) {
      assert FetchOk(s, s.fetches[j]);
    }
  }

  lemma StartFetchKeepsInv(s: State)
    requires Inv(s) && Enabled(s, StartFetch)
    ensures Inv(Apply(s, StartFetch))
  {
    StepKeepsMoves(s, StartFetch);
    var s' := Apply(s, StartFetch);
    ReferenceReport(s.moves);
    forall j | 0 <= j < |s'.fetches| ensures FetchOk(s', s'.fetches[j]) {
      if j < |s.fetches| { assert FetchOk(s, s.fetches[j]); }
    }
    assert Guards(s', |s.fetches|) && s'.fetches[|s.fetches|].waiting;
    if OwnFetches(s') {
      forall j | 0 <= j < |s.fetches| ensures !s.fetches[j].loadPending { assert s'.fetches[j] == s.fetches[j]; }
    }
  }

  lemma SettleKeepsInv(s: State, j: nat)
    requires Inv(s) && Enabled(s, FinishFetch(j))
    ensures Inv(Apply(s, FinishFetch(j)))
  {
    StepKeepsMoves(s, FinishFetch(j));
    var s' := Apply(s, FinishFetch(j));
    forall k | 0 <= k < |s'.fetches| ensures FetchOk(s', s'.fetches[k]) {
      assert FetchOk(s, s.fetches[k]);
    }
    if s.loadingInsights && !Guards(s, j) && !NewestPending(s) {
      var k :| 0 <= k < |s.fetches| && s.fetches[k].waiting && Guards(s, k);
      assert Guards(s', k) && s'.fetches[k].waiting;
    }
    if OwnFetches(s') {
      forall k | 0 <= k < |s.fetches| ensures !s.fetches[k].loadPending {
        assert s'.fetches[k].loadPending == s.fetches[k].loadPending;
      }
      assert FetchOk(s, s.fetches[j]);
    }
  }

  lemma StepKeepsInv(s: State, ev: Event)
    requires Inv(s) && Enabled(s, ev)
    ensures Inv(Apply(s, ev))
  {
    match ev
    case Load(_) => MoveKeepsInv(s, ev);
    case Bump(_) => MoveKeepsInv(s, ev);
    case Finish(i, outcome) =>
      if i + 1 != s.requestSeq { DropKeepsInv(s, i, outcome); } else { AcceptKeepsInv(s, i, outcome); }
    case StartFetch => StartFetchKeepsInv(s);
    case FinishFetch(j) => SettleKeepsInv(s, j);
  }

  lemma {:induction false} RunKeepsInv(evs: seq<Event>)
    requires Exec(evs).Some?
    ensures Inv(Exec(evs).value)
  {
    if evs != [] {
      var n := |evs| - 1;
      RunKeepsInv(evs[..n]);
      StepKeepsInv(Exec(evs[..n]).value, evs[n]);
    }
  }

  // ------------------------------------------------------------------ latest request wins

  /** Over all completion orders the page shows what the loads and bumps would have shown
      one after the other; a load that settles after a newer one began changes nothing. */
  lemma ShowsReference(evs: seq<Event>)
    requires Exec(evs).Some?
    ensures Exec(evs).value.view == Reference(Exec(evs).value.moves)
    ensures forall m: nat, outcome | Enabled(Exec(evs).value, Finish(m, outcome)) && m < |Exec(evs).value.moves| - 1 ::
              Apply(Exec(evs).value, Finish(m, outcome)).view == Exec(evs).value.view
  {
    RunKeepsInv(evs);
  }

  /** When the newest move is a load and it has settled, the page shows it. */
  lemma NewestWins(evs: seq<Event>)
    requires Exec(evs).Some? && Exec(evs).value.moves != []
    requires !NewestPending(Exec(evs).value) && !Exec(evs).value.moves[|Exec(evs).value.moves| - 1].Bumped?
    ensures var s := Exec(evs).value;
            var last := s.moves[|s.moves| - 1];
            !s.view.loading && s.view.report == (if last == Accepted(Ready) then Some(|s.moves| - 1) else None) &&
            s.view.error == (if last.Accepted? && last.outcome.Failed? then last.outcome.error else None)
  {
    RunKeepsInv(evs);
  }

  predicate AtRest(s: State) {
    (forall i | 0 <= i < |s.moves| :: !s.moves[i].Pending?) && forall j | 0 <= j < |s.fetches| :: !s.fetches[j].waiting
  }

  /** A load was dropped, and nothing but bumps has come since. */
  predicate DroppedBeforeBumps(moves: seq<Move>, k: nat) {
    k < |moves| && moves[k].Dropped? && forall i | k < i < |moves| :: moves[i].Bumped?
  }

  lemma {:induction false} LoadingIff(moves: seq<Move>)
    requires forall i | 0 <= i < |moves| :: !moves[i].Pending?
    ensures Reference(moves).loading <==> exists k: nat :: DroppedBeforeBumps(moves, k)
  {
    if moves != [] {
      var n := |moves| - 1;
      LoadingIff(moves[..n]);
      if moves[n].Bumped? && Reference(moves[..n]).loading {
        var k: nat :| DroppedBeforeBumps(moves[..n], k);
        assert forall i | k < i < |moves| :: i < n ==> moves[i] == moves[..n][i];
        assert DroppedBeforeBumps(moves, k);
      }
      if moves[n].Dropped? { assert DroppedBeforeBumps(moves, n); }
      if k: nat :| DroppedBeforeBumps(moves, k) && k < n {
        assert moves[n].Bumped? && forall i | k < i < n :: moves[..n][i] == moves[i];
        assert DroppedBeforeBumps(moves[..n], k);
      }
    }
  }

  /** At rest the report spinner is on exactly when a bump hit the newest load while it was
      pending and no load has been begun since: nothing is left to turn it off. */
  lemma SpinnerStuckIff(evs: seq<Event>)
    requires Exec(evs).Some? && AtRest(Exec(evs).value)
    ensures var s := Exec(evs).value;
            s.view.loading <==> exists k: nat :: k < |s.moves| - 1 && DroppedBeforeBumps(s.moves, k)
  {
    RunKeepsInv(evs);
    LoadingIff(Exec(evs).value.moves);
  }

  /** It does happen: the selection is cleared while its report loads. */
  lemma SpinnerCanStick()
    ensures Exec([Load(false), Bump(None), Finish(0, Ready)]).Some?
    ensures AtRest(Exec([Load(false), Bump(None), Finish(0, Ready)]).value)
    ensures Exec([Load(false), Bump(None), Finish(0, Ready)]).value.view.loading
  {
    var a, b, c := [Load(false)], [Load(false), Bump(None)], [Load(false), Bump(None), Finish(0, Ready)];
    assert a[..0] == [] && b[..1] == a && c[..2] == b;
    assert Exec(a).value.moves == [Pending];
    assert Exec(b).value.moves == [Pending, Bumped(None)];
  }

  /** The insight spinner, in contrast, is never left on. */
  lemma InsightSpinnerEnds(evs: seq<Event>)
    requires Exec(evs).Some? && AtRest(Exec(evs).value)
    ensures !Exec(evs).value.loadingInsights
  {
    RunKeepsInv(evs);
  }

  /** While the newest fetch of the newest load is under way the insight spinner is on, exactly
      unless the report it belongs to has been replaced meanwhile. */
  lemma InsightSpinnerShowsFetchIff(evs: seq<Event>, j: nat)
    requires Exec(evs).Some? && j < |Exec(evs).value.fetches| && Exec(evs).value.fetches[j].waiting
    requires Guards(Exec(evs).value, j)
    ensures Exec(evs).value.loadingInsights <==> !Overtaken(Exec(evs).value, Exec(evs).value.fetches[j])
  {
    RunKeepsInv(evs);
  }

  /** A fetch settles once, and adds its insights exactly if neither a load or bump nor another
      fetch has begun since it did. */
  lemma FetchWritesIff(evs: seq<Event>, j: nat)
    requires Exec(evs).Some? && Enabled(Exec(evs).value, FinishFetch(j))
    ensures var s := Exec(evs).value;
            var s' := Apply(s, FinishFetch(j));
            !Enabled(s', FinishFetch(j)) && s'.view == s.view &&
            s'.insights == (if s.fetches[j].number == |s.moves| && j == |s.fetches| - 1 then
                              s.insights + {s.fetches[j].report}
                            else s.insights)
  {
    RunKeepsInv(evs);
    LastInsight(evs);
  }

  /** Fetches are numbered from one in the order they begin. */
  lemma {:induction false} LastInsight(evs: seq<Event>)
    requires Exec(evs).Some?
    ensures var s := Exec(evs).value;
            s.insightSeq == |s.fetches| && forall j | 0 <= j < |s.fetches| :: s.fetches[j].insight == j + 1
  {
    if evs != [] { LastInsight(evs[..|evs| - 1]); }
  }

  /** A fetch that passes both guards writes insights of the report shown exactly unless it
      was begun while a load with the same number was pending, and that load has since been
      accepted. */
  lemma InsightsMatchIff(evs: seq<Event>, j: nat)
    requires Exec(evs).Some? && Guards(Exec(evs).value, j)
    ensures var s := Exec(evs).value;
            s.view.report == Some(s.fetches[j].report) <==>
            !Overtaken(s, s.fetches[j])
  {
    RunKeepsInv(evs);
    assert FetchOk(Exec(evs).value, Exec(evs).value.fetches[j]);
  }

  lemma ExecSnoc(evs: seq<Event>, ev: Event)
    requires Exec(evs).Some? && Enabled(Exec(evs).value, ev)
    ensures Exec(evs + [ev]) == Some(Apply(Exec(evs).value, ev))
  {
    assert (evs + [ev])[..|evs|] == evs;
  }

  /** It does happen: the first report is shown, a second one is loading, a fetch for the
      first is begun, the second is accepted, and the fetch passes both guards. In the hook
      the second report must then start no fetch of its own, for instance because it embeds
      the insights of the tab that is open. */
  lemma InsightsCanMix() returns (evs: seq<Event>)
    ensures evs == [Load(false)] + [Finish(0, Ready)] + [Load(false)] + [StartFetch] + [Finish(1, Ready)]
    ensures Exec(evs).Some? && Guards(Exec(evs).value, 0) && Enabled(Exec(evs).value, FinishFetch(0))
    ensures Exec(evs).value.fetches[0].report == 0 && Exec(evs).value.view.report == Some(1)
    ensures 0 in Apply(Exec(evs).value, FinishFetch(0)).insights
  {
    evs := [];
    ExecSnoc(evs, Load(false));
    evs := evs + [Load(false)];
    ExecSnoc(evs, Finish(0, Ready));
    evs := evs + [Finish(0, Ready)];
    ExecSnoc(evs, Load(false));
    evs := evs + [Load(false)];
    ExecSnoc(evs, StartFetch);
    evs := evs + [StartFetch];
    ExecSnoc(evs, Finish(1, Ready));
    evs := evs + [Finish(1, Ready)];
  }

  /** If no fetch is begun while a newer load is pending, all insights shown are the
      shown report's. */
  lemma InsightsBelongToReport(evs: seq<Event>)
    requires Exec(evs).Some? && OwnFetches(Exec(evs).value)
    ensures forall i | i in Exec(evs).value.insights :: Exec(evs).value.view.report == Some(i)
  {
    RunKeepsInv(evs);
  }

  // ------------------------------------------------------------------ the hook

  class Hook {
    var requestSeq: nat
    var view: View
    var insightSeq: nat
    var insights: set<nat>
    var loadingInsights: bool
    ghost var moves: seq<Move>
    ghost var fetches: seq<Fetch>

    ghost function Snapshot(): State
      reads this
    {
      State(requestSeq, moves, view, insightSeq, fetches, insights, loadingInsights)
    }

    constructor ()
      ensures Snapshot() == START && Inv(Snapshot())
    {
      requestSeq, view, moves := 0, View(None, None, false), [];
      insightSeq, fetches, insights, loadingInsights := 0, [], {}, false;
    }

    /** reset */
    method Clear()
      modifies this
      ensures Snapshot() == Reset(old(Snapshot()))
    {
      view := view.(report := None);
      insights := {};
      loadingInsights := false;
    }

    /** loadReport up to its first await, or to its early return. */
    method BeginLoad(early: bool) returns (number: nat)
      requires Inv(Snapshot())
      modifies this
      ensures Snapshot() == Apply(old(Snapshot()), Load(early)) && Inv(Snapshot()) && number == requestSeq
    {
      StepKeepsInv(Snapshot(), Load(early));
      number := requestSeq + 1;
      requestSeq := number;
      if early {
        moves := moves + [Early];
        Clear();
        view := View(view.report, None, false);
        return;
      }
      moves := moves + [Pending];
      view := view.(loading := true, error := None);
    }

    /** The effect, for a cleared selection or a failed job. */
    method BumpSequence(error: Option<string>)
      requires Inv(Snapshot())
      modifies this
      ensures Snapshot() == Apply(old(Snapshot()), Bump(error)) && Inv(Snapshot())
    {
      StepKeepsInv(Snapshot(), Bump(error));
      requestSeq := requestSeq + 1;
      moves := moves + [Bumped(error)];
      Clear();
      view := view.(error := error);
    }

    /** loadReport from the guard after its last await, for the load that was given `number`. */
    method FinishLoad(number: nat, outcome: Outcome)
      requires Inv(Snapshot()) && number > 0 && Enabled(Snapshot(), Finish(number - 1, outcome))
      modifies this
      ensures Snapshot() == Apply(old(Snapshot()), Finish(number - 1, outcome)) && Inv(Snapshot())
    {
      StepKeepsInv(Snapshot(), Finish(number - 1, outcome));
      if number != requestSeq {
        moves := moves[number - 1 := Dropped];
        return;
      }
      moves := moves[number - 1 := Accepted(outcome)];
      match outcome {
        case Ready =>
          view := view.(report := Some(number - 1));
          insights := {number - 1};
          loadingInsights := false;
        case NotReady =>
          Clear();
        case Failed(error) =>
          view := view.(error := error);
          Clear();
      }
      view := view.(loading := false);
    }

    /** loadInsightsForTab up to its await. */
    method BeginFetch() returns (number: nat, insight: nat)
      requires Inv(Snapshot()) && Enabled(Snapshot(), StartFetch)
      modifies this
      ensures Snapshot() == Apply(old(Snapshot()), StartFetch) && Inv(Snapshot())
      ensures number == requestSeq && insight == insightSeq
    {
      StepKeepsInv(Snapshot(), StartFetch);
      fetches := fetches + [Fetch(requestSeq, insightSeq + 1, view.report.value, NewestPending(Snapshot()), true)];
      number := requestSeq;
      insight := insightSeq + 1;
      insightSeq := insight;
      loadingInsights := true;
    }

    /** loadInsightsForTab from its await on. */
    method FinishFetching(number: nat, insight: nat, report: nat, ghost j: nat)
      requires Inv(Snapshot()) && Enabled(Snapshot(), FinishFetch(j))
      requires fetches[j].number == number && fetches[j].insight == insight && fetches[j].report == report
      modifies this
      ensures Snapshot() == Apply(old(Snapshot()), FinishFetch(j)) && Inv(Snapshot())
    {
      StepKeepsInv(Snapshot(), FinishFetch(j));
      fetches := fetches[j := fetches[j].(waiting := false)];
      if number != requestSeq || insight != insightSeq { return; }
      insights := insights + {report};
      loadingInsights := false;
    }
  }
}
