/** TokenRateLimiter: per-key one-minute windows in a table that is garbage-collected
    every 1024 calls and evicts its oldest window when full.

    `now` is read before the lock is taken, so calls of different threads may enter the
    table out of clock order; `skew` bounds by how much.  A single thread has skew 0. */
module TokenWindows {
  import opened Options

  const WINDOW := 60.0
  const GC_AGE := 120.0
  const GC_EVERY := 1024
  const MAX_KEYS := 50_000

  datatype Window = Window(start: real, count: nat)

  datatype Table = Table(hits: map<string, Window>, ops: nat)

  /** One call of `enforce`; `victim` is the key `min` picks when the table is full. */
  datatype Call = Call(key: string, now: real, victim: string)

  function Swept(hits: map<string, Window>, now: real): map<string, Window> {
    map k | k in hits && hits[k].start >= now - GC_AGE :: hits[k]
  }

  function Collected(t: Table, now: real): map<string, Window> {
    if (t.ops + 1) % GC_EVERY == 0 then Swept(t.hits, now) else t.hits
  }

  predicate Full(hits: map<string, Window>, key: string) { key !in hits && |hits| >= MAX_KEYS }

  predicate Oldest(hits: map<string, Window>, key: string) {
    key in hits && forall k <- hits :: hits[key].start <= hits[k].start
  }

  function Evicted(hits: map<string, Window>, call: Call): map<string, Window> {
    if Full(hits, call.key) then hits - {call.victim} else hits
  }

  function Lookup(hits: map<string, Window>, key: string): Option<Window> {
    if key in hits then Some(hits[key]) else None
  }

  /** Count one attempt: in the current window, or as the first of a new one. */
  function Bump(w: Option<Window>, now: real): Window {
    if w.None? || now - w.value.start >= WINDOW then Window(now, 1) else Window(w.value.start, w.value.count + 1)
  }

  function Counted(t: Table, call: Call): Window {
    Bump(Lookup(Evicted(Collected(t, call.now), call), call.key), call.now)
  }

  predicate Enabled(t: Table, call: Call) {
    Full(Collected(t, call.now), call.key) ==> Oldest(Collected(t, call.now), call.victim)
  }

  function Step(t: Table, call: Call): Table {
    Table(Evicted(Collected(t, call.now), call)[call.key := Counted(t, call)], t.ops + 1)
  }

  function Last<T>(s: seq<T>): T
    requires s != []
  {
    s[|s| - 1]
  }

  function Past<T>(s: seq<T>): seq<T>
    requires s != []
  {
    s[..|s| - 1]
  }

  /** The table after a sequence of calls. */
  function Exec(calls: seq<Call>): Table {
    if calls == [] then Table(map[], 0) else Step(Exec(Past(calls)), Last(calls))
  }

  predicate Legal(calls: seq<Call>) {
    calls == [] || (Legal(Past(calls)) && Enabled(Exec(Past(calls)), Last(calls)))
  }

  /** Was the last call let through? */
  predicate Admitted(calls: seq<Call>, limit: nat)
    requires calls != []
  {
    Counted(Exec(Past(calls)), Last(calls)).count <= limit
  }

  // ------------------------------------------------------------------ the unbounded reference

  /** The window of key k with no garbage collection and no eviction. */
  function Reference(calls: seq<Call>, k: string): Option<Window> {
    if calls == [] then None
    else if Last(calls).key == k then Some(Bump(Reference(Past(calls), k), Last(calls).now))
    else Reference(Past(calls), k)
  }

  predicate ReferenceAdmits(calls: seq<Call>, limit: nat)
    requires calls != []
  {
    Bump(Reference(Past(calls), Last(calls).key), Last(calls).now).count <= limit
  }

  /** Clock readings reach the table at most `skew` seconds late. */
  predicate Steady(calls: seq<Call>, skew: real) {
    forall i, j | 0 <= i < j < |calls| :: calls[i].now - skew <= calls[j].now
  }

  /** The last call evicts k although a call still to come could fall in k's window. */
  predicate EvictsLive(calls: seq<Call>, k: string, skew: real)
    requires calls != []
  {
    var hits := Collected(Exec(Past(calls)), Last(calls).now);
    Full(hits, Last(calls).key) && Last(calls).victim == k && k in hits &&
    hits[k].start + 60.0 > Last(calls).now - skew
  }

  predicate Sheltered(calls: seq<Call>, k: string, skew: real) {
    calls == [] || (Sheltered(Past(calls), k, skew) && !EvictsLive(calls, k, skew))
  }

  /** No call still to come can fall in this window. */
  predicate Dead(calls: seq<Call>, w: Window, skew: real) {
    exists i | 0 <= i < |calls| :: w.start + WINDOW <= calls[i].now - skew
  }

  predicate Tracks(calls: seq<Call>, k: string, skew: real) {
    var hits, ref := Exec(calls).hits, Reference(calls, k);
    if k in hits then ref == Some(hits[k]) else ref.Some? ==> Dead(calls, ref.value, skew)
  }

  lemma DeadStaysDead(calls: seq<Call>, w: Window, skew: real)
    requires calls != [] && Dead(Past(calls), w, skew)
    ensures Dead(calls, w, skew)
  {
    var i :| 0 <= i < |Past(calls)| && w.start + WINDOW <= Past(calls)[i].now - skew;
    assert calls[i] == Past(calls)[i];
  }

  lemma DeadIsOver(calls: seq<Call>, w: Window, skew: real)
    requires calls != [] && Dead(Past(calls), w, skew) && Steady(calls, skew)
    ensures Last(calls).now - w.start >= WINDOW
  {
    var i :| 0 <= i < |Past(calls)| && w.start + WINDOW <= Past(calls)[i].now - skew;
    assert calls[i] == Past(calls)[i];
  }

  /** What collection and eviction leave of k's window at the last call. */
  lemma HousekeepingSparesLive(calls: seq<Call>, k: string, skew: real)
    requires calls != [] && 0.0 <= skew <= WINDOW && !EvictsLive(calls, k, skew)
    ensures var before := Exec(Past(calls)).hits;
            var kept := Evicted(Collected(Exec(Past(calls)), Last(calls).now), Last(calls));
            (k in kept ==> k in before && kept[k] == before[k]) &&
            (k in before && k !in kept ==>
               before[k].start + WINDOW <= Last(calls).now - skew && Dead(calls, before[k], skew))
  {
    var before := Exec(Past(calls)).hits;
    if k in before && before[k].start + WINDOW <= Last(calls).now - skew {
      assert Last(calls) == calls[|calls| - 1];
    }
  }

  lemma {:induction false} TableTracksReference(calls: seq<Call>, k: string, skew: real)
    requires Steady(calls, skew) && 0.0 <= skew <= WINDOW && Sheltered(calls, k, skew)
    ensures Tracks(calls, k, skew)
  {
    if calls != [] {
      SteadyPast(calls, skew);
      TableTracksReference(Past(calls), k, skew);
      HousekeepingSparesLive(calls, k, skew);
      var ref := Reference(Past(calls), k);
      if ref.Some? && Dead(Past(calls), ref.value, skew) {
        DeadStaysDead(calls, ref.value, skew);
        DeadIsOver(calls, ref.value, skew);
      }
    }
  }

  lemma SteadyPast(calls: seq<Call>, skew: real)
    requires calls != [] && Steady(calls, skew)
    ensures Steady(Past(calls), skew)
  {
  }

  /** Collection and eviction are unobservable for a key whose live windows are never
      evicted: every one of its calls gets the reference's answer. */
  lemma HousekeepingIsUnobservable(calls: seq<Call>, limit: nat, skew: real)
    requires calls != [] && Steady(calls, skew) && 0.0 <= skew <= WINDOW
    requires Sheltered(calls, Last(calls).key, skew)
    ensures Admitted(calls, limit) <==> ReferenceAdmits(calls, limit)
  {
    var k := Last(calls).key;
    SteadyPast(calls, skew);
    TableTracksReference(Past(calls), k, skew);
    HousekeepingSparesLive(calls, k, skew);
    var ref := Reference(Past(calls), k);
    if ref.Some? && Dead(Past(calls), ref.value, skew) {
      DeadIsOver(calls, ref.value, skew);
    }
  }

  lemma {:induction false} ReferencePositive(calls: seq<Call>, k: string)
    requires Reference(calls, k).Some?
    ensures Reference(calls, k).value.count >= 1
  {
    if Last(calls).key != k { ReferencePositive(Past(calls), k); }
  }

  /** n more attempts of k at one moment. */
  function Repeat(calls: seq<Call>, call: Call, n: nat): seq<Call> {
    if n == 0 then calls else Repeat(calls, call, n - 1) + [call]
  }

  lemma PastOfSnoc(calls: seq<Call>, call: Call)
    ensures Past(calls + [call]) == calls && Last(calls + [call]) == call
  {
  }

  lemma FirstAgain(t: Table, call: Call)
    requires call.key !in t.hits && call.victim != call.key
    ensures Counted(t, call) == Window(call.now, 1) && Step(t, call).hits[call.key] == Window(call.now, 1)
  {
  }

  lemma NextAgain(t: Table, call: Call, n: nat)
    requires call.key in t.hits && t.hits[call.key] == Window(call.now, n)
    ensures Enabled(t, call)
    ensures Counted(t, call) == Window(call.now, n + 1) && Step(t, call).hits[call.key] == Window(call.now, n + 1)
  {
  }

  /** The table counts n attempts of the call's key, the reference those of window w too. */
  predicate Counts(calls: seq<Call>, call: Call, w: Window, n: nat) {
    Legal(calls) && call.key in Exec(calls).hits && Exec(calls).hits[call.key] == Window(call.now, n) &&
    Reference(calls, call.key) == Some(Window(w.start, w.count + n))
  }

  lemma ExecOfSnoc(calls: seq<Call>, call: Call)
    requires Legal(calls) && Enabled(Exec(calls), call)
    ensures Legal(calls + [call]) && Exec(calls + [call]) == Step(Exec(calls), call)
    ensures Reference(calls + [call], call.key) == Some(Bump(Reference(calls, call.key), call.now))
  {
    PastOfSnoc(calls, call);
  }

  lemma FirstRepeat(calls: seq<Call>, call: Call, w: Window)
    requires Legal(calls) && Enabled(Exec(calls), call) && call.victim != call.key
    requires call.key !in Exec(calls).hits && Reference(calls, call.key) == Some(w) && call.now - w.start < WINDOW
    ensures Counts(calls + [call], call, w, 1) && Counted(Exec(calls), call).count == 1
  {
    FirstAgain(Exec(calls), call);
    ExecOfSnoc(calls, call);
  }

  lemma NextRepeat(calls: seq<Call>, call: Call, w: Window, n: nat)
    requires Counts(calls, call, w, n) && call.now - w.start < WINDOW
    ensures Counts(calls + [call], call, w, n + 1) && Counted(Exec(calls), call).count == n + 1
  {
    NextAgain(Exec(calls), call, n);
    ExecOfSnoc(calls, call);
    assert Bump(Reference(calls, call.key), call.now) == Window(w.start, w.count + n + 1);
  }

  lemma RepeatSnoc(calls: seq<Call>, call: Call, n: nat)
    requires n >= 1
    ensures Repeat(calls, call, n) == Repeat(calls, call, n - 1) + [call] && Repeat(calls, call, 0) == calls
  {
  }

  /** The table has forgotten k's window w; the attempts count up from one here, and from
      w's count in the reference. */
  lemma {:induction false} RepeatCounts(calls: seq<Call>, call: Call, w: Window, n: nat)
    requires Legal(calls) && Enabled(Exec(calls), call) && call.victim != call.key && n >= 1
    requires call.key !in Exec(calls).hits && Reference(calls, call.key) == Some(w) && call.now - w.start < WINDOW
    ensures Counts(Repeat(calls, call, n), call, w, n)
    ensures Counted(Exec(Repeat(calls, call, n - 1)), call).count == n
    decreases n
  {
    RepeatSnoc(calls, call, n);
    if n == 1 {
      FirstRepeat(calls, call, w);
    } else {
      RepeatCounts(calls, call, w, n - 1);
      NextRepeat(Repeat(calls, call, n - 1), call, w, n - 1);
    }
  }

  lemma OldestOf(hits: map<string, Window>) returns (oldest: string)
    requires hits.Keys != {}
    ensures Oldest(hits, oldest)
  {
    var rest := hits.Keys;
    oldest :| oldest in rest;
    while rest != {}
      invariant rest <= hits.Keys && oldest in hits
      invariant forall k | k in hits && k !in rest :: hits[oldest].start <= hits[k].start
      decreases rest
    {
      var k :| k in rest;
      if hits[k].start < hits[oldest].start { oldest := k; }
      rest := rest - {k};
    }
  }

  /** The condition is needed, for every key, limit and table: once a live window is evicted,
      some run goes on to let a call of its key through that the reference refuses. */
  lemma EvictingLiveForgives(calls: seq<Call>, k: string, limit: nat) returns (more: seq<Call>)
    requires Legal(calls) && Steady(calls, 0.0) && limit >= 1 && calls != []
    requires Sheltered(Past(calls), k, 0.0) && EvictsLive(calls, k, 0.0)
    ensures calls <= more && |more| == |calls| + limit && Legal(more) && Steady(more, 0.0) && Last(more).key == k
    ensures Admitted(more, limit) && !ReferenceAdmits(more, limit)
  {
    var now, w := Last(calls).now, Collected(Exec(Past(calls)), Last(calls).now)[k];
    SteadyPast(calls, 0.0);
    TableTracksReference(Past(calls), k, 0.0);
    ReferencePositive(calls, k);
    var hits := Collected(Exec(calls), now);
    var victim := Last(calls).key;
    if hits.Keys != {} { victim := OldestOf(hits); }
    assert Full(hits, k) ==> hits.Keys != {};
    var call := Call(k, now, victim);
    RepeatCounts(calls, call, w, limit);
    more := Repeat(calls, call, limit);
    RepeatShape(calls, call, limit);
    PastOfSnoc(Repeat(calls, call, limit - 1), call);
  }

  lemma {:induction false} RepeatShape(calls: seq<Call>, call: Call, n: nat)
    requires Steady(calls, 0.0) && calls != [] && call.now == Last(calls).now
    ensures var r := Repeat(calls, call, n);
            calls <= r && |r| == |calls| + n && Steady(r, 0.0) && Last(r).now == call.now
  {
    if n > 0 { RepeatShape(calls, call, n - 1); }
  }

  // ------------------------------------------------------------------ the sliding bound

  predicate Within(now: real, from: real, to: real) { from <= now < to }

  /** Calls of k let through with a clock reading in [from, to). */
  function AdmittedWithin(calls: seq<Call>, k: string, limit: nat, from: real, to: real): nat {
    if calls == [] then 0
    else
      AdmittedWithin(Past(calls), k, limit, from, to) +
      (if Last(calls).key == k && Within(Last(calls).now, from, to) && Admitted(calls, limit) then 1 else 0)
  }

  function ReferenceWithin(calls: seq<Call>, k: string, limit: nat, from: real, to: real): nat {
    if calls == [] then 0
    else
      ReferenceWithin(Past(calls), k, limit, from, to) +
      (if Last(calls).key == k && Within(Last(calls).now, from, to) && ReferenceAdmits(calls, limit) then 1 else 0)
  }

  lemma {:induction false} SameCount(calls: seq<Call>, k: string, limit: nat, skew: real, from: real, to: real)
    requires Steady(calls, skew) && 0.0 <= skew <= WINDOW && Sheltered(calls, k, skew)
    ensures AdmittedWithin(calls, k, limit, from, to) == ReferenceWithin(calls, k, limit, from, to)
  {
    if calls != [] {
      SteadyPast(calls, skew);
      SameCount(Past(calls), k, limit, skew, from, to);
      if Last(calls).key == k { HousekeepingIsUnobservable(calls, limit, skew); }
    }
  }

  function Min(a: nat, b: nat): nat { if a <= b then a else b }

  /** Admissions n in [from, from + 60 - skew) come from at most two windows: the current
      one, or the current one and its predecessor, or two windows both past. */
  predicate TwoWindows(w: Option<Window>, n: nat, limit: nat, from: real) {
    n == 0 ||
    (w.Some? &&
     ((n <= Min(w.value.count, limit) && w.value.start + WINDOW > from) ||
      (n <= limit + Min(w.value.count, limit) && w.value.start > from) ||
      (n <= 2 * limit && w.value.start > from + WINDOW)))
  }

  lemma BumpKeepsTwoWindows(w: Option<Window>, n: nat, limit: nat, from: real, now: real, skew: real)
    requires limit >= 1 && 0.0 <= skew && TwoWindows(w, n, limit, from)
    requires w.Some? ==> now >= w.value.start - skew
    ensures var b := Bump(w, now);
            TwoWindows(Some(b), n + (if Within(now, from, from + WINDOW - skew) &&
                b.count <= limit then 1 else 0), limit, from)
  {
  }

  lemma {:induction false} StartIsAReading(calls: seq<Call>, k: string) returns (i: nat)
    requires Reference(calls, k).Some?
    ensures i < |calls| && calls[i].now == Reference(calls, k).value.start
  {
    var past := Reference(Past(calls), k);
    if Last(calls).key == k && (past.None? || Last(calls).now - past.value.start >= WINDOW) {
      i := |calls| - 1;
    } else {
      i := StartIsAReading(Past(calls), k);
    }
  }

  lemma {:induction false} ReferenceTwoWindows(calls: seq<Call>, k: string, limit: nat, skew: real, from: real)
    requires Steady(calls, skew) && 0.0 <= skew && limit >= 1
    ensures TwoWindows(Reference(calls, k), ReferenceWithin(calls, k, limit, from, from + WINDOW - skew), limit, from)
  {
    if calls != [] {
      var w := Reference(Past(calls), k);
      SteadyPast(calls, skew);
      ReferenceTwoWindows(Past(calls), k, limit, skew, from);
      if Last(calls).key == k {
        if w.Some? {
          var i := StartIsAReading(Past(calls), k);
          assert calls[i] == Past(calls)[i];
        }
        BumpKeepsTwoWindows(w, ReferenceWithin(Past(calls), k, limit, from, from + WINDOW - skew), limit, from,
            Last(calls).now, skew);
      }
    }
  }

  /** Over any run, at most 2 * limit calls of a key get through in any half-open
      interval of 60 - skew seconds. */
  lemma SlidingBound(calls: seq<Call>, k: string, limit: nat, skew: real, from: real)
    requires Steady(calls, skew) && 0.0 <= skew <= 60.0 && Sheltered(calls, k, skew) && limit >= 1
    ensures AdmittedWithin(calls, k, limit, from, from + 60.0 - skew) <= 2 * limit
  {
    SameCount(calls, k, limit, skew, from, from + WINDOW - skew);
    ReferenceTwoWindows(calls, k, limit, skew, from);
  }

  // ------------------------------------------------------------------ size and rejections

  lemma {:induction false} TableStaysBounded(calls: seq<Call>)
    requires Legal(calls)
    ensures |Exec(calls).hits| <= 50_000
  {
    if calls != [] {
      TableStaysBounded(Past(calls));
      var before, hits := Exec(Past(calls)).hits, Collected(Exec(Past(calls)), Last(calls).now);
      SweptIsSmaller(before, Last(calls).now);
      if Full(hits, Last(calls).key) {
        assert hits.Keys == (hits - {Last(calls).victim}).Keys + {Last(calls).victim};
      }
      SizeOfInsert(Evicted(hits, Last(calls)), Last(calls).key, Counted(Exec(Past(calls)), Last(calls)));
    }
  }

  lemma SweptIsSmaller(hits: map<string, Window>, now: real)
    ensures |Swept(hits, now)| <= |hits|
  {
    assert Swept(hits, now).Keys <= hits.Keys;
    SmallerSubset(Swept(hits, now).Keys, hits.Keys);
  }

  lemma SmallerSubset(a: set<string>, b: set<string>)
    requires a <= b
    ensures |a| <= |b|
  {
    assert b == a + (b - a);
  }

  lemma SizeOfInsert(hits: map<string, Window>, key: string, w: Window)
    ensures |hits[key := w]| == |hits| + (if key in hits then 0 else 1)
  {
    assert hits[key := w].Keys == hits.Keys + {key};
  }

  /** Attempts of k from call p on. */
  function AttemptsSince(calls: seq<Call>, p: nat, k: string): nat {
    if |calls| <= p then 0
    else AttemptsSince(Past(calls), p, k) + (if Last(calls).key == k then 1 else 0)
  }

  /** Every attempt of k from call p on lies less than 60 s after call p. */
  predicate OneWindow(calls: seq<Call>, p: nat, k: string) {
    p < |calls| && calls[p].key == k &&
    forall i | p < i < |calls| && calls[i].key == k :: calls[i].now - calls[p].now < 60.0
  }

  /** A stored window counts exactly the attempts since the call that opened it. */
  lemma {:induction false} WindowOrigin(calls: seq<Call>, k: string) returns (p: nat)
    requires k in Exec(calls).hits
    ensures OneWindow(calls, p, k) && calls[p].now == Exec(calls).hits[k].start
    ensures AttemptsSince(calls, p, k) == Exec(calls).hits[k].count
  {
    var before := Lookup(Evicted(Collected(Exec(Past(calls)), Last(calls).now), Last(calls)), k);
    if Last(calls).key == k && (before.None? || Last(calls).now - before.value.start >= WINDOW) {
      p := |calls| - 1;
    } else {
      p := WindowOrigin(Past(calls), k);
      forall i | p < i < |calls| && calls[i].key == k ensures calls[i].now - calls[p].now < WINDOW {
        if i < |calls| - 1 { assert Past(calls)[i] == calls[i]; }
      }
    }
  }

  /** A call is refused only when at least `limit` earlier attempts of its key fell in
      one window with it - whatever the clock, the collector and the evictions did. */
  lemma RefusedOnlyAfterLimit(calls: seq<Call>, limit: nat) returns (p: nat)
    requires calls != [] && !Admitted(calls, limit) && limit >= 1
    ensures OneWindow(calls, p, Last(calls).key) && p < |calls| - 1
    ensures AttemptsSince(Past(calls), p, Last(calls).key) >= limit
  {
    p := WindowOrigin(calls, Last(calls).key);
  }

  /** One call, in plain numbers: the key's window goes on while it is less than 60 s old,
      whatever the collector does meanwhile, and the call counts in it or opens a new one. */
  lemma CallCounts(t: Table, call: Call)
    requires Enabled(t, call)
    ensures var live := call.key in t.hits && call.now - t.hits[call.key].start < 60.0;
            Counted(t, call) ==
            (if live then Window(t.hits[call.key].start, t.hits[call.key].count + 1) else Window(call.now, 1)) &&
            call.key in Step(t, call).hits && Step(t, call).hits[call.key] == Counted(t, call)
  {
  }

  /** What one call leaves of the other windows: all of them, but for those the collector
      finds more than 120 s old, on every 1024th call, and for the victim of a full table. */
  lemma CallSpares(t: Table, call: Call, k: string)
    requires Enabled(t, call) && k != call.key
    ensures var t' := Step(t, call);
            t'.ops == t.ops + 1 &&
            (k in t'.hits ==>
               k in t.hits && t'.hits[k] == t.hits[k] &&
               (t'.ops % 1024 == 0 ==> t'.hits[k].start >= call.now - 120.0)) &&
            (k in t.hits && k !in t'.hits ==>
               (t'.ops % 1024 == 0 && t.hits[k].start < call.now - 120.0) ||
               (k == call.victim && |t.hits| >= 50_000 && call.key !in Collected(t, call.now)))
  {
    SweptIsSmaller(t.hits, call.now);
  }

  // ------------------------------------------------------------------ the object

  method OldestKey(hits: map<string, Window>) returns (oldest: string)
    requires hits.Keys != {}
    ensures Oldest(hits, oldest)
  {
    ghost var _ := OldestOf(hits);
    oldest :| oldest in hits.Keys && Oldest(hits, oldest);
  }

  class TokenRateLimiter {
    const limit: nat
    var hits: map<string, Window>
    var ops: nat

    function Contents(): Table
      reads this
    {
      Table(hits, ops)
    }

    constructor (limitPerMinute: int)
      ensures Contents() == Exec([])
      ensures limit == if limitPerMinute >= 1 then limitPerMinute else 1
    {
      limit := if limitPerMinute >= 1 then limitPerMinute else 1;
      hits, ops := map[], 0;
    }

    method Enforce(key: string, now: real) returns (admitted: bool, victim: string)
      modifies this
      ensures var call := Call(key, now, victim);
              Enabled(old(Contents()), call) && Contents() == Step(old(Contents()), call) &&
              (admitted <==> Counted(old(Contents()), call).count <= limit)
    {
      victim := key;
      ops := ops + 1;
      if ops % GC_EVERY == 0 {
        hits := map k | k in hits && hits[k].start >= now - GC_AGE :: hits[k];
      }
      if key !in hits && |hits| >= MAX_KEYS {
        victim := OldestKey(hits);
        hits := hits - {victim};
      }
      var start, count := now, 0;
      if key in hits { start, count := hits[key].start, hits[key].count; }
      if now - start >= WINDOW { start, count := now, 0; }
      count := count + 1;
      hits := hits[key := Window(start, count)];
      admitted := count <= limit;
    }
  }
}
