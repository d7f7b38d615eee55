/** RedisTokenRateLimiter: one counter per key and aligned minute, expiring 61 seconds
    after its last increment.  The client's clock picks the minute; the command reaches
    the server a little later, and may fail on the way in or out. */
module MinuteCounters {
  import opened Options

  const TTL := 61.0

  /** How far the INCR / EXPIRE pipeline got before the client saw an error. */
  datatype Fault = NoFault | NothingRan | IncrRan | BothRan

  datatype Call = Call(key: string, now: real, at: real, fault: Fault)

  datatype Counter = Counter(count: nat, expiresAt: Option<real>)

  type Bucket = (string, int)

  /** int(time.time()) // 60 */
  function Minute(now: real): int { now.Floor / 60 }

  function BucketOf(call: Call): Bucket { (call.key, Minute(call.now)) }

  /** A key whose time is up is gone when the server next looks at it. */
  predicate LiveAt(c: Counter, at: real) { c.expiresAt.None? || at < c.expiresAt.value }

  function Before(store: map<Bucket, Counter>, call: Call): Counter {
    var b := BucketOf(call);
    if b in store && LiveAt(store[b], call.at) then store[b] else Counter(0, None)
  }

  function Step(store: map<Bucket, Counter>, call: Call): map<Bucket, Counter> {
    var was := Before(store, call);
    match call.fault
    case NothingRan => store
    case IncrRan => store[BucketOf(call) := Counter(was.count + 1, was.expiresAt)]
    case _ => store[BucketOf(call) := Counter(was.count + 1, Some(call.at + TTL))]
  }

  datatype Verdict = Admitted | Limited | Unavailable

  function Judge(store: map<Bucket, Counter>, call: Call, limit: nat): Verdict {
    if !call.fault.NoFault? then Unavailable
    else if Before(store, call).count + 1 > limit then Limited
    else Admitted
  }

  function Exec(calls: seq<Call>): map<Bucket, Counter> {
    if calls == [] then map[] else Step(Exec(calls[..|calls| - 1]), calls[|calls| - 1])
  }

  function Judged(calls: seq<Call>, limit: nat): Verdict
    requires calls != []
  {
    Judge(Exec(calls[..|calls| - 1]), calls[|calls| - 1], limit)
  }

  /** The sequence is the server's: it runs one command after the other. */
  predicate InServerOrder(calls: seq<Call>) {
    forall i, j | 0 <= i < j < |calls| :: calls[i].at <= calls[j].at
  }

  /** The command lands before its minute's counter can expire: in the minute of the clock
      reading it carries, or in the second after. */
  predicate InTime(call: Call) {
    60.0 * Minute(call.now) as real <= call.at < 60.0 * Minute(call.now) as real + 61.0
  }

  /** The commands of a key that the client sees answered land in time; the others may land
      whenever they do. */
  predicate Timely(calls: seq<Call>, key: string) {
    forall i | 0 <= i < |calls| && calls[i].key == key ::
      60.0 * Minute(calls[i].now) as real <= calls[i].at && (calls[i].fault.NoFault? ==> InTime(calls[i]))
  }

  // ------------------------------------------------------------------ one aligned minute

  /** Calls of bucket b let through. */
  function AdmittedIn(calls: seq<Call>, b: Bucket, limit: nat): nat {
    if calls == [] then 0
    else
      AdmittedIn(calls[..|calls| - 1], b, limit) +
      (if BucketOf(calls[|calls| - 1]) == b && Judged(calls, limit).Admitted? then 1 else 0)
  }

  /** Some command of b has landed too late for its minute. */
  predicate Overdue(calls: seq<Call>, b: Bucket) {
    exists i | 0 <= i < |calls| :: BucketOf(calls[i]) == b && calls[i].at >= 60.0 * b.1 as real + 61.0
  }

  /** Until b is overdue its counter has counted every call that was let through. */
  predicate CounterCovers(calls: seq<Call>, b: Bucket, limit: nat) {
    var n := AdmittedIn(calls, b, limit);
    n <= limit &&
    (!Overdue(calls, b) ==>
       (n > 0 ==> b in Exec(calls) && n <= Exec(calls)[b].count) &&
       (b in Exec(calls) && Exec(calls)[b].expiresAt.Some? ==>
          Exec(calls)[b].expiresAt.value >= 60.0 * b.1 as real + 61.0))
  }

  /** The commands of b that counted: those the server got to see. */
  function Arrived(calls: seq<Call>, b: Bucket): nat {
    if calls == [] then 0
    else
      Arrived(calls[..|calls| - 1], b) +
      (if BucketOf(calls[|calls| - 1]) == b && !calls[|calls| - 1].fault.NothingRan? then 1 else 0)
  }

  predicate AllInTime(calls: seq<Call>, b: Bucket) {
    forall i | 0 <= i < |calls| && BucketOf(calls[i]) == b :: InTime(calls[i])
  }

  lemma {:induction false} CountsArrived(calls: seq<Call>, b: Bucket)
    requires AllInTime(calls, b)
    ensures var store := Exec(calls);
            (if b in store then store[b].count else 0) == Arrived(calls, b) &&
            (b in store && store[b].expiresAt.Some? ==> store[b].expiresAt.value >= 60.0 * b.1 as real + 61.0)
  {
    if calls != [] {
      var n := |calls| - 1;
      assert forall i | 0 <= i < n :: calls[..n][i] == calls[i];
      CountsArrived(calls[..n], b);
      if BucketOf(calls[n]) == b { assert InTime(calls[n]); }
    }
  }

  /** If all commands of its minute land in time, an answered command is let through exactly if
      fewer than `limit` commands of the minute have reached the server before it, whether or
      not their clients have been told. */
  lemma AdmittedIff(calls: seq<Call>, limit: nat)
    requires calls != [] && AllInTime(calls, BucketOf(calls[|calls| - 1])) && calls[|calls| - 1].fault.NoFault?
    ensures var past, last := calls[..|calls| - 1], calls[|calls| - 1];
            Judged(calls, limit) == if Arrived(past, BucketOf(last)) < limit then Admitted else Limited
  {
    var n := |calls| - 1;
    assert forall i | 0 <= i < n :: calls[..n][i] == calls[i];
    assert InTime(calls[n]);
    CountsArrived(calls[..n], BucketOf(calls[n]));
  }

  /** A command that lands within a second of its clock reading is in time. */
  lemma PromptIsInTime(call: Call)
    requires call.now <= call.at < call.now + 1.0
    ensures InTime(call)
  {
    var f := call.now.Floor;
    assert 60 * (f / 60) <= f < 60 * (f / 60) + 60;
    assert (60 * Minute(call.now)) as real == 60.0 * Minute(call.now) as real;
    assert f as real <= call.now < f as real + 1.0;
  }

  lemma OverdueSnoc(calls: seq<Call>, b: Bucket)
    requires calls != []
    ensures var call := calls[|calls| - 1];
            Overdue(calls, b) <==>
            Overdue(calls[..|calls| - 1], b) || (BucketOf(call) == b && call.at >= 60.0 * b.1 as real + 61.0)
  {
    var n := |calls| - 1;
    if Overdue(calls[..n], b) {
      var i :| 0 <= i < n && BucketOf(calls[..n][i]) == b && calls[..n][i].at >= 60.0 * b.1 as real + 61.0;
      assert BucketOf(calls[i]) == b && calls[i].at >= 60.0 * b.1 as real + 61.0;
    }
    if Overdue(calls, b) {
      var i :| 0 <= i < |calls| && BucketOf(calls[i]) == b && calls[i].at >= 60.0 * b.1 as real + 61.0;
      if i < n { assert BucketOf(calls[..n][i]) == b && calls[..n][i].at >= 60.0 * b.1 as real + 61.0; }
    }
  }

  /** Once b is overdue no answered command of b is still to come. */
  lemma OverdueIsOver(calls: seq<Call>, b: Bucket)
    requires calls != [] && InServerOrder(calls) && Overdue(calls[..|calls| - 1], b)
    ensures BucketOf(calls[|calls| - 1]) == b ==> !InTime(calls[|calls| - 1])
  {
    var n := |calls| - 1;
    var i :| 0 <= i < n && BucketOf(calls[..n][i]) == b && calls[..n][i].at >= 60.0 * b.1 as real + 61.0;
    assert calls[i].at <= calls[n].at;
  }

  /** A counter touched in time cannot expire before the last command that lands in time. */
  lemma {:induction false} CountersCover(calls: seq<Call>, b: Bucket, limit: nat)
    requires InServerOrder(calls) && Timely(calls, b.0) && limit >= 1
    ensures CounterCovers(calls, b, limit)
  {
    if calls != [] {
      var past, call := calls[..|calls| - 1], calls[|calls| - 1];
      CountersCover(past, b, limit);
      OverdueSnoc(calls, b);
      if Overdue(past, b) { OverdueIsOver(calls, b); }
    }
  }

  /** At most `limit` calls of a key get through in any aligned minute, under any pattern of
      faults, as long as the answered commands land in time. */
  lemma MinuteBound(calls: seq<Call>, key: string, minute: int, limit: nat)
    requires InServerOrder(calls) && Timely(calls, key) && limit >= 1
    ensures AdmittedIn(calls, (key, minute), limit) <= limit
  {
    CountersCover(calls, (key, minute), limit);
  }

  /** In particular, if every answered command has landed within a second of its clock
      reading, as one on an open connection does under the client's socket timeout. */
  lemma PromptBound(calls: seq<Call>, key: string, minute: int, limit: nat)
    requires InServerOrder(calls) && limit >= 1
    requires forall i | 0 <= i < |calls| && calls[i].key == key ::
               calls[i].now <= calls[i].at && (calls[i].fault.NoFault? ==> calls[i].at < calls[i].now + 1.0)
    ensures AdmittedIn(calls, (key, minute), limit) <= limit
  {
    forall i | 0 <= i < |calls| && calls[i].key == key
      ensures 60.0 * Minute(calls[i].now) as real <= calls[i].at && (calls[i].fault.NoFault? ==> InTime(calls[i]))
    {
      MinuteHasBegun(calls[i]);
      if calls[i].fault.NoFault? { PromptIsInTime(calls[i]); }
    }
    MinuteBound(calls, key, minute, limit);
  }

  lemma MinuteHasBegun(call: Call)
    requires call.now <= call.at
    ensures 60.0 * Minute(call.now) as real <= call.at
  {
    PromptIsInTime(call.(at := call.now));
  }

  /** The same command n times. */
  function Burst(call: Call, n: nat): seq<Call> {
    if n == 0 then [] else Burst(call, n - 1) + [call]
  }

  /** A command that lands when its minute begins. */
  function AtStart(key: string, minute: int): Call {
    Call(key, 60.0 * minute as real, 60.0 * minute as real, NoFault)
  }

  lemma MinuteOfStart(key: string, minute: int)
    ensures BucketOf(AtStart(key, minute)) == (key, minute) && InTime(AtStart(key, minute))
  {
    assert 60.0 * minute as real == (60 * minute) as real;
    assert ((60 * minute) as real).Floor == 60 * minute;
  }

  function Filled(call: Call, n: nat): map<Bucket, Counter> {
    if n == 0 then map[] else map[BucketOf(call) := Counter(n, Some(call.at + TTL))]
  }

  lemma FillsFurther(call: Call, n: nat, limit: nat)
    requires call.fault.NoFault?
    ensures Step(Filled(call, n), call) == Filled(call, n + 1)
    ensures Judge(Filled(call, n), call, limit).Admitted? <==> n < limit
  {
    assert Before(Filled(call, n), call).count == n;
    assert Step(Filled(call, n), call) == Filled(call, n)[BucketOf(call) := Counter(n + 1, Some(call.at + TTL))];
  }

  lemma {:induction false} BurstRepeats(call: Call, n: nat)
    ensures |Burst(call, n)| == n && forall i | 0 <= i < n :: Burst(call, n)[i] == call
  {
    if n > 0 { BurstRepeats(call, n - 1); }
  }

  lemma AdmittedSnoc(calls: seq<Call>, call: Call, b: Bucket, limit: nat)
    ensures Exec(calls + [call]) == Step(Exec(calls), call)
    ensures AdmittedIn(calls + [call], b, limit) ==
            AdmittedIn(calls, b, limit) +
            (if BucketOf(call) == b && Judge(Exec(calls), call, limit).Admitted? then 1 else 0)
  {
    assert (calls + [call])[..|calls|] == calls;
  }

  lemma {:induction false} BurstFills(call: Call, b: Bucket, n: nat, limit: nat)
    requires n <= limit && call.fault.NoFault? && b == BucketOf(call)
    ensures AdmittedIn(Burst(call, n), b, limit) == n && Exec(Burst(call, n)) == Filled(call, n)
  {
    if n > 0 {
      BurstFills(call, b, n - 1, limit);
      FillsFurther(call, n - 1, limit);
      AdmittedSnoc(Burst(call, n - 1), call, b, limit);
    }
  }

  /** A counter that has expired counts from one again. */
  lemma ExpiredIsForgotten(first: Call, late: Call, n: nat, limit: nat)
    requires BucketOf(first) == BucketOf(late) && late.fault.NoFault? && late.at >= first.at + TTL && limit >= 1
    ensures Judge(Filled(first, n), late, limit).Admitted?
  {
  }

  /** A late command finds its minute's counter expired and is let through again. */
  lemma LateCommandIsAdmitted(late: Call, limit: nat)
    requires late.fault.NoFault? && limit >= 1
    requires late.at >= 60.0 * Minute(late.now) as real + 61.0
    ensures AdmittedIn(Burst(AtStart(late.key, Minute(late.now)), limit) + [late], BucketOf(late), limit) == limit + 1
  {
    var first, b := AtStart(late.key, Minute(late.now)), BucketOf(late);
    MinuteOfStart(late.key, Minute(late.now));
    BurstFills(first, b, limit, limit);
    ExpiredIsForgotten(first, late, limit, limit);
    AdmittedSnoc(Burst(first, limit), late, b, limit);
  }

  /** An answered command that lands no earlier than its minute can be added to every timely
      run without breaking the minute's bound exactly if it lands in time, so the second of
      grace is exactly what 61 - 60 buys. */
  lemma InTimeIff(last: Call, limit: nat)
    requires last.fault.NoFault? && limit >= 1 && 60.0 * Minute(last.now) as real <= last.at
    ensures InTime(last) <==>
            forall calls | InServerOrder(calls + [last]) && Timely(calls, last.key) ::
              AdmittedIn(calls + [last], BucketOf(last), limit) <= limit
  {
    if InTime(last) {
      forall calls | InServerOrder(calls + [last]) && Timely(calls, last.key)
        ensures AdmittedIn(calls + [last], BucketOf(last), limit) <= limit
      {
        TimelySnoc(calls, last);
        MinuteBound(calls + [last], last.key, Minute(last.now), limit);
      }
    } else {
      var start := AtStart(last.key, Minute(last.now));
      var burst := Burst(start, limit);
      LateCommandIsAdmitted(last, limit);
      BurstRepeats(start, limit);
      MinuteOfStart(last.key, Minute(last.now));
      assert InServerOrder(burst + [last]) && Timely(burst, last.key);
    }
  }

  lemma TimelySnoc(calls: seq<Call>, last: Call)
    requires Timely(calls, last.key) && InTime(last)
    ensures Timely(calls + [last], last.key)
  {
  }

  // ------------------------------------------------------------------ any 60 seconds

  function AdmittedWithin(calls: seq<Call>, key: string, limit: nat, from: real, to: real): nat {
    if calls == [] then 0
    else
      var call := calls[|calls| - 1];
      AdmittedWithin(calls[..|calls| - 1], key, limit, from, to) +
      (if call.key == key && from <= call.now < to && Judged(calls, limit).Admitted? then 1 else 0)
  }

  /** Sixty seconds touch at most two aligned minutes. */
  lemma TwoMinutes(now: real, from: real)
    requires from <= now < from + 60.0
    ensures Minute(now) == Minute(from) || Minute(now) == Minute(from) + 1
  {
    assert from.Floor <= now.Floor <= from.Floor + 60;
  }

  lemma {:induction false} SplitByMinute(calls: seq<Call>, key: string, limit: nat, from: real)
    ensures AdmittedWithin(calls, key, limit, from, from + 60.0) <=
            AdmittedIn(calls, (key, Minute(from)), limit) + AdmittedIn(calls, (key, Minute(from) + 1), limit)
  {
    if calls != [] {
      var call := calls[|calls| - 1];
      SplitByMinute(calls[..|calls| - 1], key, limit, from);
      if from <= call.now < from + 60.0 { TwoMinutes(call.now, from); }
    }
  }

  /** At most 2 * limit calls of a key get through in any half-open 60 seconds. */
  lemma SlidingBound(calls: seq<Call>, key: string, limit: nat, from: real)
    requires InServerOrder(calls) && Timely(calls, key) && limit >= 1
    ensures AdmittedWithin(calls, key, limit, from, from + 60.0) <= 2 * limit
  {
    SplitByMinute(calls, key, limit, from);
    MinuteBound(calls, key, Minute(from), limit);
    MinuteBound(calls, key, Minute(from) + 1, limit);
  }

  // ------------------------------------------------------------------ the object

  class RedisTokenRateLimiter {
    const limit: nat
    var store: map<Bucket, Counter>

    constructor (limitPerMinute: int)
      ensures store == Exec([])
      ensures limit == if limitPerMinute >= 1 then limitPerMinute else 1
    {
      limit := if limitPerMinute >= 1 then limitPerMinute else 1;
      store := map[];
    }

    method Enforce(call: Call) returns (verdict: Verdict)
      modifies this
      ensures store == Step(old(store), call) && verdict == Judge(old(store), call, limit)
    {
      var bucket := BucketOf(call);
      if call.fault.NothingRan? { return Unavailable; }
      if bucket in store && !LiveAt(store[bucket], call.at) { store := store - {bucket}; }
      var was := if bucket in store then store[bucket] else Counter(0, None);
      var count := was.count + 1;
      store := store[bucket := Counter(count, was.expiresAt)];
      if call.fault.IncrRan? { return Unavailable; }
      store := store[bucket := Counter(count, Some(call.at + TTL))];
      if call.fault.BothRan? { return Unavailable; }
      verdict := if count > limit then Limited else Admitted;
    }
  }
}
