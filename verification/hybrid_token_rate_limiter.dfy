/** HybridTokenRateLimiter: the Redis limiter decides while it answers; when it fails,
    the in-memory limiter decides instead. */
module HybridLimiter {
  import P = MinuteCounters
  import F = TokenWindows

  const WARN_EVERY := 30.0

  /** One `enforce`: the call as the primary sees it, the monotonic clock for the
      warning, and the call as the fallback would see it a moment later. */
  datatype Call = Call(primary: P.Call, monotonic: real, fallback: F.Call)

  predicate WellFormed(calls: seq<Call>) {
    forall i | 0 <= i < |calls| :: calls[i].primary.key == calls[i].fallback.key
  }

  function ToPrimary(calls: seq<Call>): seq<P.Call> {
    if calls == [] then [] else ToPrimary(calls[..|calls| - 1]) + [calls[|calls| - 1].primary]
  }

  /** Only calls the primary could not answer reach the fallback. */
  function ToFallback(calls: seq<Call>): seq<F.Call> {
    if calls == [] then []
    else
      var call := calls[|calls| - 1];
      ToFallback(calls[..|calls| - 1]) + (if call.primary.fault.NoFault? then [] else [call.fallback])
  }

  /** Was the last call let through, and by whom? */
  predicate ByPrimary(calls: seq<Call>, limit: nat)
    requires calls != []
  {
    P.Judge(P.Exec(ToPrimary(calls[..|calls| - 1])), calls[|calls| - 1].primary, limit).Admitted?
  }

  predicate ByFallback(calls: seq<Call>, limit: nat)
    requires calls != []
  {
    var call := calls[|calls| - 1];
    P.Judge(P.Exec(ToPrimary(calls[..|calls| - 1])), call.primary, limit).Unavailable? &&
    F.Counted(F.Exec(ToFallback(calls[..|calls| - 1])), call.fallback).count <= limit
  }

  /** Calls of a key let through, dated by the clock reading of the limiter that decided. */
  function AdmittedWithin(calls: seq<Call>, key: string, limit: nat, from: real, to: real): nat {
    if calls == [] then 0
    else
      var call := calls[|calls| - 1];
      AdmittedWithin(calls[..|calls| - 1], key, limit, from, to) +
      (if call.primary.key != key then 0
       else if ByPrimary(calls, limit) then (if from <= call.primary.now < to then 1 else 0)
       else if ByFallback(calls, limit) then (if from <= call.fallback.now < to then 1 else 0)
       else 0)
  }

  lemma PrimaryShare(calls: seq<Call>, key: string, limit: nat, from: real, to: real)
    requires calls != []
    ensures var call := calls[|calls| - 1].primary;
            P.AdmittedWithin(ToPrimary(calls), key, limit, from, to) ==
            P.AdmittedWithin(ToPrimary(calls[..|calls| - 1]), key, limit, from, to) +
            (if call.key == key && from <= call.now < to && ByPrimary(calls, limit) then 1 else 0)
  {
    var p := ToPrimary(calls[..|calls| - 1]);
    assert ToPrimary(calls)[..|p|] == p;
  }

  lemma FallbackShare(calls: seq<Call>, key: string, limit: nat, from: real, to: real)
    requires calls != []
    ensures var call := calls[|calls| - 1];
            F.AdmittedWithin(ToFallback(calls), key, limit, from, to) ==
            F.AdmittedWithin(ToFallback(calls[..|calls| - 1]), key, limit, from, to) +
            (if !call.primary.fault.NoFault? && call.fallback.key == key && from <= call.fallback.now < to &&
                ByFallback(calls, limit) then 1 else 0)
  {
    var call := calls[|calls| - 1];
    var f := ToFallback(calls[..|calls| - 1]);
    if call.primary.fault.NoFault? {
      assert ToFallback(calls) == f;
    } else {
      assert F.Past(f + [call.fallback]) == f;
    }
  }

  lemma {:induction false} SplitByLimiter(calls: seq<Call>, key: string, limit: nat, from: real, to: real)
    requires WellFormed(calls)
    ensures AdmittedWithin(calls, key, limit, from, to) ==
            P.AdmittedWithin(ToPrimary(calls), key, limit, from, to) +
            F.AdmittedWithin(ToFallback(calls), key, limit, from, to)
  {
    if calls != [] {
      SplitByLimiter(calls[..|calls| - 1], key, limit, from, to);
      PrimaryShare(calls, key, limit, from, to);
      FallbackShare(calls, key, limit, from, to);
    }
  }

  lemma {:induction false} Narrower(calls: seq<P.Call>, key: string, limit: nat, from: real, to: real, wider: real)
    requires to <= wider
    ensures P.AdmittedWithin(calls, key, limit, from, to) <= P.AdmittedWithin(calls, key, limit, from, wider)
  {
    if calls != [] { Narrower(calls[..|calls| - 1], key, limit, from, to, wider); }
  }

  /** Under any pattern of primary failures, at most 4 * limit calls of a key get through
      in any half-open interval of 60 - skew seconds. */
  lemma SlidingBound(calls: seq<Call>, key: string, limit: nat, skew: real, from: real)
    requires WellFormed(calls) && limit >= 1
    requires P.InServerOrder(ToPrimary(calls)) && P.Timely(ToPrimary(calls), key)
    requires 0.0 <= skew <= 60.0 && F.Steady(ToFallback(calls), skew) && F.Sheltered(ToFallback(calls), key, skew)
    ensures AdmittedWithin(calls, key, limit, from, from + 60.0 - skew) <= 4 * limit
  {
    var to := from + 60.0 - skew;
    SplitByLimiter(calls, key, limit, from, to);
    Narrower(ToPrimary(calls), key, limit, from, to, from + 60.0);
    P.SlidingBound(ToPrimary(calls), key, limit, from);
    F.SlidingBound(ToFallback(calls), key, limit, skew, from);
  }

  class HybridTokenRateLimiter {
    const primary: P.RedisTokenRateLimiter
    const fallback: F.TokenRateLimiter
    var lastWarn: real

    constructor (primary: P.RedisTokenRateLimiter, fallback: F.TokenRateLimiter)
      ensures this.primary == primary && this.fallback == fallback && lastWarn == 0.0
    {
      this.primary, this.fallback, lastWarn := primary, fallback, 0.0;
    }

    method Enforce(call: P.Call, monotonic: real, now: real) returns (admitted: bool, victim: string)
      modifies this`lastWarn, primary, fallback
      ensures var verdict := P.Judge(old(primary.store), call, primary.limit);
              primary.store == P.Step(old(primary.store), call) &&
              if verdict.Unavailable? then
                var second := F.Call(call.key, now, victim);
                F.Enabled(old(fallback.Contents()), second) &&
                fallback.Contents() == F.Step(old(fallback.Contents()), second) &&
                (admitted <==> F.Counted(old(fallback.Contents()), second).count <= fallback.limit) &&
                lastWarn == if monotonic - old(lastWarn) > 30.0 then monotonic else old(lastWarn)
              else
                fallback.Contents() == old(fallback.Contents()) && lastWarn == old(lastWarn) &&
                (admitted <==> verdict.Admitted?)
    {
      victim := call.key;
      var verdict := primary.Enforce(call);
      if verdict.Unavailable? {
        if monotonic - lastWarn > WARN_EVERY { lastWarn := monotonic; }
        admitted, victim := fallback.Enforce(call.key, now);
      } else {
        admitted := verdict.Admitted?;
      }
    }
  }
}
