/** GatewayAuthService.validate_otlp_token over any number of threads: the cache against
    an authority whose answers may change at any moment. */
module GatewayService {
  import opened Options
  import opened Text
  import opened TokenCache

  // ------------------------------------------------------------------ the authority's replies

  /** `org_id` in the reply: missing or falsy, or str() of a truthy value. */
  datatype OrgField = Falsy | Present(text: string)

  datatype Body = NotJson | NotObject | Object(orgId: OrgField)

  datatype Reply = TransportError | Unexpected | Http(status: int, body: Body)

  function ExtractOrg(body: Body): Option<string> {
    match body
    case Object(Present(text)) => Some(Strip(text))
    case _ => None
  }

  /** None when the reply counts as an unavailable backend. */
  function Resolve(reply: Reply): (answer: Option<Option<string>>)
    ensures answer.Some? <==> reply.Http? && (reply.status == 200 || reply.status == 404)
  {
    match reply
    case Http(status, body) =>
      if status == 200 then Some(ExtractOrg(body)) else if status == 404 then Some(None) else None
    case _ => None
  }

  /** What a reply says of a token: the organisation it names, stripped, or that there is
      none. A reply of any other kind says nothing. */
  predicate Says(reply: Reply, org: Option<string>) {
    reply.Http? &&
    match org
    case Some(name) => reply.status == 200 && reply.body.Object? && reply.body.orgId.Present? &&
                       name == Strip(reply.body.orgId.text)
    case None => reply.status == 404 || (reply.status == 200 && !(reply.body.Object? && reply.body.orgId.Present?))
  }

  lemma ResolvesToWhatItSays(reply: Reply, org: Option<string>)
    ensures Resolve(reply) == Some(org) <==> Says(reply, org)
  {
  }

  // ------------------------------------------------------------------ the machine

  /** A request to the authority, as it was answered. */
  datatype Ask = Ask(token: string, reply: Reply, at: real)

  datatype Verdict = Org(org: Option<string>) | Unavailable

  /** Where a verdict comes from. */
  datatype Ground = NoToken | Hit(stamp: real, at: real) | Asked(ask: nat)

  datatype Phase =
    | Begun
    | Looked(slot: Option<Slot>)
    | Expired
    | Asking
    | Answered(org: Option<string>, ask: nat)
    | Stamped(org: Option<string>, ask: nat, stamp: real)
    | Done(verdict: Verdict, ground: Ground)

  datatype Thread = Thread(token: string, phase: Phase)

  datatype State = State(clock: real, cache: map<string, Slot>, ops: nat, asks: seq<Ask>, threads: seq<Thread>)

  /** `digest` is SHA-256; `lag` bounds how long a thread takes from the authority's answer
      to the clock reading it stores the answer under. */
  datatype World = World(cfg: Settings, digest: string -> string, lag: real)

  datatype Event =
    | Tick(elapsed: real)
    | Enter(token: string)
    | Lookup(t: nat)
    | Check(t: nat)
    | DropExpired(t: nat)
    | Fetch(t: nat, reply: Reply)
    | ReadClock(t: nat)
    | Store(t: nat, victim: string)

  const START := State(0.0, map[], 0, [], [])

  function Key(w: World, s: State, t: nat): string
    requires t < |s.threads|
  {
    w.digest(s.threads[t].token)
  }

  predicate At(s: State, t: nat) { t < |s.threads| }

  predicate Enabled(w: World, s: State, ev: Event) {
    match ev
    case Tick(elapsed) => elapsed >= 0.0
    case Enter(_) => true
    case Lookup(t) => At(s, t) && s.threads[t].phase.Begun?
    case Check(t) => At(s, t) && s.threads[t].phase.Looked?
    case DropExpired(t) => At(s, t) && s.threads[t].phase.Expired?
    case Fetch(t, _) => At(s, t) && s.threads[t].phase.Asking?
    case ReadClock(t) =>
      At(s, t) && s.threads[t].phase.Answered? && s.threads[t].phase.ask < |s.asks| &&
      s.clock <= s.asks[s.threads[t].phase.ask].at + w.lag
    case Store(t, victim) =>
      At(s, t) && s.threads[t].phase.Stamped? &&
      MayStore(s.cache, s.ops, w.cfg, Key(w, s, t), Slot(s.threads[t].phase.org, s.threads[t].phase.stamp), victim)
  }

  function Move(s: State, t: nat, phase: Phase): State
    requires At(s, t)
  {
    s.(threads := s.threads[t := s.threads[t].(phase := phase)])
  }

  function Apply(w: World, s: State, ev: Event): State
    requires Enabled(w, s, ev)
  {
    match ev
    case Tick(elapsed) => s.(clock := s.clock + elapsed)
    case Enter(token) =>
      s.(threads := s.threads + [Thread(token, if token == "" then Done(Org(None), NoToken) else Begun)])
    case Lookup(t) =>
      var k := Key(w, s, t);
      Move(s, t, Looked(if k in s.cache then Some(s.cache[k]) else None))
    case Check(t) => CheckStep(w, s, t)
    case DropExpired(t) => Move(s, t, Asking).(cache := s.cache - {Key(w, s, t)})
    case Fetch(t, reply) => FetchStep(s, t, reply)
    case ReadClock(t) => Move(s, t, Stamped(s.threads[t].phase.org, s.threads[t].phase.ask, s.clock))
    case Store(t, victim) => StoreStep(w, s, t, victim)
  }

  function CheckStep(w: World, s: State, t: nat): State
    requires At(s, t) && s.threads[t].phase.Looked?
  {
    match s.threads[t].phase.slot
    case None => Move(s, t, Asking)
    case Some(slot) =>
      if Fresh(slot, s.clock, w.cfg.ttl) then Move(s, t, Done(Org(slot.org), Hit(slot.stamp, s.clock)))
      else Move(s, t, Expired)
  }

  function FetchStep(s: State, t: nat, reply: Reply): State
    requires At(s, t)
  {
    var n := |s.asks|;
    var phase := match Resolve(reply)
                 case None => Done(Unavailable, Asked(n))
                 case Some(org) => Answered(org, n);
    Move(s, t, phase).(asks := s.asks + [Ask(s.threads[t].token, reply, s.clock)])
  }

  function StoreStep(w: World, s: State, t: nat, victim: string): State
    requires At(s, t) && s.threads[t].phase.Stamped?
  {
    var p := s.threads[t].phase;
    Move(s, t, Done(Org(p.org), Asked(p.ask))).(
      cache := Stored(s.cache, s.ops, w.cfg, Key(w, s, t), Slot(p.org, p.stamp), victim),
      ops := s.ops + 1)
  }

  function Exec(w: World, evs: seq<Event>): Option<State> {
    if evs == [] then Some(START)
    else
      var s := Exec(w, evs[..|evs| - 1]);
      var ev := evs[|evs| - 1];
      if s.Some? && Enabled(w, s.value, ev) then Some(Apply(w, s.value, ev)) else None
  }

  predicate Legal(w: World, evs: seq<Event>) { Exec(w, evs).Some? }

  // ------------------------------------------------------------------ bounded staleness

  /** Ask j is the authority's answer `org` for a token with this digest. */
  predicate Answers(w: World, s: State, j: nat, key: string, org: Option<string>) {
    j < |s.asks| && w.digest(s.asks[j].token) == key && Resolve(s.asks[j].reply) == Some(org)
  }

  predicate SourceOf(w: World, s: State, j: nat, key: string, slot: Slot) {
    Answers(w, s, j, key, slot.org) && s.asks[j].at <= slot.stamp <= s.asks[j].at + w.lag
  }

  ghost predicate Sourced(w: World, s: State, key: string, slot: Slot) {
    slot.stamp <= s.clock && exists j: nat :: SourceOf(w, s, j, key, slot)
  }

  ghost predicate ThreadOk(w: World, s: State, t: nat)
    requires At(s, t)
  {
    var key := Key(w, s, t);
    match s.threads[t].phase
    case Looked(Some(slot)) => Sourced(w, s, key, slot)
    case Answered(org, j) => Answers(w, s, j, key, org) && s.asks[j].token == s.threads[t].token
    case Stamped(org, j, stamp) =>
      SourceOf(w, s, j, key, Slot(org, stamp)) && s.asks[j].token == s.threads[t].token && stamp <= s.clock
    case Done(verdict, ground) => Grounded(w, s, t, verdict, ground)
    case _ => true
  }

  ghost predicate Grounded(w: World, s: State, t: nat, verdict: Verdict, ground: Ground)
    requires At(s, t)
  {
    match ground
    case NoToken => s.threads[t].token == "" && verdict == Org(None)
    case Hit(stamp, at) =>
      verdict.Org? && Sourced(w, s, Key(w, s, t), Slot(verdict.org, stamp)) &&
      stamp <= at <= s.clock && at - stamp < w.cfg.ttl as real
    case Asked(j) =>
      j < |s.asks| && s.asks[j].token == s.threads[t].token &&
      match Resolve(s.asks[j].reply) {
        case None => verdict == Unavailable
        case Some(org) => verdict == Org(org)
      }
  }

  ghost predicate Inv(w: World, s: State) {
    (forall t: nat :: At(s, t) ==> ThreadOk(w, s, t)) &&
    (forall k <- s.cache :: Sourced(w, s, k, s.cache[k])) &&
    |s.cache| <= w.cfg.maxSize + s.ops / GC_INTERVAL &&
    forall j: nat :: j < |s.asks| ==> s.asks[j].at <= s.clock
  }

  /** Time passes and the authority answers; what was sourced stays sourced. */
  lemma SourcedStays(w: World, s: State, s': State, key: string, slot: Slot)
    requires Sourced(w, s, key, slot) && s.clock <= s'.clock && s.asks <= s'.asks
    ensures Sourced(w, s', key, slot)
  {
    var j: nat :| SourceOf(w, s, j, key, slot);
    assert SourceOf(w, s', j, key, slot);
  }

  lemma ThreadStays(w: World, s: State, s': State, t: nat)
    requires At(s, t) && ThreadOk(w, s, t) && At(s', t) && s'.threads[t] == s.threads[t]
    requires s.clock <= s'.clock && s.asks <= s'.asks
    ensures ThreadOk(w, s', t)
  {
    match s.threads[t].phase
    case Looked(Some(slot)) => SourcedStays(w, s, s', Key(w, s, t), slot);
    case Done(Org(org), Hit(stamp, _)) => SourcedStays(w, s, s', Key(w, s, t), Slot(org, stamp));
    case _ =>
  }

  /** A step that moves at most thread t, adds answers, and caches only sourced slots. */
  lemma MoveKeepsInv(w: World, s: State, s': State, t: nat)
    requires Inv(w, s) && s.clock <= s'.clock && s.asks <= s'.asks
    requires |s.threads| <= |s'.threads|
    requires forall i: nat :: At(s, i) && i != t ==> s'.threads[i] == s.threads[i]
    requires forall i: nat :: At(s', i) && !At(s, i) ==> ThreadOk(w, s', i)
    requires At(s', t) ==> ThreadOk(w, s', t)
    requires forall k <- s'.cache :: (k in s.cache && s'.cache[k] == s.cache[k]) || Sourced(w, s', k, s'.cache[k])
    requires |s'.cache| <= w.cfg.maxSize + s'.ops / GC_INTERVAL
    requires forall j: nat :: |s.asks| <= j < |s'.asks| ==> s'.asks[j].at <= s'.clock
    ensures Inv(w, s')
  {
    forall i: nat | At(s', i) ensures ThreadOk(w, s', i) {
      if i != t && At(s, i) { ThreadStays(w, s, s', i); }
    }
    forall k | k in s'.cache ensures Sourced(w, s', k, s'.cache[k]) {
      if k in s.cache && s'.cache[k] == s.cache[k] { SourcedStays(w, s, s', k, s.cache[k]); }
    }
    forall j: nat | j < |s'.asks| ensures s'.asks[j].at <= s'.clock {
      if j < |s.asks| { assert s'.asks[j] == s.asks[j]; }
    }
  }

  lemma SmallerCache(small: map<string, Slot>, big: map<string, Slot>)
    requires small.Keys <= big.Keys
    ensures |small| <= |big|
  {
    assert big.Keys == small.Keys + (big.Keys - small.Keys);
  }

  lemma StoredIsSourced(w: World, s: State, s': State, key: string, slot: Slot, victim: string)
    requires s'.cache == Stored(s.cache, s.ops, w.cfg, key, slot, victim) && Sourced(w, s', key, slot)
    ensures forall k <- s'.cache :: (k in s.cache && s'.cache[k] == s.cache[k]) || Sourced(w, s', k, s'.cache[k])
  {
    forall k | k in s'.cache ensures (k in s.cache && s'.cache[k] == s.cache[k]) || Sourced(w, s', k, s'.cache[k]) {
      StoredContents(s.cache, s.ops, w.cfg, key, slot, victim, k);
    }
  }

  lemma StampedIsSourced(w: World, s: State, s': State, t: nat)
    requires At(s, t) && ThreadOk(w, s, t) && s.threads[t].phase.Stamped?
    requires s'.asks == s.asks && s'.clock == s.clock
    ensures var p := s.threads[t].phase;
            Sourced(w, s', Key(w, s, t), Slot(p.org, p.stamp))
  {
    var p := s.threads[t].phase;
    assert SourceOf(w, s', p.ask, Key(w, s, t), Slot(p.org, p.stamp));
  }

  lemma StoreKeepsInv(w: World, s: State, t: nat, victim: string)
    requires Inv(w, s) && Enabled(w, s, Store(t, victim))
    ensures Inv(w, StoreStep(w, s, t, victim))
  {
    var p := s.threads[t].phase;
    var key, slot := Key(w, s, t), Slot(p.org, p.stamp);
    var s' := StoreStep(w, s, t, victim);
    assert ThreadOk(w, s, t);
    StampedIsSourced(w, s, s', t);
    StoredIsSourced(w, s, s', key, slot, victim);
    StoredThreadOk(w, s, s', t);
    StoredSize(s.cache, s.ops, w.cfg, key, slot, victim);
    MoveKeepsInv(w, s, s', t);
  }

  lemma StoredThreadOk(w: World, s: State, s': State, t: nat)
    requires At(s, t) && ThreadOk(w, s, t) && s.threads[t].phase.Stamped? && At(s', t) && s'.asks == s.asks
    requires s'.threads[t] ==
             s.threads[t].(phase := Done(Org(s.threads[t].phase.org), Asked(s.threads[t].phase.ask)))
    ensures ThreadOk(w, s', t)
  {
  }

  lemma StoredSize(cache: map<string, Slot>, ops: nat, cfg: Settings, key: string, slot: Slot, victim: string)
    requires MayStore(cache, ops, cfg, key, slot, victim) && |cache| <= cfg.maxSize + ops / GC_INTERVAL
    ensures |Stored(cache, ops, cfg, key, slot, victim)| <= cfg.maxSize + (ops + 1) / GC_INTERVAL
  {
    SizeAfterStore(cache, ops, cfg, key, slot, victim);
  }

  lemma FetchKeepsInv(w: World, s: State, t: nat, reply: Reply)
    requires Inv(w, s) && Enabled(w, s, Fetch(t, reply))
    ensures Inv(w, FetchStep(s, t, reply))
  {
    MoveKeepsInv(w, s, FetchStep(s, t, reply), t);
  }

  lemma ReadKeepsInv(w: World, s: State, ev: Event)
    requires Inv(w, s) && Enabled(w, s, ev) && (ev.Lookup? || ev.Check? || ev.ReadClock?)
    ensures Inv(w, Apply(w, s, ev))
  {
    var s' := Apply(w, s, ev);
    assert ThreadOk(w, s, ev.t);
    if ev.Lookup? {
      if Key(w, s, ev.t) in s.cache { SourcedStays(w, s, s', Key(w, s, ev.t), s.cache[Key(w, s, ev.t)]); }
    } else if ev.Check? {
      if s.threads[ev.t].phase.slot.Some? { SourcedStays(w, s, s', Key(w, s, ev.t), s.threads[ev.t].phase.slot.value); }
    }
    MoveKeepsInv(w, s, s', ev.t);
  }

  lemma StepKeepsInv(w: World, s: State, ev: Event)
    requires Inv(w, s) && Enabled(w, s, ev)
    ensures Inv(w, Apply(w, s, ev))
  {
    match ev
    case Tick(_) => MoveKeepsInv(w, s, Apply(w, s, ev), |s.threads|);
    case Enter(_) => MoveKeepsInv(w, s, Apply(w, s, ev), |s.threads|);
    case Store(t, victim) => StoreKeepsInv(w, s, t, victim);
    case Fetch(t, reply) => FetchKeepsInv(w, s, t, reply);
    case DropExpired(t) =>
      SmallerCache(Apply(w, s, ev).cache, s.cache);
      MoveKeepsInv(w, s, Apply(w, s, ev), t);
    case _ => ReadKeepsInv(w, s, ev);
  }

  lemma {:induction false} RunKeepsInv(w: World, evs: seq<Event>)
    requires Legal(w, evs)
    ensures Inv(w, Exec(w, evs).value)
  {
    if evs != [] {
      var n := |evs| - 1;
      RunKeepsInv(w, evs[..n]);
      StepKeepsInv(w, Exec(w, evs[..n]).value, evs[n]);
    }
  }

  ghost predicate Injective(digest: string -> string) { forall a, b :: digest(a) == digest(b) ==> a == b }

  /** In every interleaving, a finished validation that is not an error answers with what
      the authority said for that very token: just now, or stored less than ttl before
      the hit was judged: the name of a 200, or that there is none after a 404 or after a
      200 that names none.  No other reply is ever repeated. */
  lemma BoundedStaleness(w: World, evs: seq<Event>, t: nat)
    requires Legal(w, evs) && Injective(w.digest) && At(Exec(w, evs).value, t)
    requires Exec(w, evs).value.threads[t].phase.Done? && Exec(w, evs).value.threads[t].phase.verdict.Org?
    requires Exec(w, evs).value.threads[t].token != ""
    ensures var s := Exec(w, evs).value;
            var p := s.threads[t].phase;
            exists j: nat :: j < |s.asks| && s.asks[j].token == s.threads[t].token &&
              Says(s.asks[j].reply, p.verdict.org) &&
              (p.ground == Asked(j) ||
               (p.ground.Hit? && s.asks[j].at <= p.ground.stamp <= p.ground.at < p.ground.stamp + w.cfg.ttl as real))
  {
    var s := Exec(w, evs).value;
    var p := s.threads[t].phase;
    RunKeepsInv(w, evs);
    assert ThreadOk(w, s, t);
    if p.ground.Hit? {
      var j: nat :| SourceOf(w, s, j, Key(w, s, t), Slot(p.verdict.org, p.ground.stamp));
      ResolvesToWhatItSays(s.asks[j].reply, p.verdict.org);
      assert s.asks[j].token == s.threads[t].token;
    } else {
      ResolvesToWhatItSays(s.asks[p.ground.ask].reply, p.verdict.org);
      assert s.asks[p.ground.ask].token == s.threads[t].token;
    }
  }

  /** Once the authority has answered nothing but `org` for a token since time `since`,
      every hit judged from since + lag + ttl on answers `org`. */
  lemma ChangesTakeEffect(w: World, evs: seq<Event>, t: nat, since: real, org: Option<string>)
    requires Legal(w, evs) && Injective(w.digest) && At(Exec(w, evs).value, t)
    requires Exec(w, evs).value.threads[t].phase.Done? && Exec(w, evs).value.threads[t].phase.ground.Hit?
    requires forall ask, said | ask in Exec(w, evs).value.asks && Says(ask.reply, said) ::
               ask.token == Exec(w, evs).value.threads[t].token && ask.at >= since ==> said == org
    requires Exec(w, evs).value.threads[t].phase.ground.at >= since + w.lag + w.cfg.ttl as real
    ensures Exec(w, evs).value.threads[t].phase.verdict == Org(org)
  {
    var s := Exec(w, evs).value;
    var p := s.threads[t].phase;
    RunKeepsInv(w, evs);
    assert ThreadOk(w, s, t);
    var j: nat :| SourceOf(w, s, j, Key(w, s, t), Slot(p.verdict.org, p.ground.stamp));
    ResolvesToWhatItSays(s.asks[j].reply, p.verdict.org);
    assert s.asks[j] in s.asks;
  }

  /** A validation ends in an error only if the reply to its own request says nothing. */
  lemma ErrorsAreTheAuthoritys(w: World, evs: seq<Event>, t: nat, org: Option<string>)
    requires Legal(w, evs) && At(Exec(w, evs).value, t)
    requires Exec(w, evs).value.threads[t].phase.Done? && Exec(w, evs).value.threads[t].phase.verdict.Unavailable?
    ensures var s := Exec(w, evs).value;
            var ground := s.threads[t].phase.ground;
            ground.Asked? && ground.ask < |s.asks| && s.asks[ground.ask].token == s.threads[t].token &&
            !Says(s.asks[ground.ask].reply, org)
  {
    var s := Exec(w, evs).value;
    RunKeepsInv(w, evs);
    assert ThreadOk(w, s, t);
    ResolvesToWhatItSays(s.asks[s.threads[t].phase.ground.ask].reply, org);
  }

  function Stores(evs: seq<Event>): nat {
    if evs == [] then 0 else Stores(evs[..|evs| - 1]) + if evs[|evs| - 1].Store? then 1 else 0
  }

  lemma {:induction false} StoresAreCounted(w: World, evs: seq<Event>)
    requires Legal(w, evs)
    ensures Exec(w, evs).value.ops == Stores(evs)
  {
    if evs != [] { StoresAreCounted(w, evs[..|evs| - 1]); }
  }

  /** After n stores the cache holds at most maxSize + n / 512 entries, in every interleaving. */
  lemma CacheSizeBound(w: World, evs: seq<Event>)
    requires Legal(w, evs)
    ensures |Exec(w, evs).value.cache| <= w.cfg.maxSize + Stores(evs) / 512
  {
    RunKeepsInv(w, evs);
    StoresAreCounted(w, evs);
  }

  /** Nobody is ever stuck: time may pass and a thread may enter at any moment, and every thread
      that has not finished has a next step, as long as it stores within its lag. */
  lemma SomebodyCanMove(w: World, evs: seq<Event>, t: nat, token: string, elapsed: real, reply: Reply)
    returns (ev: Event)
    requires Legal(w, evs) && elapsed >= 0.0
    ensures Enabled(w, Exec(w, evs).value, Enter(token)) && Enabled(w, Exec(w, evs).value, Tick(elapsed))
    ensures var s := Exec(w, evs).value;
            At(s, t) && !s.threads[t].phase.Done? &&
            (s.threads[t].phase.Answered? ==>
               s.threads[t].phase.ask < |s.asks| && s.clock <= s.asks[s.threads[t].phase.ask].at + w.lag) ==>
              Enabled(w, s, ev) && !ev.Tick? && !ev.Enter? && ev.t == t && (ev.Fetch? ==> ev.reply == reply)
  {
    var s := Exec(w, evs).value;
    ev := Tick(0.0);
    RunKeepsInv(w, evs);
    if At(s, t) {
      assert ThreadOk(w, s, t);
      match s.threads[t].phase
      case Begun => ev := Lookup(t);
      case Looked(_) => ev := Check(t);
      case Expired => ev := DropExpired(t);
      case Asking => ev := Fetch(t, reply);
      case Answered(_, _) => ev := ReadClock(t);
      case Stamped(org, _, stamp) =>
        var filled := s.cache[Key(w, s, t) := Slot(org, stamp)];
        assert Key(w, s, t) in filled.Keys;
        var victim := OldestOf(filled);
        ev := Store(t, victim);
      case Done(_, _) =>
    }
  }

  /** One thread's validation without interruption, with the clock read at `checked` and
      `stored` and the authority replying `reply`. */
  class GatewayAuthService {
    const cache: Cache
    const digest: string -> string

    constructor (ttl: int, maxSize: int, digest: string -> string)
      ensures fresh(cache) && cache.slots == map[] && cache.ops == 0 && this.digest == digest
    {
      cache := new Cache(ttl, maxSize);
      this.digest := digest;
    }

    /** TokenCache.get */
    method Get(key: string, checked: real) returns (answer: Option<Option<string>>)
      modifies cache
      ensures answer == Answer(old(cache.slots), key, checked, cache.cfg.ttl)
      ensures cache.slots == (if answer.Some? then old(cache.slots) else old(cache.slots) - {key})
      ensures cache.ops == old(cache.ops)
    {
      var slot := cache.Peek(key);
      if slot.None? {
        assert cache.slots == cache.slots - {key};
        return None;
      }
      if Fresh(slot.value, checked, cache.cfg.ttl) { return Some(slot.value.org); }
      cache.Drop(key);
      answer := None;
    }

    method ValidateOtlpToken(token: string, checked: real, reply: Reply, stored: real)
      returns (verdict: Verdict, asked: bool, victim: string)
      modifies cache
      ensures var hit := Answer(old(cache.slots), digest(token), checked, cache.cfg.ttl);
              asked == (token != "" && hit.None?) &&
              (!asked ==> cache.slots == old(cache.slots) && cache.ops == old(cache.ops) &&
                          verdict == Org(if token == "" then None else hit.value))
      ensures asked ==>
                if reply.Http? && reply.status == 200 && reply.body.Object? && reply.body.orgId.Present? then
                  verdict == Org(Some(Strip(reply.body.orgId.text)))
                else if reply.Http? && (reply.status == 200 || reply.status == 404) then
                  verdict == Org(None)
                else
                  verdict == Unavailable
      ensures asked && verdict.Unavailable? ==>
                cache.slots == old(cache.slots) - {digest(token)} && cache.ops == old(cache.ops)
      ensures asked && verdict.Org? ==>
                var slot := Slot(verdict.org, stored);
                var before := old(cache.slots) - {digest(token)};
                cache.ops == old(cache.ops) + 1 &&
                MayStore(before, old(cache.ops), cache.cfg, digest(token), slot, victim) &&
                cache.slots == Stored(before, old(cache.ops), cache.cfg, digest(token), slot, victim)
    {
      victim, asked := "", false;
      if token == "" { return Org(None), asked, victim; }
      var key := digest(token);
      var hit := Get(key, checked);
      if hit.Some? { return Org(hit.value), asked, victim; }
      asked := true;
      var org := Resolve(reply);
      if org.None? { return Unavailable, asked, victim; }
      victim := cache.Put(key, org.value, stored);
      verdict := Org(org.value);
    }
  }
}
