/** TokenCache: organisation ids by token digest, with a time to live, a sweep every
    512 stores and eviction of the oldest entry above the size limit. */
module TokenCache {
  import opened Options

  const GC_INTERVAL := 512
  const MIN_SIZE := 256

  datatype Slot = Slot(org: Option<string>, stamp: real)

  datatype Settings = Settings(ttl: int, maxSize: nat)

  predicate Fresh(slot: Slot, now: real, ttl: int) { now - slot.stamp < ttl as real }

  /** What `get` answers at time `now`: None for a miss. */
  function Answer(cache: map<string, Slot>, key: string, now: real, ttl: int): Option<Option<string>> {
    if key in cache && Fresh(cache[key], now, ttl) then Some(cache[key].org) else None
  }

  function Swept(cache: map<string, Slot>, now: real, ttl: int): map<string, Slot> {
    map k | k in cache && cache[k].stamp >= now - ttl as real :: cache[k]
  }

  predicate Oldest(cache: map<string, Slot>, key: string) {
    key in cache && forall k <- cache :: cache[key].stamp <= cache[k].stamp
  }

  /** `set`, with `victim` the entry `min` would pick. */
  function Stored(cache: map<string, Slot>, ops: nat, cfg: Settings, key: string, slot: Slot, victim: string)
    : map<string, Slot>
  {
    var filled := cache[key := slot];
    if (ops + 1) % GC_INTERVAL == 0 then Swept(filled, slot.stamp, cfg.ttl)
    else if |filled| > cfg.maxSize then filled - {victim}
    else filled
  }

  predicate MayStore(cache: map<string, Slot>, ops: nat, cfg: Settings, key: string, slot: Slot, victim: string) {
    (ops + 1) % GC_INTERVAL != 0 && |cache[key := slot]| > cfg.maxSize ==> Oldest(cache[key := slot], victim)
  }

  /** A `get` of the swept cache at or after the sweep's clock reading answers as one of the
      unswept cache would. */
  lemma SweepIsUnobservable(cache: map<string, Slot>, swept: real, ttl: int, key: string, now: real)
    requires swept <= now
    ensures Answer(Swept(cache, swept, ttl), key, now, ttl) == Answer(cache, key, now, ttl)
  {
  }

  /** Storing adds the new slot and invents nothing else. An older slot goes only if it has
      expired and this is a 512th store, or if it is the victim of a full cache. */
  lemma StoredContents(cache: map<string, Slot>, ops: nat, cfg: Settings, key: string, slot: Slot, victim: string,
      k: string)
    requires k in Stored(cache, ops, cfg, key, slot, victim)
    ensures var after := Stored(cache, ops, cfg, key, slot, victim);
            if k == key then after[k] == slot else k in cache && after[k] == cache[k]
  {
  }

  lemma StoreSpares(cache: map<string, Slot>, ops: nat, cfg: Settings, key: string, slot: Slot, victim: string,
      k: string)
    ensures var after := Stored(cache, ops, cfg, key, slot, victim);
            (k in cache && k != key && k !in after ==>
               if (ops + 1) % 512 == 0 then cache[k].stamp < slot.stamp - cfg.ttl as real
               else k == victim && |cache[key := slot]| > cfg.maxSize) &&
            ((ops + 1) % 512 == 0 && k in after ==> after[k].stamp >= slot.stamp - cfg.ttl as real)
  {
  }

  lemma SizeAfterStore(cache: map<string, Slot>, ops: nat, cfg: Settings, key: string, slot: Slot, victim: string)
    requires MayStore(cache, ops, cfg, key, slot, victim)
    ensures var after := Stored(cache, ops, cfg, key, slot, victim);
            if (ops + 1) % GC_INTERVAL == 0 then |after| <= |cache| + 1
            else |after| <= cfg.maxSize || |after| <= |cache|
  {
    var filled := cache[key := slot];
    var after := Stored(cache, ops, cfg, key, slot, victim);
    assert filled.Keys == cache.Keys + {key};
    if (ops + 1) % GC_INTERVAL == 0 {
      assert after.Keys <= filled.Keys;
      assert filled.Keys == after.Keys + (filled.Keys - after.Keys);
    } else if |filled| > cfg.maxSize {
      assert filled.Keys == after.Keys + {victim};
    }
  }

  /** Above the limit the cache never grows, except at a sweep. */
  lemma NoGrowthAboveLimit(cache: map<string, Slot>, ops: nat, cfg: Settings, key: string, slot: Slot, victim: string)
    requires MayStore(cache, ops, cfg, key, slot, victim)
    requires (ops + 1) % GC_INTERVAL != 0 && |cache| >= cfg.maxSize
    ensures |Stored(cache, ops, cfg, key, slot, victim)| <= |cache|
  {
    SizeAfterStore(cache, ops, cfg, key, slot, victim);
  }

  /** The slack of one entry per sweep is real: a sweep replaces the eviction of its step. */
  lemma SweepSkipsEviction(cache: map<string, Slot>, ops: nat, cfg: Settings, key: string, slot: Slot, victim: string)
    requires (ops + 1) % GC_INTERVAL == 0 && key !in cache && |cache| >= cfg.maxSize && cfg.ttl >= 0
    requires forall k <- cache :: cache[k].stamp >= slot.stamp - cfg.ttl as real
    ensures |Stored(cache, ops, cfg, key, slot, victim)| == |cache| + 1 > cfg.maxSize
  {
    assert cache[key := slot].Keys == cache.Keys + {key};
    assert Swept(cache[key := slot], slot.stamp, cfg.ttl) == cache[key := slot];
  }

  // ------------------------------------------------------------------ whole runs

  /** The critical sections that change the cache: `set`, and the drop at the end of `get`. */
  datatype Op = Put(key: string, slot: Slot, victim: string) | Drop(key: string)

  datatype Table = Table(slots: map<string, Slot>, ops: nat)

  function Step(cfg: Settings, t: Table, op: Op): Table {
    match op
    case Put(key, slot, victim) => Table(Stored(t.slots, t.ops, cfg, key, slot, victim), t.ops + 1)
    case Drop(key) => t.(slots := t.slots - {key})
  }

  function Exec(cfg: Settings, ops: seq<Op>): Table {
    if ops == [] then Table(map[], 0) else Step(cfg, Exec(cfg, ops[..|ops| - 1]), ops[|ops| - 1])
  }

  function Puts(ops: seq<Op>): nat {
    if ops == [] then 0 else Puts(ops[..|ops| - 1]) + if ops[|ops| - 1].Put? then 1 else 0
  }

  lemma {:induction false} StoresAreCounted(cfg: Settings, ops: seq<Op>)
    ensures Exec(cfg, ops).ops == Puts(ops)
  {
    if ops != [] { StoresAreCounted(cfg, ops[..|ops| - 1]); }
  }

  /** The slot last stored under a key, whatever has become of it. */
  function Last(ops: seq<Op>, key: string): Option<Slot> {
    if ops == [] then None
    else
      match ops[|ops| - 1]
      case Put(k, slot, _) => if k == key then Some(slot) else Last(ops[..|ops| - 1], key)
      case Drop(_) => Last(ops[..|ops| - 1], key)
  }

  /** This operation evicts or drops the key. */
  predicate TakesOut(cfg: Settings, t: Table, op: Op, key: string) {
    match op
    case Put(k, slot, victim) =>
      victim == key && (t.ops + 1) % GC_INTERVAL != 0 && |t.slots[k := slot]| > cfg.maxSize
    case Drop(k) => k == key
  }

  /** The key has been evicted or dropped since it was last stored. */
  predicate TakenOut(cfg: Settings, ops: seq<Op>, key: string) {
    ops != [] &&
    var past, op := ops[..|ops| - 1], ops[|ops| - 1];
    TakesOut(cfg, Exec(cfg, past), op, key) || (!(op.Put? && op.key == key) && TakenOut(cfg, past, key))
  }

  lemma StepAnswers(cfg: Settings, t: Table, op: Op, key: string, now: real)
    requires op.Put? ==> op.slot.stamp <= now
    ensures Answer(Step(cfg, t, op).slots, key, now, cfg.ttl) ==
            if TakesOut(cfg, t, op, key) then None
            else if op.Put? && op.key == key then
              if Fresh(op.slot, now, cfg.ttl) then Some(op.slot.org) else None
            else Answer(t.slots, key, now, cfg.ttl)
  {
    if op.Put? && (t.ops + 1) % GC_INTERVAL == 0 {
      SweepIsUnobservable(t.slots[op.key := op.slot], op.slot.stamp, cfg.ttl, key, now);
    }
  }

  /** Over every run, a `get` no earlier than the stores before it finds the slot last stored
      under its key exactly if that is fresh and has neither been evicted nor dropped since.
      That the cache is swept now and then never shows. */
  lemma {:induction false} GetAnswers(cfg: Settings, ops: seq<Op>, key: string, now: real)
    requires forall i | 0 <= i < |ops| && ops[i].Put? :: ops[i].slot.stamp <= now
    ensures var last := Last(ops, key);
            Answer(Exec(cfg, ops).slots, key, now, cfg.ttl) ==
            if last.Some? && now - last.value.stamp < cfg.ttl as real && !TakenOut(cfg, ops, key) then
              Some(last.value.org)
            else None
  {
    if ops != [] {
      var past, op := ops[..|ops| - 1], ops[|ops| - 1];
      GetAnswers(cfg, past, key, now);
      StepAnswers(cfg, Exec(cfg, past), op, key, now);
    }
  }

  lemma OldestOf(cache: map<string, Slot>) returns (oldest: string)
    requires cache.Keys != {}
    ensures Oldest(cache, oldest)
  {
    var rest := cache.Keys;
    oldest :| oldest in rest;
    while rest != {}
      invariant rest <= cache.Keys && oldest in cache
      invariant forall k | k in cache && k !in rest :: cache[oldest].stamp <= cache[k].stamp
      decreases rest
    {
      var k :| k in rest;
      if cache[k].stamp < cache[oldest].stamp { oldest := k; }
      rest := rest - {k};
    }
  }

  method OldestKey(cache: map<string, Slot>) returns (oldest: string)
    requires cache.Keys != {}
    ensures Oldest(cache, oldest)
  {
    ghost var _ := OldestOf(cache);
    oldest :| oldest in cache.Keys && Oldest(cache, oldest);
  }

  class Cache {
    const cfg: Settings
    var slots: map<string, Slot>
    var ops: nat

    constructor (ttl: int, maxSize: int)
      ensures slots == map[] && ops == 0
      ensures cfg == Settings(ttl, if maxSize > 256 then maxSize else 256)
    {
      cfg := Settings(ttl, if maxSize > MIN_SIZE then maxSize else MIN_SIZE);
      slots, ops := map[], 0;
    }

    /** `get`'s first critical section. */
    method Peek(key: string) returns (slot: Option<Slot>)
      ensures slot == if key in slots then Some(slots[key]) else None
    {
      if key in slots { slot := Some(slots[key]); } else { slot := None; }
    }

    /** `get`'s second critical section: it drops whatever is there by now. */
    method Drop(key: string)
      modifies this
      ensures slots == old(slots) - {key} && ops == old(ops)
    {
      slots := slots - {key};
    }

    method Put(key: string, org: Option<string>, now: real) returns (victim: string)
      modifies this
      ensures MayStore(old(slots), old(ops), cfg, key, Slot(org, now), victim)
      ensures slots == Stored(old(slots), old(ops), cfg, key, Slot(org, now), victim) && ops == old(ops) + 1
    {
      victim := key;
      slots := slots[key := Slot(org, now)];
      ops := ops + 1;
      if ops % GC_INTERVAL == 0 {
        slots := map k | k in slots && slots[k].stamp >= now - cfg.ttl as real :: slots[k];
      } else if |slots| > cfg.maxSize {
        victim := OldestKey(slots);
        slots := slots - {victim};
      }
    }
  }
}
