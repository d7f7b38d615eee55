/** LokiService's time ranges: bucketed log-volume ranges with their cache key, and the
    capped ranges of label-value lookups.  Times are nanoseconds. */
module QueryRange {
  import opened Options
  import opened Text

  const SECOND := 1_000_000_000
  const HOUR := 3_600 * SECOND

  datatype Range = Range(start: int, end: int)

  /** `value or fallback`: a missing value and zero both read as missing. */
  function Or(value: Option<int>, fallback: int): int {
    if value.None? || value.value == 0 then fallback else value.value
  }

  function StepNs(step: int): (ns: int)
    ensures ns >= SECOND
  {
    (if step > 1 then step else 1) * SECOND
  }

  /** Rounded down to a multiple of step. */
  function Floor(t: int, step: int): (f: int)
    requires step > 0
    ensures f <= t < f + step && f % step == 0
  {
    FloorIsMultiple(t, step);
    t / step * step
  }

  lemma FloorIsMultiple(t: int, step: int)
    requires step > 0
    ensures t / step * step <= t < t / step * step + step && (t / step * step) % step == 0
  {
    MultipleIff(t / step * step, step, t / step);
  }

  /** A positive number of steps is at least one. */
  lemma AtLeastOne(n: int, step: int)
    requires n >= 1 && step > 0
    ensures n * step >= step
  {
    assert (n - 1) * step >= 0;
  }

  lemma Order(p: int, q: int, step: int)
    requires step > 0
    ensures p < q ==> p * step + step <= q * step
    ensures p == q ==> p * step == q * step
  {
    if p < q {
      AtLeastOne(q - p, step);
      assert (q - p) * step == q * step - p * step;
    }
  }

  lemma MultipleIff(m: int, step: int, q: int)
    requires step > 0 && m == q * step
    ensures m % step == 0 && m / step == q
  {
    var p := m / step;
    assert m == step * p + m % step;
    assert step * p == p * step;
    Order(p, q, step);
    Order(q, p, step);
  }

  lemma FloorOfMultiple(t: int, step: int)
    requires step > 0 && t % step == 0
    ensures Floor(t, step) == t
  {
  }

  /** _normalize_range_for_step */
  function Normalize(start: Option<int>, end: Option<int>, step: int, now: int): Range {
    var to := Or(end, now);
    var from := Or(start, to - HOUR);
    var ns := StepNs(step);
    var s, e := Floor(from, ns), Floor(to, ns);
    Range(s, if e <= s then s + ns else e)
  }

  /** Both ends lie on bucket borders at least one bucket apart, the start moves down by
      less than a bucket, and the end moves down by less than a bucket unless it is pushed
      to the end of the start's bucket. */
  lemma NormalizeShape(start: Option<int>, end: Option<int>, step: int, now: int)
    ensures var r := Normalize(start, end, step, now);
            var ns := (if step > 1 then step else 1) * 1_000_000_000;
            var to := if end.Some? && end.value != 0 then end.value else now;
            var from := if start.Some? && start.value != 0 then start.value else to - 3_600_000_000_000;
            r.start % ns == 0 && r.end % ns == 0 && r.end >= r.start + ns &&
            r.start <= from < r.start + ns &&
            (if to >= r.start + ns then r.end <= to < r.end + ns else r.end == r.start + ns)
  {
    var ns := StepNs(step);
    var to := Or(end, now);
    var s, e := Floor(Or(start, to - HOUR), ns), Floor(to, ns);
    NextMultiple(s, ns);
    Neighbours(e, s, ns);
  }

  lemma NextMultiple(m: int, step: int)
    requires step > 0 && m % step == 0
    ensures (m + step) % step == 0
  {
    MultipleIff(m + step, step, m / step + 1);
  }

  /** Distinct multiples are at least a step apart. */
  lemma Neighbours(a: int, b: int, step: int)
    requires step > 0 && a % step == 0 && b % step == 0
    ensures a > b <==> a >= b + step
  {
    Quotient(a, step);
    Quotient(b, step);
    Order(a / step, b / step, step);
    Order(b / step, a / step, step);
  }

  lemma Quotient(a: int, step: int)
    requires step > 0 && a % step == 0
    ensures a == a / step * step
  {
  }

  /** Normalising a normalised range again returns it exactly when neither end is read as
      missing, or what stands in for the missing end falls into the same bucket. */
  lemma NormalizeAgainIff(start: Option<int>, end: Option<int>, step: int, now: int, later: int)
    ensures var r := Normalize(start, end, step, now);
            var ns := StepNs(step);
            Normalize(Some(r.start), Some(r.end), step, later) == r <==>
              if r.end == 0 then Floor(later, ns) == 0 || (Floor(later, ns) <= r.start && r.start == -ns)
              else r.start != 0 || Floor(r.end - HOUR, ns) == 0
  {
    var r := Normalize(start, end, step, now);
    NormalizeShape(start, end, step, now);
    FloorOfMultiple(r.start, StepNs(step));
    FloorOfMultiple(r.end, StepNs(step));
  }

  function Bucket(t: int, step: int): int { t / StepNs(step) }

  /** Two requests with explicit ends share a range, and so a build, exactly when their
      starts fall into one bucket and their ends do too, or both ends are cut to one bucket. */
  lemma SameRangeIff(start: int, end: int, start': int, end': int, step: int, now: int, now': int)
    requires start != 0 && end != 0 && start' != 0 && end' != 0
    ensures Normalize(Some(start), Some(end), step, now) == Normalize(Some(start'), Some(end'), step, now') <==>
            Bucket(start, step) == Bucket(start', step) &&
            (Bucket(end, step) == Bucket(end', step) ||
             (Bucket(end, step) <= Bucket(start, step) + 1 && Bucket(end', step) <= Bucket(start, step) + 1))
  {
    var ns := StepNs(step);
    FloorOrder(start, start', ns);
    FloorOrder(end, end', ns);
    FloorNext(end, start, ns);
    FloorNext(end', start', ns);
    NextIff(start, end, ns);
    NextIff(start', end', ns);
  }

  lemma FloorOrder(a: int, b: int, step: int)
    requires step > 0
    ensures Floor(a, step) == Floor(b, step) <==> a / step == b / step
  {
    MultipleIff(Floor(a, step), step, a / step);
    MultipleIff(Floor(b, step), step, b / step);
  }

  lemma FloorNext(a: int, b: int, step: int)
    requires step > 0
    ensures Floor(a, step) <= Floor(b, step) <==> a / step <= b / step
  {
    Order(a / step, b / step, step);
    Order(b / step, a / step, step);
  }

  lemma NextIff(s: int, e: int, step: int)
    requires step > 0
    ensures Floor(e, step) == Floor(s, step) + step <==> e / step == s / step + 1
  {
    MultipleIff(Floor(e, step), step, e / step);
    MultipleIff(Floor(s, step) + step, step, s / step + 1);
  }

  // ------------------------------------------------------------------ the cache key

  function Digit(n: nat): char
    requires n < 10
  {
    '0' + n as char
  }

  function Natural(n: nat): (s: string)
    ensures s != ""
  {
    if n < 10 then [Digit(n)] else Natural(n / 10) + [Digit(n % 10)]
  }

  /** str() of an integer. */
  function Decimal(n: int): string { if n < 0 then "-" + Natural(-n) else Natural(n) }

  const EVERY_SERVICE := "{service_name=~\".+\"}"

  /** The query as get_log_volume runs it: stripped, or the default. */
  function CleanQuery(query: Option<string>): (q: string)
    ensures IsClean(q)
  {
    var stripped := Strip(if query.Some? then query.value else "");
    if stripped == "" then EVERY_SERVICE else stripped
  }

  /** The query is run stripped of white space; an empty one asks for every service. */
  lemma QueryIsStripped(query: Option<string>) returns (lead: string, tail: string)
    ensures var q := CleanQuery(query);
            if query.Some? && exists i :: 0 <= i < |query.value| && !IsSpace(query.value[i]) then
              query.value == lead + q + tail && IsClean(q) &&
              (forall i | 0 <= i < |lead| :: IsSpace(lead[i])) && forall i | 0 <= i < |tail| :: IsSpace(tail[i])
            else q == "{service_name=~\".+\"}"
  {
    var text := if query.Some? then query.value else "";
    lead, tail := StripTakesSpace(text);
    if Strip(text) == "" {
      assert text == lead + tail;
    } else {
      assert text[|lead|] == Strip(text)[0] && !IsSpace(text[|lead|]);
    }
  }

  predicate IsClean(q: string) { q != "" && !IsSpace(q[0]) && !IsSpace(q[|q| - 1]) }

  /** get_log_volume's cache key. */
  function VolumeKey(tenant: string, query: string, range: Range, step: int): string {
    tenant + (":" + (query + (":" + (Decimal(range.start) + (":" + (Decimal(range.end) + (":" + Decimal(step))))))))
  }

  lemma {:induction false} NaturalDigits(n: nat)
    ensures forall i | 0 <= i < |Natural(n)| :: '0' <= Natural(n)[i] <= '9'
  {
    if n >= 10 { NaturalDigits(n / 10); }
  }

  lemma {:induction false} NaturalInjective(m: nat, n: nat)
    requires Natural(m) == Natural(n)
    ensures m == n
  {
    var s := Natural(m);
    assert s[|s| - 1] == Digit(m % 10) && s[|s| - 1] == Digit(n % 10);
    assert m >= 10 ==> |s| == |Natural(m / 10)| + 1 && s[..|s| - 1] == Natural(m / 10);
    assert n >= 10 ==> |s| == |Natural(n / 10)| + 1 && s[..|s| - 1] == Natural(n / 10);
    if m >= 10 && n >= 10 { NaturalInjective(m / 10, n / 10); }
  }

  lemma DecimalInjective(m: int, n: int)
    requires Decimal(m) == Decimal(n)
    ensures m == n
  {
    NaturalDigits(if m < 0 then -m else m);
    NaturalDigits(if n < 0 then -n else n);
    assert Decimal(m)[0] == '-' <==> m < 0;
    assert Decimal(n)[0] == '-' <==> n < 0;
    if m < 0 {
      assert Decimal(m)[1..] == Natural(-m) && Decimal(n)[1..] == Natural(-n);
      NaturalInjective(-m, -n);
    } else {
      NaturalInjective(m, n);
    }
  }

  lemma DecimalHasNoColon(n: int)
    ensures ':' !in Decimal(n)
  {
    NaturalDigits(if n < 0 then -n else n);
  }

  lemma SplitAtLast(a: string, b: string, c: string, d: string)
    requires a + (":" + b) == c + (":" + d) && ':' !in b && ':' !in d
    ensures a == c && b == d
  {
    var s := a + (":" + b);
    assert forall i | |a| < i < |s| :: s[i] == b[i - |a| - 1] && s[i] != ':';
    assert forall i | |c| < i < |s| :: s[i] == d[i - |c| - 1] && s[i] != ':';
    assert s[|a|] == ':' && s[|c|] == ':';
    assert a == s[..|a|] && c == s[..|c|] && b == s[|a| + 1..] && d == s[|c| + 1..];
  }

  lemma Assoc(a: string, b: string, c: string)
    ensures a + (":" + (b + (":" + c))) == (a + (":" + b)) + (":" + c)
  {
  }

  /** The key with its last field split off. */
  lemma KeyEnds(a: string, q: string, s: string, e: string, p: string)
    ensures a + (":" + (q + (":" + (s + (":" + (e + (":" + p))))))) ==
            (((a + (":" + q)) + (":" + s)) + (":" + e)) + (":" + p)
  {
    Assoc(a, q, s + (":" + (e + (":" + p))));
    Assoc(a + (":" + q), s, e + (":" + p));
    Assoc((a + (":" + q)) + (":" + s), e, p);
  }

  /** Some query of tenant b, under b's name, reads as a query of tenant a: b's name is a's
      followed by a colon, and what follows can begin a stripped query. */
  predicate Clash(a: string, b: string) {
    a + ":" <= b && (|b| == |a| + 1 || !IsSpace(b[|a| + 1]))
  }

  lemma FieldsAgree(t: string, q: string, s: int, e: int, p: int, t': string, q': string, s': int, e': int, p': int)
    requires (((t + (":" + q)) + (":" + Decimal(s))) + (":" + Decimal(e))) + (":" + Decimal(p)) ==
             (((t' + (":" + q')) + (":" + Decimal(s'))) + (":" + Decimal(e'))) + (":" + Decimal(p'))
    ensures t + (":" + q) == t' + (":" + q')
    ensures Decimal(s) == Decimal(s') && Decimal(e) == Decimal(e') && Decimal(p) == Decimal(p')
  {
    DecimalHasNoColon(s);
    DecimalHasNoColon(s');
    DecimalHasNoColon(e);
    DecimalHasNoColon(e');
    DecimalHasNoColon(p);
    DecimalHasNoColon(p');
    var a, a' := t + (":" + q), t' + (":" + q');
    var b, b' := a + (":" + Decimal(s)), a' + (":" + Decimal(s'));
    SplitAtLast(b + (":" + Decimal(e)), Decimal(p), b' + (":" + Decimal(e')), Decimal(p'));
    SplitAtLast(b, Decimal(e), b', Decimal(e'));
    SplitAtLast(a, Decimal(s), a', Decimal(s'));
  }

  /** Equal keys have equal ranges and steps; only the border between tenant and query can move. */
  lemma KeyFields(tenant: string, query: string, range: Range, step: int,
                  tenant': string, query': string, range': Range, step': int)
    requires VolumeKey(tenant, query, range, step) == VolumeKey(tenant', query', range', step')
    ensures tenant + (":" + query) == tenant' + (":" + query') && range == range' && step == step'
  {
    KeyEnds(tenant, query, Decimal(range.start), Decimal(range.end), Decimal(step));
    KeyEnds(tenant', query', Decimal(range'.start), Decimal(range'.end), Decimal(step'));
    FieldsAgree(tenant, query, range.start, range.end, step, tenant', query', range'.start, range'.end, step');
    DecimalInjective(range.start, range'.start);
    DecimalInjective(range.end, range'.end);
    DecimalInjective(step, step');
  }

  /** Where two splits at a colon differ, the longer name continues the shorter one. */
  lemma LongerName(a: string, q: string, b: string, r: string)
    requires a + (":" + q) == b + (":" + r) && |a| < |b|
    ensures a + ":" <= b && q == b[|a| + 1..] + (":" + r)
  {
    var s := a + (":" + q);
    assert a == s[..|a|] && b == s[..|b|] && s[|a|] == ':' && q == s[|a| + 1..];
    assert b[..|a| + 1] == s[..|a| + 1];
  }

  lemma LongerNameClashes(a: string, q: string, b: string, r: string)
    requires a + (":" + q) == b + (":" + r) && |a| < |b| && IsClean(q)
    ensures Clash(a, b)
  {
    LongerName(a, q, b, r);
    if |b| > |a| + 1 { assert q[0] == b[|a| + 1]; }
  }

  /** Two volume requests share a cache entry only if tenant, query, range and step all
      agree, for any tenants that do not clash. */
  lemma VolumeKeyInjective(tenant: string, query: string, range: Range, step: int,
                           tenant': string, query': string, range': Range, step': int)
    requires VolumeKey(tenant, query, range, step) == VolumeKey(tenant', query', range', step')
    requires IsClean(query) && IsClean(query') && !Clash(tenant, tenant') && !Clash(tenant', tenant)
    ensures tenant == tenant' && query == query' && range == range' && step == step'
  {
    KeyFields(tenant, query, range, step, tenant', query', range', step');
    if |tenant| < |tenant'| { LongerNameClashes(tenant, query, tenant', query'); }
    if |tenant'| < |tenant| { LongerNameClashes(tenant', query', tenant, query); }
    var s := tenant + (":" + query);
    assert tenant == s[..|tenant|] && query == s[|tenant| + 1..];
    assert tenant' == s[..|tenant'|] && query' == s[|tenant'| + 1..];
  }

  /** The longer name's query, as the shorter name's. */
  lemma ClashingKeys(a: string, b: string, query: string, range: Range, step: int)
    requires Clash(a, b) && IsClean(query)
    ensures IsClean(b[|a| + 1..] + (":" + query))
    ensures VolumeKey(a, b[|a| + 1..] + (":" + query), range, step) == VolumeKey(b, query, range, step)
  {
    var r := b[|a| + 1..];
    var rest := ":" + (Decimal(range.start) + (":" + (Decimal(range.end) + (":" + Decimal(step)))));
    assert b == a + (":" + r);
    BorderMoves(a, r, query, rest);
  }

  lemma BorderMoves(a: string, r: string, query: string, rest: string)
    ensures a + (":" + ((r + (":" + query)) + rest)) == (a + (":" + r)) + (":" + (query + rest))
  {
    Assoc(a, r, query + rest);
    assert (r + (":" + query)) + rest == r + (":" + (query + rest));
  }

  /** Requests of two different tenants can share a cache entry exactly if their names
      clash: then for every range and step some pair of queries does. */
  lemma TenantsShareKeysIff(a: string, b: string, range: Range, step: int)
    requires a != b
    ensures (exists p: string, q: string ::
               VolumeKey(a, CleanQuery(Some(p)), range, step) == VolumeKey(b, CleanQuery(Some(q)), range, step)) <==>
            Clash(a, b) || Clash(b, a)
  {
    if p: string, q: string :| VolumeKey(a, CleanQuery(Some(p)), range, step) ==
                               VolumeKey(b, CleanQuery(Some(q)), range, step) {
      if !Clash(a, b) && !Clash(b, a) {
        VolumeKeyInjective(a, CleanQuery(Some(p)), range, step, b, CleanQuery(Some(q)), range, step);
      }
    }
    if Clash(a, b) { ClashIsShared(a, b, range, step); }
    if Clash(b, a) { ClashIsShared(b, a, range, step); }
  }

  lemma ClashIsShared(a: string, b: string, range: Range, step: int)
    requires Clash(a, b)
    ensures exists p: string, q: string ::
              VolumeKey(a, CleanQuery(Some(p)), range, step) == VolumeKey(b, CleanQuery(Some(q)), range, step)
  {
    var query := "x";
    var read := b[|a| + 1..] + (":" + query);
    ClashingKeys(a, b, query, range, step);
    StripOfClean(query);
    StripOfClean(read);
    assert CleanQuery(Some(query)) == query && CleanQuery(Some(read)) == read;
  }

  // ------------------------------------------------------------------ label values

  function Positive(value: Option<int>): Option<int> { if value.Some? && value.value > 0 then value else None }

  function RawStart(start: Option<int>, end: int): int {
    Or(Positive(start), if end > HOUR then end - HOUR else 0)
  }

  /** The range of get_label_values. */
  function ValuesRange(start: Option<int>, end: Option<int>, now: int, maxHours: int): Range {
    var to := Or(Positive(end), now);
    var from := RawStart(start, to);
    if from >= to then Range(if to > HOUR then to - HOUR else 0, to)
    else if to - from > maxHours * HOUR then Range(to - maxHours * HOUR, to)
    else Range(from, to)
  }

  /** The range is never longer than an hour or the cap, keeps the requested end, and
      starts before its end exactly when the cap is positive or the request's start was
      not before its end. */
  lemma ValuesRangeShape(start: Option<int>, end: Option<int>, now: int, maxHours: int)
    requires now > 0
    ensures var r := ValuesRange(start, end, now, maxHours);
            var hour := 3_600_000_000_000;
            var cap := maxHours * hour;
            var asked := if start.Some? && start.value > 0 then start.value
                         else if r.end > hour then r.end - hour else 0;
            r.end == (if end.Some? && end.value > 0 then end.value else now) &&
            (r.start < r.end <==> maxHours > 0 || asked >= r.end) &&
            r.end - r.start <= (if cap > hour then cap else hour) &&
            (asked < r.end ==> r.start == if r.end - asked > cap then r.end - cap else asked) &&
            (asked >= r.end ==> r.start == if r.end > hour then r.end - hour else 0)
  {
  }
}
