/** mergeJobs of the RCA page: the server's jobs and the browser's, newest first. */
module RcaJobs {
  import opened Text

  /** An entry without a job_id, or no entry at all, has the empty id. */
  datatype Job = Job(id: string, status: string, created: string, started: string, finished: string)

  const LIMIT := 30

  /** isTerminalStatus */
  predicate IsTerminal(job: Job) {
    var s := Lower(job.status);
    s == "completed" || s == "failed" || s == "cancelled" || s == "deleted"
  }

  /** Milliseconds, with `parse` standing for Date.parse(...) || 0. */
  function Time(parse: string -> int, job: Job): int {
    parse(if job.created != "" then job.created else if job.started != "" then job.started else job.finished)
  }

  predicate Has(jobs: seq<Job>, id: string) { exists i | 0 <= i < |jobs| :: jobs[i].id == id }

  /** Map.set on a map listed in insertion order. */
  function Set(jobs: seq<Job>, job: Job): seq<Job> {
    if jobs == [] then [job]
    else if jobs[0].id == job.id then [job] + jobs[1..]
    else [jobs[0]] + Set(jobs[1..], job)
  }

  function FromServer(jobs: seq<Job>): seq<Job> {
    if jobs == [] then []
    else
      var (before, last) := (FromServer(jobs[..|jobs| - 1]), jobs[|jobs| - 1]);
      if last.id == "" then before else Set(before, last)
  }

  predicate Adds(byId: seq<Job>, job: Job) { job.id != "" && !Has(byId, job.id) && !IsTerminal(job) }

  function WithLocal(byId: seq<Job>, local: seq<Job>): seq<Job> {
    if local == [] then byId
    else
      var (before, last) := (WithLocal(byId, local[..|local| - 1]), local[|local| - 1]);
      if Adds(before, last) then before + [last] else before
  }

  function Insert(parse: string -> int, job: Job, sorted: seq<Job>): seq<Job> {
    if sorted == [] || Time(parse, sorted[0]) <= Time(parse, job) then [job] + sorted
    else [sorted[0]] + Insert(parse, job, sorted[1..])
  }

  /** Array.prototype.sort, newest first; jobs of the same time keep their order. */
  function Sort(parse: string -> int, jobs: seq<Job>): seq<Job> {
    if jobs == [] then [] else Insert(parse, jobs[0], Sort(parse, jobs[1..]))
  }

  function Cut(jobs: seq<Job>): seq<Job> { if |jobs| <= LIMIT then jobs else jobs[..LIMIT] }

  /** mergeJobs */
  function Merge(parse: string -> int, server: seq<Job>, local: seq<Job>): seq<Job> {
    Cut(Sort(parse, WithLocal(FromServer(server), local)))
  }

  /** The status reads as this word, in whatever case. */
  predicate Spells(status: string, word: string) {
    |status| == |word| &&
    forall i | 0 <= i < |word| ::
      status[i] == word[i] || ('A' <= status[i] <= 'Z' && status[i] as int + 32 == word[i] as int)
  }

  predicate Finished(status: string) {
    Spells(status, "completed") || Spells(status, "failed") || Spells(status, "cancelled") || Spells(status, "deleted")
  }

  lemma SpellsIff(status: string, word: string)
    requires forall i | 0 <= i < |word| :: 'a' <= word[i] <= 'z'
    ensures Lower(status) == word <==> Spells(status, word)
  {
    if Lower(status) == word {
      forall i | 0 <= i < |word|
        ensures status[i] == word[i] || ('A' <= status[i] <= 'Z' && status[i] as int + 32 == word[i] as int)
      {
        assert Lower(status)[i] == LowerChar(status[i]);
      }
    }
    if Spells(status, word) {
      forall i | 0 <= i < |word| ensures Lower(status)[i] == word[i] {
        assert Lower(status)[i] == LowerChar(status[i]);
      }
    }
  }

  lemma TerminalIff(job: Job)
    ensures IsTerminal(job) <==> Finished(job.status)
  {
    SpellsIff(job.status, "completed");
    SpellsIff(job.status, "failed");
    SpellsIff(job.status, "cancelled");
    SpellsIff(job.status, "deleted");
  }

  /** The date of creation; failing that, of the start; failing that, of the end. */
  function FirstDate(job: Job): string {
    if job.created == "" && job.started == "" then job.finished
    else if job.created == "" then job.started
    else job.created
  }

  // ------------------------------------------------------------------ sorting

  predicate NewestFirst(parse: string -> int, jobs: seq<Job>) {
    forall i, j | 0 <= i < j < |jobs| :: Time(parse, jobs[i]) >= Time(parse, jobs[j])
  }

  lemma {:induction false} InsertKeepsJobs(parse: string -> int, job: Job, sorted: seq<Job>)
    ensures multiset(Insert(parse, job, sorted)) == multiset(sorted) + multiset{job}
  {
    if sorted != [] && Time(parse, sorted[0]) > Time(parse, job) {
      InsertKeepsJobs(parse, job, sorted[1..]);
      assert sorted == [sorted[0]] + sorted[1..];
    }
  }

  lemma ConsKeepsOrder(parse: string -> int, head: Job, rest: seq<Job>)
    requires NewestFirst(parse, rest) && forall i | 0 <= i < |rest| :: Time(parse, head) >= Time(parse, rest[i])
    ensures NewestFirst(parse, [head] + rest)
  {
  }

  lemma {:induction false} InsertKeepsOrder(parse: string -> int, job: Job, sorted: seq<Job>)
    requires NewestFirst(parse, sorted)
    ensures NewestFirst(parse, Insert(parse, job, sorted))
  {
    if sorted != [] && Time(parse, sorted[0]) > Time(parse, job) {
      var rest := Insert(parse, job, sorted[1..]);
      InsertKeepsOrder(parse, job, sorted[1..]);
      InsertKeepsJobs(parse, job, sorted[1..]);
      forall i | 0 <= i < |rest| ensures Time(parse, sorted[0]) >= Time(parse, rest[i]) {
        assert rest[i] in multiset(rest);
        assert rest[i] == job || rest[i] in sorted[1..];
      }
      ConsKeepsOrder(parse, sorted[0], rest);
    } else {
      ConsKeepsOrder(parse, job, sorted);
    }
  }

  /** The result is newest first and has the same jobs. */
  lemma {:induction false} SortSorts(parse: string -> int, jobs: seq<Job>)
    ensures NewestFirst(parse, Sort(parse, jobs)) && multiset(Sort(parse, jobs)) == multiset(jobs)
  {
    if jobs != [] {
      SortSorts(parse, jobs[1..]);
      InsertKeepsOrder(parse, jobs[0], Sort(parse, jobs[1..]));
      InsertKeepsJobs(parse, jobs[0], Sort(parse, jobs[1..]));
      assert jobs == [jobs[0]] + jobs[1..];
    }
  }

  function Select(jobs: seq<Job>, p: Job -> bool): seq<Job> {
    if jobs == [] then [] else (if p(jobs[0]) then [jobs[0]] else []) + Select(jobs[1..], p)
  }

  lemma SelectCons(job: Job, jobs: seq<Job>, p: Job -> bool)
    ensures Select([job] + jobs, p) == if p(job) then [job] + Select(jobs, p) else Select(jobs, p)
  {
    assert ([job] + jobs)[1..] == jobs;
  }

  lemma {:induction false} SelectConcat(a: seq<Job>, b: seq<Job>, p: Job -> bool)
    ensures Select(a + b, p) == Select(a, p) + Select(b, p)
  {
    if a == [] {
      assert a + b == b;
    } else {
      var head := if p(a[0]) then [a[0]] else [];
      SelectConcat(a[1..], b, p);
      assert (a + b)[0] == a[0] && (a + b)[1..] == a[1..] + b;
      assert Select(a + b, p) == head + (Select(a[1..], p) + Select(b, p));
      assert head + (Select(a[1..], p) + Select(b, p)) == head + Select(a[1..], p) + Select(b, p);
    }
  }

  lemma {:induction false} SelectAll(jobs: seq<Job>, p: Job -> bool)
    requires forall i | 0 <= i < |jobs| :: p(jobs[i])
    ensures Select(jobs, p) == jobs
  {
    if jobs != [] {
      assert forall i | 0 <= i < |jobs| - 1 :: jobs[1..][i] == jobs[i + 1];
      SelectAll(jobs[1..], p);
    }
  }

  lemma {:induction false} SelectNone(jobs: seq<Job>, p: Job -> bool)
    requires forall i | 0 <= i < |jobs| :: !p(jobs[i])
    ensures Select(jobs, p) == []
  {
    if jobs != [] {
      assert forall i | 0 <= i < |jobs| - 1 :: jobs[1..][i] == jobs[i + 1];
      SelectNone(jobs[1..], p);
    }
  }

  lemma {:induction false} SelectSwap(jobs: seq<Job>, p: Job -> bool, q: Job -> bool)
    ensures Select(Select(jobs, p), q) == Select(Select(jobs, q), p)
  {
    if jobs != [] {
      SelectSwap(jobs[1..], p, q);
      SelectConcat(if p(jobs[0]) then [jobs[0]] else [], Select(jobs[1..], p), q);
      SelectConcat(if q(jobs[0]) then [jobs[0]] else [], Select(jobs[1..], q), p);
    }
  }

  predicate NoneAfter(parse: string -> int, jobs: seq<Job>, t: int) {
    forall i | 0 <= i < |jobs| :: Time(parse, jobs[i]) <= t
  }

  lemma InsertAtFront(parse: string -> int, job: Job, sorted: seq<Job>, p: Job -> bool)
    requires NoneAfter(parse, sorted, Time(parse, job))
    ensures Insert(parse, job, sorted) == [job] + sorted
    ensures Insert(parse, job, Select(sorted, p)) == [job] + Select(sorted, p)
  {
    SelectMembers(sorted, p);
    if Select(sorted, p) != [] { assert Select(sorted, p)[0] in sorted; }
  }

  lemma {:induction false} SelectInsert(parse: string -> int, job: Job, sorted: seq<Job>, p: Job -> bool)
    requires NewestFirst(parse, sorted)
    ensures Select(Insert(parse, job, sorted), p) ==
            if p(job) then Insert(parse, job, Select(sorted, p)) else Select(sorted, p)
  {
    if sorted == [] || Time(parse, sorted[0]) <= Time(parse, job) {
      assert NoneAfter(parse, sorted, Time(parse, job));
      InsertAtFront(parse, job, sorted, p);
      SelectCons(job, sorted, p);
    } else {
      TailIsNewestFirst(parse, sorted);
      SelectInsert(parse, job, sorted[1..], p);
      SelectLater(parse, job, sorted[0], sorted[1..], p);
      assert [sorted[0]] + sorted[1..] == sorted;
    }
  }

  lemma InsertLater(parse: string -> int, job: Job, head: Job, rest: seq<Job>)
    requires Time(parse, head) > Time(parse, job)
    ensures Insert(parse, job, [head] + rest) == [head] + Insert(parse, job, rest)
  {
    assert ([head] + rest)[1..] == rest;
  }

  lemma SelectLater(parse: string -> int, job: Job, head: Job, rest: seq<Job>, p: Job -> bool)
    requires Time(parse, head) > Time(parse, job)
    requires Select(Insert(parse, job, rest), p) ==
             if p(job) then Insert(parse, job, Select(rest, p)) else Select(rest, p)
    ensures Select(Insert(parse, job, [head] + rest), p) ==
            if p(job) then Insert(parse, job, Select([head] + rest, p)) else Select([head] + rest, p)
  {
    InsertLater(parse, job, head, rest);
    InsertLater(parse, job, head, Select(rest, p));
    SelectCons(head, Insert(parse, job, rest), p);
    SelectCons(head, rest, p);
  }

  lemma TailIsNewestFirst(parse: string -> int, jobs: seq<Job>)
    requires NewestFirst(parse, jobs) && jobs != []
    ensures NewestFirst(parse, jobs[1..])
  {
  }

  lemma {:induction false} SelectMembers(jobs: seq<Job>, p: Job -> bool)
    ensures forall i | 0 <= i < |Select(jobs, p)| :: Select(jobs, p)[i] in jobs && p(Select(jobs, p)[i])
    ensures forall j | j in jobs && p(j) :: j in Select(jobs, p)
  {
    if jobs != [] {
      SelectMembers(jobs[1..], p);
      assert jobs == [jobs[0]] + jobs[1..];
    }
  }

  /** Sorting commutes with dropping jobs; this is where stability matters. */
  lemma {:induction false} SelectSort(parse: string -> int, jobs: seq<Job>, p: Job -> bool)
    ensures Select(Sort(parse, jobs), p) == Sort(parse, Select(jobs, p))
  {
    if jobs != [] {
      var (job, rest) := (jobs[0], jobs[1..]);
      SelectSort(parse, rest, p);
      SortIsNewestFirst(parse, rest);
      SelectInsert(parse, job, Sort(parse, rest), p);
      assert jobs == [job] + rest;
      SelectCons(job, rest, p);
      SortCons(parse, job, rest);
      SortCons(parse, job, Select(rest, p));
    }
  }

  lemma SortCons(parse: string -> int, job: Job, rest: seq<Job>)
    ensures Sort(parse, [job] + rest) == Insert(parse, job, Sort(parse, rest))
  {
    assert ([job] + rest)[1..] == rest;
  }

  lemma SortIsNewestFirst(parse: string -> int, jobs: seq<Job>)
    ensures NewestFirst(parse, Sort(parse, jobs))
  {
    SortSorts(parse, jobs);
  }

  lemma {:induction false} SortOfSorted(parse: string -> int, jobs: seq<Job>)
    requires NewestFirst(parse, jobs)
    ensures Sort(parse, jobs) == jobs
  {
    if jobs != [] {
      SortOfSorted(parse, jobs[1..]);
    }
  }

  function AtTime(parse: string -> int, t: int): Job -> bool { (job: Job) => Time(parse, job) == t }

  /** Stability: jobs of one time come out in the order they went in. */
  lemma TiesKeepOrder(parse: string -> int, jobs: seq<Job>, t: int)
    ensures Select(Sort(parse, jobs), AtTime(parse, t)) == Select(jobs, AtTime(parse, t))
  {
    SelectSort(parse, jobs, AtTime(parse, t));
    SelectMembers(jobs, AtTime(parse, t));
    SortOfSorted(parse, Select(jobs, AtTime(parse, t)));
  }

  /** Sorting a tail first makes no difference. */
  lemma {:induction false} SortTailFirst(parse: string -> int, a: seq<Job>, b: seq<Job>)
    ensures Sort(parse, a + Sort(parse, b)) == Sort(parse, a + b)
  {
    if a == [] {
      assert a + Sort(parse, b) == Sort(parse, b) && a + b == b;
      SortSorts(parse, b);
      SortOfSorted(parse, Sort(parse, b));
    } else {
      assert (a + b)[1..] == a[1..] + b && (a + Sort(parse, b))[1..] == a[1..] + Sort(parse, b);
      SortTailFirst(parse, a[1..], b);
    }
  }

  // ------------------------------------------------------------------ the map by id

  predicate Unique(jobs: seq<Job>) {
    (forall i, j | 0 <= i < j < |jobs| :: jobs[i].id != jobs[j].id) &&
    forall i | 0 <= i < |jobs| :: jobs[i].id != ""
  }

  function Ids(jobs: seq<Job>): (ids: seq<string>)
    ensures |ids| == |jobs| && forall i | 0 <= i < |jobs| :: ids[i] == jobs[i].id
  {
    seq(|jobs|, i requires 0 <= i < |jobs| => jobs[i].id)
  }

  lemma {:induction false} SetInPlace(jobs: seq<Job>, job: Job)
    requires Has(jobs, job.id)
    ensures |Set(jobs, job)| == |jobs| && forall i | 0 <= i < |jobs| :: Set(jobs, job)[i].id == jobs[i].id
  {
    HasCons(jobs, job.id);
    if jobs[0].id != job.id { SetInPlace(jobs[1..], job); }
  }

  lemma {:induction false} SetAtEnd(jobs: seq<Job>, job: Job)
    requires !Has(jobs, job.id)
    ensures Set(jobs, job) == jobs + [job]
  {
    if jobs != [] {
      HasCons(jobs, job.id);
      assert Has(jobs, jobs[0].id);
      SetAtEnd(jobs[1..], job);
    }
  }

  /** A map keeps the place of an id it has, and lists a new one last. */
  lemma SetKeepsPlaces(jobs: seq<Job>, job: Job)
    ensures Ids(Set(jobs, job)) == if Has(jobs, job.id) then Ids(jobs) else Ids(jobs) + [job.id]
  {
    if Has(jobs, job.id) { SetInPlace(jobs, job); } else { SetAtEnd(jobs, job); }
  }

  lemma HasCons(jobs: seq<Job>, id: string)
    requires jobs != []
    ensures Has(jobs, id) <==> jobs[0].id == id || Has(jobs[1..], id)
  {
    if Has(jobs[1..], id) {
      var i :| 0 <= i < |jobs| - 1 && jobs[1..][i].id == id;
      assert jobs[i + 1].id == id;
    }
    if Has(jobs, id) && jobs[0].id != id {
      var i :| 0 <= i < |jobs| && jobs[i].id == id;
      assert jobs[1..][i - 1].id == id;
    }
  }

  lemma {:induction false} SetMembers(jobs: seq<Job>, job: Job, other: Job)
    requires Unique(jobs) && job.id != ""
    ensures Unique(Set(jobs, job))
    ensures other in Set(jobs, job) <==> other == job || (other in jobs && other.id != job.id)
  {
    if jobs != [] {
      assert jobs == [jobs[0]] + jobs[1..];
      if jobs[0].id != job.id {
        SetMembers(jobs[1..], job, other);
        var rest := Set(jobs[1..], job);
        forall i | 0 <= i < |rest| ensures rest[i].id != jobs[0].id {
          SetMembers(jobs[1..], job, rest[i]);
          assert rest[i] in rest;
        }
      }
    }
  }

  /** The entry of the list that the map keeps for an id: the last one. */
  predicate LastOfId(jobs: seq<Job>, job: Job) {
    job.id != "" && exists i | 0 <= i < |jobs| :: jobs[i] == job && forall k | i < k < |jobs| :: jobs[k].id != job.id
  }

  lemma LastOfIdSnoc(jobs: seq<Job>, last: Job, job: Job)
    ensures LastOfId(jobs + [last], job) <==>
            job.id != "" && (job == last || (LastOfId(jobs, job) && last.id != job.id))
  {
    var all := jobs + [last];
    assert all[|jobs|] == last;
    if LastOfId(all, job) {
      var i :| 0 <= i < |all| && all[i] == job && forall k | i < k < |all| :: all[k].id != job.id;
      if i < |jobs| {
        assert jobs[i] == job && forall k | i < k < |jobs| :: all[k] == jobs[k];
        assert all[|jobs|].id != job.id;
      }
    }
    if LastOfId(jobs, job) && last.id != job.id {
      var i :| 0 <= i < |jobs| && jobs[i] == job && forall k | i < k < |jobs| :: jobs[k].id != job.id;
      assert all[i] == job && forall k | i < k < |all| :: all[k].id != job.id;
    }
  }

  /** The server's part of the map: one job for each id, the last listed. */
  lemma {:induction false} ServerJobs(server: seq<Job>, job: Job)
    ensures Unique(FromServer(server)) && (job in FromServer(server) <==> LastOfId(server, job))
  {
    if server != [] {
      var n := |server| - 1;
      ServerJobs(server[..n], job);
      assert server == server[..n] + [server[n]];
      LastOfIdSnoc(server[..n], server[n], job);
      if server[n].id != "" { SetMembers(FromServer(server[..n]), server[n], job); }
    }
  }

  /** The first entry of an id that is still running. */
  predicate FirstActive(jobs: seq<Job>, job: Job) {
    job.id != "" && !IsTerminal(job) &&
    exists i | 0 <= i < |jobs| :: jobs[i] == job && forall k | 0 <= k < i :: jobs[k].id != job.id || IsTerminal(jobs[k])
  }

  predicate IsActive(jobs: seq<Job>, id: string) {
    exists i | 0 <= i < |jobs| :: jobs[i].id == id && !IsTerminal(jobs[i])
  }

  lemma FirstActiveSnoc(jobs: seq<Job>, last: Job, job: Job)
    ensures FirstActive(jobs + [last], job) <==>
            FirstActive(jobs, job) || (job == last && job.id != "" && !IsTerminal(job) && !IsActive(jobs, job.id))
  {
    var all := jobs + [last];
    assert all[|jobs|] == last && forall k | 0 <= k < |jobs| :: all[k] == jobs[k];
    if FirstActive(all, job) {
      var i :| 0 <= i < |all| && all[i] == job && forall k | 0 <= k < i :: all[k].id != job.id || IsTerminal(all[k]);
      if i < |jobs| { assert jobs[i] == job; }
    }
    if FirstActive(jobs, job) {
      var i :| 0 <= i < |jobs| && jobs[i] == job &&
          forall k | 0 <= k < i :: jobs[k].id != job.id || IsTerminal(jobs[k]);
      assert all[i] == job && forall k | 0 <= k < i :: all[k].id != job.id || IsTerminal(all[k]);
    }
  }

  lemma IsActiveSnoc(jobs: seq<Job>, last: Job, id: string)
    ensures IsActive(jobs + [last], id) <==> IsActive(jobs, id) || (last.id == id && !IsTerminal(last))
  {
    var all := jobs + [last];
    assert all[|jobs|] == last && forall k | 0 <= k < |jobs| :: all[k] == jobs[k];
    if IsActive(all, id) {
      var i :| 0 <= i < |all| && all[i].id == id && !IsTerminal(all[i]);
      if i < |jobs| { assert jobs[i].id == id && !IsTerminal(jobs[i]); }
    }
    if IsActive(jobs, id) {
      var i :| 0 <= i < |jobs| && jobs[i].id == id && !IsTerminal(jobs[i]);
      assert all[i].id == id && !IsTerminal(all[i]);
    }
  }

  /** What the local list adds to the map. */
  function Additions(byId: seq<Job>, local: seq<Job>): seq<Job>
    ensures byId + Additions(byId, local) == WithLocal(byId, local)
  {
    if local == [] then []
    else
      var (before, last) := (Additions(byId, local[..|local| - 1]), local[|local| - 1]);
      if Adds(WithLocal(byId, local[..|local| - 1]), last) then before + [last] else before
  }

  lemma HasSnoc(jobs: seq<Job>, last: Job, id: string)
    ensures Has(jobs + [last], id) <==> Has(jobs, id) || last.id == id
  {
    var all := jobs + [last];
    assert all[|jobs|] == last && forall k | 0 <= k < |jobs| :: all[k] == jobs[k];
    if Has(jobs, id) {
      var i :| 0 <= i < |jobs| && jobs[i].id == id;
      assert all[i].id == id;
    }
  }

  /** The browser's part: for each id the server does not list, the first active entry. */
  lemma {:induction false} LocalJobs(byId: seq<Job>, local: seq<Job>, job: Job)
    requires Unique(byId)
    ensures Unique(WithLocal(byId, local))
    ensures job in Additions(byId, local) <==> FirstActive(local, job) && !Has(byId, job.id)
    ensures job.id != "" ==> (Has(WithLocal(byId, local), job.id) <==> Has(byId, job.id) || IsActive(local, job.id))
  {
    if local != [] {
      var n := |local| - 1;
      var before := WithLocal(byId, local[..n]);
      LocalJobs(byId, local[..n], job);
      LocalJobs(byId, local[..n], local[n]);
      assert local == local[..n] + [local[n]];
      FirstActiveSnoc(local[..n], local[n], job);
      IsActiveSnoc(local[..n], local[n], job.id);
      HasSnoc(before, local[n], job.id);
    }
  }

  // ------------------------------------------------------------------ what the merge contains

  lemma {:induction false} UniqueSubset(a: seq<Job>, b: seq<Job>)
    requires Unique(a) && multiset(a) == multiset(b)
    ensures Unique(b)
  {
    forall i, j | 0 <= i < j < |b| ensures b[i].id != b[j].id { DistinctInPermutation(a, b, i, j); }
    forall i | 0 <= i < |b| ensures b[i].id != "" {
      assert b[i] in multiset(b);
      assert b[i] in a;
    }
  }

  lemma DistinctInPermutation(a: seq<Job>, b: seq<Job>, i: nat, j: nat)
    requires Unique(a) && multiset(a) == multiset(b) && i < j < |b|
    ensures b[i].id != b[j].id
  {
    assert b[i] in multiset(b) && b[j] in multiset(b);
    assert b[i] in a && b[j] in a;
    if b[i].id == b[j].id {
      assert b[i] == b[j];
      MultiplicityTwo(b, i, j);
      MultiplicityOne(a, b[i]);
    }
  }

  lemma MultiplicityTwo(b: seq<Job>, i: nat, j: nat)
    requires i < j < |b| && b[i] == b[j]
    ensures multiset(b)[b[i]] >= 2
  {
    assert b == b[..i] + [b[i]] + b[i + 1..j] + [b[j]] + b[j + 1..];
  }

  lemma {:induction false} MultiplicityOne(a: seq<Job>, job: Job)
    requires Unique(a)
    ensures multiset(a)[job] <= 1
  {
    if a != [] {
      assert a == [a[0]] + a[1..];
      MultiplicityOne(a[1..], job);
    }
  }

  /** Unique ids, newest first, at most 30; each job is the server's latest copy or, for an
      id the server does not list, the browser's first active one. */
  lemma MergedJobs(parse: string -> int, server: seq<Job>, local: seq<Job>)
    ensures var merged := Merge(parse, server, local);
            Unique(merged) && NewestFirst(parse, merged) && |merged| <= 30 &&
            forall i | 0 <= i < |merged| :: Belongs(server, local, merged[i])
    ensures var merged := Merge(parse, server, local);
            forall i, j | 0 <= i < j < |merged| :: parse(FirstDate(merged[i])) >= parse(FirstDate(merged[j]))
  {
    var byId := WithLocal(FromServer(server), local);
    var all := Sort(parse, byId);
    SortSorts(parse, byId);
    ServerIsUnique(server);
    LocalIsUnique(FromServer(server), local);
    UniqueSubset(byId, all);
    forall i | 0 <= i < |all| ensures Belongs(server, local, all[i]) {
      assert all[i] in multiset(all);
      MapJobs(server, local, all[i]);
    }
  }

  /** The server's latest copy or, for an id the server does not list, the browser's first
      active one. */
  predicate Belongs(server: seq<Job>, local: seq<Job>, job: Job) {
    LastOfId(server, job) || (FirstActive(local, job) && !Has(FromServer(server), job.id))
  }

  lemma MapJobs(server: seq<Job>, local: seq<Job>, job: Job)
    ensures job in WithLocal(FromServer(server), local) <==> Belongs(server, local, job)
  {
    ServerJobs(server, job);
    LocalJobs(FromServer(server), local, job);
  }

  lemma ServerIsUnique(server: seq<Job>)
    ensures Unique(FromServer(server))
  {
    if server != [] { ServerJobs(server, server[0]); }
  }

  lemma LocalIsUnique(byId: seq<Job>, local: seq<Job>)
    requires Unique(byId)
    ensures Unique(WithLocal(byId, local))
  {
    if local != [] { LocalJobs(byId, local, local[0]); }
  }

  /** Nothing newer is cut off: a job of the map is missing only if thirty others at least
      as new are there. */
  lemma NothingNewerIsCut(parse: string -> int, server: seq<Job>, local: seq<Job>, job: Job)
    requires Belongs(server, local, job)
    ensures var merged := Merge(parse, server, local);
            job in merged ||
            (|merged| == 30 && forall i | 0 <= i < |merged| :: Time(parse, merged[i]) >= Time(parse, job))
  {
    var byId := WithLocal(FromServer(server), local);
    var all := Sort(parse, byId);
    MapJobs(server, local, job);
    SortSorts(parse, byId);
    assert job in multiset(byId);
    assert job in all;
    var k :| 0 <= k < |all| && all[k] == job;
  }

  /** A job only the browser knows is never a finished one. */
  lemma NoLocalTerminalJob(parse: string -> int, server: seq<Job>, local: seq<Job>, i: nat)
    requires i < |Merge(parse, server, local)|
    requires !exists k :: 0 <= k < |server| && server[k].id == Merge(parse, server, local)[i].id
    ensures !Finished(Merge(parse, server, local)[i].status)
  {
    MergedJobs(parse, server, local);
    TerminalIff(Merge(parse, server, local)[i]);
  }

  // ------------------------------------------------------------------ merging again

  function IdSet(jobs: seq<Job>): set<string> { set i | 0 <= i < |jobs| :: jobs[i].id }

  function NotIn(ids: set<string>): Job -> bool { (job: Job) => job.id !in ids }

  function In(ids: set<string>): Job -> bool { (job: Job) => job.id in ids }

  lemma InIdSet(jobs: seq<Job>, id: string)
    ensures id in IdSet(jobs) <==> Has(jobs, id)
  {
  }

  /** Merging a list of unique active jobs and jobs of the map appends the former. */
  lemma {:induction false} WithLocalOfUnique(byId: seq<Job>, local: seq<Job>)
    requires Unique(byId) && Unique(local)
    requires forall i | 0 <= i < |local| :: Has(byId, local[i].id) || !IsTerminal(local[i])
    ensures WithLocal(byId, local) == byId + Select(local, NotIn(IdSet(byId)))
  {
    if local != [] {
      var n := |local| - 1;
      WithLocalOfUnique(byId, local[..n]);
      assert local == local[..n] + [local[n]];
      SelectConcat(local[..n], [local[n]], NotIn(IdSet(byId)));
      LocalJobs(byId, local[..n], local[n]);
      InIdSet(byId, local[n].id);
      assert !IsActive(local[..n], local[n].id);
    }
  }

  /** Of a sorted map the jobs shown, and whatever else of `a` was cut off. */
  lemma KeepPrefix(all: seq<Job>, kept: seq<Job>, rest: seq<Job>, a: set<string>)
    requires all == kept + rest && Unique(all)
    ensures Select(all, In(a + IdSet(kept))) == kept + Select(rest, In(a + IdSet(kept)))
    ensures Select(Select(rest, In(a + IdSet(kept))), NotIn(a)) == []
  {
    var keep := In(a + IdSet(kept));
    SelectConcat(kept, rest, keep);
    SelectAll(kept, keep);
    SelectMembers(rest, keep);
    forall i | 0 <= i < |Select(rest, keep)| ensures !NotIn(a)(Select(rest, keep)[i]) {
      var job := Select(rest, keep)[i];
      var k :| 0 <= k < |rest| && rest[k] == job;
      assert all[|kept| + k] == job;
      assert forall m | 0 <= m < |kept| :: all[m] == kept[m] && kept[m].id != job.id;
    }
    SelectNone(Select(rest, keep), NotIn(a));
  }

  /** The part of the map that came from the browser, sorted. */
  lemma SortedLocal(parse: string -> int, a: seq<Job>, x: seq<Job>)
    requires Unique(a + x)
    ensures Sort(parse, x) == Select(Sort(parse, a + x), NotIn(IdSet(a)))
  {
    SelectSort(parse, a + x, NotIn(IdSet(a)));
    OnlyLocal(a, x);
  }

  lemma OnlyLocal(a: seq<Job>, x: seq<Job>)
    requires Unique(a + x)
    ensures Select(a + x, NotIn(IdSet(a))) == x
  {
    var p := NotIn(IdSet(a));
    SelectConcat(a, x, p);
    SelectNone(a, p);
    forall i | 0 <= i < |x| ensures x[i].id !in IdSet(a) { Apart(a, x, i); }
    SelectAll(x, p);
  }

  lemma Apart(a: seq<Job>, x: seq<Job>, i: nat)
    requires Unique(a + x) && i < |x|
    ensures x[i].id !in IdSet(a)
  {
    assert (a + x)[|a| + i] == x[i];
    forall k | 0 <= k < |a| ensures a[k].id != x[i].id { assert (a + x)[k] == a[k]; }
  }

  /** Merging the map again with what was shown of it: the jobs cut off were the only ones
      lost, and they sort after all those kept. */
  lemma MergeKept(parse: string -> int, a: seq<Job>, x: seq<Job>, all: seq<Job>, rest: seq<Job>)
    requires Unique(a + x) && all == Sort(parse, a + x) && all == Cut(all) + rest
    ensures Cut(Sort(parse, a + Select(Cut(all), NotIn(IdSet(a))))) == Cut(all)
  {
    var kept := Cut(all);
    var keep := In(IdSet(a) + IdSet(kept));
    SortSorts(parse, a + x);
    UniqueSubset(a + x, all);
    KeepPrefix(all, kept, rest, IdSet(a));
    KeptLocal(parse, a, x, all, rest);
    SelectConcat(a, Sort(parse, x), keep);
    SelectAll(a, keep);
    SelectSort(parse, a + Sort(parse, x), keep);
    SortTailFirst(parse, a, x);
    assert |all| <= LIMIT ==> rest == [] && Select(rest, keep) == [];
  }

  lemma KeptLocal(parse: string -> int, a: seq<Job>, x: seq<Job>, all: seq<Job>, rest: seq<Job>)
    requires Unique(a + x) && all == Sort(parse, a + x) && all == Cut(all) + rest && Unique(all)
    ensures Select(Sort(parse, x), In(IdSet(a) + IdSet(Cut(all)))) == Select(Cut(all), NotIn(IdSet(a)))
  {
    var kept := Cut(all);
    var keep := In(IdSet(a) + IdSet(kept));
    SortedLocal(parse, a, x);
    SelectSwap(all, NotIn(IdSet(a)), keep);
    KeepPrefix(all, kept, rest, IdSet(a));
    SelectConcat(kept, Select(rest, keep), NotIn(IdSet(a)));
    assert Select(kept, NotIn(IdSet(a))) + [] == Select(kept, NotIn(IdSet(a)));
  }

  /** mergeJobs is a fixpoint: merging the same server list with the merged list, as every
      poll does, changes nothing, in spite of ties and of the cut. */
  lemma MergeIsFixpoint(parse: string -> int, server: seq<Job>, local: seq<Job>)
    ensures Merge(parse, server, Merge(parse, server, local)) == Merge(parse, server, local)
  {
    var a := FromServer(server);
    var x := Additions(a, local);
    var all := Sort(parse, a + x);
    var merged := Merge(parse, server, local);
    ServerIsUnique(server);
    LocalIsUnique(a, local);
    MergedJobs(parse, server, local);
    forall i | 0 <= i < |merged| ensures Has(a, merged[i].id) || !IsTerminal(merged[i]) {
      ServerJobs(server, merged[i]);
    }
    WithLocalOfUnique(a, merged);
    assert all == Cut(all) + all[|Cut(all)|..];
    MergeKept(parse, a, x, all, all[|Cut(all)|..]);
  }

  // ------------------------------------------------------------------ the loops

  method MergeJobs(parse: string -> int, server: seq<Job>, local: seq<Job>) returns (merged: seq<Job>)
    ensures merged == Merge(parse, server, local)
  {
    var byId: seq<Job> := [];
    var i := 0;
    while i < |server|
      invariant 0 <= i <= |server| && byId == FromServer(server[..i])
    {
      assert server[..i + 1][..i] == server[..i];
      if server[i].id != "" { byId := Set(byId, server[i]); }
      i := i + 1;
    }
    assert server[..i] == server;
    i := 0;
    while i < |local|
      invariant 0 <= i <= |local| && byId == WithLocal(FromServer(server), local[..i])
    {
      assert local[..i + 1][..i] == local[..i];
      var job := local[i];
      i := i + 1;
      if job.id == "" { continue; }
      if Has(byId, job.id) { continue; }
      if !IsTerminal(job) { byId := byId + [job]; }
    }
    assert local[..i] == local;
    var sorted := Sort(parse, byId);
    merged := if |sorted| <= LIMIT then sorted else sorted[..LIMIT];
  }
}
