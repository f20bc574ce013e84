/** Global retention on the Runner (store.go `Prune`). */
module Prune {
  import opened Wrappers

  type JobId = string

  const DEFAULT_GLOBAL_LIMIT := 10 * 1024 * 1024 * 1024

  /**
   * A job directory: whether its record can be read, whether that record is terminal, when it
   * finished and when its retention ends, the size of the directory, and whether the system
   * calls that measure and remove it succeed.
   */
  datatype Directory = Directory(readable: bool, terminal: bool, finishedAt: int, expiresAt: int,
                                 size: nat, measurable: bool, removable: bool)

  datatype Outcome = Done | LimitReached | Failed

  datatype Retained = Retained(id: JobId, finishedAt: int, size: nat)

  function SizeOf(jobs: map<JobId, Directory>, id: JobId): nat {
    if id in jobs && jobs[id].readable then jobs[id].size else 0
  }

  /** Total size of the first `n` listed directories that still exist and can be read. */
  function TotalOf(jobs: map<JobId, Directory>, ids: seq<JobId>, n: nat): nat
    requires n <= |ids|
  {
    if n == 0 then 0 else TotalOf(jobs, ids, n - 1) + SizeOf(jobs, ids[n - 1])
  }

  function Total(jobs: map<JobId, Directory>, ids: seq<JobId>): nat {
    TotalOf(jobs, ids, |ids|)
  }

  predicate Distinct(ids: seq<JobId>) {
    forall i, j :: 0 <= i < j < |ids| ==> ids[i] != ids[j]
  }

  lemma {:induction false} TotalWithout(jobs: map<JobId, Directory>, ids: seq<JobId>, n: nat, k: nat)
    requires Distinct(ids) && n <= |ids| && k < |ids|
    ensures TotalOf(jobs, ids, n) == TotalOf(jobs - {ids[k]}, ids, n) + if k < n then SizeOf(jobs, ids[k]) else 0
  {
    if n > 0 {
      TotalWithout(jobs, ids, n - 1, k);
    }
  }

  predicate Expired(job: Directory, now: int) {
    job.readable && job.terminal && now >= job.expiresAt
  }

  predicate Evictable(job: Directory, now: int) {
    job.readable && job.terminal && now < job.expiresAt
  }

  predicate Sorted(list: seq<Retained>) {
    forall i, j :: 0 <= i < j < |list| ==> list[i].finishedAt <= list[j].finishedAt
  }

  predicate DistinctIds(list: seq<Retained>) {
    forall i, j :: 0 <= i < j < |list| ==> list[i].id != list[j].id
  }

  /** Entry `i` of the list describes an unexpired terminal job that still exists. */
  predicate Describes(list: seq<Retained>, i: nat, jobs: map<JobId, Directory>, now: int)
    requires i < |list|
  {
    var r := list[i];
    r.id in jobs && Evictable(jobs[r.id], now) && r.finishedAt == jobs[r.id].finishedAt && r.size == jobs[r.id].size
  }

  predicate HasId(list: seq<Retained>, id: JobId) {
    exists i :: 0 <= i < |list| && list[i].id == id
  }

  predicate Listed(ids: seq<JobId>, n: nat, id: JobId) {
    exists i :: 0 <= i < n <= |ids| && ids[i] == id
  }

  /** The list holds the unexpired terminal jobs among the first `n` ids, each once. */
  predicate Lists(list: seq<Retained>, jobs: map<JobId, Directory>, ids: seq<JobId>, n: nat, now: int)
    requires n <= |ids|
  {
    && DistinctIds(list)
    && (forall i :: 0 <= i < |list| ==> Describes(list, i, jobs, now) && Listed(ids, n, list[i].id))
    && (forall i :: 0 <= i < n && ids[i] in jobs && Evictable(jobs[ids[i]], now) ==> HasId(list, ids[i]))
  }

  predicate Unchanged(was: map<JobId, Directory>, jobs: map<JobId, Directory>) {
    forall id :: id in jobs ==> id in was && jobs[id] == was[id]
  }

  /** The first loop has dealt with the first `n` ids. */
  predicate Scanned(was: map<JobId, Directory>, jobs: map<JobId, Directory>, ids: seq<JobId>, n: nat, now: int,
                    total: int, terminal: seq<Retained>)
    requires n <= |ids|
  {
    && Unchanged(was, jobs)
    && (forall id :: id in was && id !in jobs ==> Expired(was[id], now))
    && (forall i :: n <= i < |ids| ==> ids[i] in jobs)
    && (forall i :: 0 <= i < n && ids[i] in jobs ==> !Expired(jobs[ids[i]], now))
    && total == TotalOf(jobs, ids, n)
    && Lists(terminal, jobs, ids, n, now)
  }

  lemma ListedGrows(ids: seq<JobId>, n: nat, id: JobId)
    requires n < |ids| && Listed(ids, n, id)
    ensures Listed(ids, n + 1, id)
  {
  }

  lemma ScanKeeps(was: map<JobId, Directory>, jobs: map<JobId, Directory>, ids: seq<JobId>, n: nat, now: int,
                  total: int, terminal: seq<Retained>)
    requires n < |ids| && Scanned(was, jobs, ids, n, now, total, terminal)
    requires !(jobs[ids[n]].readable && jobs[ids[n]].terminal)
    ensures Scanned(was, jobs, ids, n + 1, now, total + SizeOf(jobs, ids[n]), terminal)
  {
    forall i | 0 <= i < |terminal| ensures Listed(ids, n + 1, terminal[i].id) {
      ListedGrows(ids, n, terminal[i].id);
    }
  }

  lemma ScanRemoves(was: map<JobId, Directory>, jobs: map<JobId, Directory>, ids: seq<JobId>, n: nat, now: int,
                    total: int, terminal: seq<Retained>)
    requires n < |ids| && Distinct(ids) && Scanned(was, jobs, ids, n, now, total, terminal)
    requires Expired(jobs[ids[n]], now)
    ensures Scanned(was, jobs - {ids[n]}, ids, n + 1, now, total, terminal)
  {
    TotalWithout(jobs, ids, n, n);
    forall i | 0 <= i < |terminal|
      ensures Listed(ids, n + 1, terminal[i].id) && Describes(terminal, i, jobs - {ids[n]}, now)
    {
      ListedGrows(ids, n, terminal[i].id);
      assert Describes(terminal, i, jobs, now);
    }
  }

  lemma ScanLists(was: map<JobId, Directory>, jobs: map<JobId, Directory>, ids: seq<JobId>, n: nat, now: int,
                  total: int, terminal: seq<Retained>)
    requires n < |ids| && Distinct(ids) && Scanned(was, jobs, ids, n, now, total, terminal)
    requires Evictable(jobs[ids[n]], now)
    ensures var job := jobs[ids[n]];
      Scanned(was, jobs, ids, n + 1, now, total + job.size, terminal + [Retained(ids[n], job.finishedAt, job.size)])
  {
    var job := jobs[ids[n]];
    var longer := terminal + [Retained(ids[n], job.finishedAt, job.size)];
    forall i | 0 <= i < |longer|
      ensures Listed(ids, n + 1, longer[i].id) && Describes(longer, i, jobs, now)
      ensures i < |terminal| ==> longer[i].id != ids[n]
    {
      if i < |terminal| {
        ListedGrows(ids, n, terminal[i].id);
        assert Describes(terminal, i, jobs, now);
      }
    }
    forall i | 0 <= i < n + 1 && ids[i] in jobs && Evictable(jobs[ids[i]], now)
      ensures HasId(longer, ids[i])
    {
      if i < n {
        var k :| 0 <= k < |terminal| && terminal[k].id == ids[i];
        assert longer[k].id == ids[i];
      } else {
        assert longer[|terminal|].id == ids[i];
      }
    }
  }

  /** The same, folded. */
  ghost predicate Scanning(was: map<JobId, Directory>, jobs: map<JobId, Directory>, ids: seq<JobId>, n: nat, now: int,
                           total: int, terminal: seq<Retained>) {
    forall token: nat :: Unfold(token) ==> Distinct(ids) && n <= |ids| && Scanned(was, jobs, ids, n, now, total, terminal)
  }

  lemma ScanBegins(jobs: map<JobId, Directory>, ids: seq<JobId>, now: int)
    requires Distinct(ids) && forall id :: id in jobs <==> Listed(ids, |ids|, id)
    ensures Scanning(jobs, jobs, ids, 0, now, 0, [])
  {
    forall i | 0 <= i < |ids| ensures ids[i] in jobs {
      assert Listed(ids, |ids|, ids[i]);
    }
  }

  lemma ScanStep(was: map<JobId, Directory>, jobs: map<JobId, Directory>, ids: seq<JobId>, n: nat, now: int,
                 total: int, terminal: seq<Retained>)
    requires n < |ids| && Scanning(was, jobs, ids, n, now, total, terminal)
    ensures ids[n] in jobs
    ensures var job := jobs[ids[n]];
      if !(job.readable && job.terminal) then Scanning(was, jobs, ids, n + 1, now, total + SizeOf(jobs, ids[n]), terminal)
      else if Expired(job, now) then Scanning(was, jobs - {ids[n]}, ids, n + 1, now, total, terminal)
      else Scanning(was, jobs, ids, n + 1, now, total + job.size, terminal + [Retained(ids[n], job.finishedAt, job.size)])
  {
    assert Unfold(0);
    var job := jobs[ids[n]];
    if !(job.readable && job.terminal) {
      ScanKeeps(was, jobs, ids, n, now, total, terminal);
    } else if Expired(job, now) {
      ScanRemoves(was, jobs, ids, n, now, total, terminal);
    } else {
      ScanLists(was, jobs, ids, n, now, total, terminal);
    }
  }

  lemma ScanSoFar(was: map<JobId, Directory>, jobs: map<JobId, Directory>, ids: seq<JobId>, n: nat, now: int,
                  total: int, terminal: seq<Retained>)
    requires n <= |ids| && Scanning(was, jobs, ids, n, now, total, terminal)
    ensures Scanned(was, jobs, ids, n, now, total, terminal)
  {
    assert Unfold(0);
  }

  /** A system call on the directory fails: its size cannot be taken, or it should go and cannot be removed. */
  predicate Fails(job: Directory) {
    job.readable && (!job.measurable || (job.terminal && !job.removable))
  }

  ghost predicate SomeFails(jobs: map<JobId, Directory>) {
    exists id :: id in jobs && Fails(jobs[id])
  }

  // ---------- The eviction loop ----------

  /** The directories left after the first `n` of the sorted list are removed. */
  function Without(jobs: map<JobId, Directory>, sorted: seq<Retained>, n: nat): map<JobId, Directory>
    requires n <= |sorted|
  {
    if n == 0 then jobs else Without(jobs, sorted, n - 1) - {sorted[n - 1].id}
  }

  lemma {:induction false} WithoutKeeps(jobs: map<JobId, Directory>, sorted: seq<Retained>, n: nat, id: JobId)
    requires n <= |sorted|
    ensures id in Without(jobs, sorted, n) <==> id in jobs && forall i :: 0 <= i < n ==> sorted[i].id != id
    ensures id in Without(jobs, sorted, n) ==> Without(jobs, sorted, n)[id] == jobs[id]
  {
    if n > 0 {
      WithoutKeeps(jobs, sorted, n - 1, id);
    }
  }

  class JobsDir {
    var jobs: map<JobId, Directory>

    constructor (jobs: map<JobId, Directory>)
      ensures this.jobs == jobs
    {
      this.jobs := jobs;
    }

    /** `ids` is the directory listing; `evicted` names the unexpired jobs removed, in that order. */
    method Prune(ids: seq<JobId>, limit: int, now: int) returns (outcome: Outcome, evicted: seq<Retained>)
      requires Distinct(ids) && forall id :: id in jobs <==> Listed(ids, |ids|, id)
      modifies this
      // Nothing but terminal jobs goes, and what stays is unchanged.
      ensures Unchanged(old(jobs), jobs)
      ensures forall id :: id in old(jobs) && id !in jobs ==> Expired(old(jobs)[id], now) || HasId(evicted, id)
      ensures forall i :: 0 <= i < |evicted| ==> Describes(evicted, i, old(jobs), now) && evicted[i].id !in jobs
      ensures forall id :: id in old(jobs) && id !in jobs ==> old(jobs)[id].readable && old(jobs)[id].terminal
      ensures forall i :: 0 <= i < |evicted| ==> evicted[i].id in old(jobs) && now < old(jobs)[evicted[i].id].expiresAt
      ensures !outcome.Failed? ==> forall id :: id in jobs && jobs[id].readable && jobs[id].terminal ==> now < jobs[id].expiresAt
      // Unless a system call fails, everything expired goes; unexpired jobs go oldest first.
      ensures outcome.Failed? ==> SomeFails(old(jobs))
      ensures outcome.Failed? || Evicted(old(jobs), jobs, evicted, now)
      // The rest fits or cannot shrink, and the last one went only because the rest was still too big.
      ensures outcome.Done? ==> Total(jobs, ids) <= Limit(limit)
      ensures outcome.LimitReached? ==>
        Total(jobs, ids) > Limit(limit) && forall id :: id in jobs ==> !(jobs[id].readable && jobs[id].terminal)
      ensures evicted != [] ==> Total(jobs, ids) + evicted[|evicted| - 1].size > Limit(limit)
    {
      var maxBytes := if limit <= 0 then DEFAULT_GLOBAL_LIMIT else limit;
      var total, terminal := RemoveExpired(ids, now);
      if total < 0 {
        return Failed, [];
      }
      ghost var before, listed := jobs, total;
      var sorted := SortByFinish(terminal);
      SurveyDone(old(jobs), before, ids, now, listed, terminal, sorted);
      var n := 0;
      outcome, n, total := EvictOldest(ids, maxBytes, total, sorted, old(jobs), before, listed, now);
      evicted := sorted[..n];
      EvictionResult(old(jobs), before, ids, now, listed, sorted, n);
      if outcome.Done? && total > maxBytes {
        outcome := LimitReached;
      }
    }

    /** The second loop; it stops at the limit, at the end of the list, or when a removal fails. */
    method EvictOldest(ids: seq<JobId>, maxBytes: int, listed: int, sorted: seq<Retained>,
                       ghost was: map<JobId, Directory>, ghost before: map<JobId, Directory>, ghost scanned: int, now: int)
      returns (outcome: Outcome, n: nat, total: int)
      requires Surveyed(was, before, ids, now, scanned, sorted) && jobs == before && listed == Total(jobs, ids)
      modifies this
      ensures n <= |sorted| && jobs == Without(before, sorted, n) && total == Total(jobs, ids)
      ensures n > 0 ==> total + sorted[n - 1].size > maxBytes
      ensures outcome.Done? ==> n == |sorted| || total <= maxBytes
      ensures outcome.Done? || (outcome.Failed? && SomeFails(was))
    {
      n, total, outcome := 0, listed, Done;
      while n < |sorted| && total > maxBytes
        invariant 0 <= n <= |sorted| && outcome.Done?
        invariant jobs == Without(before, sorted, n) && total == Total(jobs, ids)
        invariant n > 0 ==> total + sorted[n - 1].size > maxBytes
      {
        var candidate := sorted[n];
        EvictNext(was, before, ids, now, scanned, sorted, n);
        if !jobs[candidate.id].removable {
          assert Fails(was[candidate.id]);
          return Failed, n, total;
        }
        jobs := jobs - {candidate.id};
        total := total - candidate.size;
        n := n + 1;
      }
    }

    /** The first loop: a negative total stands for a system call that failed. */
    method RemoveExpired(ids: seq<JobId>, now: int) returns (total: int, terminal: seq<Retained>)
      requires Distinct(ids) && forall id :: id in jobs <==> Listed(ids, |ids|, id)
      modifies this
      ensures Unchanged(old(jobs), jobs)
      ensures forall id :: id in old(jobs) && id !in jobs ==> Expired(old(jobs)[id], now)
      ensures total < 0 ==> SomeFails(old(jobs))
      ensures total >= 0 ==> Scanned(old(jobs), jobs, ids, |ids|, now, total, terminal)
    {
      total, terminal := 0, [];
      var n := 0;
      ScanBegins(jobs, ids, now);
      while n < |ids|
        invariant n <= |ids| && total >= 0 && Scanning(old(jobs), jobs, ids, n, now, total, terminal)
      {
        ScanStep(old(jobs), jobs, ids, n, now, total, terminal);
        var id := ids[n];
        var job := jobs[id];
        if job.readable && (!job.measurable || (job.terminal && now >= job.expiresAt && !job.removable)) {
          ScanSoFar(old(jobs), jobs, ids, n, now, total, terminal);
          assert Fails(old(jobs)[id]);
          return -1, [];
        }
        if job.readable && job.terminal && now >= job.expiresAt {
          jobs := jobs - {id};
        } else if job.readable {
          total := total + job.size;
          if job.terminal {
            terminal := terminal + [Retained(id, job.finishedAt, job.size)];
          }
        }
        n := n + 1;
      }
      ScanSoFar(old(jobs), jobs, ids, n, now, total, terminal);
    }

    static method SortByFinish(list: seq<Retained>) returns (sorted: seq<Retained>)
      requires DistinctIds(list)
      ensures Sorted(sorted) && DistinctIds(sorted)
      ensures forall r :: r in sorted <==> r in list
    {
      sorted := [];
      for n := 0 to |list|
        invariant Sorted(sorted) && DistinctIds(sorted)
        invariant forall r :: r in sorted <==> r in list[..n]
      {
        var k := 0;
        while k < |sorted| && sorted[k].finishedAt <= list[n].finishedAt
          invariant 0 <= k <= |sorted|
          invariant forall i :: 0 <= i < k ==> sorted[i].finishedAt <= list[n].finishedAt
        {
          k := k + 1;
        }
        Inserted(list, n, sorted, k);
        sorted := sorted[..k] + [list[n]] + sorted[k..];
      }
      assert list[..|list|] == list;
    }
  }

  lemma Inserted(list: seq<Retained>, n: nat, sorted: seq<Retained>, k: nat)
    requires n < |list| && k <= |sorted| && DistinctIds(list)
    requires Sorted(sorted) && DistinctIds(sorted) && (forall r :: r in sorted <==> r in list[..n])
    requires forall i :: 0 <= i < k ==> sorted[i].finishedAt <= list[n].finishedAt
    requires k < |sorted| ==> list[n].finishedAt < sorted[k].finishedAt
    ensures var longer := sorted[..k] + [list[n]] + sorted[k..];
      Sorted(longer) && DistinctIds(longer) && forall r :: r in longer <==> r in list[..n + 1]
  {
    var longer := sorted[..k] + [list[n]] + sorted[k..];
    forall i | 0 <= i < |sorted| ensures sorted[i].id != list[n].id {
      assert sorted[i] in list[..n];
    }
    forall i, j | 0 <= i < j < |longer| ensures longer[i].finishedAt <= longer[j].finishedAt && longer[i].id != longer[j].id {
      assert longer[i] == if i < k then sorted[i] else if i == k then list[n] else sorted[i - 1];
      assert longer[j] == if j < k then sorted[j] else if j == k then list[n] else sorted[j - 1];
    }
    InsertedMembers(sorted, k, list[n]);
    assert list[..n + 1] == list[..n] + [list[n]];
  }

  lemma InsertedMembers(s: seq<Retained>, k: nat, e: Retained)
    requires k <= |s|
    ensures forall r :: r in s[..k] + [e] + s[k..] <==> r in s || r == e
  {
    assert s == s[..k] + s[k..];
  }

  /** 10 GiB if no limit is given. */
  function Limit(limit: int): int {
    if limit <= 0 then 10737418240 else limit
  }

  lemma SortedDescribes(terminal: seq<Retained>, sorted: seq<Retained>, jobs: map<JobId, Directory>,
                        ids: seq<JobId>, n: nat, now: int)
    requires Lists(terminal, jobs, ids, |ids|, now) && (forall r :: r in sorted <==> r in terminal)
    requires n < |sorted|
    ensures Describes(sorted, n, jobs, now) && Listed(ids, |ids|, sorted[n].id)
  {
    assert sorted[n] in terminal;
    var i :| 0 <= i < |terminal| && terminal[i] == sorted[n];
    assert Describes(terminal, i, jobs, now);
  }

  /** What the second loop starts from; folded. */
  ghost predicate Surveyed(was: map<JobId, Directory>, before: map<JobId, Directory>, ids: seq<JobId>, now: int,
                           total: int, sorted: seq<Retained>) {
    forall token: nat :: Unfold(token) ==>
      && Scanned(was, before, ids, |ids|, now, total, sorted)
      && Sorted(sorted) && Distinct(ids) && forall id :: id in before ==> Listed(ids, |ids|, id)
  }

  lemma SurveyDone(was: map<JobId, Directory>, before: map<JobId, Directory>, ids: seq<JobId>, now: int,
                   total: int, terminal: seq<Retained>, sorted: seq<Retained>)
    requires Scanned(was, before, ids, |ids|, now, total, terminal)
    requires Sorted(sorted) && DistinctIds(sorted) && (forall r :: r in sorted <==> r in terminal)
    requires Distinct(ids) && forall id :: id in before ==> Listed(ids, |ids|, id)
    ensures Surveyed(was, before, ids, now, total, sorted)
  {
    forall i | 0 <= i < |sorted| ensures Describes(sorted, i, before, now) && Listed(ids, |ids|, sorted[i].id) {
      SortedDescribes(terminal, sorted, before, ids, i, now);
    }
    forall i | 0 <= i < |ids| && ids[i] in before && Evictable(before[ids[i]], now) ensures HasId(sorted, ids[i]) {
      assert HasId(terminal, ids[i]);
      var t :| 0 <= t < |terminal| && terminal[t].id == ids[i];
      assert terminal[t] in sorted;
    }
  }

  /** What the eviction of the first `n` of the sorted list leaves behind. */
  predicate Evicted(was: map<JobId, Directory>, left: map<JobId, Directory>, evicted: seq<Retained>, now: int) {
    && Unchanged(was, left)
    && (forall id :: id in was && id !in left ==> Expired(was[id], now) || HasId(evicted, id))
    && (forall i :: 0 <= i < |evicted| ==> Describes(evicted, i, was, now) && evicted[i].id !in left)
    && (forall id :: id in left ==> !Expired(left[id], now))
    && (forall i, id :: 0 <= i < |evicted| && id in left && Evictable(left[id], now) ==>
          evicted[i].finishedAt <= left[id].finishedAt)
  }

  lemma EvictionResult(was: map<JobId, Directory>, before: map<JobId, Directory>, ids: seq<JobId>, now: int,
                       total: int, sorted: seq<Retained>, n: nat)
    requires Surveyed(was, before, ids, now, total, sorted) && n <= |sorted|
    ensures Evicted(was, Without(before, sorted, n), sorted[..n], now)
    ensures n == |sorted| ==> forall id :: id in Without(before, sorted, n) ==>
      id in before && !(before[id].readable && before[id].terminal)
  {
    assert Unfold(0);
    var left, evicted := Without(before, sorted, n), sorted[..n];
    forall id | id in before
      ensures id in left ==> left[id] == before[id] && !Expired(before[id], now)
      ensures id !in left ==> HasId(evicted, id)
      ensures forall i :: 0 <= i < n && id in left && Evictable(before[id], now) ==>
        evicted[i].finishedAt <= before[id].finishedAt
      ensures n == |sorted| && id in left ==> !Evictable(before[id], now)
    {
      Survives(was, before, ids, now, total, sorted, n, id);
    }
    forall id | id in left ensures id in before {
      WithoutKeeps(before, sorted, n, id);
    }
    forall i | 0 <= i < n ensures Describes(evicted, i, was, now) && evicted[i].id !in left {
      assert Describes(sorted, i, before, now);
      WithoutKeeps(before, sorted, n, sorted[i].id);
    }
  }

  lemma Survives(was: map<JobId, Directory>, before: map<JobId, Directory>, ids: seq<JobId>, now: int,
                 total: int, sorted: seq<Retained>, n: nat, id: JobId)
    requires Surveyed(was, before, ids, now, total, sorted) && n <= |sorted| && id in before
    ensures var left, evicted := Without(before, sorted, n), sorted[..n];
      && (id in left ==> left[id] == before[id] && !Expired(before[id], now))
      && (id !in left ==> HasId(evicted, id))
      && (forall i :: 0 <= i < n && id in left && Evictable(before[id], now) ==>
            evicted[i].finishedAt <= before[id].finishedAt)
      && (n == |sorted| && id in left ==> !Evictable(before[id], now))
  {
    assert Unfold(0);
    WithoutKeeps(before, sorted, n, id);
    var left, evicted := Without(before, sorted, n), sorted[..n];
    assert Listed(ids, |ids|, id);
    var k :| 0 <= k < |ids| && ids[k] == id;
    if id !in left {
      var i :| 0 <= i < n && sorted[i].id == id;
      assert evicted[i].id == id;
    } else if Evictable(before[id], now) {
      assert HasId(sorted, id);
      var j :| 0 <= j < |sorted| && sorted[j].id == id;
      assert Describes(sorted, j, before, now);
    }
  }

  lemma EvictNext(was: map<JobId, Directory>, before: map<JobId, Directory>, ids: seq<JobId>, now: int,
                  total: int, sorted: seq<Retained>, n: nat)
    requires Surveyed(was, before, ids, now, total, sorted) && n < |sorted|
    ensures var left, next := Without(before, sorted, n), sorted[n];
      && next.id in left && next.id in was && left[next.id] == was[next.id]
      && left[next.id].readable && left[next.id].terminal && left[next.id].size == next.size
      && Total(Without(before, sorted, n + 1), ids) == Total(left, ids) - next.size
  {
    assert Unfold(0);
    assert Describes(sorted, n, before, now) && Listed(ids, |ids|, sorted[n].id);
    WithoutKeeps(before, sorted, n, sorted[n].id);
    var k :| 0 <= k < |ids| && ids[k] == sorted[n].id;
    TotalWithout(Without(before, sorted, n), ids, |ids|, k);
  }
}
