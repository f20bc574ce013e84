/**
 * First come, first served: the order in which the coordinator's queue (LifecycleManager.ts
 * `start`, `approve`, `cancel`, `drain`) serves its jobs over whole runs.
 */
module Fairness {
  import opened Wrappers
  import opened EventLog
  import opened Scheduler

  predicate Before(queue: seq<JobId>, a: JobId, b: JobId) {
    exists i, j :: 0 <= i < j < |queue| && queue[i] == a && queue[j] == b
  }

  predicate LaunchedBefore(launches: seq<Launch>, a: JobId, b: JobId) {
    exists i, j :: 0 <= i < j < |launches| && launches[i].id == a && launches[j].id == b
  }

  /** `b` has not overtaken `a`, which waits in the queue, was launched, or will never be. */
  predicate NotOvertaken(s: State, a: JobId, b: JobId) {
    && a in s.used && a != b
    && if a in s.queue then !Launched(s.launches, b) && (b in s.queue ==> Before(s.queue, a, b))
       else if Launched(s.launches, a) then Launched(s.launches, b) ==> LaunchedBefore(s.launches, a, b)
       else a in s.jobs ==> s.jobs[a].cancelRequested || s.jobs[a].approval.Expired?
  }

  // ---------- One event ----------

  lemma AtTheEnd(queue: seq<JobId>, id: JobId, a: JobId, b: JobId)
    requires a in queue && (b in queue ==> Before(queue, a, b))
    ensures b in queue + [id] ==> Before(queue + [id], a, b)
  {
    var i :| 0 <= i < |queue| && queue[i] == a;
    assert (queue + [id])[i] == a && (queue + [id])[|queue|] == id;
    if b in queue {
      var k, l :| 0 <= k < l < |queue| && queue[k] == a && queue[l] == b;
      assert (queue + [id])[k] == a && (queue + [id])[l] == b;
    }
  }

  lemma RemainsAt(queue: seq<JobId>, i: nat, k: nat)
    requires i < |queue| && k < |queue| && k != i
    ensures (queue[..i] + queue[i + 1..])[if k < i then k else k - 1] == queue[k]
  {
  }

  lemma WithoutOne(queue: seq<JobId>, id: JobId, rest: seq<JobId>, a: JobId, b: JobId)
    requires LeavesQueue(queue, id, rest) && Before(queue, a, b) && a != id && b != id
    ensures Before(rest, a, b)
  {
    if id in queue {
      var k, l :| 0 <= k < l < |queue| && queue[k] == a && queue[l] == b;
      var i :| 0 <= i < |queue| && queue[i] == id;
      RemainsAt(queue, i, k);
      RemainsAt(queue, i, l);
      OrderOf(queue[..i] + queue[i + 1..], if k < i then k else k - 1, if l < i then l else l - 1, a, b);
    }
  }

  lemma OrderOf(queue: seq<JobId>, k: nat, l: nat, a: JobId, b: JobId)
    requires k < l < |queue| && queue[k] == a && queue[l] == b
    ensures Before(queue, a, b)
  {
  }

  lemma Remaining(queue: seq<JobId>, id: JobId, rest: seq<JobId>, a: JobId)
    requires LeavesQueue(queue, id, rest) && Distinct(queue)
    ensures a in rest <==> a in queue && a != id
  {
    if id in queue {
      var i :| 0 <= i < |queue| && queue[i] == id;
      assert rest == queue[..i] + queue[i + 1..];
      assert queue == queue[..i] + [id] + queue[i + 1..];
      assert id !in rest;
    }
  }

  lemma BehindHead(queue: seq<JobId>, a: JobId, b: JobId)
    requires queue != [] && Distinct(queue) && Before(queue, a, b)
    ensures b != queue[0] && (a != queue[0] ==> Before(queue[1..], a, b))
  {
    var k, l :| 0 <= k < l < |queue| && queue[k] == a && queue[l] == b;
    if a != queue[0] {
      assert queue[1..][k - 1] == a && queue[1..][l - 1] == b;
    }
  }

  lemma OneMoreLaunch(launches: seq<Launch>, launch: Launch, a: JobId, b: JobId)
    ensures Launched(launches, a) && launch.id == b ==> LaunchedBefore(launches + [launch], a, b)
    ensures LaunchedBefore(launches, a, b) ==> LaunchedBefore(launches + [launch], a, b)
    ensures Launched(launches + [launch], a) <==> Launched(launches, a) || launch.id == a
  {
    var more := launches + [launch];
    assert more[|launches|] == launch;
    if Launched(launches, a) {
      var i :| 0 <= i < |launches| && launches[i].id == a;
      assert more[i].id == a;
    }
    if LaunchedBefore(launches, a, b) {
      var i, j :| 0 <= i < j < |launches| && launches[i].id == a && launches[j].id == b;
      assert more[i].id == a && more[j].id == b;
    }
  }

  /** One round of `drain`. */
  lemma RoundKeepsPlace(s: State, now: int, auditOk: bool, limit: nat, a: JobId, b: JobId)
    requires Held(s, limit) && NotOvertaken(s, a, b) && s.queue != [] && s.queue[0] in s.jobs
    ensures NotOvertaken(Drained(s, now, auditOk), a, b)
  {
    var h := s.queue[0];
    assert h in s.inputs && !s.jobs[h].cancelRequested && !Launched(s.launches, h) && Distinct(s.queue) by {
      assert Unfold(0);
      HeadIsReady(s, limit);
    }
    RestOfQueue(s.queue);
    if a in s.queue {
      WaitingKeepsPlace(s, now, auditOk, a, b);
    } else {
      OneMoreLaunch(s.launches, Launch(h, s.jobs[h].required, s.jobs[h].approval, now), a, b);
      OneMoreLaunch(s.launches, Launch(h, s.jobs[h].required, s.jobs[h].approval, now), b, a);
    }
  }

  lemma WaitingKeepsPlace(s: State, now: int, auditOk: bool, a: JobId, b: JobId)
    requires NotOvertaken(s, a, b) && s.queue != [] && s.queue[0] in s.jobs && a in s.queue && Distinct(s.queue)
    requires s.queue[0] in s.inputs && !s.jobs[s.queue[0]].cancelRequested && !Launched(s.launches, s.queue[0])
    requires forall id :: id in s.queue[1..] <==> id in s.queue && id != s.queue[0]
    ensures NotOvertaken(Drained(s, now, auditOk), a, b)
  {
    var h := s.queue[0];
    var launch := Launch(h, s.jobs[h].required, s.jobs[h].approval, now);
    OneMoreLaunch(s.launches, launch, b, a);
    OneMoreLaunch(s.launches, launch, a, b);
    if b in s.queue {
      BehindHead(s.queue, a, b);
    }
  }

  lemma {:induction false} LoopKeepsPlace(s: State, now: int, appends: nat, limit: nat, a: JobId, b: JobId)
    requires Held(s, limit) && s.missed && NotOvertaken(s, a, b)
    ensures NotOvertaken(DrainLoop(s, now, appends, limit), a, b)
    decreases |s.queue|
  {
    if s.queue != [] && |s.active| < limit {
      HeadHeld(s, now, limit);
      RoundKeepsPlace(s, now, true, limit, a, b);
      if !Lapsed(s.jobs[s.queue[0]], now) {
        LoopKeepsPlace(Drained(s, now, true), now, appends, limit, a, b);
      } else if appends == 0 {
        RoundKeepsPlace(s, now, false, limit, a, b);
      } else {
        LoopKeepsPlace(Drained(s, now, true), now, appends - 1, limit, a, b);
      }
    }
  }

  lemma StartKeepsPlace(s: State, id: JobId, required: bool, auditOk: bool, limit: nat, a: JobId, b: JobId)
    requires Held(s, limit) && id !in s.used && NotOvertaken(s, a, b)
    ensures NotOvertaken(Started(s, id, required, auditOk), a, b)
  {
    assert id !in s.queue by {
      assert Unfold(0);
      NewId(s, id);
    }
    if a in s.queue {
      AtTheEnd(s.queue, id, a, b);
    }
  }

  lemma PendingIsElsewhere(s: State, id: JobId, limit: nat)
    requires Held(s, limit) && CanApprove(s.jobs, id)
    ensures id !in s.queue && !Launched(s.launches, id) && !s.jobs[id].cancelRequested
  {
    assert Unfold(0);
    assert JobOk(s, id);
  }

  lemma ApprovalKeepsPlace(s: State, id: JobId, expires: int, auditOk: bool, limit: nat, a: JobId, b: JobId)
    requires Held(s, limit) && CanApprove(s.jobs, id) && NotOvertaken(s, a, b)
    ensures NotOvertaken(Granted(s, id, expires, auditOk), a, b)
    ensures NotOvertaken(Refused(s, id, auditOk), a, b)
  {
    PendingIsElsewhere(s, id, limit);
    if a in s.queue {
      AtTheEnd(s.queue, id, a, b);
    }
  }

  lemma Leaving(s: State, id: JobId, limit: nat, a: JobId, b: JobId)
    requires Held(s, limit) && id in s.jobs && NotOvertaken(s, a, b)
    ensures NotOvertaken(CancelRequested(s, id), a, b)
  {
    assert Distinct(s.queue) && (a in s.queue ==> a in s.jobs && !Terminal(s.jobs[a].state) && !Launched(s.launches, a)) by {
      assert Unfold(0);
      assert a in s.jobs ==> JobOk(s, a);
    }
    CancelIsPlain(s, id, limit);
    var t := CancelRequested(s, id);
    Remaining(s.queue, id, t.queue, a);
    Remaining(s.queue, id, t.queue, b);
    if id != a && id != b && Before(s.queue, a, b) {
      WithoutOne(s.queue, id, t.queue, a, b);
    }
  }

  lemma StepKeepsPlace(s: State, o: Occurrence, ttl: nat, limit: nat, a: JobId, b: JobId)
    requires Held(s, limit) && Possible(s, o) && NotOvertaken(s, a, b)
    ensures NotOvertaken(Next(s, o, ttl, limit), a, b)
  {
    if o.Drain? {
      DrainHeld(s, o.now, o.appends, limit);
      LoopKeepsPlace(s.(drainScheduled := false, missed := true), o.now, o.appends, limit, a, b);
    } else if o.Cancel? {
      Leaving(s, o.id, limit, a, b);
    } else if o.Start? {
      StartKeepsPlace(s, o.id, o.required, o.auditOk, limit, a, b);
    } else if o.Approve? || o.Reject? {
      ApprovalKeepsPlace(s, o.id, if o.Approve? then o.now + ttl else 0, o.auditOk, limit, a, b);
    }
  }

  lemma {:induction false} RunKeepsPlace(s: State, occurrences: seq<Occurrence>, ttl: nat, limit: nat, a: JobId, b: JobId)
    requires Held(s, limit) && Run(s, occurrences, ttl, limit) && NotOvertaken(s, a, b)
    ensures NotOvertaken(After(s, occurrences, ttl, limit), a, b)
    decreases |occurrences|
  {
    if occurrences != [] {
      NextKeeps(s, occurrences[0], ttl, limit);
      StepKeepsPlace(s, occurrences[0], ttl, limit, a, b);
      RunKeepsPlace(Next(s, occurrences[0], ttl, limit), occurrences[1..], ttl, limit, a, b);
    }
  }

  // ---------- Why a job leaves the queue without having run ----------

  /** It was cancelled, or its grant had expired when the queue was drained. */
  predicate GivenUp(s: State, occurrences: seq<Occurrence>, ttl: nat, limit: nat, id: JobId)
    requires Run(s, occurrences, ttl, limit)
    decreases |occurrences|
  {
    occurrences != [] &&
    (|| occurrences[0] == Cancel(id)
     || (occurrences[0].Drain? && id in s.jobs && Lapsed(s.jobs[id], occurrences[0].now))
     || GivenUp(Next(s, occurrences[0], ttl, limit), occurrences[1..], ttl, limit, id))
  }

  lemma {:induction false} RunnableHas(queue: seq<JobId>, jobs: map<JobId, Job>, now: int, id: JobId)
    requires id in queue && id in jobs && !Lapsed(jobs[id], now)
    ensures Launched(Runnable(queue, jobs, now), id)
  {
    var first: seq<Launch> := if queue[0] in jobs && !Lapsed(jobs[queue[0]], now)
      then [Launch(queue[0], jobs[queue[0]].required, jobs[queue[0]].approval, now)] else [];
    var rest := Runnable(queue[1..], jobs, now);
    if queue[0] == id {
      assert (first + rest)[0].id == id;
    } else {
      RunnableHas(queue[1..], jobs, now, id);
      var k :| 0 <= k < |rest| && rest[k].id == id;
      assert (first + rest)[|first| + k].id == id;
    }
  }

  lemma LaunchedAlong(launches: seq<Launch>, more: seq<Launch>, id: JobId)
    ensures Launched(launches, id) || Launched(more, id) ==> Launched(launches + more, id)
  {
    if Launched(launches, id) {
      var k :| 0 <= k < |launches| && launches[k].id == id;
      assert (launches + more)[k].id == id;
    } else if Launched(more, id) {
      var k :| 0 <= k < |more| && more[k].id == id;
      assert (launches + more)[|launches| + k].id == id;
    }
  }

  lemma DrainServesOrKeeps(s: State, now: int, appends: nat, limit: nat, id: JobId)
    requires Held(s, limit)
    ensures var t := DrainRun(s, now, appends, limit);
      && (Launched(s.launches, id) ==> Launched(t.launches, id))
      && (id in s.queue && id in s.jobs && !Lapsed(s.jobs[id], now) ==> id in t.queue || Launched(t.launches, id))
  {
    DrainTakes(s, now, appends, limit);
    var t := DrainRun(s, now, appends, limit);
    var n := |s.queue| - |t.queue|;
    LaunchedAlong(s.launches, Runnable(s.queue[..n], s.jobs, now), id);
    assert s.queue == s.queue[..n] + t.queue;
    if id in s.queue[..n] && id in s.jobs && !Lapsed(s.jobs[id], now) {
      RunnableHas(s.queue[..n], s.jobs, now, id);
    }
  }

  lemma StepServesOrKeeps(s: State, o: Occurrence, ttl: nat, limit: nat, id: JobId)
    requires Held(s, limit) && Possible(s, o)
    ensures var t := Next(s, o, ttl, limit);
      && (Launched(s.launches, id) ==> Launched(t.launches, id))
      && (id in s.queue && o != Cancel(id) && !(o.Drain? && id in s.jobs && Lapsed(s.jobs[id], o.now)) ==>
            id in t.queue || Launched(t.launches, id))
  {
    if o.Drain? {
      assert id in s.queue ==> id in s.jobs by {
        assert Unfold(0);
      }
      DrainServesOrKeeps(s, o.now, o.appends, limit, id);
    } else if o.Cancel? {
      assert Distinct(s.queue) by {
        assert Unfold(0);
      }
      CancelIsPlain(s, o.id, limit);
      Remaining(s.queue, o.id, CancelRequested(s, o.id).queue, id);
    }
  }

  lemma {:induction false} LeavesServed(s: State, occurrences: seq<Occurrence>, ttl: nat, limit: nat, id: JobId)
    requires Held(s, limit) && Run(s, occurrences, ttl, limit) && (id in s.queue || Launched(s.launches, id))
    ensures var t := After(s, occurrences, ttl, limit);
      id in t.queue || Launched(t.launches, id) || GivenUp(s, occurrences, ttl, limit, id)
    decreases |occurrences|
  {
    if occurrences != [] {
      var t := Next(s, occurrences[0], ttl, limit);
      NextKeeps(s, occurrences[0], ttl, limit);
      StepServesOrKeeps(s, occurrences[0], ttl, limit, id);
      if id in t.queue || Launched(t.launches, id) {
        LeavesServed(t, occurrences[1..], ttl, limit, id);
      }
    }
  }

  /**
   * First come, first served. From a moment on at which `a` waits in the queue and `b` is behind it
   * or not in it yet: `b` is never launched while `a` waits, stays behind it, and is launched after
   * it unless `a` was cancelled or its grant had expired.
   */
  lemma FirstComeFirstServed(s: State, occurrences: seq<Occurrence>, ttl: nat, limit: nat, a: JobId, b: JobId)
    requires Held(s, limit) && Run(s, occurrences, ttl, limit)
    requires a in s.queue && a != b && (b in s.queue ==> Before(s.queue, a, b)) && !Launched(s.launches, b)
    ensures var t := After(s, occurrences, ttl, limit);
      && (a in t.queue ==> !Launched(t.launches, b) && (b in t.queue ==> Before(t.queue, a, b)))
      && (Launched(t.launches, b) ==> LaunchedBefore(t.launches, a, b) || GivenUp(s, occurrences, ttl, limit, a))
  {
    assert a in s.used by {
      assert Unfold(0);
      assert JobOk(s, a);
    }
    RunKeepsPlace(s, occurrences, ttl, limit, a, b);
    LeavesServed(s, occurrences, ttl, limit, a);
  }
}
