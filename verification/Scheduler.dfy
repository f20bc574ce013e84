/**
 * Queue and approvals of the coordinator (LifecycleManager.ts `start`, `approve`,
 * `rejectApproval`, `cancel`, `drain`, `run`, `finish`). Every method is one event; the audit
 * log's `append` may throw at each place where it is called.
 */
module Scheduler {
  import opened Wrappers
  import opened EventLog

  type JobId = string

  datatype Phase = AwaitingApproval | InLine | Executing | Reconnecting | Cancelling | Finished

  datatype Approval = NotRequired | Pending | Approved(expires: int) | Rejected | Expired

  datatype Job = Job(state: Status, phase: Phase, required: bool, approval: Approval, cancelRequested: bool)

  /** Where a job is. `Stranded` means that an audit append failed half way through a transition. */
  datatype Place = Awaiting | Queueing | Active | Recovering | Stranded | Ended

  /** A call of `run`. */
  datatype Launch = Launch(id: JobId, required: bool, approval: Approval, at: int)

  predicate Permitted(launch: Launch) {
    launch.required ==> launch.approval.Approved? && launch.at < launch.approval.expires
  }

  /** The fields of a job, and the collections it is in, fit its place. */
  predicate Placed(job: Job, place: Place, inQueue: bool, hasInput: bool, hasContext: bool, isActive: bool) {
    && (job.required <==> !job.approval.NotRequired?)
    && (job.phase == AwaitingApproval && job.approval.Pending? ==> place.Awaiting?)
    && (Terminal(job.state) <==> place.Ended?)
    && (inQueue <==> place.Queueing?)
    && (isActive ==> place.Active? || place.Ended?)
    && (hasInput ==> place.Awaiting? || place.Queueing? || place.Stranded?)
    && match place
       case Awaiting => job.state == Queued && job.phase == AwaitingApproval && job.approval.Pending? && hasInput && hasContext
                        && !job.cancelRequested
       case Queueing => job.state == Queued && hasInput && !job.cancelRequested && job.phase == InLine
                        && (job.approval.NotRequired? || job.approval.Approved?)
       case Active => job.state == Running && isActive
       case Recovering => job.state == Running
       case Stranded => job.state == Queued
       case Ended => true
  }

  predicate Distinct(queue: seq<JobId>) {
    forall i, j :: 0 <= i < j < |queue| ==> queue[i] != queue[j]
  }

  lemma AppendAt(queue: seq<JobId>, id: JobId)
    requires Distinct(queue) && id !in queue
    ensures Distinct(queue + [id])
  {
  }

  predicate LaunchedOnce(launches: seq<Launch>) {
    forall i, j :: 0 <= i < j < |launches| ==> launches[i].id != launches[j].id
  }

  predicate Launched(launches: seq<Launch>, id: JobId) {
    exists i :: 0 <= i < |launches| && launches[i].id == id
  }

  // ---------- The coordinator's state ----------

  /** Its collections and the drain flag; and after them what happened so far. */
  datatype State = State(jobs: map<JobId, Job>, queue: seq<JobId>, inputs: set<JobId>, contexts: set<JobId>,
                         active: set<JobId>, drainScheduled: bool,
                         place: map<JobId, Place>, recovered: set<JobId>, used: set<JobId>,
                         launches: seq<Launch>, missed: bool)

  predicate JobOk(s: State, id: JobId)
    requires id in s.jobs
  {
    && id in s.place && id in s.used
    && Placed(s.jobs[id], s.place[id], id in s.queue, id in s.inputs, id in s.contexts, id in s.active)
    && (Launched(s.launches, id) ==> s.place[id].Active? || s.place[id].Ended?)
    && (s.place[id].Recovering? ==> id in s.recovered)
  }

  predicate JobsOk(s: State) {
    forall id :: id in s.jobs ==> JobOk(s, id)
  }

  predicate LaunchesOk(launches: seq<Launch>, used: set<JobId>) {
    && LaunchedOnce(launches)
    && forall i :: 0 <= i < |launches| ==> Permitted(launches[i]) && launches[i].id in used
  }

  predicate Known(s: State) {
    && Distinct(s.queue) && (forall id :: id in s.queue ==> id in s.jobs)
    && s.inputs <= s.jobs.Keys && s.active <= s.used && s.recovered <= s.used
  }

  /**
   * `missed` tells that an exception kept a drain from being scheduled and none was scheduled
   * since.
   */
  predicate Draining(s: State, limit: nat) {
    s.queue != [] && |s.active| < limit ==> s.drainScheduled || s.missed
  }

  predicate Inv(s: State, limit: nat) {
    JobsOk(s) && LaunchesOk(s.launches, s.used) && Known(s) && |s.active - s.recovered| <= limit && Draining(s, limit)
  }

  predicate Unaffected(s: State, t: State, other: JobId) {
    && (other in t.jobs ==> other in s.jobs && t.jobs[other] == s.jobs[other])
    && (other in s.place ==> other in t.place && t.place[other] == s.place[other])
    && (other in t.queue <==> other in s.queue) && (other in t.inputs <==> other in s.inputs)
    && (other in t.contexts <==> other in s.contexts) && (other in t.active <==> other in s.active)
    && (Launched(t.launches, other) ==> Launched(s.launches, other))
  }

  /** Nothing changed but for one job. */
  ghost predicate Elsewhere(s: State, t: State, id: JobId) {
    s.used <= t.used && s.recovered == t.recovered && forall other :: other != id ==> Unaffected(s, t, other)
  }

  lemma OneJobChanged(s: State, t: State, id: JobId)
    requires JobsOk(s) && Elsewhere(s, t, id) && (id in t.jobs ==> JobOk(t, id))
    ensures JobsOk(t)
  {
    forall other | other in t.jobs ensures JobOk(t, other) {
      if other != id {
        assert Unaffected(s, t, other);
        assert JobOk(s, other);
      }
    }
  }

  // ---------- The events ----------

  function Scheduled(s: State): State {
    s.(drainScheduled := true, missed := false)
  }

  /** `start`, from the point where the record is stored. */
  function Started(s: State, id: JobId, required: bool, auditOk: bool): State {
    var job := Job(Queued, if required then AwaitingApproval else InLine, required,
                   if required then Pending else NotRequired, false);
    var t := s.(jobs := s.jobs[id := job], inputs := s.inputs + {id}, used := s.used + {id},
                contexts := if required then s.contexts + {id} else s.contexts);
    if required then t.(place := s.place[id := Awaiting])
    else if auditOk then Scheduled(t.(place := s.place[id := Queueing], queue := s.queue + [id]))
    else t.(place := s.place[id := Stranded])
  }

  predicate CanApprove(jobs: map<JobId, Job>, id: JobId) {
    id in jobs && jobs[id].phase == AwaitingApproval && jobs[id].approval.Pending?
  }

  function Granted(s: State, id: JobId, expires: int, auditOk: bool): State
    requires CanApprove(s.jobs, id)
  {
    var t := s.(jobs := s.jobs[id := s.jobs[id].(phase := InLine, approval := Approved(expires))],
                place := s.place[id := Queueing], queue := s.queue + [id]);
    if auditOk then Scheduled(t.(contexts := s.contexts - {id})) else t.(missed := true)
  }

  function Finalized(s: State, id: JobId, state: Status): State
    requires id in s.jobs
  {
    if Terminal(s.jobs[id].state) then s
    else s.(jobs := s.jobs[id := s.jobs[id].(state := state, phase := Finished)],
            place := s.place[id := Ended], contexts := s.contexts - {id})
  }

  function Refused(s: State, id: JobId, auditOk: bool): State
    requires CanApprove(s.jobs, id)
  {
    var t := s.(jobs := s.jobs[id := s.jobs[id].(approval := Rejected)], inputs := s.inputs - {id},
                place := s.place[id := Stranded]);
    if auditOk then Finalized(t, id, Cancelled) else t
  }

  function Dequeued(queue: seq<JobId>, id: JobId): seq<JobId> {
    if queue == [] then []
    else if queue[0] == id then queue[1..]
    else [queue[0]] + Dequeued(queue[1..], id)
  }

  function CancelRequested(s: State, id: JobId): State
    requires id in s.jobs
  {
    var job := s.jobs[id];
    var t := s.(jobs := s.jobs[id := job.(cancelRequested := true, phase := Cancelling)]);
    if Terminal(job.state) then s
    else if job.state == Queued then
      Finalized(t.(queue := Dequeued(s.queue, id), inputs := s.inputs - {id}, place := s.place[id := Stranded]), id, Cancelled)
    else t
  }

  predicate Lapsed(job: Job, now: int) {
    job.approval.Approved? && job.approval.expires <= now
  }

  /** What `drain` does with the first job in the queue. */
  function Drained(s: State, now: int, auditOk: bool): State
    requires s.queue != [] && s.queue[0] in s.jobs
  {
    var id, job := s.queue[0], s.jobs[s.queue[0]];
    var t := s.(queue := s.queue[1..]);
    if id !in s.inputs || job.cancelRequested then t
    else if Lapsed(job, now) then
      var e := t.(jobs := s.jobs[id := job.(approval := Expired)], inputs := s.inputs - {id}, place := s.place[id := Stranded]);
      if auditOk then Finalized(e, id, Failed) else e.(missed := true)
    else
      t.(jobs := s.jobs[id := job.(state := Running, phase := Executing)], inputs := s.inputs - {id},
         active := s.active + {id}, place := s.place[id := Active],
         launches := s.launches + [Launch(id, job.required, job.approval, now)])
  }

  /** The loop of `drain`; the audit append number `appends`, counted from zero, throws. */
  function DrainLoop(s: State, now: int, appends: nat, limit: nat): State
    decreases |s.queue|
  {
    if s.queue == [] || |s.active| >= limit || s.queue[0] !in s.jobs then s.(missed := false)
    else if !Lapsed(s.jobs[s.queue[0]], now) then DrainLoop(Drained(s, now, true), now, appends, limit)
    else if appends == 0 then Drained(s, now, false)
    else DrainLoop(Drained(s, now, true), now, appends - 1, limit)
  }

  /** The callback of `scheduleDrain`. */
  function DrainRun(s: State, now: int, appends: nat, limit: nat): State {
    DrainLoop(s.(drainScheduled := false, missed := true), now, appends, limit)
  }

  function RecoveryBegun(s: State, id: JobId): State {
    s.(active := s.active + {id}, place := s.place[id := Active])
  }

  function Settled(s: State, id: JobId): State {
    Scheduled(s.(active := s.active - {id}))
  }

  function Pruned(s: State, id: JobId): State {
    s.(jobs := s.jobs - {id}, inputs := s.inputs - {id})
  }

  // ---------- Every event keeps the invariant ----------

  lemma NewId(s: State, id: JobId)
    requires JobsOk(s) && LaunchesOk(s.launches, s.used) && Known(s) && id !in s.used
    ensures id !in s.jobs && id !in s.queue && id !in s.inputs && id !in s.active && !Launched(s.launches, id)
  {
    assert id in s.jobs ==> JobOk(s, id);
  }

  lemma QueuedKeeps(s: State, id: JobId, limit: nat)
    requires Inv(s, limit) && id !in s.used
    ensures Inv(Started(s, id, false, true), limit)
  {
    NewId(s, id);
    AppendAt(s.queue, id);
    OneJobChanged(s, Started(s, id, false, true), id);
  }

  lemma ParkedKeeps(s: State, id: JobId, required: bool, auditOk: bool, limit: nat)
    requires Inv(s, limit) && id !in s.used && (required || !auditOk)
    ensures Inv(Started(s, id, required, auditOk), limit)
  {
    NewId(s, id);
    var t := Started(s, id, required, auditOk);
    assert t.queue == s.queue && t.active == s.active && t.drainScheduled == s.drainScheduled && t.missed == s.missed;
    OneJobChanged(s, t, id);
  }

  lemma StartedKeeps(s: State, id: JobId, required: bool, auditOk: bool, limit: nat)
    requires Inv(s, limit) && id !in s.used
    ensures Inv(Started(s, id, required, auditOk), limit)
  {
    if required || !auditOk {
      ParkedKeeps(s, id, required, auditOk, limit);
    } else {
      QueuedKeeps(s, id, limit);
    }
  }

  lemma GrantedKeeps(s: State, id: JobId, expires: int, auditOk: bool, limit: nat)
    requires Inv(s, limit) && CanApprove(s.jobs, id)
    ensures s.place[id].Awaiting? && id in s.inputs && id in s.contexts
    ensures Inv(Granted(s, id, expires, auditOk), limit)
  {
    assert JobOk(s, id);
    AppendAt(s.queue, id);
    OneJobChanged(s, Granted(s, id, expires, auditOk), id);
  }

  lemma FinalizedKeeps(s: State, id: JobId, state: Status, limit: nat)
    requires Inv(s, limit) && id in s.jobs && id !in s.queue && id !in s.inputs && Terminal(state)
    ensures Inv(Finalized(s, id, state), limit)
  {
    assert JobOk(s, id);
    OneJobChanged(s, Finalized(s, id, state), id);
  }

  lemma RefusedKeeps(s: State, id: JobId, auditOk: bool, limit: nat)
    requires Inv(s, limit) && CanApprove(s.jobs, id)
    ensures Inv(Refused(s, id, auditOk), limit)
  {
    assert JobOk(s, id);
    var t := Refused(s, id, false);
    OneJobChanged(s, t, id);
    if auditOk {
      FinalizedKeeps(t, id, Cancelled, limit);
    }
  }

  lemma {:induction false} DequeuedIs(queue: seq<JobId>, id: JobId)
    requires Distinct(queue)
    ensures var rest := Dequeued(queue, id);
      Distinct(rest) && |rest| <= |queue| && forall other :: other in rest <==> other in queue && other != id
  {
    if queue != [] {
      var rest := Dequeued(queue[1..], id);
      assert queue == [queue[0]] + queue[1..];
      DequeuedIs(queue[1..], id);
      forall i | 0 <= i < |rest| ensures rest[i] != queue[0] {
        assert rest[i] in queue[1..];
      }
    }
  }

  lemma CancelRequestedKeeps(s: State, id: JobId, limit: nat)
    requires Inv(s, limit) && id in s.jobs
    ensures Inv(CancelRequested(s, id), limit)
  {
    assert JobOk(s, id);
    var job := s.jobs[id];
    if job.state == Queued {
      DequeuedIs(s.queue, id);
      var t := s.(jobs := s.jobs[id := job.(cancelRequested := true, phase := Cancelling)],
                  queue := Dequeued(s.queue, id), inputs := s.inputs - {id}, place := s.place[id := Stranded]);
      OneJobChanged(s, t, id);
      FinalizedKeeps(t, id, Cancelled, limit);
    } else if job.state == Running {
      OneJobChanged(s, CancelRequested(s, id), id);
    }
  }

  lemma RestOfQueue(queue: seq<JobId>)
    requires Distinct(queue) && queue != []
    ensures Distinct(queue[1..]) && forall id :: id in queue[1..] <==> id in queue && id != queue[0]
  {
    assert queue == [queue[0]] + queue[1..];
  }

  /** What is in the queue can be run: the guard of `drain` never skips anything. */
  lemma HeadIsReady(s: State, limit: nat)
    requires Inv(s, limit) && s.queue != []
    ensures var id := s.queue[0];
      id in s.jobs && id in s.inputs && !s.jobs[id].cancelRequested && s.jobs[id].state == Queued && id !in s.active
      && s.place[id].Queueing? && (s.jobs[id].approval.NotRequired? || s.jobs[id].approval.Approved?)
      && !Launched(s.launches, id)
  {
    assert JobOk(s, s.queue[0]);
  }

  lemma LaunchAppended(launches: seq<Launch>, used: set<JobId>, launch: Launch)
    requires LaunchesOk(launches, used) && Permitted(launch) && launch.id in used && !Launched(launches, launch.id)
    ensures LaunchesOk(launches + [launch], used)
    ensures forall id :: Launched(launches + [launch], id) <==> Launched(launches, id) || id == launch.id
  {
    var longer := launches + [launch];
    forall id ensures Launched(longer, id) <==> Launched(launches, id) || id == launch.id {
      if Launched(launches, id) {
        var i :| 0 <= i < |launches| && launches[i].id == id;
        assert longer[i].id == id;
      }
      assert longer[|launches|].id == launch.id;
    }
    forall i | 0 <= i < |launches| ensures launches[i].id != launch.id {
    }
  }

  lemma OneMoreActive(active: set<JobId>, recovered: set<JobId>, id: JobId, limit: nat)
    requires |active| < limit
    ensures |active + {id} - recovered| <= limit
  {
    Smaller(active + {id} - recovered, active + {id});
  }

  lemma Smaller(a: set<JobId>, b: set<JobId>)
    requires a <= b
    ensures |a| <= |b|
  {
    if a != {} {
      var x :| x in a;
      Smaller(a - {x}, b - {x});
    }
  }

  lemma LapsedKeeps(s: State, now: int, auditOk: bool, limit: nat)
    requires Inv(s, limit) && s.missed && s.queue != []
    requires s.queue[0] in s.jobs && Lapsed(s.jobs[s.queue[0]], now)
    ensures Inv(Drained(s, now, auditOk), limit)
  {
    HeadIsReady(s, limit);
    RestOfQueue(s.queue);
    var e := Drained(s, now, false);
    OneJobChanged(s, e, s.queue[0]);
    if auditOk {
      FinalizedKeeps(e, s.queue[0], Failed, limit);
    }
  }

  lemma LaunchedKeeps(s: State, now: int, limit: nat)
    requires Inv(s, limit) && s.missed && s.queue != [] && |s.active| < limit
    requires s.queue[0] in s.jobs && !Lapsed(s.jobs[s.queue[0]], now)
    ensures Inv(Drained(s, now, true), limit)
  {
    HeadIsReady(s, limit);
    RestOfQueue(s.queue);
    var id, job := s.queue[0], s.jobs[s.queue[0]];
    var t := Drained(s, now, true);
    assert JobOk(s, id);
    LaunchAppended(s.launches, s.used, Launch(id, job.required, job.approval, now));
    OneMoreActive(s.active, s.recovered, id, limit);
    OneJobChanged(s, t, id);
  }

  /** `drain` runs only while a slot is free. */
  lemma DrainedKeeps(s: State, now: int, auditOk: bool, limit: nat)
    requires Inv(s, limit) && s.missed && s.queue != [] && |s.active| < limit
    ensures s.queue[0] in s.jobs && Inv(Drained(s, now, auditOk), limit) && Drained(s, now, auditOk).missed
  {
    HeadIsReady(s, limit);
    if Lapsed(s.jobs[s.queue[0]], now) {
      LapsedKeeps(s, now, auditOk, limit);
    } else {
      LaunchedKeeps(s, now, limit);
      assert Drained(s, now, auditOk) == Drained(s, now, true);
    }
  }

  lemma RecoveryBegunKeeps(s: State, id: JobId, limit: nat)
    requires Inv(s, limit) && id in s.jobs && s.place[id].Recovering?
    ensures Inv(RecoveryBegun(s, id), limit)
  {
    assert JobOk(s, id);
    assert s.active + {id} - s.recovered == s.active - s.recovered;
    Smaller(s.active, s.active + {id});
    OneJobChanged(s, RecoveryBegun(s, id), id);
  }

  lemma CompletedKeeps(s: State, id: JobId, state: Status, limit: nat)
    requires Inv(s, limit) && id in s.jobs && id in s.active && Terminal(state)
    ensures Inv(Finalized(s, id, state), limit)
  {
    assert JobOk(s, id);
    FinalizedKeeps(s, id, state, limit);
  }

  lemma SettledKeeps(s: State, id: JobId, limit: nat)
    requires Inv(s, limit) && (id in s.jobs ==> Terminal(s.jobs[id].state))
    ensures Inv(Settled(s, id), limit)
  {
    assert id in s.jobs ==> JobOk(s, id);
    Smaller(s.active - {id} - s.recovered, s.active - s.recovered);
    OneJobChanged(s, Settled(s, id), id);
  }

  lemma PrunedKeeps(s: State, id: JobId, limit: nat)
    requires Inv(s, limit) && id in s.jobs && Terminal(s.jobs[id].state)
    ensures Inv(Pruned(s, id), limit)
  {
    assert JobOk(s, id);
    OneJobChanged(s, Pruned(s, id), id);
  }

  lemma {:induction false} DrainLoopKeeps(s: State, now: int, appends: nat, limit: nat)
    requires Inv(s, limit) && s.missed
    ensures Inv(DrainLoop(s, now, appends, limit), limit)
    decreases |s.queue|
  {
    if s.queue != [] && |s.active| < limit {
      HeadIsReady(s, limit);
      if !Lapsed(s.jobs[s.queue[0]], now) {
        DrainedKeeps(s, now, true, limit);
        DrainLoopKeeps(Drained(s, now, true), now, appends, limit);
      } else if appends == 0 {
        DrainedKeeps(s, now, false, limit);
      } else {
        DrainedKeeps(s, now, true, limit);
        DrainLoopKeeps(Drained(s, now, true), now, appends - 1, limit);
      }
    }
  }

  lemma DrainRunKeeps(s: State, now: int, appends: nat, limit: nat)
    requires Inv(s, limit)
    ensures Inv(DrainRun(s, now, appends, limit), limit)
  {
    var t := s.(drainScheduled := false, missed := true);
    forall id | id in t.jobs ensures JobOk(t, id) {
      assert JobOk(s, id);
    }
    DrainLoopKeeps(t, now, appends, limit);
  }

  /** The invariant, folded. */
  ghost predicate Held(s: State, limit: nat) {
    forall token: nat :: Unfold(token) ==> Inv(s, limit)
  }

  lemma StartedHeld(s: State, id: JobId, required: bool, auditOk: bool, limit: nat)
    requires Held(s, limit) && id !in s.used
    ensures Held(Started(s, id, required, auditOk), limit)
  {
    assert Unfold(0);
    StartedKeeps(s, id, required, auditOk, limit);
  }

  lemma GrantedHeld(s: State, id: JobId, expires: int, auditOk: bool, limit: nat)
    requires Held(s, limit) && CanApprove(s.jobs, id)
    ensures Held(Granted(s, id, expires, auditOk), limit)
  {
    assert Unfold(0);
    GrantedKeeps(s, id, expires, auditOk, limit);
  }

  lemma RefusedHeld(s: State, id: JobId, auditOk: bool, limit: nat)
    requires Held(s, limit) && CanApprove(s.jobs, id)
    ensures Held(Refused(s, id, auditOk), limit)
  {
    assert Unfold(0);
    RefusedKeeps(s, id, auditOk, limit);
  }

  lemma CancelHeld(s: State, id: JobId, limit: nat)
    requires Held(s, limit) && id in s.jobs
    ensures Held(CancelRequested(s, id), limit)
  {
    assert Unfold(0);
    CancelRequestedKeeps(s, id, limit);
  }

  lemma DrainHeld(s: State, now: int, appends: nat, limit: nat)
    requires Held(s, limit)
    ensures Held(DrainRun(s, now, appends, limit), limit)
    ensures Held(s.(drainScheduled := false, missed := true), limit)
  {
    assert Unfold(0);
    DrainRunKeeps(s, now, appends, limit);
    var t := s.(drainScheduled := false, missed := true);
    forall id | id in t.jobs ensures JobOk(t, id) {
      assert JobOk(s, id);
    }
  }

  lemma SettledHeld(s: State, id: JobId, limit: nat)
    requires Held(s, limit) && (id in s.jobs ==> Terminal(s.jobs[id].state))
    ensures Held(Settled(s, id), limit)
  {
    assert Unfold(0);
    SettledKeeps(s, id, limit);
  }

  lemma BeganHeld(s: State, id: JobId, limit: nat)
    requires Held(s, limit) && id in s.jobs && id in s.place && s.place[id].Recovering?
    ensures Held(RecoveryBegun(s, id), limit)
  {
    assert Unfold(0);
    RecoveryBegunKeeps(s, id, limit);
  }

  lemma CompletedHeld(s: State, id: JobId, state: Status, limit: nat)
    requires Held(s, limit) && id in s.jobs && id in s.active && Terminal(state)
    ensures Held(Finalized(s, id, state), limit)
  {
    assert Unfold(0);
    CompletedKeeps(s, id, state, limit);
  }

  lemma PrunedHeld(s: State, id: JobId, limit: nat)
    requires Held(s, limit) && id in s.jobs && Terminal(s.jobs[id].state)
    ensures Held(Pruned(s, id), limit)
  {
    assert Unfold(0);
    PrunedKeeps(s, id, limit);
  }

  // ---------- Runs ----------

  datatype Occurrence =
    | Start(id: JobId, required: bool, auditOk: bool)
    | Approve(id: JobId, now: int, auditOk: bool)
    | Reject(id: JobId, auditOk: bool)
    | Cancel(id: JobId)
    | Drain(now: int, appends: nat)
    | BeginRecovery(id: JobId)
    | Complete(id: JobId, state: Status)
    | Settle(id: JobId)
    | Prune(id: JobId)

  predicate Possible(s: State, o: Occurrence) {
    match o
    case Start(id, _, _) => id !in s.used
    case Approve(id, _, _) => CanApprove(s.jobs, id)
    case Reject(id, _) => CanApprove(s.jobs, id)
    case Cancel(id) => id in s.jobs
    case Drain(_, _) => s.drainScheduled
    case BeginRecovery(id) => id in s.jobs && id in s.place && s.place[id].Recovering?
    case Complete(id, state) => id in s.jobs && id in s.active && Terminal(state)
    case Settle(id) => id in s.active && (id in s.jobs ==> Terminal(s.jobs[id].state))
    case Prune(id) => id in s.jobs && Terminal(s.jobs[id].state)
  }

  function Next(s: State, o: Occurrence, ttl: nat, limit: nat): State
    requires Possible(s, o)
  {
    match o
    case Start(id, required, auditOk) => Started(s, id, required, auditOk)
    case Approve(id, now, auditOk) => Granted(s, id, now + ttl, auditOk)
    case Reject(id, auditOk) => Refused(s, id, auditOk)
    case Cancel(id) => CancelRequested(s, id)
    case Drain(now, appends) => DrainRun(s, now, appends, limit)
    case BeginRecovery(id) => RecoveryBegun(s, id)
    case Complete(id, state) => Finalized(s, id, state)
    case Settle(id) => Settled(s, id)
    case Prune(id) => Pruned(s, id)
  }

  predicate IsRequest(o: Occurrence) {
    o.Start? || o.Approve? || o.Reject? || o.Cancel?
  }

  lemma RequestKeeps(s: State, o: Occurrence, ttl: nat, limit: nat, t: State)
    requires Held(s, limit) && Possible(s, o) && IsRequest(o) && t == Next(s, o, ttl, limit)
    ensures Held(t, limit)
  {
    match o
    case Start(id, required, auditOk) =>
      assert t == Started(s, id, required, auditOk);
      StartedHeld(s, id, required, auditOk, limit);
    case Approve(id, now, auditOk) =>
      assert t == Granted(s, id, now + ttl, auditOk);
      GrantedHeld(s, id, now + ttl, auditOk, limit);
    case Reject(id, auditOk) =>
      assert t == Refused(s, id, auditOk);
      RefusedHeld(s, id, auditOk, limit);
    case Cancel(id) =>
      assert t == CancelRequested(s, id);
      CancelHeld(s, id, limit);
  }

  lemma ProgressKeeps(s: State, o: Occurrence, ttl: nat, limit: nat, t: State)
    requires Held(s, limit) && Possible(s, o) && !IsRequest(o) && t == Next(s, o, ttl, limit)
    ensures Held(t, limit)
  {
    match o
    case Drain(now, appends) =>
      assert t == DrainRun(s, now, appends, limit);
      DrainHeld(s, now, appends, limit);
    case BeginRecovery(id) =>
      assert t == RecoveryBegun(s, id);
      BeganHeld(s, id, limit);
    case Complete(id, state) =>
      assert t == Finalized(s, id, state);
      CompletedHeld(s, id, state, limit);
    case Settle(id) =>
      assert t == Settled(s, id);
      SettledHeld(s, id, limit);
    case Prune(id) =>
      assert t == Pruned(s, id);
      PrunedHeld(s, id, limit);
  }

  /** Every event keeps the invariant. */
  lemma NextKeeps(s: State, o: Occurrence, ttl: nat, limit: nat)
    requires Held(s, limit) && Possible(s, o)
    ensures Held(Next(s, o, ttl, limit), limit)
  {
    if IsRequest(o) {
      RequestKeeps(s, o, ttl, limit, Next(s, o, ttl, limit));
    } else {
      ProgressKeeps(s, o, ttl, limit, Next(s, o, ttl, limit));
    }
  }

  predicate Run(s: State, occurrences: seq<Occurrence>, ttl: nat, limit: nat)
    decreases |occurrences|
  {
    occurrences == [] ||
    (Possible(s, occurrences[0]) && Run(Next(s, occurrences[0], ttl, limit), occurrences[1..], ttl, limit))
  }

  function After(s: State, occurrences: seq<Occurrence>, ttl: nat, limit: nat): State
    requires Run(s, occurrences, ttl, limit)
    decreases |occurrences|
  {
    if occurrences == [] then s else After(Next(s, occurrences[0], ttl, limit), occurrences[1..], ttl, limit)
  }

  lemma {:induction false} RunKeeps(s: State, occurrences: seq<Occurrence>, ttl: nat, limit: nat)
    requires Held(s, limit) && Run(s, occurrences, ttl, limit)
    ensures Held(After(s, occurrences, ttl, limit), limit)
    decreases |occurrences|
  {
    if occurrences != [] {
      NextKeeps(s, occurrences[0], ttl, limit);
      RunKeeps(Next(s, occurrences[0], ttl, limit), occurrences[1..], ttl, limit);
    }
  }

  /** After a restart: running Runner jobs are taken over, the others are lost. */
  function Restored(recoverable: set<JobId>, lost: set<JobId>): State {
    State(map id | id in recoverable + lost ::
            if id in recoverable then Job(Running, Reconnecting, false, NotRequired, false)
            else Job(Lost, Finished, false, NotRequired, false),
          [], {}, {}, {}, false,
          map id | id in recoverable + lost :: if id in recoverable then Recovering else Ended,
          recoverable, recoverable + lost, [], false)
  }

  function Count(a: bool, b: bool, c: bool, d: bool): nat {
    (if a then 1 else 0) + (if b then 1 else 0) + (if c then 1 else 0) + (if d then 1 else 0)
  }

  predicate AwaitsApproval(s: State, id: JobId) {
    CanApprove(s.jobs, id) && id in s.inputs && id in s.contexts
  }

  predicate IsStranded(s: State, id: JobId) {
    id in s.place && s.place[id].Stranded?
  }

  /**
   * In every run, a job that has not ended and was not taken over is in exactly one place, and
   * in the queue at most once; active jobs stay within the limit plus those taken over.
   */
  lemma JobsAreConserved(recoverable: set<JobId>, lost: set<JobId>, occurrences: seq<Occurrence>, ttl: nat, limit: nat, id: JobId)
    requires recoverable !! lost && limit >= 1 && Run(Restored(recoverable, lost), occurrences, ttl, limit)
    ensures var s := After(Restored(recoverable, lost), occurrences, ttl, limit);
      && (id in s.jobs && !Terminal(s.jobs[id].state) && id !in recoverable ==>
            Count(AwaitsApproval(s, id), id in s.queue, id in s.active, IsStranded(s, id)) == 1)
      && (id in s.jobs && Terminal(s.jobs[id].state) ==> !AwaitsApproval(s, id) && id !in s.queue && id !in s.inputs)
      && Distinct(s.queue) && |s.active| <= limit + |recoverable|
      && (s.queue != [] && |s.active| < limit ==> s.drainScheduled || s.missed)
  {
    var s := After(Restored(recoverable, lost), occurrences, ttl, limit);
    RestoredIsFine(recoverable, lost, limit);
    RunKeeps(Restored(recoverable, lost), occurrences, ttl, limit);
    RecoveredStay(Restored(recoverable, lost), occurrences, ttl, limit);
    assert Unfold(0);
    if id in s.jobs {
      assert JobOk(s, id);
    }
    SplitCount(s.active, s.recovered);
  }

  lemma SplitCount(active: set<JobId>, recovered: set<JobId>)
    ensures |active| <= |active - recovered| + |recovered|
  {
    Smaller(active, (active - recovered) + recovered);
  }

  lemma RestoredIsFine(recoverable: set<JobId>, lost: set<JobId>, limit: nat)
    requires recoverable !! lost
    ensures Held(Restored(recoverable, lost), limit)
  {
    var s := Restored(recoverable, lost);
    forall id | id in s.jobs ensures JobOk(s, id) {
    }
  }

  lemma DrainedFrame(s: State, now: int, auditOk: bool)
    requires s.queue != [] && s.queue[0] in s.jobs
    ensures var t := Drained(s, now, auditOk); t.recovered == s.recovered && |t.queue| < |s.queue|
  {
  }

  lemma {:induction false} DrainLoopFrame(s: State, now: int, appends: nat, limit: nat)
    ensures DrainLoop(s, now, appends, limit).recovered == s.recovered
    decreases |s.queue|
  {
    if s.queue != [] && |s.active| < limit && s.queue[0] in s.jobs {
      DrainedFrame(s, now, true);
      DrainedFrame(s, now, false);
      var t := Drained(s, now, true);
      if !Lapsed(s.jobs[s.queue[0]], now) {
        DrainLoopFrame(t, now, appends, limit);
      } else if appends > 0 {
        DrainLoopFrame(t, now, appends - 1, limit);
      }
    }
  }

  lemma {:induction false} RecoveredStay(s: State, occurrences: seq<Occurrence>, ttl: nat, limit: nat)
    requires Run(s, occurrences, ttl, limit)
    ensures After(s, occurrences, ttl, limit).recovered == s.recovered
    decreases |occurrences|
  {
    if occurrences != [] {
      if occurrences[0].Drain? {
        DrainLoopFrame(s.(drainScheduled := false, missed := true), occurrences[0].now, occurrences[0].appends, limit);
      }
      RecoveredStay(Next(s, occurrences[0], ttl, limit), occurrences[1..], ttl, limit);
    }
  }

  /**
   * In every run, each job is run at most once, and only if the policy did not require an
   * approval or it was granted and had not expired.
   */
  lemma EachJobRunsOnce(recoverable: set<JobId>, lost: set<JobId>, occurrences: seq<Occurrence>, ttl: nat, limit: nat,
                        i: nat, j: nat)
    requires recoverable !! lost && limit >= 1 && Run(Restored(recoverable, lost), occurrences, ttl, limit)
    requires var s := After(Restored(recoverable, lost), occurrences, ttl, limit); i < |s.launches| && j < |s.launches|
    ensures var s := After(Restored(recoverable, lost), occurrences, ttl, limit);
      && (s.launches[i].id == s.launches[j].id ==> i == j)
      && (s.launches[i].required ==> s.launches[i].approval.Approved? && s.launches[i].at < s.launches[i].approval.expires)
  {
    RestoredIsFine(recoverable, lost, limit);
    RunKeeps(Restored(recoverable, lost), occurrences, ttl, limit);
    assert Unfold(0);
  }

  // ---------- What an audit append that throws does ----------

  /** No job is stranded, and no wake-up of `drain` got lost. */
  predicate Healthy(s: State) {
    !s.missed && forall id :: id in s.place ==> !s.place[id].Stranded?
  }

  /** How many lapsed grants `drain` comes to before the free slots are taken; each needs an audit record. */
  function LapsedReached(queue: seq<JobId>, jobs: map<JobId, Job>, now: int, free: int): nat {
    if queue == [] || free <= 0 || queue[0] !in jobs then 0
    else if Lapsed(jobs[queue[0]], now) then 1 + LapsedReached(queue[1..], jobs, now, free)
    else LapsedReached(queue[1..], jobs, now, free - 1)
  }

  /** The audit appends of the event succeed, as far as anything depends on them. */
  predicate Fine(s: State, o: Occurrence, limit: nat) {
    match o
    case Start(_, required, auditOk) => required || auditOk
    case Approve(_, _, auditOk) => auditOk
    case Reject(_, auditOk) => auditOk
    case Drain(now, appends) => LapsedReached(s.queue, s.jobs, now, limit - |s.active|) <= appends
    case _ => true
  }

  lemma {:induction false} LapsedElsewhere(queue: seq<JobId>, jobs: map<JobId, Job>, others: map<JobId, Job>,
                                           now: int, free: int)
    requires forall id :: id in queue ==> (id in jobs <==> id in others) && (id in jobs ==> jobs[id] == others[id])
    ensures LapsedReached(queue, jobs, now, free) == LapsedReached(queue, others, now, free)
  {
    if queue != [] && free > 0 && queue[0] in jobs {
      LapsedElsewhere(queue[1..], jobs, others, now, if Lapsed(jobs[queue[0]], now) then free else free - 1);
    }
  }

  lemma RoundChanges(s: State, now: int)
    requires s.queue != [] && s.queue[0] in s.jobs && s.queue[0] in s.inputs && !s.jobs[s.queue[0]].cancelRequested
    requires s.jobs[s.queue[0]].state == Queued
    ensures var id := s.queue[0]; var t := Drained(s, now, true);
      && t.queue == s.queue[1..] && t.active == (if Lapsed(s.jobs[id], now) then s.active else s.active + {id})
      && (forall other :: other != id ==>
            (other in t.jobs <==> other in s.jobs) && (other in s.jobs ==> t.jobs[other] == s.jobs[other]))
      && (Healthy(s.(missed := false)) ==> Healthy(t.(missed := false)))
  {
  }

  lemma RestIsOther(queue: seq<JobId>)
    requires Distinct(queue) && queue != []
    ensures forall id :: id in queue[1..] ==> id != queue[0]
  {
  }

  /** One round of the loop whose append, if it needs one, succeeds. */
  lemma RoundReached(s: State, now: int, limit: nat)
    requires Held(s, limit) && s.queue != [] && |s.active| < limit && s.queue[0] in s.jobs
    ensures var t := Drained(s, now, true);
      && t.queue == s.queue[1..]
      && LapsedReached(s.queue, s.jobs, now, limit - |s.active|) ==
         LapsedReached(t.queue, t.jobs, now, limit - |t.active|) + (if Lapsed(s.jobs[s.queue[0]], now) then 1 else 0)
      && (Healthy(s.(missed := false)) ==> Healthy(t.(missed := false)))
  {
    HeadIsIdle(s, limit);
    var t := Drained(s, now, true);
    RoundChanges(s, now);
    RestIsOther(s.queue);
    LapsedElsewhere(t.queue, s.jobs, t.jobs, now, limit - |t.active|);
  }

  lemma HeadIsIdle(s: State, limit: nat)
    requires Held(s, limit) && s.queue != []
    ensures var id := s.queue[0];
      id in s.jobs && id in s.inputs && !s.jobs[id].cancelRequested && s.jobs[id].state == Queued && id !in s.active
    ensures Distinct(s.queue)
  {
    assert Unfold(0);
    HeadIsReady(s, limit);
  }

  predicate StrandedOf(queue: seq<JobId>, t: State) {
    exists k :: 0 <= k < |queue| && IsStranded(t, queue[k])
  }

  lemma LastRoundStrands(s: State, now: int, limit: nat)
    requires Held(s, limit) && s.queue != [] && |s.active| < limit && s.queue[0] in s.jobs && Lapsed(s.jobs[s.queue[0]], now)
    ensures StrandedOf(s.queue, Drained(s, now, false))
  {
    HeadIsIdle(s, limit);
    assert IsStranded(Drained(s, now, false), s.queue[0]);
  }

  lemma {:induction false} DrainLoopHealthyIff(s: State, now: int, appends: nat, limit: nat)
    requires Held(s, limit) && s.missed && Healthy(s.(missed := false))
    ensures var t := DrainLoop(s, now, appends, limit);
      if LapsedReached(s.queue, s.jobs, now, limit - |s.active|) <= appends then Healthy(t) else StrandedOf(s.queue, t)
    decreases |s.queue|
  {
    if s.queue != [] && |s.active| < limit {
      HeadHeld(s, now, limit);
      var lapsed := Lapsed(s.jobs[s.queue[0]], now);
      if lapsed && appends == 0 {
        LastRoundStrands(s, now, limit);
      } else {
        RoundReached(s, now, limit);
        var t := Drained(s, now, true);
        var left := if lapsed then appends - 1 else appends;
        DrainLoopHealthyIff(t, now, left, limit);
        StrandedInRest(s.queue, DrainLoop(t, now, left, limit));
      }
    }
  }

  lemma StrandedInRest(queue: seq<JobId>, t: State)
    requires queue != []
    ensures StrandedOf(queue[1..], t) ==> StrandedOf(queue, t)
  {
    if StrandedOf(queue[1..], t) {
      var k :| 0 <= k < |queue[1..]| && IsStranded(t, queue[1..][k]);
      assert queue[k + 1] == queue[1..][k];
    }
  }

  lemma DrainHealthyIff(s: State, now: int, appends: nat, limit: nat)
    requires Held(s, limit) && Healthy(s)
    ensures var t := DrainRun(s, now, appends, limit);
      if LapsedReached(s.queue, s.jobs, now, limit - |s.active|) <= appends then Healthy(t) else StrandedOf(s.queue, t)
  {
    DrainHeld(s, now, appends, limit);
    DrainLoopHealthyIff(s.(drainScheduled := false, missed := true), now, appends, limit);
  }

  lemma OtherHealthyIff(s: State, o: Occurrence, ttl: nat, limit: nat)
    requires Held(s, limit) && Possible(s, o) && Healthy(s) && !o.Drain?
    ensures Healthy(Next(s, o, ttl, limit)) <==> Fine(s, o, limit)
  {
    assert Unfold(0);
    assert o.Cancel? || o.Reject? || o.Approve? ==> JobOk(s, o.id);
    if o.Start? || o.Reject? {
      assert !Fine(s, o, limit) ==> Next(s, o, ttl, limit).place[o.id].Stranded?;
    }
  }

  /** An event strands a job or loses a wake-up exactly if an audit append it depends on throws. */
  lemma HealthyIff(s: State, o: Occurrence, ttl: nat, limit: nat)
    requires Held(s, limit) && Possible(s, o) && Healthy(s)
    ensures Healthy(Next(s, o, ttl, limit)) <==> Fine(s, o, limit)
  {
    if o.Drain? {
      DrainHealthyIff(s, o.now, o.appends, limit);
    } else {
      OtherHealthyIff(s, o, ttl, limit);
    }
  }

  predicate AllFine(s: State, occurrences: seq<Occurrence>, ttl: nat, limit: nat)
    requires Run(s, occurrences, ttl, limit)
    decreases |occurrences|
  {
    occurrences == [] ||
    (Fine(s, occurrences[0], limit) && AllFine(Next(s, occurrences[0], ttl, limit), occurrences[1..], ttl, limit))
  }

  /** Then a job that can run is never left waiting beside a free slot. */
  lemma {:induction false} NoJobIsForgotten(s: State, occurrences: seq<Occurrence>, ttl: nat, limit: nat)
    requires Held(s, limit) && Healthy(s) && Run(s, occurrences, ttl, limit) && AllFine(s, occurrences, ttl, limit)
    ensures var t := After(s, occurrences, ttl, limit);
      && (t.queue != [] && |t.active| < limit ==> t.drainScheduled)
      && forall id :: id in t.place ==> !t.place[id].Stranded?
    decreases |occurrences|
  {
    if occurrences != [] {
      NextKeeps(s, occurrences[0], ttl, limit);
      HealthyIff(s, occurrences[0], ttl, limit);
      NoJobIsForgotten(Next(s, occurrences[0], ttl, limit), occurrences[1..], ttl, limit);
    } else {
      assert Unfold(0);
    }
  }

  /** Queued for good: it is in no collection from which anything would run or end it. */
  predicate Limbo(s: State, id: JobId) {
    id in s.jobs && s.jobs[id].state == Queued && id !in s.queue && id !in s.active && !AwaitsApproval(s, id)
  }

  lemma StrandedIsLimbo(s: State, id: JobId, limit: nat)
    requires Held(s, limit) && id in s.jobs && IsStranded(s, id)
    ensures Limbo(s, id)
  {
    assert Unfold(0);
    assert JobOk(s, id);
  }

  lemma DrainedKeepsKeys(s: State, now: int, auditOk: bool)
    requires s.queue != [] && s.queue[0] in s.jobs
    ensures var t := Drained(s, now, auditOk);
      t.jobs.Keys == s.jobs.Keys && t.drainScheduled == s.drainScheduled && |t.queue| < |s.queue|
  {
  }

  lemma {:induction false} DrainLoopKeepsJobs(s: State, now: int, appends: nat, limit: nat)
    ensures DrainLoop(s, now, appends, limit).jobs.Keys == s.jobs.Keys
    ensures !s.drainScheduled ==> !DrainLoop(s, now, appends, limit).drainScheduled
    decreases |s.queue|
  {
    if s.queue != [] && |s.active| < limit && s.queue[0] in s.jobs {
      DrainedKeepsKeys(s, now, true);
      DrainedKeepsKeys(s, now, false);
      var t := Drained(s, now, true);
      if !Lapsed(s.jobs[s.queue[0]], now) {
        DrainLoopKeepsJobs(t, now, appends, limit);
      } else if appends > 0 {
        DrainLoopKeepsJobs(t, now, appends - 1, limit);
      }
    }
  }

  /**
   * What such an append leaves behind. A `start` or a rejection leaves its job in limbo; a lapsed
   * grant leaves the job at the head of the queue in limbo, with no drain scheduled for those
   * behind it; an approval queues its job and schedules no drain.
   */
  lemma AuditFailureStrands(s: State, o: Occurrence, ttl: nat, limit: nat)
    requires Held(s, limit) && Possible(s, o) && Healthy(s) && !Fine(s, o, limit)
    ensures var t := Next(s, o, ttl, limit);
      match o
      case Start(id, _, _) => Limbo(t, id)
      case Reject(id, _) => Limbo(t, id)
      case Approve(id, _, _) => id in t.queue && t.drainScheduled == s.drainScheduled
      case Drain(_, _) => !t.drainScheduled && exists k :: 0 <= k < |s.queue| && Limbo(t, s.queue[k])
      case _ => false
  {
    NextKeeps(s, o, ttl, limit);
    var t := Next(s, o, ttl, limit);
    if o.Drain? {
      DrainHealthyIff(s, o.now, o.appends, limit);
      var k :| 0 <= k < |s.queue| && IsStranded(t, s.queue[k]);
      DrainLoopKeepsJobs(s.(drainScheduled := false, missed := true), o.now, o.appends, limit);
      QueuedIsKnown(s, k, limit);
      StrandedIsLimbo(t, s.queue[k], limit);
    } else if o.Start? || o.Reject? {
      StrandedIsLimbo(t, o.id, limit);
    }
  }

  lemma QueuedIsKnown(s: State, k: nat, limit: nat)
    requires Held(s, limit) && k < |s.queue|
    ensures s.queue[k] in s.jobs
  {
    assert Unfold(0);
    assert s.queue[k] in s.queue;
  }

  // ---------- The coordinator ----------

  lemma ApprovalIsReady(s: State, id: JobId, limit: nat)
    requires Held(s, limit) && CanApprove(s.jobs, id)
    ensures id in s.inputs && id in s.contexts && !Terminal(s.jobs[id].state)
  {
    assert Unfold(0);
    assert JobOk(s, id);
  }

  lemma HeadHeld(s: State, now: int, limit: nat)
    requires Held(s, limit) && s.missed && s.queue != [] && |s.active| < limit
    ensures var id := s.queue[0];
      id in s.jobs && id in s.inputs && !s.jobs[id].cancelRequested && !Terminal(s.jobs[id].state)
    ensures Held(Drained(s, now, true), limit) && Drained(s, now, true).missed
  {
    assert Unfold(0);
    HeadIsReady(s, limit);
    DrainedKeeps(s, now, true, limit);
  }

  // ---------- First come, first served ----------

  /** The launches of those in the queue whose grant, if they need one, has not expired; in the queue's order. */
  function Runnable(queue: seq<JobId>, jobs: map<JobId, Job>, now: int): seq<Launch> {
    if queue == [] then []
    else (if queue[0] in jobs && !Lapsed(jobs[queue[0]], now)
          then [Launch(queue[0], jobs[queue[0]].required, jobs[queue[0]].approval, now)] else [])
         + Runnable(queue[1..], jobs, now)
  }

  function LapsedIn(queue: seq<JobId>, jobs: map<JobId, Job>, now: int): nat {
    if queue == [] then 0
    else (if queue[0] in jobs && Lapsed(jobs[queue[0]], now) then 1 else 0) + LapsedIn(queue[1..], jobs, now)
  }

  lemma {:induction false} SameForQueue(queue: seq<JobId>, jobs: map<JobId, Job>, others: map<JobId, Job>, now: int)
    requires forall id :: id in queue ==> (id in jobs <==> id in others) && (id in jobs ==> jobs[id] == others[id])
    ensures Runnable(queue, jobs, now) == Runnable(queue, others, now)
    ensures LapsedIn(queue, jobs, now) == LapsedIn(queue, others, now)
  {
    if queue != [] {
      SameForQueue(queue[1..], jobs, others, now);
    }
  }

  /**
   * The jobs leave the queue at its head. Those whose grant has expired are dropped, the others are
   * launched, all in the queue's order; the last one leaves while a slot is still free, and the
   * loop goes on until the slots are taken, nobody is left, or an audit append throws.
   */
  predicate TakenInOrder(s: State, t: State, now: int, appends: nat, limit: nat) {
    var n := |s.queue| - |t.queue|;
    && 0 <= n && t.queue == s.queue[n..]
    && Took(s, t, Runnable(s.queue[..n], s.jobs, now), LapsedIn(s.queue[..n], s.jobs, now), appends, limit)
    && (n > 0 ==> HadToGoOn(s, Runnable(s.queue[..n - 1], s.jobs, now), LapsedIn(s.queue[..n - 1], s.jobs, now), appends, limit))
    && (t.missed ==> n > 0)
  }

  /** What is launched and how many are dropped, and why the loop ends there. */
  predicate Took(s: State, t: State, launched: seq<Launch>, lapsed: nat, appends: nat, limit: nat) {
    && t.launches == s.launches + launched && |t.active| == |s.active| + |launched|
    && (if t.missed then lapsed == appends + 1 else lapsed <= appends && (t.queue == [] || |t.active| >= limit))
  }

  /** One job earlier, it could not have ended. */
  predicate HadToGoOn(s: State, launched: seq<Launch>, lapsed: nat, appends: nat, limit: nat) {
    |s.active| + |launched| < limit && lapsed <= appends
  }

  /** One round: the job at the head runs, or its expired grant fails it. */
  lemma HeadTaken(s: State, now: int, auditOk: bool, limit: nat)
    requires Held(s, limit) && s.missed && s.queue != [] && |s.active| < limit && s.queue[0] in s.jobs
    ensures var id := s.queue[0]; var t := Drained(s, now, auditOk);
      && t.queue == s.queue[1..] && t.missed
      && t.launches == s.launches + Runnable([id], s.jobs, now)
      && |t.active| == |s.active| + |Runnable([id], s.jobs, now)|
      && LapsedIn([id], s.jobs, now) == (if Lapsed(s.jobs[id], now) then 1 else 0)
      && Runnable(t.queue, t.jobs, now) == Runnable(t.queue, s.jobs, now)
  {
    HeadIsIdle(s, limit);
    var t := Drained(s, now, auditOk);
    RestIsOther(s.queue);
    SameForQueue(t.queue, s.jobs, t.jobs, now);
  }

  lemma SameBehindHead(s: State, now: int, auditOk: bool, limit: nat, n: nat)
    requires Held(s, limit) && s.queue != [] && n <= |s.queue[1..]| && s.queue[0] in s.jobs
    ensures HeadThen(s, Drained(s, now, auditOk).jobs, now, n)
  {
    HeadIsIdle(s, limit);
    RestIsOther(s.queue);
    SameForQueue(s.queue[1..][..n], s.jobs, Drained(s, now, auditOk).jobs, now);
    assert s.queue[..n + 1][1..] == s.queue[1..][..n];
  }

  /** What the first `n + 1` jobs come to is what the first one and, with the jobs as they are then, the next `n` do. */
  predicate HeadThen(s: State, jobs: map<JobId, Job>, now: int, n: nat)
    requires s.queue != [] && n <= |s.queue[1..]|
  {
    && Runnable(s.queue[..n + 1], s.jobs, now) == Runnable([s.queue[0]], s.jobs, now) + Runnable(s.queue[1..][..n], jobs, now)
    && LapsedIn(s.queue[..n + 1], s.jobs, now) == LapsedIn([s.queue[0]], s.jobs, now) + LapsedIn(s.queue[1..][..n], jobs, now)
  }

  lemma {:induction false} DrainLoopTakes(s: State, now: int, appends: nat, limit: nat)
    requires Held(s, limit) && s.missed
    ensures TakenInOrder(s, DrainLoop(s, now, appends, limit), now, appends, limit)
    decreases |s.queue|
  {
    if s.queue == [] || |s.active| >= limit {
      NobodyTaken(s, now, appends, limit);
      return;
    }
    HeadHeld(s, now, limit);
    if Lapsed(s.jobs[s.queue[0]], now) && appends == 0 {
      LastTaken(s, now, limit);
    } else {
      var left := if Lapsed(s.jobs[s.queue[0]], now) then appends - 1 else appends;
      DrainLoopTakes(Drained(s, now, true), now, left, limit);
      HeadAndRestTaken(s, DrainLoop(Drained(s, now, true), now, left, limit), now, appends, left, limit);
    }
  }

  lemma NobodyTaken(s: State, now: int, appends: nat, limit: nat)
    requires s.queue == [] || |s.active| >= limit
    ensures TakenInOrder(s, s.(missed := false), now, appends, limit)
  {
    var t := s.(missed := false);
    assert Took(s, t, [], 0, appends, limit);
    assert t.queue == s.queue[0..];
    assert s.queue[..0] == [] && Runnable([], s.jobs, now) == [] && LapsedIn([], s.jobs, now) == 0;
  }

  lemma HeadAndRestTaken(s: State, t: State, now: int, appends: nat, left: nat, limit: nat)
    requires Held(s, limit) && s.missed && s.queue != [] && |s.active| < limit && s.queue[0] in s.jobs
    requires appends == left + (if Lapsed(s.jobs[s.queue[0]], now) then 1 else 0)
    requires TakenInOrder(Drained(s, now, true), t, now, left, limit)
    ensures TakenInOrder(s, t, now, appends, limit)
  {
    var u := Drained(s, now, true);
    HeadTaken(s, now, true, limit);
    var n := |u.queue| - |t.queue|;
    SameBehindHead(s, now, true, limit, n);
    if n > 0 {
      SameBehindHead(s, now, true, limit, n - 1);
    }
    RoundThenTaken(s, u, t, now, appends, left, limit);
  }

  lemma LastTaken(s: State, now: int, limit: nat)
    requires Held(s, limit) && s.missed && s.queue != [] && |s.active| < limit
    requires s.queue[0] in s.jobs && Lapsed(s.jobs[s.queue[0]], now)
    ensures TakenInOrder(s, Drained(s, now, false), now, 0, limit)
  {
    HeadTaken(s, now, false, limit);
    assert s.queue[..1] == [s.queue[0]] && s.queue[..0] == [];
  }

  lemma RoundThenTaken(s: State, u: State, t: State, now: int, appends: nat, left: nat, limit: nat)
    requires s.queue != [] && |s.active| < limit && u.queue == s.queue[1..]
    requires u.launches == s.launches + Runnable([s.queue[0]], s.jobs, now)
    requires |u.active| == |s.active| + |Runnable([s.queue[0]], s.jobs, now)|
    requires appends == left + LapsedIn([s.queue[0]], s.jobs, now)
    requires TakenInOrder(u, t, now, left, limit)
    requires var n := |u.queue| - |t.queue|; HeadThen(s, u.jobs, now, n) && (n > 0 ==> HeadThen(s, u.jobs, now, n - 1))
    ensures TakenInOrder(s, t, now, appends, limit)
  {
    var n := |u.queue| - |t.queue|;
    assert t.queue == s.queue[n + 1..];
    var first, lapsed := Runnable([s.queue[0]], s.jobs, now), LapsedIn([s.queue[0]], s.jobs, now);
    TookOneMore(s, u, t, first, Runnable(u.queue[..n], u.jobs, now), lapsed, LapsedIn(u.queue[..n], u.jobs, now), left, limit);
    if n == 0 {
      assert s.queue[..0] == [];
    }
  }

  lemma TookOneMore(s: State, u: State, t: State, first: seq<Launch>, launched: seq<Launch>, lapsedFirst: nat, lapsed: nat,
                    left: nat, limit: nat)
    requires u.launches == s.launches + first && |u.active| == |s.active| + |first|
    requires Took(u, t, launched, lapsed, left, limit)
    ensures Took(s, t, first + launched, lapsedFirst + lapsed, left + lapsedFirst, limit)
  {
  }

  lemma {:induction false} DequeuedAt(queue: seq<JobId>, id: JobId, i: nat)
    requires Distinct(queue) && i < |queue| && queue[i] == id
    ensures Dequeued(queue, id) == queue[..i] + queue[i + 1..]
  {
    if i > 0 {
      DequeuedAt(queue[1..], id, i - 1);
      assert queue[1..][i - 1 + 1..] == queue[i + 1..];
      assert [queue[0]] + queue[1..][..i - 1] == queue[..i];
    }
  }

  lemma {:induction false} DequeuedNot(queue: seq<JobId>, id: JobId)
    requires id !in queue
    ensures Dequeued(queue, id) == queue
  {
    if queue != [] {
      DequeuedNot(queue[1..], id);
    }
  }

  /** The others keep their order. */
  predicate LeavesQueue(queue: seq<JobId>, id: JobId, rest: seq<JobId>) {
    && (forall i :: 0 <= i < |queue| && queue[i] == id ==> rest == queue[..i] + queue[i + 1..])
    && (id !in queue ==> rest == queue)
  }

  function CancelledJob(job: Job): Job {
    if Terminal(job.state) then job
    else if job.state == Queued then job.(cancelRequested := true, state := Cancelled, phase := Finished)
    else job.(cancelRequested := true, phase := Cancelling)
  }

  lemma DequeuedLeaves(queue: seq<JobId>, id: JobId)
    requires Distinct(queue)
    ensures LeavesQueue(queue, id, Dequeued(queue, id))
  {
    forall i | 0 <= i < |queue| && queue[i] == id ensures Dequeued(queue, id) == queue[..i] + queue[i + 1..] {
      DequeuedAt(queue, id, i);
    }
    if id !in queue {
      DequeuedNot(queue, id);
    }
  }

  lemma CancelIsPlain(s: State, id: JobId, limit: nat)
    requires Held(s, limit) && id in s.jobs
    ensures var t := CancelRequested(s, id);
      && LeavesQueue(s.queue, id, t.queue) && t.jobs == s.jobs[id := CancelledJob(s.jobs[id])]
      && t.inputs == if s.jobs[id].state == Queued then s.inputs - {id} else s.inputs
  {
    assert Distinct(s.queue) && (id in s.queue ==> s.jobs[id].state == Queued) by {
      assert Unfold(0);
      assert JobOk(s, id);
    }
    DequeuedLeaves(s.queue, id);
  }

  lemma RefusedIsPlain(s: State, id: JobId, auditOk: bool, limit: nat)
    requires Held(s, limit) && CanApprove(s.jobs, id)
    ensures var t := Refused(s, id, auditOk);
      && t.jobs == s.jobs[id := if auditOk then s.jobs[id].(approval := Rejected, state := Cancelled, phase := Finished)
                                else s.jobs[id].(approval := Rejected)]
      && t.contexts == if auditOk then s.contexts - {id} else s.contexts
  {
    ApprovalIsReady(s, id, limit);
  }

  /**
   * What one run of `drain` makes of a job: nothing if it still waits or never did; otherwise it
   * runs, or its expired grant fails it, or, if the audit append throws, leaves it queued for good.
   */
  predicate Moved(s: State, t: State, now: int, id: JobId)
    requires id in s.jobs && id in t.jobs
  {
    if id !in s.queue || id in t.queue then t.jobs[id] == s.jobs[id] && (id in t.active <==> id in s.active)
    else if !Lapsed(s.jobs[id], now) then
      t.jobs[id] == s.jobs[id].(state := Running, phase := Executing) && id in t.active
    else
      && id !in t.active && id !in t.inputs
      && (t.jobs[id] == s.jobs[id].(state := Failed, phase := Finished, approval := Expired)
          || (t.missed && |t.queue| < |s.queue| && id == s.queue[|s.queue| - |t.queue| - 1]
              && t.jobs[id] == s.jobs[id].(approval := Expired)))
  }

  lemma RoundMoves(s: State, now: int, auditOk: bool, limit: nat, id: JobId)
    requires Held(s, limit) && s.missed && s.queue != [] && |s.active| < limit && id in s.jobs
    requires s.queue[0] in s.jobs && (!auditOk ==> Lapsed(s.jobs[s.queue[0]], now))
    ensures var t := Drained(s, now, auditOk);
      && id in t.jobs && t.queue == s.queue[1..] && (id in s.queue <==> id in t.queue || id == s.queue[0])
      && (id == s.queue[0] ==> id !in t.queue)
      && (id != s.queue[0] ==> t.jobs[id] == s.jobs[id] && (id in t.active <==> id in s.active)
                               && (id in t.inputs <==> id in s.inputs))
      && (id == s.queue[0] && !Lapsed(s.jobs[id], now) ==>
            t.jobs[id] == s.jobs[id].(state := Running, phase := Executing) && id in t.active)
      && (id == s.queue[0] && Lapsed(s.jobs[id], now) ==>
            && id !in t.active && id !in t.inputs
            && t.jobs[id] == if auditOk then s.jobs[id].(state := Failed, phase := Finished, approval := Expired)
                             else s.jobs[id].(approval := Expired))
  {
    HeadIsIdle(s, limit);
    RestIsOther(s.queue);
    assert s.queue == [s.queue[0]] + s.queue[1..];
  }

  lemma DrainedShrinks(s: State, now: int, auditOk: bool)
    requires s.queue != [] && s.queue[0] in s.jobs
    ensures var t := Drained(s, now, auditOk); t.inputs <= s.inputs && t.queue == s.queue[1..]
  {
  }

  lemma {:induction false} DrainLoopShrinks(s: State, now: int, appends: nat, limit: nat, id: JobId)
    ensures var t := DrainLoop(s, now, appends, limit);
      t.inputs <= s.inputs && |t.queue| <= |s.queue| && (id in t.queue ==> id in s.queue)
    decreases |s.queue|
  {
    if s.queue != [] && |s.active| < limit && s.queue[0] in s.jobs {
      DrainedShrinks(s, now, true);
      DrainedShrinks(s, now, false);
      var t := Drained(s, now, true);
      if !Lapsed(s.jobs[s.queue[0]], now) {
        DrainLoopShrinks(t, now, appends, limit, id);
      } else if appends > 0 {
        DrainLoopShrinks(t, now, appends - 1, limit, id);
      }
    }
  }

  lemma {:induction false} DrainLoopMoves(s: State, now: int, appends: nat, limit: nat, id: JobId)
    requires Held(s, limit) && s.missed && id in s.jobs
    ensures var t := DrainLoop(s, now, appends, limit); id in t.jobs && Moved(s, t, now, id)
    decreases |s.queue|
  {
    if s.queue != [] && |s.active| < limit {
      HeadHeld(s, now, limit);
      if Lapsed(s.jobs[s.queue[0]], now) && appends == 0 {
        RoundMoves(s, now, false, limit, id);
      } else {
        var left := if Lapsed(s.jobs[s.queue[0]], now) then appends - 1 else appends;
        var u := Drained(s, now, true);
        RoundMoves(s, now, true, limit, id);
        DrainLoopMoves(u, now, left, limit, id);
        DrainLoopShrinks(u, now, left, limit, id);
        RoundThenMoved(s, u, DrainLoop(u, now, left, limit), now, id);
      }
    }
  }

  lemma RoundThenMoved(s: State, u: State, t: State, now: int, id: JobId)
    requires s.queue != [] && u.queue == s.queue[1..] && id in s.jobs && id in u.jobs && id in t.jobs
    requires Moved(u, t, now, id) && |t.queue| <= |u.queue| && t.inputs <= u.inputs
    requires if id == s.queue[0] then id !in u.queue else u.jobs[id] == s.jobs[id] && (id in u.active <==> id in s.active)
    requires id in t.queue ==> id in u.queue
    requires id == s.queue[0] && !Lapsed(s.jobs[id], now) ==>
      u.jobs[id] == s.jobs[id].(state := Running, phase := Executing) && id in u.active
    requires id == s.queue[0] && Lapsed(s.jobs[id], now) ==>
      id !in u.active && id !in u.inputs && u.jobs[id] == s.jobs[id].(state := Failed, phase := Finished, approval := Expired)
    ensures Moved(s, t, now, id)
  {
    assert s.queue == [s.queue[0]] + s.queue[1..];
  }

  /** Who leaves the queue, and what becomes of each job; folded. */
  ghost predicate Served(s: State, t: State, now: int, appends: nat, limit: nat) {
    forall token: nat :: Unfold(token) ==>
      && TakenInOrder(s, t, now, appends, limit)
      && t.jobs.Keys == s.jobs.Keys && forall id :: id in s.jobs ==> Moved(s, t, now, id)
  }

  lemma DrainTakes(s: State, now: int, appends: nat, limit: nat)
    requires Held(s, limit)
    ensures TakenInOrder(s, DrainRun(s, now, appends, limit), now, appends, limit)
  {
    DrainHeld(s, now, appends, limit);
    DrainLoopTakes(s.(drainScheduled := false, missed := true), now, appends, limit);
  }

  lemma DrainMoves(s: State, now: int, appends: nat, limit: nat)
    requires Held(s, limit)
    ensures var t := DrainRun(s, now, appends, limit);
      t.jobs.Keys == s.jobs.Keys && forall id :: id in s.jobs ==> Moved(s, t, now, id)
  {
    DrainHeld(s, now, appends, limit);
    var begun := s.(drainScheduled := false, missed := true);
    DrainLoopKeepsJobs(begun, now, appends, limit);
    forall id | id in s.jobs ensures Moved(s, DrainRun(s, now, appends, limit), now, id) {
      DrainLoopMoves(begun, now, appends, limit, id);
    }
  }

  lemma BothServe(s: State, t: State, now: int, appends: nat, limit: nat)
    requires TakenInOrder(s, t, now, appends, limit)
    requires t.jobs.Keys == s.jobs.Keys && forall id :: id in s.jobs ==> Moved(s, t, now, id)
    ensures Served(s, t, now, appends, limit) && |t.queue| <= |s.queue| && t.queue == s.queue[|s.queue| - |t.queue|..]
  {
  }

  lemma DrainServes(s: State, now: int, appends: nat, limit: nat)
    requires Held(s, limit)
    ensures var t := DrainRun(s, now, appends, limit);
      Served(s, t, now, appends, limit) && |t.queue| <= |s.queue| && t.queue == s.queue[|s.queue| - |t.queue|..]
  {
    DrainTakes(s, now, appends, limit);
    DrainMoves(s, now, appends, limit);
    BothServe(s, DrainRun(s, now, appends, limit), now, appends, limit);
  }

  class Manager {
    const maxConcurrentJobs: nat
    const approvalTtl: nat
    var jobs: map<JobId, Job>
    var queue: seq<JobId>
    var pendingInputs: set<JobId>
    var approvalContexts: set<JobId>
    var activeJobs: set<JobId>
    var drainScheduled: bool
    ghost var place: map<JobId, Place>
    ghost var recovered: set<JobId>
    ghost var used: set<JobId>
    ghost var launches: seq<Launch>
    ghost var missed: bool

    ghost function View(): State
      reads this
    {
      State(jobs, queue, pendingInputs, approvalContexts, activeJobs, drainScheduled, place, recovered, used, launches, missed)
    }

    ghost predicate Valid()
      reads this
    {
      maxConcurrentJobs >= 1 && Held(View(), maxConcurrentJobs)
    }

    constructor (maxConcurrentJobs: nat, approvalTtl: nat, recoverable: set<JobId>, lost: set<JobId>)
      requires recoverable !! lost
      ensures Valid() && View() == Restored(recoverable, lost)
      ensures jobs.Keys == recoverable + lost && queue == [] && activeJobs == {}
      ensures forall id :: id in recoverable ==> jobs[id] == Job(Running, Reconnecting, false, NotRequired, false)
      ensures forall id :: id in lost ==> jobs[id] == Job(Lost, Finished, false, NotRequired, false)
      ensures this.maxConcurrentJobs == if maxConcurrentJobs < 1 then 1 else maxConcurrentJobs
    {
      this.maxConcurrentJobs := if maxConcurrentJobs < 1 then 1 else maxConcurrentJobs;
      this.approvalTtl := approvalTtl;
      jobs := map id | id in recoverable + lost ::
        if id in recoverable then Job(Running, Reconnecting, false, NotRequired, false)
        else Job(Lost, Finished, false, NotRequired, false);
      queue, pendingInputs, approvalContexts, activeJobs, drainScheduled := [], {}, {}, {}, false;
      place := map id | id in recoverable + lost :: if id in recoverable then Recovering else Ended;
      recovered, used, launches, missed := recoverable, recoverable + lost, [], false;
      new;
      RestoredIsFine(recoverable, lost, this.maxConcurrentJobs);
    }

    method ScheduleDrain()
      modifies this`drainScheduled, this`missed
      ensures drainScheduled && !missed
    {
      drainScheduled, missed := true, false;
    }

    /** `start`, from the point where the record is stored; false stands for the exception. */
    method Start(id: JobId, required: bool, auditOk: bool) returns (ok: bool)
      requires Valid() && id !in used
      modifies this
      ensures View() == Started(old(View()), id, required, auditOk) && ok == auditOk
      // A job that needs no approval goes to the end of the queue, one that needs it to those who await it.
      ensures queue == if !required && auditOk then old(queue) + [id] else old(queue)
      ensures jobs == old(jobs)[id := if required then Job(Queued, AwaitingApproval, true, Pending, false)
                                      else Job(Queued, InLine, false, NotRequired, false)]
      ensures drainScheduled == (old(drainScheduled) || (!required && auditOk)) && activeJobs == old(activeJobs)
      ensures pendingInputs == old(pendingInputs) + {id}
      ensures approvalContexts == if required then old(approvalContexts) + {id} else old(approvalContexts)
      ensures Valid()
    {
      StartedHeld(View(), id, required, auditOk, maxConcurrentJobs);
      jobs := jobs[id := Job(Queued, if required then AwaitingApproval else InLine, required,
                             if required then Pending else NotRequired, false)];
      used := used + {id};
      place := place[id := if required then Awaiting else if auditOk then Queueing else Stranded];
      if required {
        approvalContexts := approvalContexts + {id};
      }
      pendingInputs := pendingInputs + {id};
      if auditOk && !required {
        queue := queue + [id];
        ScheduleDrain();
      }
      ok := auditOk;
    }

    /** A job that is not awaiting approval is left alone. */
    method Approve(id: JobId, now: int, auditOk: bool) returns (ok: bool)
      requires Valid()
      modifies this
      ensures ok <==> old(CanApprove(jobs, id)) && auditOk
      ensures View() == if old(CanApprove(jobs, id)) then Granted(old(View()), id, now + approvalTtl, auditOk) else old(View())
      // An approved job goes to the end of the queue, whether or not the audit log can be written.
      ensures old(CanApprove(jobs, id)) ==>
        && queue == old(queue) + [id] && activeJobs == old(activeJobs) && pendingInputs == old(pendingInputs)
        && jobs == old(jobs)[id := old(jobs)[id].(phase := InLine, approval := Approved(now + approvalTtl))]
        && drainScheduled == (old(drainScheduled) || auditOk)
        && approvalContexts == if auditOk then old(approvalContexts) - {id} else old(approvalContexts)
      ensures Valid()
    {
      if CanApprove(jobs, id) {
        ApprovalIsReady(View(), id, maxConcurrentJobs);
        Grant(id, now + approvalTtl, auditOk);
        ok := auditOk;
      } else {
        ok := false;
      }
    }

    method Grant(id: JobId, expires: int, auditOk: bool)
      requires Valid() && CanApprove(jobs, id) && id in pendingInputs && id in approvalContexts
      modifies this
      ensures View() == Granted(old(View()), id, expires, auditOk)
      ensures Valid()
    {
      GrantedHeld(View(), id, expires, auditOk, maxConcurrentJobs);
      jobs := jobs[id := jobs[id].(phase := InLine, approval := Approved(expires))];
      place := place[id := Queueing];
      queue := queue + [id];
      if auditOk {
        approvalContexts := approvalContexts - {id};
        ScheduleDrain();
      } else {
        missed := true;
      }
    }

    method RejectApproval(id: JobId, auditOk: bool) returns (ok: bool)
      requires Valid()
      modifies this
      ensures ok <==> old(CanApprove(jobs, id)) && auditOk
      ensures if old(CanApprove(jobs, id)) then View() == Refused(old(View()), id, auditOk) else View() == old(View())
      // A refused job is cancelled; without its audit record it stays queued, and cannot run.
      ensures old(CanApprove(jobs, id)) ==>
        && queue == old(queue) && activeJobs == old(activeJobs) && pendingInputs == old(pendingInputs) - {id}
        && drainScheduled == old(drainScheduled)
        && jobs == old(jobs)[id := if auditOk then old(jobs)[id].(approval := Rejected, state := Cancelled, phase := Finished)
                                   else old(jobs)[id].(approval := Rejected)]
        && approvalContexts == if auditOk then old(approvalContexts) - {id} else old(approvalContexts)
      ensures Valid()
    {
      if !CanApprove(jobs, id) {
        return false;
      }
      RefusedHeld(View(), id, auditOk, maxConcurrentJobs);
      RefusedIsPlain(View(), id, auditOk, maxConcurrentJobs);
      jobs := jobs[id := jobs[id].(approval := Rejected)];
      pendingInputs := pendingInputs - {id};
      place := place[id := Stranded];
      if auditOk {
        Finish(id, Cancelled);
      }
      ok := auditOk;
    }

    /** A failing audit append is caught here. */
    method Finish(id: JobId, state: Status)
      requires id in jobs
      modifies this`jobs, this`place, this`approvalContexts
      ensures View() == Finalized(old(View()), id, state)
    {
      if Terminal(jobs[id].state) {
        return;
      }
      jobs := jobs[id := jobs[id].(state := state, phase := Finished)];
      place := place[id := Ended];
      approvalContexts := approvalContexts - {id};
    }

    method Cancel(id: JobId)
      requires Valid() && id in jobs
      modifies this
      ensures View() == CancelRequested(old(View()), id) && Valid()
      // The others keep their order; a queued job ends at once, and one that runs only learns of it.
      ensures LeavesQueue(old(queue), id, queue)
      ensures jobs == old(jobs)[id := CancelledJob(old(jobs)[id])]
      ensures pendingInputs == if old(jobs)[id].state == Queued then old(pendingInputs) - {id} else old(pendingInputs)
      ensures activeJobs == old(activeJobs) && drainScheduled == old(drainScheduled)
    {
      CancelHeld(View(), id, maxConcurrentJobs);
      CancelIsPlain(View(), id, maxConcurrentJobs);
      if Terminal(jobs[id].state) {
        return;
      }
      var state := jobs[id].state;
      jobs := jobs[id := jobs[id].(cancelRequested := true, phase := Cancelling)];
      if state == Queued {
        queue := Dequeued(queue, id);
        pendingInputs := pendingInputs - {id};
        place := place[id := Stranded];
        Finish(id, Cancelled);
      }
    }

    /** The callback of `scheduleDrain`; false when an audit append throws and ends the loop. */
    method Drain(now: int, appends: nat) returns (ok: bool)
      requires Valid() && drainScheduled
      modifies this
      ensures View() == DrainRun(old(View()), now, appends, maxConcurrentJobs) && Valid()
      ensures ok ==> queue == [] || |activeJobs| >= maxConcurrentJobs
      // The first come are served first, and nobody else.
      ensures |queue| <= |old(queue)| && queue == old(queue)[|old(queue)| - |queue|..]
      ensures Served(old(View()), View(), now, appends, maxConcurrentJobs)
      ensures ok <==> !missed
    {
      DrainHeld(View(), now, appends, maxConcurrentJobs);
      DrainServes(View(), now, appends, maxConcurrentJobs);
      drainScheduled, missed := false, true;
      ok := DrainQueue(now, appends);
    }

    method DrainQueue(now: int, appends: nat) returns (ok: bool)
      requires Valid() && missed
      modifies this
      ensures View() == DrainLoop(old(View()), now, appends, maxConcurrentJobs)
      ensures ok == !missed && (ok ==> queue == [] || |activeJobs| >= maxConcurrentJobs)
    {
      ghost var goal := DrainLoop(View(), now, appends, maxConcurrentJobs);
      var left := appends;
      while |activeJobs| < maxConcurrentJobs && |queue| > 0
        invariant DrainLoop(View(), now, left, maxConcurrentJobs) == goal
        invariant Held(View(), maxConcurrentJobs) && missed
        decreases |queue|
      {
        HeadHeld(View(), now, maxConcurrentJobs);
        var id := queue[0];
        if Lapsed(jobs[id], now) {
          Expire(id, now, left > 0);
          if left == 0 {
            return false;
          }
          left := left - 1;
        } else {
          RunNext(id, now);
        }
      }
      missed := false;
      ok := true;
    }

    /** An expired grant: the job fails, unless the audit append throws before that. */
    method Expire(id: JobId, now: int, auditOk: bool)
      requires queue != [] && queue[0] == id && id in jobs && missed
      requires id in pendingInputs && !jobs[id].cancelRequested && Lapsed(jobs[id], now)
      modifies this`queue, this`jobs, this`pendingInputs, this`place, this`approvalContexts
      ensures View() == Drained(old(View()), now, auditOk)
    {
      queue := queue[1..];
      jobs := jobs[id := jobs[id].(approval := Expired)];
      pendingInputs := pendingInputs - {id};
      place := place[id := Stranded];
      if auditOk {
        Finish(id, Failed);
      }
    }

    /** `activeJobs.add` and the synchronous part of `run`. */
    method RunNext(id: JobId, now: int)
      requires queue != [] && queue[0] == id && id in jobs
      requires id in pendingInputs && !jobs[id].cancelRequested && !Lapsed(jobs[id], now)
      modifies this`queue, this`jobs, this`pendingInputs, this`activeJobs, this`place, this`launches
      ensures View() == Drained(old(View()), now, true)
    {
      queue := queue[1..];
      activeJobs := activeJobs + {id};
      pendingInputs := pendingInputs - {id};
      place := place[id := Active];
      launches := launches + [Launch(id, jobs[id].required, jobs[id].approval, now)];
      jobs := jobs[id := jobs[id].(state := Running, phase := Executing)];
    }

    /** The end of `run`'s promise. */
    method Settle(id: JobId)
      requires Valid() && id in activeJobs && (id in jobs ==> Terminal(jobs[id].state))
      modifies this
      ensures View() == Settled(old(View()), id) && Valid()
      ensures activeJobs == old(activeJobs) - {id} && drainScheduled && queue == old(queue) && jobs == old(jobs)
    {
      SettledHeld(View(), id, maxConcurrentJobs);
      activeJobs := activeJobs - {id};
      ScheduleDrain();
    }
  }
}
