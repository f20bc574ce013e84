/**
 * What a request in time does to the outcome of a job (supervisor.go `Supervise`), in every
 * interleaving, also with other processes between the steps of `Reconcile`.
 */
module Outcomes {
  import opened Wrappers
  import opened EventLog
  import opened JobDirectory

  /** The owner has not looked for a cancel request before starting the command. */
  predicate Unchecked(stage: Stage) {
    stage.Claiming? || stage.Claimed?
  }

  /** The command has been fed to the shell, and the owner has not looked for a timeout after it ended. */
  predicate BeforeTimeoutCheck(stage: Stage) {
    stage.Announcing? || stage.Announced? || stage.Copying? || stage.Copied? || stage.Collected?
  }

  /** Nor for a cancel request after the command ended. */
  predicate BeforeCancelCheck(stage: Stage) {
    Unchecked(stage) || stage.Marking? || stage.Marked? || stage.Starting? || stage.Feeding?
    || BeforeTimeoutCheck(stage) || stage.Untimed?
  }

  predicate EndsOutside(s: Supervisor, bad: Status) {
    && (s.stage.Finishing? ==> s.stage.outcome.state != bad)
    && (s.stage.Closing? ==> s.job.state != bad && s.stage.outcome.state != bad)
    && (s.stage.Done? ==> s.job.state != bad)
  }

  /** No copy of the record that can still be written says one of these. */
  predicate RecordsOutside(d: Dir, bad: Status) {
    d.disk.record.state != bad && (!d.server.Idle? ==> d.server.copy.state != bad)
  }

  predicate HasOwner(d: Dir) {
    d.disk.claim.Claim? && d.disk.claim.creator < |d.supervisors|
  }

  function Owner(d: Dir): Supervisor
    requires HasOwner(d)
  {
    d.supervisors[d.disk.claim.creator]
  }

  // ---------- A cancel request in time ----------

  predicate WillNotSucceed(s: Supervisor) {
    EndsOutside(s, Succeeded) && (BeforeCancelCheck(s.stage) || s.stage.Verifying? || Ending(s.stage))
  }

  predicate CancelNoticed(d: Dir) {
    && d.disk.cancelAt.Some? && RecordsOutside(d, Succeeded)
    && (HasOwner(d) ==> WillNotSucceed(Owner(d)))
  }

  lemma OwnerNoticesCancel(disk: Disk, i: nat, s: Supervisor, action: Action, origin: Record)
    requires Enabled(disk, s, action) && OwnerOk(disk, s, origin) && disk.cancelAt.Some?
    requires WillNotSucceed(s)
    requires disk.record.state != Succeeded
    ensures var acted := Act(disk, i, s, action); var t := acted.self;
      && WillNotSucceed(t)
      && acted.disk.record.state != Succeeded && acted.disk.cancelAt.Some?
  {
  }

  lemma SuperviseNoticesCancel(d: Dir, i: nat, action: Action, origin: Record)
    requires Safe(d, origin) && Possible(d, Supervise(i, action)) && CancelNoticed(d)
    ensures CancelNoticed(Next(d, Supervise(i, action)))
  {
    assert SupervisorOk(d.disk.claim, i, d.supervisors[i], origin);
    if Past(d.supervisors[i].stage) {
      OwnerAfter(d, i, action, origin);
      OwnerNoticesCancel(d.disk, i, d.supervisors[i], action, origin);
    } else {
      CandidateIsHarmless(d, i, action, origin);
    }
  }

  lemma StepNoticesCancel(d: Dir, step: Step, origin: Record)
    requires Safe(d, origin) && Possible(d, step) && CancelNoticed(d)
    ensures CancelNoticed(Next(d, step))
  {
    if step.Supervise? {
      SuperviseNoticesCancel(d, step.i, step.action, origin);
    } else if step.Reconcile? {
      ReconcileStates(d);
    } else {
      OtherStates(d, step, origin);
    }
  }

  /** A supervisor without the claim leaves the record alone, and at most creates the claim. */
  lemma CandidateIsHarmless(d: Dir, i: nat, action: Action, origin: Record)
    requires Safe(d, origin) && Possible(d, Supervise(i, action)) && !Past(d.supervisors[i].stage)
    ensures var e := Next(d, Supervise(i, action));
      && e.disk == d.disk.(claim := e.disk.claim) && e.server == d.server
      && (e.disk.claim == d.disk.claim || (d.disk.claim.NoClaim? && HasOwner(e) && Owner(e).stage.Claiming? && !Owner(e).started))
      && (HasOwner(d) && d.disk.claim.Claim? ==> HasOwner(e) && Owner(e) == Owner(d))
  {
    assert SupervisorOk(d.disk.claim, i, d.supervisors[i], origin);
  }

  /** `Reconcile` leaves the state of the record as it is, or makes it Lost. */
  lemma ReconcileStates(d: Dir)
    requires d.server.Idle?
    ensures var e := Reconciled(d);
      && (e.disk.record.state == d.disk.record.state || e.disk.record.state == Lost)
      && e.server.Idle? && e.supervisors == d.supervisors
      && e.disk == d.disk.(record := e.disk.record, stateFile := e.disk.stateFile)
  {
  }

  /** No other step touches the owner, and none takes a request back. */
  lemma OtherStates(d: Dir, step: Step, origin: Record)
    requires Safe(d, origin) && Possible(d, step) && !step.Supervise? && !step.Reconcile?
    ensures var e := Next(d, step);
      && e.disk.claim == d.disk.claim && (HasOwner(d) ==> HasOwner(e) && Owner(e) == Owner(d))
      && (HasOwner(e) ==> HasOwner(d))
      && (d.disk.cancelAt.Some? ==> e.disk.cancelAt.Some?) && e.disk.timeoutAt == d.disk.timeoutAt
      && e.disk.starts == d.disk.starts
    ensures forall bad :: bad != Lost && RecordsOutside(d, bad) ==> RecordsOutside(Next(d, step), bad)
  {
  }

  lemma OwnerKeepsClaim(disk: Disk, i: nat, s: Supervisor, action: Action, origin: Record)
    requires Enabled(disk, s, action) && OwnerOk(disk, s, origin) && disk.claim.creator == i
    ensures var acted := Act(disk, i, s, action); acted.disk.claim.Claim? && acted.disk.claim.creator == i
  {
  }

  lemma OwnerAfter(d: Dir, i: nat, action: Action, origin: Record)
    requires Safe(d, origin) && Possible(d, Supervise(i, action)) && Past(d.supervisors[i].stage)
    ensures HasOwner(d) && Owner(d) == d.supervisors[i] && d.disk.claim.creator == i && OwnerOk(d.disk, Owner(d), origin)
    ensures var e := Next(d, Supervise(i, action)); var acted := Act(d.disk, i, d.supervisors[i], action);
      HasOwner(e) && Owner(e) == acted.self && e.disk == acted.disk && e.server == d.server
  {
    assert SupervisorOk(d.disk.claim, i, d.supervisors[i], origin);
    OwnerKeepsClaim(d.disk, i, d.supervisors[i], action, origin);
  }

  lemma {:induction false} RunNoticesCancel(d: Dir, steps: seq<Step>, origin: Record)
    requires Safe(d, origin) && Run(d, steps) && CancelNoticed(d)
    ensures CancelNoticed(After(d, steps))
    decreases |steps|
  {
    if steps != [] {
      StepNoticesCancel(d, steps[0], origin);
      StepKeepsSafe(d, steps[0], origin);
      RunNoticesCancel(Next(d, steps[0]), steps[1..], origin);
    }
  }

  /**
   * A job for which cancellation is requested before its supervisor looks for the request the
   * last time is never reported succeeded.
   */
  lemma CancelInTimeNeverSucceeds(d: Dir, steps: seq<Step>, more: seq<Step>)
    requires Initial(d) && Run(d, steps) && Run(After(d, steps), more)
    requires var e := After(d, steps);
      e.disk.cancelAt.Some? && !Terminal(e.disk.record.state) && (HasOwner(e) ==> BeforeCancelCheck(Owner(e).stage))
    ensures After(After(d, steps), more).disk.record.state != Succeeded
  {
    InitialIsSafe(d);
    RunKeepsSafe(d, steps, d.disk.record);
    RunNoticesCancel(After(d, steps), more, d.disk.record);
  }

  // ---------- A cancel request before the start ----------

  predicate NeverStarts(d: Dir) {
    && d.disk.cancelAt.Some? && d.disk.starts == []
    && (HasOwner(d) ==> !Owner(d).started && (Unchecked(Owner(d).stage) || Ending(Owner(d).stage)))
  }

  lemma OwnerStaysUnstarted(disk: Disk, i: nat, s: Supervisor, action: Action, origin: Record)
    requires Enabled(disk, s, action) && OwnerOk(disk, s, origin) && disk.cancelAt.Some? && disk.starts == []
    requires !s.started && (Unchecked(s.stage) || Ending(s.stage))
    ensures var acted := Act(disk, i, s, action); var t := acted.self;
      !t.started && (Unchecked(t.stage) || Ending(t.stage)) && acted.disk.starts == [] && acted.disk.cancelAt.Some?
  {
  }

  lemma StepKeepsUnstarted(d: Dir, step: Step, origin: Record)
    requires Safe(d, origin) && Possible(d, step) && NeverStarts(d)
    ensures NeverStarts(Next(d, step))
  {
    if step.Supervise? {
      assert SupervisorOk(d.disk.claim, step.i, d.supervisors[step.i], origin);
      if Past(d.supervisors[step.i].stage) {
        OwnerStaysUnstarted(d.disk, step.i, d.supervisors[step.i], step.action, origin);
        OwnerAfter(d, step.i, step.action, origin);
      } else {
        CandidateIsHarmless(d, step.i, step.action, origin);
      }
    } else if step.Reconcile? {
      ReconcileStates(d);
    } else {
      OtherStates(d, step, origin);
    }
  }

  lemma {:induction false} RunKeepsUnstarted(d: Dir, steps: seq<Step>, origin: Record)
    requires Safe(d, origin) && Run(d, steps) && NeverStarts(d)
    ensures NeverStarts(After(d, steps))
    decreases |steps|
  {
    if steps != [] {
      StepKeepsUnstarted(d, steps[0], origin);
      StepKeepsSafe(d, steps[0], origin);
      RunKeepsUnstarted(Next(d, steps[0]), steps[1..], origin);
    }
  }

  /** If cancellation is requested before the owner of the claim looks for it first, nothing is ever started. */
  lemma CancelBeforeStartIsFinal(d: Dir, steps: seq<Step>, more: seq<Step>)
    requires Initial(d) && Run(d, steps) && Run(After(d, steps), more)
    requires var e := After(d, steps); e.disk.cancelAt.Some? && (HasOwner(e) ==> Unchecked(Owner(e).stage))
    ensures After(After(d, steps), more).disk.starts == []
  {
    InitialIsSafe(d);
    RunKeepsSafe(d, steps, d.disk.record);
    RunKeepsUnstarted(After(d, steps), more, d.disk.record);
  }

  // ---------- A timeout in time ----------

  predicate TimesOut(s: Supervisor) {
    && EndsOutside(s, Succeeded) && EndsOutside(s, Cancelled) && EndsOutside(s, Failed)
    && (BeforeTimeoutCheck(s.stage) || s.stage == Verifying(OnTimeout) || Ending(s.stage))
  }

  predicate TimeoutNoticed(d: Dir) {
    && d.disk.timeoutAt.Some? && RecordsOutside(d, Succeeded) && RecordsOutside(d, Cancelled) && RecordsOutside(d, Failed)
    && HasOwner(d) && TimesOut(Owner(d))
  }

  predicate OnTime(state: Status) {
    state != Succeeded && state != Cancelled && state != Failed
  }

  predicate StaysOnTime(acted: Acted) {
    TimesOut(acted.self) && OnTime(acted.disk.record.state) && acted.disk.timeoutAt.Some?
  }

  lemma EndingOnTime(disk: Disk, i: nat, s: Supervisor, action: Action, origin: Record)
    requires Enabled(disk, s, action) && OwnerOk(disk, s, origin) && disk.timeoutAt.Some?
    requires TimesOut(s) && OnTime(disk.record.state) && AtTheEnd(action)
    ensures StaysOnTime(Act(disk, i, s, action))
  {
  }

  lemma RunningOnTime(disk: Disk, i: nat, s: Supervisor, action: Action, origin: Record)
    requires Enabled(disk, s, action) && OwnerOk(disk, s, origin) && disk.timeoutAt.Some?
    requires TimesOut(s) && OnTime(disk.record.state) && !AtTheEnd(action)
    ensures StaysOnTime(Act(disk, i, s, action))
  {
  }

  lemma OwnerNoticesTimeout(disk: Disk, i: nat, s: Supervisor, action: Action, origin: Record)
    requires Enabled(disk, s, action) && OwnerOk(disk, s, origin) && disk.timeoutAt.Some?
    requires TimesOut(s) && OnTime(disk.record.state)
    ensures StaysOnTime(Act(disk, i, s, action))
  {
    if AtTheEnd(action) {
      EndingOnTime(disk, i, s, action, origin);
    } else {
      RunningOnTime(disk, i, s, action, origin);
    }
  }

  lemma SuperviseNoticesTimeout(d: Dir, i: nat, action: Action, origin: Record)
    requires Safe(d, origin) && Possible(d, Supervise(i, action)) && TimeoutNoticed(d)
    ensures TimeoutNoticed(Next(d, Supervise(i, action)))
  {
    assert SupervisorOk(d.disk.claim, i, d.supervisors[i], origin);
    if Past(d.supervisors[i].stage) {
      OwnerAfter(d, i, action, origin);
      OwnerNoticesTimeout(d.disk, i, d.supervisors[i], action, origin);
    } else {
      CandidateIsHarmless(d, i, action, origin);
    }
  }

  lemma StepNoticesTimeout(d: Dir, step: Step, origin: Record)
    requires Safe(d, origin) && Possible(d, step) && TimeoutNoticed(d)
    ensures TimeoutNoticed(Next(d, step))
  {
    if step.Supervise? {
      SuperviseNoticesTimeout(d, step.i, step.action, origin);
    } else if step.Reconcile? {
      ReconcileStates(d);
    } else {
      OtherStates(d, step, origin);
    }
  }

  lemma {:induction false} RunNoticesTimeout(d: Dir, steps: seq<Step>, origin: Record)
    requires Safe(d, origin) && Run(d, steps) && TimeoutNoticed(d)
    ensures TimeoutNoticed(After(d, steps))
    decreases |steps|
  {
    if steps != [] {
      StepNoticesTimeout(d, steps[0], origin);
      StepKeepsSafe(d, steps[0], origin);
      RunNoticesTimeout(Next(d, steps[0]), steps[1..], origin);
    }
  }

  /**
   * A timeout that strikes while the command runs prevails over its exit code, and whatever else
   * is requested or declared: the job ends as timed out, or lost.
   */
  lemma TimeoutInTimePrevails(d: Dir, steps: seq<Step>, more: seq<Step>)
    requires Initial(d) && Run(d, steps) && Run(After(d, steps), more)
    requires var e := After(d, steps);
      e.disk.timeoutAt.Some? && !Terminal(e.disk.record.state) && HasOwner(e) && BeforeTimeoutCheck(Owner(e).stage)
    ensures var state := After(After(d, steps), more).disk.record.state;
      Terminal(state) ==> state == TimedOut || state == Lost
  {
    InitialIsSafe(d);
    RunKeepsSafe(d, steps, d.disk.record);
    RunNoticesTimeout(After(d, steps), more, d.disk.record);
  }
}
