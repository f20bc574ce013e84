/**
 * Why a job ended as its record says: which step of its supervisor decided, and what it saw. In
 * every run, also with other processes between the steps of `Reconcile`.
 */
module Verdicts {
  import opened Wrappers
  import opened EventLog
  import opened JobDirectory
  import opened Finality
  import opened Reconciliation

  predicate HasOwner(d: Dir) {
    d.disk.claim.Claim? && d.disk.claim.creator < |d.supervisors|
  }

  function Owner(d: Dir): Supervisor
    requires HasOwner(d)
  {
    d.supervisors[d.disk.claim.creator]
  }

  /** What the owner decided, from the moment it did. */
  function Verdict(s: Supervisor): Option<Outcome> {
    if s.stage.Finishing? then Some(s.stage.outcome)
    else if s.stage.Closing? || s.stage.Done? then Some(Outcome(s.job.state, s.job.verified, s.job.message))
    else None
  }

  predicate IsUntimed(stage: Stage) {
    stage.Untimed?
  }

  predicate IsUndisturbed(stage: Stage) {
    stage.Undisturbed?
  }

  function IsVerifying(path: JobDirectory.Path): Stage -> bool {
    stage => stage == Verifying(path)
  }

  // ---------- The owner's way through its stages ----------

  /** Other steps leave the owner alone; a new owner is at its first stage. */
  lemma OthersLeaveOwner(d: Dir, step: Step, origin: Record)
    requires Safe(d, origin) && Possible(d, step)
    ensures var e := Next(d, step);
      && (HasOwner(d) && !(step.Supervise? && step.i == d.disk.claim.creator) ==>
            HasOwner(e) && e.disk.claim.creator == d.disk.claim.creator && Owner(e) == Owner(d))
      && (!HasOwner(d) && HasOwner(e) ==> Owner(e).stage.Claiming?)
  {
    if step.Supervise? {
      assert SupervisorOk(d.disk.claim, step.i, d.supervisors[step.i], origin);
      if !Past(d.supervisors[step.i].stage) && (d.disk.claim.Claim? || !step.action.CreateClaim?) {
        CandidateAct(d.disk, step.i, d.supervisors[step.i], step.action);
      }
    } else if step.Reconcile? {
      ReconcileTouchesRecordOnly(d);
    }
  }

  lemma OwnerActs(d: Dir, i: nat, action: Action, origin: Record)
    requires Safe(d, origin) && Possible(d, Supervise(i, action)) && HasOwner(d) && d.disk.claim.creator == i
    ensures OwnerOk(d.disk, d.supervisors[i], origin)
    ensures var e := Next(d, Supervise(i, action)); var acted := Act(d.disk, i, d.supervisors[i], action);
      HasOwner(e) && e.disk.claim.creator == i && Owner(e) == acted.self && e.disk == acted.disk
  {
    assert SupervisorOk(d.disk.claim, i, d.supervisors[i], origin);
    OwnerRecord(d.disk, i, d.supervisors[i], action, origin);
  }

  predicate At(d: Dir, p: Stage -> bool) {
    HasOwner(d) && p(Owner(d).stage)
  }

  /** Step `k` of the run is this one, taken by the owner of the claim. */
  ghost predicate Takes(d: Dir, steps: seq<Step>, k: nat, i: nat, action: Action) {
    && k < |steps| && steps[k] == Supervise(i, action) && Run(d, steps[..k])
    && var e := After(d, steps[..k]); Possible(e, steps[k]) && HasOwner(e) && e.disk.claim.creator == i
  }

  lemma RunTo(d: Dir, steps: seq<Step>, k: nat)
    requires Run(d, steps) && k < |steps|
    ensures Run(d, steps[..k]) && Possible(After(d, steps[..k]), steps[k])
    ensures Run(d, steps[..k + 1]) && After(d, steps[..k + 1]) == Next(After(d, steps[..k]), steps[k])
  {
    RunSplits(d, steps, k);
    assert steps[k..][0] == steps[k];
    Extend(d, steps[..k], steps[k]);
    assert steps[..k] + [steps[k]] == steps[..k + 1];
  }

  lemma SafeAt(d: Dir, steps: seq<Step>)
    requires Initial(d) && Run(d, steps)
    ensures Safe(After(d, steps), d.disk.record)
  {
    InitialIsSafe(d);
    RunKeepsSafe(d, steps, d.disk.record);
  }

  /** The owner was at these stages before the last step already, or that step is its own. */
  lemma EnteredBefore(d: Dir, steps: seq<Step>, n: nat, p: Stage -> bool)
    requires Initial(d) && Run(d, steps) && n < |steps| && !p(Claiming)
    requires Run(d, steps[..n + 1]) && At(After(d, steps[..n + 1]), p)
    ensures Run(d, steps[..n]) && HasOwner(After(d, steps[..n]))
    ensures After(d, steps[..n]).disk.claim.creator == After(d, steps[..n + 1]).disk.claim.creator
    ensures At(After(d, steps[..n]), p)
            || (steps[n].Supervise? && Takes(d, steps, n, After(d, steps[..n]).disk.claim.creator, steps[n].action))
  {
    RunTo(d, steps, n);
    SafeAt(d, steps[..n]);
    var before, step := After(d, steps[..n]), steps[n];
    OthersLeaveOwner(before, step, d.disk.record);
    if step.Supervise? && HasOwner(before) && step.i == before.disk.claim.creator {
      OwnerActs(before, step.i, step.action, d.disk.record);
    }
  }

  /** The owner took the step by which it came to these stages, and has not left them since. */
  ghost predicate EnteredAt(d: Dir, steps: seq<Step>, n: nat, p: Stage -> bool, k: nat, i: nat, action: Action) {
    && k < n && Takes(d, steps, k, i, action) && !p(Owner(After(d, steps[..k])).stage)
    && forall m :: k < m <= n <= |steps| ==> AtMoment(d, steps, m, p, i)
  }

  ghost predicate AtMoment(d: Dir, steps: seq<Step>, m: nat, p: Stage -> bool, i: nat) {
    m <= |steps| && Run(d, steps[..m]) && At(After(d, steps[..m]), p) && After(d, steps[..m]).disk.claim.creator == i
  }

  lemma OwnedLater(d: Dir, steps: seq<Step>, n: nat, p: Stage -> bool, i: nat)
    requires Initial(d) && AtMoment(d, steps, n, p, i)
    ensures n > 0
  {
    assert steps[..0] == [];
  }

  lemma {:induction false} Entered(d: Dir, steps: seq<Step>, n: nat, p: Stage -> bool, i: nat) returns (k: nat, action: Action)
    requires Initial(d) && Run(d, steps) && n <= |steps| && AtMoment(d, steps, n, p, i) && !p(Claiming)
    ensures EnteredAt(d, steps, n, p, k, i, action)
    decreases n
  {
    OwnedLater(d, steps, n, p, i);
    EnteredBefore(d, steps, n - 1, p);
    if At(After(d, steps[..n - 1]), p) {
      k, action := Entered(d, steps, n - 1, p, i);
    } else {
      k, action := n - 1, steps[n - 1].action;
    }
  }

  // ---------- What the steps of the owner look at ----------

  lemma LeadsToUntimed(disk: Disk, i: nat, s: Supervisor, action: Action)
    requires Enabled(disk, s, action) && !s.stage.Untimed? && Act(disk, i, s, action).self.stage.Untimed?
    ensures action.CheckTimeout? && disk.timeoutAt.None?
  {
  }

  lemma LeadsToUndisturbed(disk: Disk, i: nat, s: Supervisor, action: Action)
    requires Enabled(disk, s, action) && !s.stage.Undisturbed? && Act(disk, i, s, action).self.stage.Undisturbed?
    ensures action.CheckCancelled? && s.stage.Untimed? && disk.cancelAt.None?
  {
  }

  lemma LeadsToVerifying(disk: Disk, i: nat, s: Supervisor, action: Action, path: JobDirectory.Path)
    requires Enabled(disk, s, action) && s.stage != Verifying(path) && Act(disk, i, s, action).self.stage == Verifying(path)
    ensures match path
      case OnTimeout => action.CheckTimeout? && disk.timeoutAt.Some?
      case OnCancel => action.CheckCancelled? && s.stage.Untimed? && disk.cancelAt.Some?
      case Declared(state) => action.CheckDeclared? && s.stage.Undisturbed? && disk.declared == Some(state)
  {
  }

  /** A well-formed acknowledgement file that is no older than the request. */
  predicate AcknowledgedSince(disk: Disk, request: nat) {
    disk.ack.Some? && disk.ack.value.wellFormed && disk.ack.value.at >= request
  }

  /** In external mode the request has to be acknowledged. */
  predicate AcknowledgedIfExternal(disk: Disk, mode: CancellationMode, request: nat) {
    mode.ProcessGroup? || AcknowledgedSince(disk, request)
  }

  /** What an outcome tells of the step that decided it, and of the files at that moment. */
  predicate Explained(disk: Disk, s: Supervisor, action: Action, o: Outcome) {
    match o.state
    case Succeeded =>
      action == CheckDeclared(true) && s.stage.Undisturbed? && disk.declared.None? && !o.verified && o.message == NoMessage
    case Cancelled =>
      o.verified && o.message == NoMessage &&
      (|| (action.CheckCancel? && disk.cancelAt.Some?)
       || (action == Judge(true) && s.stage == Verifying(OnCancel)
           && (disk.cancelAt.Some? ==> AcknowledgedIfExternal(disk, s.job.mode, disk.cancelAt.value)))
       || (action == Judge(true) && s.stage == Verifying(Declared(Cancelled))))
    case TimedOut =>
      o.message == NoMessage && action.Judge? &&
      (|| (s.stage == Verifying(OnTimeout)
           && (disk.cancelAt.Some? ==>
                 (o.verified <==> action.gone && AcknowledgedIfExternal(disk, s.job.mode, disk.cancelAt.value)))
           && (disk.cancelAt.None? && disk.timeoutAt.Some? ==>
                 (o.verified <==> action.gone && AcknowledgedIfExternal(disk, s.job.mode, disk.timeoutAt.value))))
       || (action.gone && o.verified && s.stage == Verifying(Declared(TimedOut))))
    case Failed =>
      !o.verified &&
      (match o.message
       case NotStarted => action == Start(false) || action == Feed(false)
       case ExitStatus => action == CheckDeclared(false) && s.stage.Undisturbed? && disk.declared.None?
       case CancellationUnverified =>
         action.Judge? && s.stage == Verifying(OnCancel)
         && (disk.cancelAt.Some? ==> !(action.gone && AcknowledgedIfExternal(disk, s.job.mode, disk.cancelAt.value)))
       case DeclarationUnverified => action == Judge(false) && s.stage.Verifying? && s.stage.path.Declared?
       case _ => false)
    case Lost =>
      action.CheckDigest? && (s.command == "" || Sha256(s.command) != s.job.digest) && !o.verified && o.message == DigestMismatch
    case _ => false
  }

  lemma JudgementIsExplained(disk: Disk, s: Supervisor, i: nat, gone: bool, origin: Record)
    requires Enabled(disk, s, Judge(gone)) && OwnerOk(disk, s, origin)
    ensures var o := Verdict(Act(disk, i, s, Judge(gone)).self); o.Some? && Explained(disk, s, Judge(gone), o.value)
  {
  }

  lemma CheckIsExplained(disk: Disk, i: nat, s: Supervisor, action: Action, origin: Record)
    requires Enabled(disk, s, action) && OwnerOk(disk, s, origin) && !Ending(s.stage) && !action.Judge?
    requires Ending(Act(disk, i, s, action).self.stage)
    ensures var o := Verdict(Act(disk, i, s, action).self); o.Some? && Explained(disk, s, action, o.value)
  {
  }

  lemma DecisionIsExplained(disk: Disk, i: nat, s: Supervisor, action: Action, origin: Record)
    requires Enabled(disk, s, action) && OwnerOk(disk, s, origin) && !Ending(s.stage)
    requires Ending(Act(disk, i, s, action).self.stage)
    ensures var o := Verdict(Act(disk, i, s, action).self); o.Some? && Explained(disk, s, action, o.value)
  {
    if action.Judge? {
      JudgementIsExplained(disk, s, i, action.gone, origin);
    } else {
      CheckIsExplained(disk, i, s, action, origin);
    }
  }

  /** A process group that is taken to be gone is gone. */
  lemma JudgedGone(disk: Disk, s: Supervisor, gone: bool)
    requires Enabled(disk, s, Judge(gone)) && gone
    ensures !disk.groupRunning
  {
  }

  // ---------- The verdict is kept, and recorded ----------

  lemma VerdictStep(d: Dir, step: Step, origin: Record)
    requires Safe(d, origin) && Possible(d, step) && At(d, Ending)
    ensures var e := Next(d, step);
      && At(e, Ending) && e.disk.claim.creator == d.disk.claim.creator
      && Verdict(Owner(e)) == Verdict(Owner(d)) && Owner(e).started == Owner(d).started && e.disk.judged == d.disk.judged
  {
    OthersLeaveOwner(d, step, origin);
    if step.Supervise? && step.i == d.disk.claim.creator {
      OwnerActs(d, step.i, step.action, origin);
      EndedActs(d.disk, step.i, d.supervisors[step.i], step.action, origin);
    } else if step.Supervise? {
      assert SupervisorOk(d.disk.claim, step.i, d.supervisors[step.i], origin);
      CandidateAct(d.disk, step.i, d.supervisors[step.i], step.action);
    } else if step.Reconcile? {
      ReconcileTouchesRecordOnly(d);
    }
  }

  lemma EndedActs(disk: Disk, i: nat, s: Supervisor, action: Action, origin: Record)
    requires Enabled(disk, s, action) && Ending(s.stage) && OwnerOk(disk, s, origin)
    ensures var acted := Act(disk, i, s, action);
      && Ending(acted.self.stage) && Verdict(acted.self) == Verdict(s) && acted.self.started == s.started
      && acted.disk.judged == disk.judged
  {
  }

  /** The verdict, whether the owner started anything, and what it judged on. */
  predicate SameVerdict(d: Dir, e: Dir) {
    HasOwner(d) && HasOwner(e) &&
    Verdict(Owner(e)) == Verdict(Owner(d)) && Owner(e).started == Owner(d).started && e.disk.judged == d.disk.judged
  }

  lemma {:induction false} VerdictStays(d: Dir, steps: seq<Step>, m: nat, n: nat, i: nat)
    requires Initial(d) && Run(d, steps) && m <= n <= |steps| && AtMoment(d, steps, m, Ending, i)
    ensures AtMoment(d, steps, n, Ending, i)
    ensures SameVerdict(After(d, steps[..m]), After(d, steps[..n]))
    decreases n - m
  {
    if m < n {
      VerdictStays(d, steps, m, n - 1, i);
      NextMoment(d, steps, n - 1, i);
    }
  }

  lemma NextMoment(d: Dir, steps: seq<Step>, n: nat, i: nat)
    requires Initial(d) && Run(d, steps) && n < |steps| && AtMoment(d, steps, n, Ending, i)
    ensures AtMoment(d, steps, n + 1, Ending, i)
    ensures SameVerdict(After(d, steps[..n]), After(d, steps[..n + 1]))
  {
    RunTo(d, steps, n);
    SafeAt(d, steps[..n]);
    VerdictStep(After(d, steps[..n]), steps[n], d.disk.record);
  }

  /** A terminal record that `Reconcile` did not make says what the owner decided. */
  predicate Reported(d: Dir) {
    Terminal(d.disk.record.state) && !WasLost(d.disk.record) ==>
      && HasOwner(d) && Owner(d).stage.Done?
      && Verdict(Owner(d)) == Some(Outcome(d.disk.record.state, d.disk.record.verified, d.disk.record.message))
  }

  lemma OwnerReports(disk: Disk, i: nat, s: Supervisor, action: Action, origin: Record)
    requires Enabled(disk, s, action) && OwnerOk(disk, s, origin) && disk.claim.creator == i && CopyOk(s.job, origin)
    ensures var acted := Act(disk, i, s, action);
      && (s.stage.Done? ==> acted.self.stage.Done? && acted.self.job == s.job)
      && (acted.disk.record == disk.record
          || (acted.disk.record == acted.self.job && (Terminal(acted.self.job.state) ==> acted.self.stage.Done?)))
  {
  }

  lemma StepKeepsReported(d: Dir, step: Step, origin: Record)
    requires Safe(d, origin) && Settled(d) && Reported(d) && Possible(d, step)
    ensures Reported(Next(d, step))
  {
    OthersLeaveOwner(d, step, origin);
    match step
    case Supervise(i, action) =>
      assert SupervisorOk(d.disk.claim, i, d.supervisors[i], origin);
      if Past(d.supervisors[i].stage) {
        OwnerActs(d, i, action, origin);
        OwnerReports(d.disk, i, d.supervisors[i], action, origin);
      } else if d.disk.claim.Claim? || !action.CreateClaim? {
        CandidateAct(d.disk, i, d.supervisors[i], action);
      }
    case Reconcile =>
      ReconcileCases(d);
      ReconcileTouchesRecordOnly(d);
    case ReconcileFine =>
      if d.server.WritingBack? {
        assert !Terminal(d.server.copy.state);
      }
    case _ =>
  }

  lemma {:induction false} RunKeepsReported(d: Dir, steps: seq<Step>, origin: Record)
    requires Safe(d, origin) && Settled(d) && Reported(d) && Run(d, steps)
    ensures Reported(After(d, steps))
    decreases |steps|
  {
    if steps != [] {
      StepKeepsSafe(d, steps[0], origin);
      StepKeepsSettled(d, steps[0], origin);
      StepKeepsReported(d, steps[0], origin);
      RunKeepsReported(Next(d, steps[0]), steps[1..], origin);
    }
  }

  // ---------- Requests and acknowledgements stay ----------

  /** Requests are not taken back or renewed; an acknowledgement can only be renewed. */
  predicate Onward(s: Disk, t: Disk) {
    && (s.cancelAt.Some? ==> t.cancelAt == s.cancelAt) && (s.timeoutAt.Some? ==> t.timeoutAt == s.timeoutAt)
    && s.now <= t.now && (s.ack.Some? && s.ack.value.at <= s.now ==>
          t.ack.Some? && s.ack.value.at <= t.ack.value.at <= t.now)
  }

  lemma ActIsOnward(disk: Disk, i: nat, s: Supervisor, action: Action)
    requires Enabled(disk, s, action)
    ensures var next := Act(disk, i, s, action).disk;
      && next.cancelAt == disk.cancelAt && next.now == disk.now && next.ack == disk.ack
      && (disk.timeoutAt.Some? ==> next.timeoutAt == disk.timeoutAt)
  {
  }

  lemma StepIsOnward(d: Dir, step: Step)
    requires Possible(d, step)
    ensures Onward(d.disk, Next(d, step).disk)
  {
    if step.Supervise? {
      ActIsOnward(d.disk, step.i, d.supervisors[step.i], step.action);
    } else if step.Reconcile? {
      ReconcileTouchesRecordOnly(d);
    }
  }

  lemma OnwardOn(r: Disk, s: Disk, t: Disk)
    requires Onward(r, s) && Onward(s, t)
    ensures Onward(r, t)
  {
  }

  lemma {:induction false} RunIsOnward(d: Dir, steps: seq<Step>, m: nat, n: nat)
    requires Run(d, steps) && m <= n <= |steps|
    ensures Run(d, steps[..m]) && Run(d, steps[..n])
    ensures Onward(After(d, steps[..m]).disk, After(d, steps[..n]).disk)
    decreases n - m
  {
    if m < n {
      RunIsOnward(d, steps, m, n - 1);
      RunTo(d, steps, n - 1);
      StepIsOnward(After(d, steps[..n - 1]), steps[n - 1]);
      OnwardOn(After(d, steps[..m]).disk, After(d, steps[..n - 1]).disk, After(d, steps[..n]).disk);
    } else {
      RunSplits(d, steps, m);
    }
  }

  /** A timeout, the first cancel request and the last acknowledgement carry the time at which they were made. */
  lemma RequestsAreDated(d: Dir, steps: seq<Step>, k: nat)
    requires Run(d, steps) && k < |steps|
    ensures Run(d, steps[..k])
    ensures var was, end := After(d, steps[..k]).disk, After(d, steps).disk;
      && (steps[k].Supervise? && steps[k].action.SetTimeout? ==> was.timeoutAt.None? && end.timeoutAt == Some(was.now))
      && (steps[k].RequestCancel? ==>
            end.cancelAt == if was.cancelAt.Some? then was.cancelAt else Some(was.now))
      && (steps[k].Acknowledge? ==> end.ack.Some? && end.ack.value.at >= was.now)
      && (steps[k].Acknowledge? && (forall j :: k < j < |steps| ==> !steps[j].Acknowledge?) ==>
            end.ack == Some(Ack(was.now, steps[k].wellFormed)))
  {
    assert steps[..|steps|] == steps;
    RunTo(d, steps, k);
    RunIsOnward(d, steps, k + 1, |steps|);
    if steps[k].Acknowledge? && forall j :: k < j < |steps| ==> !steps[j].Acknowledge? {
      AckStays(d, steps, k + 1, |steps|);
    }
  }

  lemma {:induction false} AckStays(d: Dir, steps: seq<Step>, m: nat, n: nat)
    requires Run(d, steps) && m <= n <= |steps| && forall j :: m <= j < n ==> !steps[j].Acknowledge?
    ensures Run(d, steps[..m]) && Run(d, steps[..n]) && After(d, steps[..n]).disk.ack == After(d, steps[..m]).disk.ack
    decreases n - m
  {
    RunIsOnward(d, steps, m, n);
    if m < n {
      AckStays(d, steps, m, n - 1);
      RunTo(d, steps, n - 1);
      var e, step := After(d, steps[..n - 1]), steps[n - 1];
      if step.Supervise? {
        ActIsOnward(e.disk, step.i, e.supervisors[step.i], step.action);
      } else if step.Reconcile? {
        ReconcileTouchesRecordOnly(e);
      }
    }
  }

  lemma {:induction false} AckIsPast(d: Dir, steps: seq<Step>)
    requires Run(d, steps) && (d.disk.ack.Some? ==> d.disk.ack.value.at <= d.disk.now)
    ensures var e := After(d, steps).disk; e.ack.Some? ==> e.ack.value.at <= e.now
    decreases |steps|
  {
    if steps != [] {
      if steps[0].Reconcile? {
        ReconcileTouchesRecordOnly(d);
      }
      AckIsPast(Next(d, steps[0]), steps[1..]);
    }
  }

  // ---------- Why a job ended ----------

  /** The step by which the owner decided, and what it saw. */
  ghost predicate Decided(d: Dir, steps: seq<Step>, k: nat, i: nat, action: Action, o: Outcome) {
    Takes(d, steps, k, i, action) && Explained(After(d, steps[..k]).disk, Owner(After(d, steps[..k])), action, o)
  }

  lemma DecisionOf(d: Dir, steps: seq<Step>, o: Outcome) returns (i: nat, k: nat, action: Action)
    requires Initial(d) && Run(d, steps) && HasOwner(After(d, steps)) && Verdict(Owner(After(d, steps))) == Some(o)
    ensures Decided(d, steps, k, i, action, o) && i == After(d, steps).disk.claim.creator
    ensures Owner(After(d, steps)).started == Act(After(d, steps[..k]).disk, i, Owner(After(d, steps[..k])), action).self.started
    ensures After(d, steps).disk.judged == Next(After(d, steps[..k]), steps[k]).disk.judged
  {
    assert steps[..|steps|] == steps;
    i := After(d, steps).disk.claim.creator;
    k, action := Entered(d, steps, |steps|, Ending, i);
    RunTo(d, steps, k);
    SafeAt(d, steps[..k]);
    OwnerActs(After(d, steps[..k]), i, action, d.disk.record);
    assert AtMoment(d, steps, k + 1, Ending, i);
    DecisionIsExplained(After(d, steps[..k]).disk, i, Owner(After(d, steps[..k])), action, d.disk.record);
    VerdictStays(d, steps, k + 1, |steps|, i);
  }

  lemma RecordedDecision(d: Dir, steps: seq<Step>) returns (i: nat, k: nat, action: Action)
    requires Initial(d) && Run(d, steps)
    requires Terminal(After(d, steps).disk.record.state) && !WasLost(After(d, steps).disk.record)
    ensures var r := After(d, steps).disk.record; Decided(d, steps, k, i, action, Outcome(r.state, r.verified, r.message))
    ensures HasOwner(After(d, steps)) && i == After(d, steps).disk.claim.creator
    ensures Owner(After(d, steps)).started == Act(After(d, steps[..k]).disk, i, Owner(After(d, steps[..k])), action).self.started
    ensures After(d, steps).disk.judged == Next(After(d, steps[..k]), steps[k]).disk.judged
  {
    InitialIsSafe(d);
    RunKeepsReported(d, steps, d.disk.record);
    var r := After(d, steps).disk.record;
    i, k, action := DecisionOf(d, steps, Outcome(r.state, r.verified, r.message));
  }

  /** How the owner came to the stage at which it took step `k`. */
  lemma CameFrom(d: Dir, steps: seq<Step>, k: nat, i: nat, p: Stage -> bool) returns (b: nat, action: Action)
    requires Initial(d) && Run(d, steps) && k <= |steps| && AtMoment(d, steps, k, p, i) && !p(Claiming)
    ensures b < k && Takes(d, steps, b, i, action) && !p(Owner(After(d, steps[..b])).stage)
    ensures p(Act(After(d, steps[..b]).disk, i, Owner(After(d, steps[..b])), action).self.stage)
  {
    b, action := Entered(d, steps, k, p, i);
    assert AtMoment(d, steps, b + 1, p, i);
    RunTo(d, steps, b);
    SafeAt(d, steps[..b]);
    OwnerActs(After(d, steps[..b]), i, action, d.disk.record);
  }

  /** Nobody had asked for a timeout or a cancellation when the owner looked, in this order. */
  ghost predicate LookedInVain(d: Dir, steps: seq<Step>, i: nat, a: nat, b: nat, c: nat) {
    && a < b < c
    && Takes(d, steps, a, i, CheckTimeout) && After(d, steps[..a]).disk.timeoutAt.None?
    && Takes(d, steps, b, i, CheckCancelled) && After(d, steps[..b]).disk.cancelAt.None?
  }

  lemma Looked(d: Dir, steps: seq<Step>, i: nat, c: nat) returns (a: nat, b: nat)
    requires Initial(d) && Run(d, steps) && c <= |steps| && AtMoment(d, steps, c, IsUndisturbed, i)
    ensures LookedInVain(d, steps, i, a, b, c)
  {
    var second, first;
    b, second := CameFrom(d, steps, c, i, IsUndisturbed);
    LeadsToUndisturbed(After(d, steps[..b]).disk, i, Owner(After(d, steps[..b])), second);
    assert AtMoment(d, steps, b, IsUntimed, i);
    a, first := CameFrom(d, steps, b, i, IsUntimed);
    LeadsToUntimed(After(d, steps[..a]).disk, i, Owner(After(d, steps[..a])), first);
  }

  /**
   * A job succeeded only if its command exited with 0, and its supervisor saw neither a timeout
   * nor a cancel request nor a declared state after that.
   */
  lemma WhySucceeded(d: Dir, steps: seq<Step>) returns (i: nat, a: nat, b: nat, c: nat)
    requires Initial(d) && Run(d, steps) && After(d, steps).disk.record.state == Succeeded
    ensures LookedInVain(d, steps, i, a, b, c)
    ensures Takes(d, steps, c, i, CheckDeclared(true)) && After(d, steps[..c]).disk.declared.None?
  {
    assert !WasLost(After(d, steps).disk.record) by {
      LostSaysLost(d, steps);
    }
    var action;
    i, c, action := RecordedDecision(d, steps);
    assert AtMoment(d, steps, c, IsUndisturbed, i);
    a, b := Looked(d, steps, i, c);
  }

  /** A record that the server made Lost says Lost. */
  predicate LostIsLost(d: Dir) {
    (WasLost(d.disk.record) ==> d.disk.record.state == Lost) && (d.server.LostLogged? ==> d.server.copy.state == Lost)
  }

  lemma StepKeepsLostIsLost(d: Dir, step: Step, origin: Record)
    requires Safe(d, origin) && LostIsLost(d) && Possible(d, step)
    ensures LostIsLost(Next(d, step))
  {
    match step
    case Supervise(i, action) =>
      assert SupervisorOk(d.disk.claim, i, d.supervisors[i], origin);
      if Past(d.supervisors[i].stage) {
        OwnerRecord(d.disk, i, d.supervisors[i], action, origin);
      } else if d.disk.claim.Claim? || !action.CreateClaim? {
        CandidateAct(d.disk, i, d.supervisors[i], action);
      }
    case Reconcile => ReconcileCases(d);
    case _ =>
  }

  lemma {:induction false} RunKeepsLostIsLost(d: Dir, steps: seq<Step>, origin: Record)
    requires Safe(d, origin) && LostIsLost(d) && Run(d, steps)
    ensures LostIsLost(After(d, steps))
    decreases |steps|
  {
    if steps != [] {
      StepKeepsSafe(d, steps[0], origin);
      StepKeepsLostIsLost(d, steps[0], origin);
      RunKeepsLostIsLost(Next(d, steps[0]), steps[1..], origin);
    }
  }

  lemma LostSaysLost(d: Dir, steps: seq<Step>)
    requires Initial(d) && Run(d, steps)
    ensures WasLost(After(d, steps).disk.record) ==> After(d, steps).disk.record.state == Lost
  {
    InitialIsSafe(d);
    RunKeepsLostIsLost(d, steps, d.disk.record);
  }

  /** The owner saw the request when it looked, and it is the same when it judges. */
  ghost predicate SawTimeout(d: Dir, steps: seq<Step>, i: nat, b: nat, k: nat) {
    && b < k <= |steps| && Takes(d, steps, b, i, CheckTimeout) && Run(d, steps[..k])
    && After(d, steps[..b]).disk.timeoutAt.Some? && After(d, steps[..k]).disk.timeoutAt == After(d, steps[..b]).disk.timeoutAt
  }

  ghost predicate SawCancel(d: Dir, steps: seq<Step>, i: nat, b: nat, k: nat) {
    && b < k <= |steps| && Takes(d, steps, b, i, CheckCancelled) && Run(d, steps[..k])
    && After(d, steps[..b]).disk.cancelAt.Some? && After(d, steps[..k]).disk.cancelAt == After(d, steps[..b]).disk.cancelAt
  }

  ghost predicate SawDeclared(d: Dir, steps: seq<Step>, i: nat, b: nat, k: nat, state: Status) {
    && b < k && (exists success :: Takes(d, steps, b, i, CheckDeclared(success)))
    && After(d, steps[..b]).disk.declared == Some(state)
  }

  /** What the owner saw before it judged on this path. */
  lemma Saw(d: Dir, steps: seq<Step>, i: nat, k: nat, path: JobDirectory.Path) returns (b: nat)
    requires Initial(d) && Run(d, steps) && k <= |steps| && AtMoment(d, steps, k, IsVerifying(path), i)
    ensures match path
      case OnTimeout => SawTimeout(d, steps, i, b, k)
      case OnCancel => SawCancel(d, steps, i, b, k)
      case Declared(state) => SawDeclared(d, steps, i, b, k, state)
  {
    var action;
    b, action := CameFrom(d, steps, k, i, IsVerifying(path));
    LeadsToVerifying(After(d, steps[..b]).disk, i, Owner(After(d, steps[..b])), action, path);
    RunIsOnward(d, steps, b, k);
    if path.Declared? {
      assert Takes(d, steps, b, i, CheckDeclared(action.success));
    }
  }

  /** At step `k` the owner found the process group gone, and it was. */
  ghost predicate FoundGone(d: Dir, steps: seq<Step>, k: nat, i: nat) {
    Takes(d, steps, k, i, Judge(true)) && !After(d, steps[..k]).disk.groupRunning
  }

  lemma ModeIsKept(d: Dir, steps: seq<Step>, k: nat, i: nat, action: Action)
    requires Initial(d) && Run(d, steps) && Takes(d, steps, k, i, action)
    ensures Owner(After(d, steps[..k])).job.mode == d.disk.record.mode
    ensures Owner(After(d, steps[..k])).job.digest == d.disk.record.digest
  {
    SafeAt(d, steps[..k]);
    assert SupervisorOk(After(d, steps[..k]).disk.claim, i, After(d, steps[..k]).supervisors[i], d.disk.record);
  }

  /**
   * A job was cancelled for one of three reasons. Its supervisor saw the request before it started
   * anything, and nothing was ever started. Or it saw the request after the command ended, found
   * the process group gone, and in external mode a well-formed acknowledgement that is no older
   * than the request. Or the job declared itself cancelled, and its process group was gone.
   */
  lemma WhyCancelled(d: Dir, steps: seq<Step>) returns (i: nat, b: nat, k: nat)
    requires Initial(d) && Run(d, steps) && After(d, steps).disk.record.state == Cancelled
    ensures
      || (Takes(d, steps, k, i, CheckCancel) && After(d, steps[..k]).disk.cancelAt.Some? && After(d, steps).disk.starts == [])
      || (SawCancel(d, steps, i, b, k) && FoundGone(d, steps, k, i)
          && AcknowledgedIfExternal(After(d, steps[..k]).disk, d.disk.record.mode, After(d, steps[..k]).disk.cancelAt.value)
          && After(d, steps).disk.judged.Some? && After(d, steps).disk.judged.value.path.OnCancel?)
      || (SawDeclared(d, steps, i, b, k, Cancelled) && FoundGone(d, steps, k, i)
          && After(d, steps).disk.judged.Some? && After(d, steps).disk.judged.value.path.Declared?)
  {
    LostSaysLost(d, steps);
    var action;
    i, k, action := RecordedDecision(d, steps);
    ModeIsKept(d, steps, k, i, action);
    b := 0;
    if action.CheckCancel? {
      NothingStarted(d, steps, k, i);
    } else {
      b := SawAt(d, steps, i, k, Owner(After(d, steps[..k])).stage.path);
      JudgedGone(After(d, steps[..k]).disk, Owner(After(d, steps[..k])), true);
    }
  }

  lemma NothingStarted(d: Dir, steps: seq<Step>, k: nat, i: nat)
    requires Initial(d) && Run(d, steps) && Takes(d, steps, k, i, CheckCancel) && HasOwner(After(d, steps))
    requires var before := After(d, steps[..k]);
      Owner(After(d, steps)).started == Act(before.disk, i, Owner(before), CheckCancel).self.started
    ensures After(d, steps).disk.starts == []
  {
    SafeAt(d, steps[..k]);
    SafeAt(d, steps);
    assert OwnerOk(After(d, steps[..k]).disk, Owner(After(d, steps[..k])), d.disk.record);
    assert OwnerOk(After(d, steps).disk, Owner(After(d, steps)), d.disk.record);
  }

  /** In particular: the acknowledgement file is there at the end, and no older than the request. */
  lemma ExternalCancelIsAcknowledged(d: Dir, steps: seq<Step>)
    requires Initial(d) && Run(d, steps)
    ensures var e := After(d, steps).disk;
      e.record.state == Cancelled && e.record.mode.External? && e.starts != []
      && e.judged.Some? && e.judged.value.path.OnCancel? ==>
      e.ack.Some? && e.cancelAt.Some? && e.ack.value.at >= e.cancelAt.value
  {
    var e := After(d, steps).disk;
    if e.record.state == Cancelled && e.record.mode.External? && e.starts != []
       && e.judged.Some? && e.judged.value.path.OnCancel? {
      SafeAt(d, steps);
      var i, b, k := WhyCancelled(d, steps);
      AckIsPast(d, steps[..k]);
      assert steps[..|steps|] == steps;
      RunIsOnward(d, steps, k, |steps|);
    }
  }

  /** The request a timed out job's acknowledgement is measured against. */
  function Trigger(disk: Disk): nat
    requires disk.timeoutAt.Some?
  {
    if disk.cancelAt.Some? then disk.cancelAt.value else disk.timeoutAt.value
  }

  /**
   * A job timed out because its supervisor saw the timeout after the command ended; then the record
   * says whether the process group was found gone, and in external mode acknowledged. Or the job
   * declared itself timed out, and its process group was gone.
   */
  lemma WhyTimedOut(d: Dir, steps: seq<Step>) returns (i: nat, b: nat, k: nat, gone: bool)
    requires Initial(d) && Run(d, steps) && After(d, steps).disk.record.state == TimedOut
    ensures Takes(d, steps, k, i, Judge(gone)) && (gone ==> !After(d, steps[..k]).disk.groupRunning)
    ensures
      || (SawTimeout(d, steps, i, b, k)
          && (After(d, steps).disk.record.verified <==>
                gone && TimeoutAcknowledged(After(d, steps[..k]).disk, d.disk.record.mode)))
      || (SawDeclared(d, steps, i, b, k, TimedOut) && gone && After(d, steps).disk.record.verified)
  {
    LostSaysLost(d, steps);
    var action;
    i, k, action := RecordedDecision(d, steps);
    ModeIsKept(d, steps, k, i, action);
    gone := action.gone;
    var s := Owner(After(d, steps[..k]));
    b := SawAt(d, steps, i, k, s.stage.path);
    TimedOutIs(After(d, steps[..k]).disk, s, gone, After(d, steps).disk.record);
  }

  lemma SawAt(d: Dir, steps: seq<Step>, i: nat, k: nat, path: JobDirectory.Path) returns (b: nat)
    requires Initial(d) && Run(d, steps) && k <= |steps| && Run(d, steps[..k]) && HasOwner(After(d, steps[..k]))
    requires After(d, steps[..k]).disk.claim.creator == i && Owner(After(d, steps[..k])).stage == Verifying(path)
    ensures match path
      case OnTimeout => SawTimeout(d, steps, i, b, k)
      case OnCancel => SawCancel(d, steps, i, b, k)
      case Declared(state) => SawDeclared(d, steps, i, b, k, state)
  {
    assert IsVerifying(path)(Owner(After(d, steps[..k])).stage);
    assert AtMoment(d, steps, k, IsVerifying(path), i);
    b := Saw(d, steps, i, k, path);
  }

  predicate TimeoutAcknowledged(disk: Disk, mode: CancellationMode) {
    disk.timeoutAt.Some? && AcknowledgedIfExternal(disk, mode, Trigger(disk))
  }

  lemma TimedOutIs(disk: Disk, s: Supervisor, gone: bool, r: Record)
    requires Explained(disk, s, Judge(gone), Outcome(r.state, r.verified, r.message)) && r.state == TimedOut
    ensures s.stage == Verifying(OnTimeout) || (s.stage == Verifying(Declared(TimedOut)) && gone && r.verified)
    ensures s.stage == Verifying(OnTimeout) && disk.timeoutAt.Some? ==>
      (r.verified <==> gone && TimeoutAcknowledged(disk, s.job.mode))
  {
  }

  /**
   * Why a job failed, as its message says: the command could not be started or fed; it exited with
   * another code, and nobody had asked for anything; a cancel request was seen, but the process
   * group was not found gone, or in external mode nothing acknowledged it; or a declared end was
   * seen and the process group was not found gone.
   */
  lemma WhyFailed(d: Dir, steps: seq<Step>) returns (i: nat, a: nat, b: nat, k: nat, action: Action)
    requires Initial(d) && Run(d, steps) && After(d, steps).disk.record.state == Failed
    ensures Takes(d, steps, k, i, action) && !After(d, steps).disk.record.verified
    ensures match After(d, steps).disk.record.message
      case NotStarted => action == Start(false) || action == Feed(false)
      case ExitStatus =>
        action == CheckDeclared(false) && After(d, steps[..k]).disk.declared.None? && LookedInVain(d, steps, i, a, b, k)
      case CancellationUnverified =>
        SawCancel(d, steps, i, b, k) && action.Judge? &&
        var disk := After(d, steps[..k]).disk;
        !(action.gone && AcknowledgedIfExternal(disk, d.disk.record.mode, disk.cancelAt.value))
      case DeclarationUnverified => action == Judge(false) && exists state :: SawDeclared(d, steps, i, b, k, state)
      case _ => false
  {
    LostSaysLost(d, steps);
    i, k, action := RecordedDecision(d, steps);
    ModeIsKept(d, steps, k, i, action);
    a, b := 0, 0;
    var s := Owner(After(d, steps[..k]));
    if action.Judge? {
      b := SawAt(d, steps, i, k, s.stage.path);
      if s.stage.path.Declared? {
        assert SawDeclared(d, steps, i, b, k, s.stage.path.state);
      }
    } else if action.CheckDeclared? {
      assert AtMoment(d, steps, k, IsUndisturbed, i);
      a, b := Looked(d, steps, i, k);
    }
  }

  /** A lost job was marked so by the server, or its supervisor was given another command. */
  lemma WhyLost(d: Dir, steps: seq<Step>) returns (i: nat, k: nat)
    requires Initial(d) && Run(d, steps) && After(d, steps).disk.record.state == Lost
    ensures
      || After(d, steps).disk.record.message == Unavailable
      || (Takes(d, steps, k, i, CheckDigest) && After(d, steps).disk.record.message == DigestMismatch &&
          var command := Owner(After(d, steps[..k])).command; command == "" || Sha256(command) != d.disk.record.digest)
  {
    i, k := 0, 0;
    if !WasLost(After(d, steps).disk.record) {
      var action;
      i, k, action := RecordedDecision(d, steps);
      ModeIsKept(d, steps, k, i, action);
    }
  }

  // ---------- And the other way round ----------

  /** What the owner decides at step `k` stays decided, and no other outcome is recorded, but that the server lost it. */
  lemma DecidedOutcomeIsRecorded(d: Dir, steps: seq<Step>, k: nat, i: nat, action: Action)
    requires Initial(d) && Run(d, steps) && Takes(d, steps, k, i, action)
    requires var before := After(d, steps[..k]);
      !Ending(Owner(before).stage) && Ending(Act(before.disk, i, Owner(before), action).self.stage)
    ensures var before, end := After(d, steps[..k]), After(d, steps);
      var o := Verdict(Act(before.disk, i, Owner(before), action).self);
      && o.Some? && HasOwner(end) && Verdict(Owner(end)) == o
      && (Terminal(end.disk.record.state) && !WasLost(end.disk.record) ==>
            end.disk.record.state == o.value.state && end.disk.record.verified == o.value.verified
            && end.disk.record.message == o.value.message)
  {
    assert steps[..|steps|] == steps;
    RunTo(d, steps, k);
    SafeAt(d, steps[..k]);
    OwnerActs(After(d, steps[..k]), i, action, d.disk.record);
    assert AtMoment(d, steps, k + 1, Ending, i);
    VerdictStays(d, steps, k + 1, |steps|, i);
    InitialIsSafe(d);
    RunKeepsReported(d, steps, d.disk.record);
  }

  /** A command that exits while nothing is declared: 0 means succeeded, anything else failed. */
  lemma ExitDecides(d: Dir, steps: seq<Step>, k: nat, i: nat, success: bool)
    requires Initial(d) && Run(d, steps) && Takes(d, steps, k, i, CheckDeclared(success))
    requires After(d, steps[..k]).disk.declared.None?
    ensures var r := After(d, steps).disk.record;
      Terminal(r.state) && !WasLost(r) ==>
        r.state == (if success then Succeeded else Failed) && r.message == (if success then NoMessage else ExitStatus)
  {
    DecidedOutcomeIsRecorded(d, steps, k, i, CheckDeclared(success));
  }

  /** A command that cannot be started, or not be given its input, failed; one with another digest is lost. */
  lemma StartDecides(d: Dir, steps: seq<Step>, k: nat, i: nat, action: Action)
    requires Initial(d) && Run(d, steps) && Takes(d, steps, k, i, action)
    requires
      || action == Start(false) || action == Feed(false)
      || (action == CheckDigest && (var command := Owner(After(d, steps[..k])).command;
                                    command == "" || Sha256(command) != d.disk.record.digest))
    ensures var r := After(d, steps).disk.record;
      Terminal(r.state) && !WasLost(r) ==>
        && r.state == (if action == CheckDigest then Lost else Failed) && !r.verified
        && r.message == (if action == CheckDigest then DigestMismatch else NotStarted)
  {
    ModeIsKept(d, steps, k, i, action);
    DecidedOutcomeIsRecorded(d, steps, k, i, action);
  }

  /** A cancel request that is seen before the command is started: cancelled, and nothing ever ran. */
  lemma EarlyCancelDecides(d: Dir, steps: seq<Step>, k: nat, i: nat)
    requires Initial(d) && Run(d, steps) && Takes(d, steps, k, i, CheckCancel)
    requires After(d, steps[..k]).disk.cancelAt.Some?
    ensures var r := After(d, steps).disk.record;
      Terminal(r.state) && !WasLost(r) ==> r.state == Cancelled && r.verified && r.message == NoMessage
  {
    DecidedOutcomeIsRecorded(d, steps, k, i, CheckCancel);
  }

  /** After a timeout: timed out in any case, and verified as a cancellation is. */
  lemma TimeoutDecides(d: Dir, steps: seq<Step>, k: nat, i: nat, gone: bool)
    requires Initial(d) && Run(d, steps) && Takes(d, steps, k, i, Judge(gone))
    requires Owner(After(d, steps[..k])).stage == Verifying(OnTimeout) && After(d, steps[..k]).disk.timeoutAt.Some?
    ensures var r, disk := After(d, steps).disk.record, After(d, steps[..k]).disk;
      var since := if disk.cancelAt.Some? then disk.cancelAt.value else disk.timeoutAt.value;
      Terminal(r.state) && !WasLost(r) ==>
        && r.state == TimedOut && r.message == NoMessage
        && r.verified == (gone && AcknowledgedIfExternal(disk, d.disk.record.mode, since))
  {
    ModeIsKept(d, steps, k, i, Judge(gone));
    DecidedOutcomeIsRecorded(d, steps, k, i, Judge(gone));
  }

  /** A declared state is believed exactly if the group is gone. */
  lemma DeclarationDecides(d: Dir, steps: seq<Step>, k: nat, i: nat, state: Status, gone: bool)
    requires Initial(d) && Run(d, steps) && Takes(d, steps, k, i, Judge(gone))
    requires Owner(After(d, steps[..k])).stage == Verifying(Declared(state))
    ensures var r := After(d, steps).disk.record;
      Terminal(r.state) && !WasLost(r) ==>
        && r.state == (if gone then state else Failed) && r.verified == gone
        && r.message == (if gone then NoMessage else DeclarationUnverified)
  {
    DecidedOutcomeIsRecorded(d, steps, k, i, Judge(gone));
  }

  /** A cancel request that is seen after the command ended: verified means cancelled, otherwise failed. */
  lemma CancelDecides(d: Dir, steps: seq<Step>, k: nat, i: nat, gone: bool)
    requires Initial(d) && Run(d, steps) && Takes(d, steps, k, i, Judge(gone))
    requires Owner(After(d, steps[..k])).stage == Verifying(OnCancel) && After(d, steps[..k]).disk.cancelAt.Some?
    ensures var r, disk := After(d, steps).disk.record, After(d, steps[..k]).disk;
      var verified := gone && AcknowledgedIfExternal(disk, d.disk.record.mode, disk.cancelAt.value);
      Terminal(r.state) && !WasLost(r) ==>
        && r.verified == verified && r.state == (if verified then Cancelled else Failed)
        && r.message == (if verified then NoMessage else CancellationUnverified)
  {
    ModeIsKept(d, steps, k, i, Judge(gone));
    DecidedOutcomeIsRecorded(d, steps, k, i, Judge(gone));
  }

  // ---------- Whose PID a record has ----------

  predicate PidOk(claim: Claim, copy: Record) {
    copy.supervisorPid == 0 || (claim.Claim? && copy.supervisorPid == claim.creator + 1)
  }

  /** Every copy of the record has the PID of the claim's owner, or none. */
  predicate PidsOk(d: Dir) {
    && PidOk(d.disk.claim, d.disk.record) && (!d.server.Idle? ==> PidOk(d.disk.claim, d.server.copy))
    && forall i :: 0 <= i < |d.supervisors| ==> PidOk(d.disk.claim, d.supervisors[i].job)
  }

  lemma ActKeepsPid(disk: Disk, i: nat, s: Supervisor, action: Action, origin: Record)
    requires Enabled(disk, s, action) && SupervisorOk(disk.claim, i, s, origin)
    requires PidOk(disk.claim, disk.record) && PidOk(disk.claim, s.job)
    ensures var acted := Act(disk, i, s, action);
      && PidOk(acted.disk.claim, acted.disk.record) && PidOk(acted.disk.claim, acted.self.job)
      && (disk.claim.Claim? ==> acted.disk.claim.Claim? && acted.disk.claim.creator == disk.claim.creator)
  {
  }

  lemma SuperviseKeepsPids(d: Dir, i: nat, action: Action, origin: Record)
    requires Safe(d, origin) && PidsOk(d) && Possible(d, Supervise(i, action))
    ensures PidsOk(Next(d, Supervise(i, action)))
  {
    var acted, e := Act(d.disk, i, d.supervisors[i], action), Next(d, Supervise(i, action));
    assert SupervisorOk(d.disk.claim, i, d.supervisors[i], origin);
    ActKeepsPid(d.disk, i, d.supervisors[i], action, origin);
    assert e.supervisors == d.supervisors[i := acted.self] && e.disk == acted.disk && e.server == d.server;
    forall k | 0 <= k < |e.supervisors| ensures PidOk(e.disk.claim, e.supervisors[k].job) {
      assert PidOk(d.disk.claim, d.supervisors[k].job);
    }
  }

  lemma ReconcileStepKeepsPids(d: Dir, origin: Record)
    requires Safe(d, origin) && PidsOk(d)
    ensures PidsOk(ReconcileStep(d))
  {
    var e := ReconcileStep(d);
    assert e.supervisors == d.supervisors && e.disk.claim == d.disk.claim;
    assert PidOk(d.disk.claim, e.disk.record);
  }

  lemma ReconcileKeepsPids(d: Dir, origin: Record)
    requires Safe(d, origin) && PidsOk(d) && d.server.Idle?
    ensures PidsOk(Reconciled(d))
  {
    ReconcileIs(d);
    ReconcileCases(d);
    assert forall i :: 0 <= i < |d.supervisors| ==> Reconciled(d).supervisors[i] == d.supervisors[i];
  }

  lemma StepKeepsPids(d: Dir, step: Step, origin: Record)
    requires Safe(d, origin) && PidsOk(d) && Possible(d, step)
    ensures PidsOk(Next(d, step))
  {
    match step
    case Supervise(i, action) => SuperviseKeepsPids(d, i, action, origin);
    case ReconcileFine => ReconcileStepKeepsPids(d, origin);
    case Reconcile => ReconcileKeepsPids(d, origin);
    case _ =>
  }

  lemma {:induction false} RunKeepsPids(d: Dir, steps: seq<Step>, origin: Record)
    requires Safe(d, origin) && PidsOk(d) && Run(d, steps)
    ensures PidsOk(After(d, steps))
    decreases |steps|
  {
    if steps != [] {
      StepKeepsSafe(d, steps[0], origin);
      StepKeepsPids(d, steps[0], origin);
      RunKeepsPids(Next(d, steps[0]), steps[1..], origin);
    }
  }

  /** The record never names another process than the one that owns the claim. */
  lemma RecordedPidIsOwners(d: Dir, steps: seq<Step>)
    requires Initial(d) && Run(d, steps)
    ensures var e := After(d, steps).disk;
      e.record.supervisorPid != 0 ==> e.claim.Claim? && e.record.supervisorPid == e.claim.creator + 1
  {
    InitialIsSafe(d);
    RunKeepsPids(d, steps, d.disk.record);
  }
}
