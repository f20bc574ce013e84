/**
 * When a terminal record is final, and how events are numbered. `Reconcile` is one atomic step
 * here; whether it may mark a job Lost for good depends on what the supervisors can still do.
 */
module Finality {
  import opened Wrappers
  import opened EventLog
  import opened JobDirectory

  // ---------- Runs in which Lost means lost ----------

  predicate Coarse(step: Step) {
    !step.ReconcileFine?
  }

  /** A live process that owns the claim and is not done, or can still take it. */
  predicate MayStillWrite(claim: Claim, s: Supervisor) {
    s.alive && ((Past(s.stage) && !s.stage.Done?) || (s.stage.Loaded? && claim.NoClaim?))
  }

  predicate Abandoned(claim: Claim, supervisors: seq<Supervisor>) {
    forall i :: 0 <= i < |supervisors| ==> !MayStillWrite(claim, supervisors[i])
  }

  predicate DecidesLost(d: Dir) {
    d.server.Idle? && !Terminal(d.disk.record.state) && Checked(d, d.disk.record).Losing?
  }

  predicate Calm(d: Dir, step: Step) {
    Coarse(step) && (step.Reconcile? && DecidesLost(d) ==> Abandoned(d.disk.claim, d.supervisors))
  }

  predicate CalmRun(d: Dir, steps: seq<Step>): (calm: bool)
    ensures calm ==> Run(d, steps)
    decreases |steps|
  {
    steps == [] || (Possible(d, steps[0]) && Calm(d, steps[0]) && CalmRun(Next(d, steps[0]), steps[1..]))
  }

  predicate CoarseRun(d: Dir, steps: seq<Step>) {
    Run(d, steps) && forall i :: 0 <= i < |steps| ==> Coarse(steps[i])
  }

  // ---------- Numbering ----------

  predicate Within(file: seq<Event>, last: nat) {
    forall k :: 0 <= k < |file| ==> 1 <= file[k].sequence <= last
  }

  predicate Increasing(file: seq<Event>) {
    forall j, k :: 0 <= j < k < |file| ==> file[j].sequence < file[k].sequence
  }

  predicate Apart(a: seq<Event>, b: seq<Event>) {
    forall j, k :: 0 <= j < |a| && 0 <= k < |b| ==> a[j].sequence != b[k].sequence
  }

  predicate Covered(a: seq<Event>, b: seq<Event>, last: nat) {
    forall number :: 2 <= number <= last ==> Has(a, number) || Has(b, number)
  }

  /**
   * No number above `last` is used, none twice in either file or across both, and every number
   * but the first is there unless output was truncated. (The first is missing when the server
   * died between writing the record and logging its first event.)
   */
  predicate Disciplined(stateFile: seq<Event>, outputFile: seq<Event>, last: nat, truncated: bool) {
    && last >= 1 && Within(stateFile, last) && Within(outputFile, last)
    && Increasing(stateFile) && Increasing(outputFile) && Apart(stateFile, outputFile)
    && (truncated || Covered(stateFile, outputFile, last))
  }

  lemma HasAppend(file: seq<Event>, event: Event, number: nat)
    ensures Has(file + [event], number) <==> Has(file, number) || event.sequence == number
  {
    if event.sequence == number {
      assert (file + [event])[|file|].sequence == number;
    }
    if Has(file, number) {
      var k :| 0 <= k < |file| && file[k].sequence == number;
      assert (file + [event])[k].sequence == number;
    }
  }

  lemma StateAppended(stateFile: seq<Event>, outputFile: seq<Event>, last: nat, truncated: bool, event: Event)
    requires Disciplined(stateFile, outputFile, last, truncated) && event.sequence == last + 1
    ensures Disciplined(stateFile + [event], outputFile, last + 1, truncated)
  {
    if !truncated {
      forall number | 2 <= number <= last + 1 ensures Has(stateFile + [event], number) || Has(outputFile, number) {
        HasAppend(stateFile, event, number);
      }
    }
  }

  lemma OutputAppended(stateFile: seq<Event>, outputFile: seq<Event>, last: nat, truncated: bool, event: Event)
    requires Disciplined(stateFile, outputFile, last, truncated) && event.sequence == last + 1
    ensures Disciplined(stateFile, outputFile + [event], last + 1, truncated)
  {
    if !truncated {
      forall number | 2 <= number <= last + 1 ensures Has(stateFile, number) || Has(outputFile + [event], number) {
        HasAppend(outputFile, event, number);
      }
    }
  }

  lemma OutputDropped(stateFile: seq<Event>, outputFile: seq<Event>, last: nat, truncated: bool, drop: nat)
    requires Disciplined(stateFile, outputFile, last, truncated) && drop <= |outputFile|
    ensures Disciplined(stateFile, outputFile[drop..], last, true)
  {
  }

  lemma OutputRetained(stateFile: seq<Event>, outputFile: seq<Event>, last: nat, truncated: bool, event: Event,
                       retention: Retention)
    requires Disciplined(stateFile, outputFile, last, truncated) && event.sequence == last + 1
    requires retention.Compacted? ==> 1 <= retention.drop <= |outputFile| + 1
    ensures Disciplined(stateFile, Retain(outputFile, event, retention), last + 1, truncated || !retention.Kept?)
  {
    if !retention.Skipped? {
      OutputAppended(stateFile, outputFile, last, truncated, event);
    }
    if retention.Compacted? {
      OutputDropped(stateFile, outputFile + [event], last + 1, truncated, retention.drop);
    }
  }

  // ---------- The invariant of calm runs ----------

  /** The owner has appended an event that its write of the record does not cover yet. */
  predicate Lagging(s: Supervisor) {
    s.stage.Announced? || s.stage.Closing? || (s.stage.Copied? && !s.job.quiet)
  }

  predicate Agree(a: Record, b: Record) {
    a.lastSequence == b.lastSequence && a.truncated == b.truncated && a.state == b.state
  }

  predicate EndsWith(stateFile: seq<Event>, r: Record) {
    stateFile != [] && stateFile[|stateFile| - 1] == StateEvent(r.lastSequence, r.state)
  }

  predicate WasLost(r: Record) {
    r.message == Unavailable
  }

  /** The files, the record and the owner's copy of it. */
  predicate OwnerAgrees(disk: Disk, s: Supervisor) {
    && Disciplined(disk.stateFile, disk.outputFile, s.job.lastSequence, s.job.truncated)
    && !WasLost(disk.record)
    && (if Lagging(s) then !Terminal(disk.record.state) && disk.record.lastSequence + 1 == s.job.lastSequence
        else Agree(s.job, disk.record))
    && (s.stage.Announced? || s.stage.Closing? || s.stage.Done? ==> EndsWith(disk.stateFile, s.job))
    && (s.stage.Copied? && !s.job.quiet ==> Within(disk.stateFile, s.job.lastSequence - 1))
  }

  predicate CandidateAgrees(r: Record, s: Supervisor) {
    s.alive && s.stage.Loaded? ==> Agree(s.job, r)
  }

  predicate Unclaimed(disk: Disk, supervisors: seq<Supervisor>) {
    && disk.record.state == Queued && disk.record.lastSequence == 1 && !disk.record.truncated
    && Disciplined(disk.stateFile, disk.outputFile, 1, false)
    && forall i :: 0 <= i < |supervisors| ==> CandidateAgrees(disk.record, supervisors[i])
  }

  /** After `Reconcile` marked the job Lost, given the files before it did. */
  predicate LostAgrees(disk: Disk, supervisors: seq<Supervisor>) {
    var r := disk.record;
    && r.state == Lost && EndsWith(disk.stateFile, r)
    && var before := disk.stateFile[..|disk.stateFile| - 1];
    if disk.claim.Claim? && disk.claim.creator < |supervisors| then
      var s := supervisors[disk.claim.creator];
      && Disciplined(before, disk.outputFile, s.job.lastSequence, s.job.truncated)
      && (if Lagging(s) then s.job.lastSequence == r.lastSequence
          else s.job.lastSequence + 1 == r.lastSequence && s.job.truncated == r.truncated)
    else Disciplined(before, disk.outputFile, 1, false) && r.lastSequence == 2
  }

  predicate Orderly(d: Dir, origin: Record) {
    && Safe(d, origin) && d.server.Idle?
    && if WasLost(d.disk.record) then LostAgrees(d.disk, d.supervisors) && Abandoned(d.disk.claim, d.supervisors)
       else if d.disk.claim.NoClaim? then Unclaimed(d.disk, d.supervisors)
       else OwnerAgrees(d.disk, d.supervisors[d.disk.claim.creator])
  }

  lemma InitialIsOrderly(d: Dir)
    requires Initial(d)
    ensures Orderly(d, d.disk.record)
  {
    InitialIsSafe(d);
  }

  /** A terminal record means that nobody writes any more. */
  lemma TerminalIsAbandoned(d: Dir, origin: Record)
    requires Orderly(d, origin) && Terminal(d.disk.record.state)
    ensures Abandoned(d.disk.claim, d.supervisors)
  {
    if !WasLost(d.disk.record) {
      var owner := d.supervisors[d.disk.claim.creator];
      assert owner.stage.Done?;
      forall i | 0 <= i < |d.supervisors| ensures !MayStillWrite(d.disk.claim, d.supervisors[i]) {
        assert SupervisorOk(d.disk.claim, i, d.supervisors[i], origin);
      }
    }
  }

  // ---------- Every calm step keeps it ----------

  predicate Appends(action: Action) {
    action.AppendRunning? || action.AppendFinal? || action.Output?
  }

  predicate WritesRecord(action: Action) {
    action.WriteMark? || action.WriteRunning? || action.WriteOutput? || action.WriteFinal?
  }

  lemma OwnerLogsState(disk: Disk, i: nat, s: Supervisor, action: Action, origin: Record)
    requires Enabled(disk, s, action) && OwnerOk(disk, s, origin) && OwnerAgrees(disk, s)
    requires action.AppendRunning? || action.AppendFinal?
    ensures var acted := Act(disk, i, s, action); OwnerAgrees(acted.disk, acted.self)
  {
    var state := if action.AppendRunning? then Running else s.stage.outcome.state;
    var acted := Act(disk, i, s, action);
    var job, stateFile := acted.self.job, acted.disk.stateFile;
    assert job.lastSequence == s.job.lastSequence + 1 && job.truncated == s.job.truncated && job.state == state;
    StateLogged(disk, s.job, job);
    assert stateFile == disk.stateFile + [StateEvent(job.lastSequence, job.state)];
    assert acted.disk.record == disk.record && Agree(s.job, disk.record) && !Terminal(s.job.state);
    assert Lagging(acted.self);
  }

  lemma StateLogged(disk: Disk, before: Record, after: Record)
    requires Disciplined(disk.stateFile, disk.outputFile, before.lastSequence, before.truncated)
    requires after.lastSequence == before.lastSequence + 1 && after.truncated == before.truncated
    ensures var stateFile := disk.stateFile + [StateEvent(after.lastSequence, after.state)];
      && Disciplined(stateFile, disk.outputFile, after.lastSequence, after.truncated)
      && EndsWith(stateFile, after)
  {
    StateAppended(disk.stateFile, disk.outputFile, before.lastSequence, before.truncated,
                  StateEvent(after.lastSequence, after.state));
  }

  lemma OwnerLogsOutput(disk: Disk, i: nat, s: Supervisor, action: Action, origin: Record)
    requires Enabled(disk, s, action) && OwnerOk(disk, s, origin) && OwnerAgrees(disk, s)
    requires action.Output?
    ensures var acted := Act(disk, i, s, action); OwnerAgrees(acted.disk, acted.self)
  {
    var acted := Act(disk, i, s, action);
    var event := OutputEvent(s.job.lastSequence + 1, action.stream, action.data);
    assert acted.disk.record == disk.record && acted.disk.stateFile == disk.stateFile;
    assert acted.self.stage.Copied? && !Terminal(disk.record.state) && Agree(s.job, disk.record);
    if s.job.quiet {
      assert acted == Acted(disk, s.(stage := Copied));
    } else {
      OutputRetained(disk.stateFile, disk.outputFile, s.job.lastSequence, s.job.truncated, event, action.retention);
      assert acted.disk.outputFile == Retain(disk.outputFile, event, action.retention);
      assert acted.self.job.lastSequence == s.job.lastSequence + 1;
      assert acted.self.job.truncated == (s.job.truncated || !action.retention.Kept?);
    }
  }

  lemma OwnerWritesRecord(disk: Disk, i: nat, s: Supervisor, action: Action, origin: Record)
    requires Enabled(disk, s, action) && OwnerOk(disk, s, origin) && OwnerAgrees(disk, s)
    requires WritesRecord(action)
    ensures var acted := Act(disk, i, s, action); OwnerAgrees(acted.disk, acted.self)
  {
  }

  predicate Interrupts(action: Action) {
    action.SetTimeout? || action.Die?
  }

  lemma OwnerIsInterrupted(disk: Disk, i: nat, s: Supervisor, action: Action, origin: Record)
    requires Enabled(disk, s, action) && OwnerOk(disk, s, origin) && OwnerAgrees(disk, s)
    requires Interrupts(action)
    ensures var acted := Act(disk, i, s, action); OwnerAgrees(acted.disk, acted.self)
  {
  }

  lemma OwnerMovesOn(disk: Disk, i: nat, s: Supervisor, action: Action, origin: Record)
    requires Enabled(disk, s, action) && OwnerOk(disk, s, origin) && OwnerAgrees(disk, s)
    requires !Appends(action) && !WritesRecord(action) && !Interrupts(action)
    ensures var acted := Act(disk, i, s, action); OwnerAgrees(acted.disk, acted.self)
  {
    var acted := Act(disk, i, s, action);
    assert acted.self.job == s.job && SameFiles(acted.disk, disk);
    assert !Lagging(s) && !Lagging(acted.self);
  }

  lemma OwnerKeepsAgreement(disk: Disk, i: nat, s: Supervisor, action: Action, origin: Record)
    requires Enabled(disk, s, action) && OwnerOk(disk, s, origin) && OwnerAgrees(disk, s)
    ensures var acted := Act(disk, i, s, action); OwnerAgrees(acted.disk, acted.self)
  {
    if action.Output? {
      OwnerLogsOutput(disk, i, s, action, origin);
    } else if Appends(action) {
      OwnerLogsState(disk, i, s, action, origin);
    } else if WritesRecord(action) {
      OwnerWritesRecord(disk, i, s, action, origin);
    } else if Interrupts(action) {
      OwnerIsInterrupted(disk, i, s, action, origin);
    } else {
      OwnerMovesOn(disk, i, s, action, origin);
    }
  }

  predicate SameFiles(a: Disk, b: Disk) {
    a.record == b.record && a.stateFile == b.stateFile && a.outputFile == b.outputFile
  }

  /** A supervisor that may not write can only load a terminal record, step back or end. */
  lemma HarmlessAct(disk: Disk, i: nat, s: Supervisor, action: Action, origin: Record)
    requires Enabled(disk, s, action) && SupervisorOk(disk.claim, i, s, origin)
    requires !MayStillWrite(disk.claim, s) && Terminal(disk.record.state)
    ensures var acted := Act(disk, i, s, action);
      && acted.disk == disk.(timeoutAt := acted.disk.timeoutAt)
      && acted.self.job == s.job && (Lagging(acted.self) <==> Lagging(s))
      && !MayStillWrite(disk.claim, acted.self)
  {
  }

  /** In an abandoned directory nobody touches the record or the event files. */
  lemma AbandonedStep(d: Dir, i: nat, action: Action, origin: Record)
    requires Safe(d, origin) && Possible(d, Supervise(i, action)) && Abandoned(d.disk.claim, d.supervisors)
    requires Terminal(d.disk.record.state)
    ensures var e := Next(d, Supervise(i, action));
      && e.disk == d.disk.(timeoutAt := e.disk.timeoutAt)
      && e.supervisors[i].job == d.supervisors[i].job
      && (Lagging(e.supervisors[i]) <==> Lagging(d.supervisors[i]))
      && Abandoned(e.disk.claim, e.supervisors)
  {
    assert SupervisorOk(d.disk.claim, i, d.supervisors[i], origin);
    HarmlessAct(d.disk, i, d.supervisors[i], action, origin);
  }

  lemma EndedSuperviseKeepsOrder(d: Dir, i: nat, action: Action, origin: Record)
    requires Orderly(d, origin) && Possible(d, Supervise(i, action)) && Terminal(d.disk.record.state)
    ensures Orderly(Next(d, Supervise(i, action)), origin)
  {
    StepKeepsSafe(d, Supervise(i, action), origin);
    TerminalIsAbandoned(d, origin);
    AbandonedStep(d, i, action, origin);
    if !WasLost(d.disk.record) {
      TerminalStep(d, i, action, origin);
    }
  }

  lemma OwnerKeepsOrder(d: Dir, i: nat, action: Action, origin: Record)
    requires Orderly(d, origin) && Possible(d, Supervise(i, action)) && !Terminal(d.disk.record.state)
    requires Past(d.supervisors[i].stage)
    ensures Orderly(Next(d, Supervise(i, action)), origin)
  {
    StepKeepsSafe(d, Supervise(i, action), origin);
    assert SupervisorOk(d.disk.claim, i, d.supervisors[i], origin);
    assert !WasLost(d.disk.record) && d.disk.claim.creator == i;
    OwnerKeepsAgreement(d.disk, i, d.supervisors[i], action, origin);
    OwnerStep(d.disk, i, d.supervisors[i], action, origin);
  }

  lemma CandidateKeepsOrder(d: Dir, i: nat, action: Action, origin: Record)
    requires Orderly(d, origin) && Possible(d, Supervise(i, action)) && !Terminal(d.disk.record.state)
    requires !Past(d.supervisors[i].stage)
    ensures Orderly(Next(d, Supervise(i, action)), origin)
  {
    StepKeepsSafe(d, Supervise(i, action), origin);
    CandidateKeepsAgreement(d, i, action, origin);
    assert Next(d, Supervise(i, action)).disk.record == d.disk.record && !WasLost(d.disk.record);
  }

  lemma SuperviseKeepsOrder(d: Dir, i: nat, action: Action, origin: Record)
    requires Orderly(d, origin) && Possible(d, Supervise(i, action))
    ensures Orderly(Next(d, Supervise(i, action)), origin)
  {
    if Terminal(d.disk.record.state) {
      EndedSuperviseKeepsOrder(d, i, action, origin);
    } else if Past(d.supervisors[i].stage) {
      OwnerKeepsOrder(d, i, action, origin);
    } else {
      CandidateKeepsOrder(d, i, action, origin);
    }
  }

  lemma TerminalStep(d: Dir, i: nat, action: Action, origin: Record)
    requires Safe(d, origin) && d.disk.claim.Claim? && OwnerAgrees(d.disk, d.supervisors[d.disk.claim.creator])
    requires Possible(d, Supervise(i, action)) && Terminal(d.disk.record.state)
    requires Abandoned(d.disk.claim, d.supervisors)
    ensures var e := Next(d, Supervise(i, action));
      e.disk.claim == d.disk.claim && OwnerAgrees(e.disk, e.supervisors[d.disk.claim.creator])
  {
    AbandonedStep(d, i, action, origin);
    if i == d.disk.claim.creator {
      assert !MayStillWrite(d.disk.claim, d.supervisors[i]);
      assert OwnerOk(d.disk, d.supervisors[i], origin);
      OwnerKeepsAgreement(d.disk, i, d.supervisors[i], action, origin);
    }
  }

  /** A supervisor that has not claimed the job reads the record, creates the claim, or ends. */
  lemma CandidateAct(disk: Disk, i: nat, s: Supervisor, action: Action)
    requires Enabled(disk, s, action) && !Past(s.stage) && !s.started
    ensures var acted := Act(disk, i, s, action);
      && (disk.claim.Claim? || !action.CreateClaim? ==> acted.disk == disk)
      && (acted.self.stage.Loaded? ==>
            (s.stage.Loaded? && acted.self.job == s.job) || (acted.self.job == disk.record && !Terminal(disk.record.state)))
  {
    if !action.Load? && !action.CreateClaim? {
      assert action.Die?;
    }
  }

  lemma CandidateWhileUnclaimed(d: Dir, i: nat, action: Action)
    requires Unclaimed(d.disk, d.supervisors) && d.disk.claim.NoClaim?
    requires Possible(d, Supervise(i, action)) && !Past(d.supervisors[i].stage) && !d.supervisors[i].started
    requires !WasLost(d.disk.record)
    ensures var e := Next(d, Supervise(i, action));
      if e.disk.claim.NoClaim? then Unclaimed(e.disk, e.supervisors)
      else e.disk.claim.creator == i && OwnerAgrees(e.disk, e.supervisors[i])
  {
    assert CandidateAgrees(d.disk.record, d.supervisors[i]);
    var e := Next(d, Supervise(i, action));
    if !action.CreateClaim? {
      assert e.disk == d.disk;
      forall k | 0 <= k < |e.supervisors| ensures CandidateAgrees(e.disk.record, e.supervisors[k]) {
        assert CandidateAgrees(d.disk.record, d.supervisors[k]);
      }
    }
  }

  lemma CandidateKeepsAgreement(d: Dir, i: nat, action: Action, origin: Record)
    requires Orderly(d, origin) && Possible(d, Supervise(i, action))
    requires !Terminal(d.disk.record.state) && !Past(d.supervisors[i].stage)
    ensures var e := Next(d, Supervise(i, action));
      if e.disk.claim.NoClaim? then Unclaimed(e.disk, e.supervisors)
      else e.disk.claim.creator < |e.supervisors| && OwnerAgrees(e.disk, e.supervisors[e.disk.claim.creator])
  {
    assert SupervisorOk(d.disk.claim, i, d.supervisors[i], origin);
    assert !WasLost(d.disk.record);
    if d.disk.claim.NoClaim? {
      CandidateWhileUnclaimed(d, i, action);
    } else {
      assert Next(d, Supervise(i, action)).disk == d.disk && i != d.disk.claim.creator;
    }
  }

  lemma ReconcileCases(d: Dir)
    requires d.server.Idle?
    ensures var e := Reconciled(d);
      if Terminal(d.disk.record.state) then e == d
      else if DecidesLost(d) then
        e == d.(disk := d.disk.(record := MarkedLost(d.disk.record),
                                stateFile := d.disk.stateFile + [StateEvent(d.disk.record.lastSequence + 1, Lost)]))
      else
        exists pid :: e == d.(disk := d.disk.(record := d.disk.record.(supervisorPid := pid)))
  {
    var r := d.disk.record;
    if !Terminal(r.state) && !DecidesLost(d) {
      var pid := if Checked(d, r).WritingBack? then ClaimedPid(d.disk.claim) else r.supervisorPid;
      assert r.(supervisorPid := r.supervisorPid) == r;
      assert Reconciled(d) == d.(disk := d.disk.(record := r.(supervisorPid := pid)));
    }
  }

  lemma ReconcileAdopts(d: Dir)
    requires d.server.Idle? && !Terminal(d.disk.record.state) && d.disk.claim.Claim? && d.disk.claim.pidWritten
    requires d.disk.claim.creator < |d.supervisors| && d.supervisors[d.disk.claim.creator].alive
    ensures Reconciled(d) == d.(disk := d.disk.(record := d.disk.record.(supervisorPid := d.disk.claim.creator + 1)))
  {
    var r := d.disk.record;
    var checked := Checked(d, r);
    if r.supervisorPid == d.disk.claim.creator + 1 {
      assert r.(supervisorPid := d.disk.claim.creator + 1) == r;
      assert checked == Idle;
    } else {
      assert checked == WritingBack(r.(supervisorPid := d.disk.claim.creator + 1));
    }
  }

  lemma ReconcileWaits(d: Dir)
    requires d.server.Idle? && d.disk.claim.NoClaim? && d.disk.record.state == Queued
    requires d.disk.now < d.disk.record.createdAt + 5000
    ensures Reconciled(d) == d
  {
    assert Checked(d, d.disk.record) == Idle;
  }

  /**
   * A whole `Reconcile`: a terminal record stays as it is; a living owner that has put its PID into
   * the claim is recorded; an unclaimed job gets five seconds; any other job is lost.
   */
  lemma ReconcileIs(d: Dir)
    requires d.server.Idle? && (d.disk.claim.Claim? ==> d.disk.claim.creator < |d.supervisors|)
    ensures var r, e := d.disk.record, Reconciled(d);
      var claim := d.disk.claim;
      && e.disk.claim == claim && e.supervisors == d.supervisors && e.server.Idle?
      && if Terminal(r.state) then e == d
         else if claim.Claim? && claim.pidWritten && d.supervisors[claim.creator].alive then
           e.disk.record == r.(supervisorPid := claim.creator + 1) && e.disk.stateFile == d.disk.stateFile
         else if claim.NoClaim? && r.state == Queued && d.disk.now < r.createdAt + 5000 then e == d
         else
           && e.disk.record.state == Lost && !e.disk.record.verified && e.disk.record.message == Unavailable
           && e.disk.record.lastSequence == r.lastSequence + 1 && SameCore(e.disk.record, r)
           && e.disk.stateFile == d.disk.stateFile + [StateEvent(r.lastSequence + 1, Lost)]
  {
    var claim := d.disk.claim;
    if Terminal(d.disk.record.state) {
    } else if claim.Claim? && claim.pidWritten && d.supervisors[claim.creator].alive {
      ReconcileAdopts(d);
    } else if claim.NoClaim? && d.disk.record.state == Queued && d.disk.now < d.disk.record.createdAt + 5000 {
      ReconcileWaits(d);
    } else {
      assert DecidesLost(d);
      ReconcileCases(d);
    }
  }

  lemma MarkingLostKeepsOrder(d: Dir, origin: Record)
    requires Orderly(d, origin) && DecidesLost(d) && Abandoned(d.disk.claim, d.supervisors)
    ensures LostAgrees(Reconciled(d).disk, d.supervisors)
  {
    ReconcileCases(d);
    var e := Reconciled(d);
    assert e.disk.stateFile[..|e.disk.stateFile| - 1] == d.disk.stateFile;
    if d.disk.claim.Claim? {
      var i := d.disk.claim.creator;
      assert !MayStillWrite(d.disk.claim, d.supervisors[i]);
    }
  }

  lemma ReconcileKeepsOrder(d: Dir, origin: Record)
    requires Orderly(d, origin) && Calm(d, Reconcile)
    ensures Orderly(Reconciled(d), origin)
  {
    ReconcileKeepsSafe(d, origin);
    ReconcileCases(d);
    ReconcileTouchesRecordOnly(d);
    if DecidesLost(d) {
      MarkingLostKeepsOrder(d, origin);
    } else if !Terminal(d.disk.record.state) && d.disk.claim.NoClaim? {
      var e := Reconciled(d);
      forall i | 0 <= i < |e.supervisors| ensures CandidateAgrees(e.disk.record, e.supervisors[i]) {
        assert CandidateAgrees(d.disk.record, d.supervisors[i]);
      }
    }
  }

  /** What a step from outside leaves as it is; it may add a supervisor that has done nothing yet. */
  predicate SameInside(d: Dir, e: Dir) {
    && SameFiles(e.disk, d.disk) && e.disk.claim == d.disk.claim && e.server.Idle?
    && |d.supervisors| <= |e.supervisors| && e.supervisors[..|d.supervisors|] == d.supervisors
    && forall i :: |d.supervisors| <= i < |e.supervisors| ==> e.supervisors[i].stage.Spawned?
  }

  lemma OutsideLeavesInside(d: Dir, step: Step)
    requires d.server.Idle? && Possible(d, step) && Coarse(step) && !step.Supervise? && !step.Reconcile?
    ensures SameInside(d, Next(d, step))
  {
  }

  lemma SameInsideKeepsAbandoned(d: Dir, e: Dir)
    requires SameInside(d, e) && Abandoned(d.disk.claim, d.supervisors)
    ensures Abandoned(e.disk.claim, e.supervisors)
  {
    forall i | 0 <= i < |e.supervisors| ensures !MayStillWrite(e.disk.claim, e.supervisors[i]) {
      if i < |d.supervisors| {
        assert e.supervisors[i] == d.supervisors[i];
        assert !MayStillWrite(d.disk.claim, d.supervisors[i]);
      }
    }
  }

  lemma SameInsideKeepsOrder(d: Dir, e: Dir, origin: Record)
    requires Orderly(d, origin) && Safe(e, origin) && SameInside(d, e)
    ensures Orderly(e, origin)
  {
    if WasLost(d.disk.record) {
      SameInsideKeepsAbandoned(d, e);
      SameInsideKeepsLost(d, e);
    } else if d.disk.claim.Claim? {
      assert e.supervisors[d.disk.claim.creator] == d.supervisors[d.disk.claim.creator];
    } else {
      forall i | 0 <= i < |e.supervisors| ensures CandidateAgrees(e.disk.record, e.supervisors[i]) {
        assert i < |d.supervisors| ==> e.supervisors[i] == d.supervisors[i];
      }
    }
  }

  lemma SameInsideKeepsLost(d: Dir, e: Dir)
    requires SameInside(d, e) && LostAgrees(d.disk, d.supervisors)
    requires d.disk.claim.Claim? ==> d.disk.claim.creator < |d.supervisors|
    ensures LostAgrees(e.disk, e.supervisors)
  {
    if d.disk.claim.Claim? {
      assert e.supervisors[d.disk.claim.creator] == d.supervisors[d.disk.claim.creator];
    }
  }

  lemma OutsideKeepsOrder(d: Dir, step: Step, origin: Record)
    requires Orderly(d, origin) && Possible(d, step) && Coarse(step) && !step.Supervise? && !step.Reconcile?
    ensures Orderly(Next(d, step), origin)
    ensures SameFiles(Next(d, step).disk, d.disk)
  {
    StepKeepsSafe(d, step, origin);
    OutsideLeavesInside(d, step);
    SameInsideKeepsOrder(d, Next(d, step), origin);
  }

  lemma StepKeepsOrder(d: Dir, step: Step, origin: Record)
    requires Orderly(d, origin) && Possible(d, step) && Calm(d, step)
    ensures Orderly(Next(d, step), origin)
    ensures Terminal(d.disk.record.state) ==> SameFiles(Next(d, step).disk, d.disk)
  {
    if step.Supervise? {
      SuperviseKeepsOrder(d, step.i, step.action, origin);
      if Terminal(d.disk.record.state) {
        TerminalIsAbandoned(d, origin);
        AbandonedStep(d, step.i, step.action, origin);
      }
    } else if step.Reconcile? {
      ReconcileKeepsOrder(d, origin);
    } else {
      OutsideKeepsOrder(d, step, origin);
    }
  }

  lemma {:induction false} CalmRunKeepsOrder(d: Dir, steps: seq<Step>, origin: Record)
    requires Orderly(d, origin) && CalmRun(d, steps)
    ensures Orderly(After(d, steps), origin)
    ensures Terminal(d.disk.record.state) ==> SameFiles(After(d, steps).disk, d.disk)
    decreases |steps|
  {
    if steps != [] {
      StepKeepsOrder(d, steps[0], origin);
      CalmRunKeepsOrder(Next(d, steps[0]), steps[1..], origin);
    }
  }

  // ---------- Terminal is final ----------

  /** In calm runs a terminal record never changes again, and the event files do not either. */
  lemma TerminalIsFinal(d: Dir, steps: seq<Step>, more: seq<Step>)
    requires Initial(d) && CalmRun(d, steps) && CalmRun(After(d, steps), more)
    requires Terminal(After(d, steps).disk.record.state)
    ensures SameFiles(After(After(d, steps), more).disk, After(d, steps).disk)
  {
    InitialIsOrderly(d);
    CalmRunKeepsOrder(d, steps, d.disk.record);
    CalmRunKeepsOrder(After(d, steps), more, d.disk.record);
  }

  /** The record never changes again, whatever the processes and the server do. */
  ghost predicate Final(d: Dir) {
    forall steps :: CoarseRun(d, steps) ==> After(d, steps).disk.record == d.disk.record
  }

  lemma {:induction false} NothingLeftToDecide(d: Dir, steps: seq<Step>, origin: Record)
    requires Orderly(d, origin) && Terminal(d.disk.record.state) && CoarseRun(d, steps)
    ensures CalmRun(d, steps)
    decreases |steps|
  {
    if steps != [] {
      assert Coarse(steps[0]);
      StepKeepsOrder(d, steps[0], origin);
      forall i | 0 <= i < |steps[1..]| ensures Coarse(steps[1..][i]) {
        assert steps[1..][i] == steps[i + 1];
      }
      NothingLeftToDecide(Next(d, steps[0]), steps[1..], origin);
    }
  }

  /** The next step on a supervisor's shortest way to writing the record. */
  function Onward(stage: Stage): Action {
    match stage
    case Loaded => CreateClaim
    case Claiming => WritePid
    case Claimed => CheckCancel
    case Marking => WriteMark
    case Marked => CheckDigest
    case Starting => Start(false)
    case Feeding => Feed(false)
    case Announcing => AppendRunning
    case Announced => WriteRunning
    case Copying => Collect
    case Copied => WriteOutput
    case Collected => CheckTimeout
    case Untimed => CheckCancelled
    case Undisturbed => CheckDeclared(false)
    case Verifying(_) => Judge(false)
    case Finishing(_) => AppendFinal
    case Closing(_) => WriteFinal
    case _ => Die
  }

  function Distance(stage: Stage): nat {
    match stage
    case Loaded => 6
    case Claiming => 5
    case Claimed => 4
    case Marked => 4
    case Starting => 3
    case Feeding => 3
    case Announcing => 2
    case Copying => 7
    case Collected => 6
    case Untimed => 5
    case Undisturbed => 4
    case Verifying(_) => 3
    case Finishing(_) => 2
    case _ => 1
  }

  /** The owner is enabled to go on, and then has written the record or come closer to it. */
  lemma OwnerGoesOn(disk: Disk, i: nat, s: Supervisor, origin: Record)
    requires OwnerOk(disk, s, origin) && disk.claim.creator == i && s.alive && !s.stage.Done?
    ensures Enabled(disk, s, Onward(s.stage))
    ensures var acted := Act(disk, i, s, Onward(s.stage));
      && acted.self.alive && acted.disk.claim.Claim? && acted.disk.claim.creator == i
      && (!WasLost(acted.disk.record)
          || (acted.disk.record == disk.record && Past(acted.self.stage) && !acted.self.stage.Done?
              && Distance(acted.self.stage) < Distance(s.stage)))
  {
  }

  lemma OnwardStep(d: Dir, i: nat, origin: Record)
    requires Safe(d, origin) && WasLost(d.disk.record)
    requires i < |d.supervisors| && MayStillWrite(d.disk.claim, d.supervisors[i])
    ensures var step := Supervise(i, Onward(d.supervisors[i].stage));
      && Possible(d, step)
      && (!WasLost(Next(d, step).disk.record)
          || (var e := Next(d, step);
              e.disk.record == d.disk.record && MayStillWrite(e.disk.claim, e.supervisors[i])
              && Distance(e.supervisors[i].stage) < Distance(d.supervisors[i].stage)))
  {
    assert SupervisorOk(d.disk.claim, i, d.supervisors[i], origin);
    if Past(d.supervisors[i].stage) {
      OwnerGoesOn(d.disk, i, d.supervisors[i], origin);
    }
  }

  /** A supervisor that may still write can replace the Lost record. */
  lemma {:induction false} Overwrites(d: Dir, i: nat, origin: Record) returns (steps: seq<Step>)
    requires Safe(d, origin) && WasLost(d.disk.record)
    requires i < |d.supervisors| && MayStillWrite(d.disk.claim, d.supervisors[i])
    ensures CoarseRun(d, steps) && !WasLost(After(d, steps).disk.record)
    decreases Distance(d.supervisors[i].stage)
  {
    var step := Supervise(i, Onward(d.supervisors[i].stage));
    OnwardStep(d, i, origin);
    StepKeepsSafe(d, step, origin);
    var e := Next(d, step);
    var rest := [];
    if WasLost(e.disk.record) {
      rest := Overwrites(e, i, origin);
    }
    steps := [step] + rest;
    assert steps[1..] == rest;
  }

  /**
   * Marking a job Lost is final exactly when no live process owns the claim or can still take
   * it. The other half is a run of such a process that replaces the record.
   */
  lemma LostIsFinalIff(d: Dir, origin: Record)
    requires Orderly(d, origin) && DecidesLost(d)
    ensures Final(Reconciled(d)) <==> Abandoned(d.disk.claim, d.supervisors)
  {
    var e := Reconciled(d);
    ReconcileKeepsSafe(d, origin);
    ReconcileCases(d);
    if Abandoned(d.disk.claim, d.supervisors) {
      StepKeepsOrder(d, Reconcile, origin);
      forall steps | CoarseRun(e, steps) ensures After(e, steps).disk.record == e.disk.record {
        NothingLeftToDecide(e, steps, origin);
        CalmRunKeepsOrder(e, steps, origin);
      }
    } else {
      var i :| 0 <= i < |d.supervisors| && MayStillWrite(d.disk.claim, d.supervisors[i]);
      var steps := Overwrites(e, i, origin);
      assert After(e, steps).disk.record != e.disk.record;
    }
  }

  /**
   * Where the decision can be wrong: a supervisor that read the record but has not claimed it
   * when the five seconds end, or one that created the claim file but has not put its PID into
   * it. Once the PID is there, a dead owner means an abandoned directory.
   */
  lemma LostTooEarlyIff(d: Dir, origin: Record)
    requires Safe(d, origin) && DecidesLost(d)
    ensures !Abandoned(d.disk.claim, d.supervisors) <==>
      (match d.disk.claim
       case NoClaim => exists i :: 0 <= i < |d.supervisors| && d.supervisors[i].alive && d.supervisors[i].stage.Loaded?
       case Claim(creator, pidWritten) => !pidWritten && d.supervisors[creator].alive)
  {
    forall i | 0 <= i < |d.supervisors| ensures SupervisorOk(d.disk.claim, i, d.supervisors[i], origin) {
    }
    if d.disk.claim.Claim? {
      var owner := d.supervisors[d.disk.claim.creator];
      assert OwnerOk(d.disk, owner, origin);
      if !d.disk.claim.pidWritten && owner.alive {
        assert MayStillWrite(d.disk.claim, owner);
      }
    } else {
      forall i | 0 <= i < |d.supervisors|
        ensures MayStillWrite(d.disk.claim, d.supervisors[i]) <==> d.supervisors[i].alive && d.supervisors[i].stage.Loaded?
      {
        assert SupervisorOk(d.disk.claim, i, d.supervisors[i], origin);
      }
    }
  }

  // ---------- Numbering in calm runs ----------

  predicate OwnerLags(d: Dir) {
    d.disk.claim.Claim? && d.disk.claim.creator < |d.supervisors| && Lagging(d.supervisors[d.disk.claim.creator])
  }

  /**
   * Unless the owner's last append is not covered by the record: no number above the recorded
   * one is used, none is used twice, and each one was logged or the record says "truncated".
   * Against the owner's own copy of the record that holds at every moment. A terminal record is
   * always announced by the last state event, which carries the recorded number; and that number
   * is the largest.
   */
  lemma NumbersAreDisciplined(d: Dir, steps: seq<Step>)
    requires Initial(d) && CalmRun(d, steps)
    ensures var e := After(d, steps); var r := e.disk.record;
      && (!OwnerLags(e) ==> Disciplined(e.disk.stateFile, e.disk.outputFile, r.lastSequence, r.truncated))
      && (!WasLost(r) && e.disk.claim.Claim? ==>
            && e.disk.claim.creator < |e.supervisors|
            && var job := e.supervisors[e.disk.claim.creator].job;
               Disciplined(e.disk.stateFile, e.disk.outputFile, job.lastSequence, job.truncated))
      && (Terminal(r.state) ==>
            && EndsWith(e.disk.stateFile, r)
            && Within(e.disk.stateFile, r.lastSequence) && Within(e.disk.outputFile, r.lastSequence))
  {
    InitialIsOrderly(d);
    CalmRunKeepsOrder(d, steps, d.disk.record);
    var e := After(d, steps);
    if WasLost(e.disk.record) {
      LostNumbers(e, d.disk.record);
    }
  }

  lemma LostNumbers(e: Dir, origin: Record)
    requires Orderly(e, origin) && WasLost(e.disk.record)
    ensures var r := e.disk.record;
      && (!OwnerLags(e) ==> Disciplined(e.disk.stateFile, e.disk.outputFile, r.lastSequence, r.truncated))
      && EndsWith(e.disk.stateFile, r) && Within(e.disk.stateFile, r.lastSequence) && Within(e.disk.outputFile, r.lastSequence)
  {
    var r, stateFile := e.disk.record, e.disk.stateFile;
    var before := stateFile[..|stateFile| - 1];
    var event := StateEvent(r.lastSequence, Lost);
    assert stateFile == before + [event];
    if e.disk.claim.NoClaim? {
      StateAppended(before, e.disk.outputFile, 1, false, event);
      assert Disciplined(stateFile, e.disk.outputFile, 2, r.truncated || false);
    } else {
      var job := e.supervisors[e.disk.claim.creator].job;
      if !OwnerLags(e) {
        StateAppended(before, e.disk.outputFile, job.lastSequence, job.truncated, event);
      }
    }
  }

  /**
   * The number `Reconcile` gives the Lost event is unused exactly unless the dead owner logged
   * an event under it that the record does not cover and that is still in its file.
   */
  lemma LostNumberIsFreshIff(d: Dir, origin: Record)
    requires Orderly(d, origin) && DecidesLost(d)
    ensures var number := d.disk.record.lastSequence + 1;
      Has(d.disk.stateFile, number) || Has(d.disk.outputFile, number) <==>
      OwnerLags(d) && (!d.supervisors[d.disk.claim.creator].stage.Copied? || Has(d.disk.outputFile, number))
  {
    var number := d.disk.record.lastSequence + 1;
    if OwnerLags(d) {
      var owner := d.supervisors[d.disk.claim.creator];
      if !owner.stage.Copied? {
        assert d.disk.stateFile[|d.disk.stateFile| - 1].sequence == number;
      }
    }
  }

  // ---------- Why `Reconcile` is taken as one step ----------

  ghost predicate Reaches(d: Dir, e: Dir) {
    exists steps :: Run(d, steps) && After(d, steps) == e
  }

  lemma {:induction false} Extend(d: Dir, steps: seq<Step>, step: Step)
    requires Run(d, steps) && Possible(After(d, steps), step)
    ensures Run(d, steps + [step]) && After(d, steps + [step]) == Next(After(d, steps), step)
    decreases |steps|
  {
    if steps == [] {
      assert [step][1..] == [];
    } else {
      Extend(Next(d, steps[0]), steps[1..], step);
      assert (steps + [step])[1..] == steps[1..] + [step];
    }
  }

  lemma {:induction false} RunSplits(d: Dir, steps: seq<Step>, k: nat)
    requires Run(d, steps) && k <= |steps|
    ensures Run(d, steps[..k]) && Run(After(d, steps[..k]), steps[k..])
    ensures After(After(d, steps[..k]), steps[k..]) == After(d, steps)
    decreases k
  {
    if k > 0 {
      assert steps[..k][0] == steps[0] && steps[..k][1..] == steps[1..][..k - 1] && steps[1..][k - 1..] == steps[k..];
      RunSplits(Next(d, steps[0]), steps[1..], k - 1);
    } else {
      assert steps[..0] == [] && steps[0..] == steps;
    }
  }

  lemma Go(d: Dir, e: Dir, step: Step) returns (f: Dir)
    requires Reaches(d, e) && Possible(e, step)
    ensures f == Next(e, step) && Reaches(d, f)
  {
    var steps :| Run(d, steps) && After(d, steps) == e;
    Extend(d, steps, step);
    f := Next(e, step);
  }

  lemma ReachesItself(d: Dir)
    ensures Reaches(d, d)
  {
    assert Run(d, []) && After(d, []) == d;
  }

  lemma ReachesWriteBack(d: Dir) returns (e: Dir)
    requires Initial(d)
    ensures Reaches(d, e)
    ensures e.server == WritingBack(d.disk.record.(supervisorPid := 1)) && e.disk.cancelAt.Some?
    ensures |e.supervisors| == 1 && e.supervisors[0].alive && e.supervisors[0].stage.Claimed?
  {
    ReachesItself(d);
    e := Go(d, d, RequestCancel);
    e := Go(d, e, Spawn("true"));
    e := Go(d, e, Supervise(0, Load));
    e := Go(d, e, Supervise(0, CreateClaim));
    e := Go(d, e, Supervise(0, WritePid));
    assert e.disk.record == d.disk.record && ClaimedPid(e.disk.claim) == 1;
    e := Go(d, e, ReconcileFine);
    e := Go(d, e, ReconcileFine);
  }

  /**
   * With other processes between the steps of `Reconcile`, any job can lose a terminal record:
   * the server reads it while it is queued and writes it back after the supervisor finished.
   */
  lemma StaleWriteBackExample(d: Dir) returns (e: Dir)
    requires Initial(d)
    ensures Reaches(d, e) && Possible(e, ReconcileFine) && e.disk.record.state == Cancelled
    ensures Next(e, ReconcileFine).disk.record.state == Queued
  {
    e := ReachesWriteBack(d);
    e := Go(d, e, Supervise(0, CheckCancel));
    e := Go(d, e, Supervise(0, AppendFinal));
    e := Go(d, e, Supervise(0, WriteFinal));
  }

  lemma ReachesLostLogged(d: Dir) returns (e: Dir)
    requires Initial(d)
    ensures Reaches(d, e) && e.server.Idle?
    ensures e.disk == d.disk.(now := e.disk.now, stateFile := d.disk.stateFile + [StateEvent(2, Lost)])
    ensures e.disk.now >= d.disk.record.createdAt + CLAIM_GRACE
  {
    ReachesItself(d);
    e := Go(d, d, Tick(d.disk.record.createdAt + CLAIM_GRACE));
    e := Go(d, e, ReconcileFine);
    e := Go(d, e, ReconcileFine);
    assert e.server == Losing(d.disk.record);
    e := Go(d, e, ReconcileFine);
    e := Go(d, e, ServerRestarts);
  }

  /** A server that dies between logging Lost and writing the record logs it again, under the same number. */
  lemma LostLoggedTwiceExample(d: Dir) returns (e: Dir)
    requires Initial(d)
    ensures Reaches(d, e)
    ensures e.disk.stateFile == d.disk.stateFile + [StateEvent(2, Lost)] + [StateEvent(2, Lost)]
  {
    e := ReachesLostLogged(d);
    ReconcileCases(e);
    e := Go(d, e, Reconcile);
  }
}
