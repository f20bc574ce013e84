/**
 * Runs in which other processes come between the steps of `Reconcile`, and in which the server
 * may die between them: when a terminal record is final, who wrote each state event, and when
 * the number of a Lost event is in use already.
 */
module Reconciliation {
  import opened Wrappers
  import opened EventLog
  import opened JobDirectory
  import opened Finality

  // ---------- What a terminal record tells ----------

  /** A terminal record is the owner's last one, or the server's; then it wrote it and is done. */
  predicate Settled(d: Dir) {
    && (WasLost(d.disk.record) ==> d.server.Idle?)
    && (d.server.LostLogged? ==> WasLost(d.server.copy))
    && (Terminal(d.disk.record.state) && !WasLost(d.disk.record) ==>
          d.disk.claim.Claim? && d.disk.claim.creator < |d.supervisors|
          && d.supervisors[d.disk.claim.creator].stage.Done?)
  }

  lemma OwnerKeepsSettled(d: Dir, i: nat, action: Action, origin: Record)
    requires Safe(d, origin) && Settled(d) && Possible(d, Supervise(i, action)) && Past(d.supervisors[i].stage)
    ensures Settled(Next(d, Supervise(i, action)))
  {
    var s := d.supervisors[i];
    assert SupervisorOk(d.disk.claim, i, s, origin);
    assert OwnerOk(d.disk, s, origin);
    OwnerRecord(d.disk, i, s, action, origin);
  }

  /** A record that the owner writes is never Unavailable, and terminal only when the owner is done. */
  lemma OwnerRecord(disk: Disk, i: nat, s: Supervisor, action: Action, origin: Record)
    requires Enabled(disk, s, action) && OwnerOk(disk, s, origin) && disk.claim.creator == i
    ensures var acted := Act(disk, i, s, action);
      && acted.disk.claim.Claim? && acted.disk.claim.creator == i
      && (s.stage.Done? ==> acted.self.stage.Done?)
      && (acted.disk.record == disk.record
          || (!WasLost(acted.disk.record) && (Terminal(acted.disk.record.state) ==> acted.self.stage.Done?)))
  {
  }

  lemma CandidateKeepsSettled(d: Dir, i: nat, action: Action, origin: Record)
    requires Safe(d, origin) && Settled(d) && Possible(d, Supervise(i, action)) && !Past(d.supervisors[i].stage)
    ensures Settled(Next(d, Supervise(i, action)))
  {
    assert SupervisorOk(d.disk.claim, i, d.supervisors[i], origin);
    assert Next(d, Supervise(i, action)).disk.record == d.disk.record;
  }

  lemma ReconcileStepKeepsSettled(d: Dir, origin: Record)
    requires Safe(d, origin) && Settled(d)
    ensures Settled(ReconcileStep(d))
  {
    if d.server.WritingBack? {
      assert CopyOk(d.server.copy, origin);
    }
  }

  lemma StepKeepsSettled(d: Dir, step: Step, origin: Record)
    requires Safe(d, origin) && Settled(d) && Possible(d, step)
    ensures Settled(Next(d, step))
  {
    match step
    case Supervise(i, action) =>
      if Past(d.supervisors[i].stage) {
        OwnerKeepsSettled(d, i, action, origin);
      } else {
        CandidateKeepsSettled(d, i, action, origin);
      }
    case ReconcileFine => ReconcileStepKeepsSettled(d, origin);
    case Reconcile =>
      ReconcileCases(d);
      ReconcileTouchesRecordOnly(d);
    case _ =>
  }

  lemma {:induction false} RunKeepsSettled(d: Dir, steps: seq<Step>, origin: Record)
    requires Safe(d, origin) && Settled(d) && Run(d, steps)
    ensures Safe(After(d, steps), origin) && Settled(After(d, steps))
    decreases |steps|
  {
    if steps != [] {
      StepKeepsSafe(d, steps[0], origin);
      StepKeepsSettled(d, steps[0], origin);
      RunKeepsSettled(Next(d, steps[0]), steps[1..], origin);
    }
  }

  // ---------- Final in every run ----------

  /** The record never changes again, whatever comes between the steps of `Reconcile`. */
  ghost predicate Irrevocable(d: Dir) {
    forall steps :: Run(d, steps) ==> After(d, steps).disk.record == d.disk.record
  }

  predicate AtRest(d: Dir) {
    Terminal(d.disk.record.state) && d.server.Idle? && Abandoned(d.disk.claim, d.supervisors)
  }

  lemma StepKeepsRest(d: Dir, step: Step, origin: Record)
    requires Safe(d, origin) && AtRest(d) && Possible(d, step)
    ensures AtRest(Next(d, step)) && Next(d, step).disk.record == d.disk.record
  {
    if step.Supervise? {
      AbandonedStep(d, step.i, step.action, origin);
    } else {
      var e := Next(d, step);
      forall i | 0 <= i < |e.supervisors| ensures !MayStillWrite(e.disk.claim, e.supervisors[i]) {
        if i < |d.supervisors| {
          assert !MayStillWrite(d.disk.claim, d.supervisors[i]);
        }
      }
    }
  }

  lemma {:induction false} RunKeepsRest(d: Dir, steps: seq<Step>, origin: Record)
    requires Safe(d, origin) && AtRest(d) && Run(d, steps)
    ensures After(d, steps).disk.record == d.disk.record
    decreases |steps|
  {
    if steps != [] {
      StepKeepsSafe(d, steps[0], origin);
      StepKeepsRest(d, steps[0], origin);
      RunKeepsRest(Next(d, steps[0]), steps[1..], origin);
    }
  }

  /** The owner is done; once it has ended, a server that read the record marks the job Lost. */
  lemma EndOwner(d: Dir, origin: Record) returns (e: Dir)
    requires Safe(d, origin) && Settled(d) && Terminal(d.disk.record.state) && d.server.Read?
    ensures Reaches(d, e) && Safe(e, origin) && Settled(e) && e.disk.record == d.disk.record && e.server == d.server
    ensures Checked(e, e.server.copy).Losing?
  {
    var owner := d.disk.claim.creator;
    assert OwnerOk(d.disk, d.supervisors[owner], origin);
    ReachesItself(d);
    e := d;
    if d.supervisors[owner].alive {
      StepKeepsSafe(d, Supervise(owner, Die), origin);
      StepKeepsSettled(d, Supervise(owner, Die), origin);
      e := Go(d, d, Supervise(owner, Die));
    }
  }

  /** A `Reconcile` that was under way when the record became terminal can still replace it. */
  lemma UnderWayReplaces(d: Dir, origin: Record) returns (e: Dir)
    requires Safe(d, origin) && Settled(d) && Terminal(d.disk.record.state) && !d.server.Idle?
    ensures Reaches(d, e) && e.disk.record != d.disk.record
  {
    if d.server.Read? {
      e := EndOwner(d, origin);
      e := Go(d, e, ReconcileFine);
    } else {
      ReachesItself(d);
      e := d;
    }
    if e.server.Losing? {
      e := Go(d, e, ReconcileFine);
    }
    assert e.server.WritingBack? ==> !Terminal(e.server.copy.state);
    assert e.server.LostLogged? ==> WasLost(e.server.copy);
    e := Go(d, e, ReconcileFine);
  }

  lemma SettledIsIrrevocableIff(d: Dir, origin: Record)
    requires Safe(d, origin) && Settled(d) && Terminal(d.disk.record.state)
    ensures Irrevocable(d) <==> d.server.Idle? && Abandoned(d.disk.claim, d.supervisors)
  {
    if !d.server.Idle? {
      var e := UnderWayReplaces(d, origin);
      assert !Irrevocable(d);
    } else if Abandoned(d.disk.claim, d.supervisors) {
      forall steps | Run(d, steps) ensures After(d, steps).disk.record == d.disk.record {
        RunKeepsRest(d, steps, origin);
      }
    } else {
      if !WasLost(d.disk.record) {
        DoneIsAbandoned(d, origin);
      }
      var i :| 0 <= i < |d.supervisors| && MayStillWrite(d.disk.claim, d.supervisors[i]);
      var steps := Overwrites(d, i, origin);
      assert After(d, steps).disk.record != d.disk.record;
    }
  }

  lemma DoneIsAbandoned(d: Dir, origin: Record)
    requires Safe(d, origin) && Settled(d) && Terminal(d.disk.record.state) && !WasLost(d.disk.record)
    ensures Abandoned(d.disk.claim, d.supervisors)
  {
    forall i | 0 <= i < |d.supervisors| ensures !MayStillWrite(d.disk.claim, d.supervisors[i]) {
      assert SupervisorOk(d.disk.claim, i, d.supervisors[i], origin);
    }
  }

  /**
   * After any run a terminal record is final exactly when no `Reconcile` is under way and no live
   * process owns the claim or can still take it. For a record of the supervisor the first is
   * enough; for a record that `Reconcile` marked Lost, the second.
   */
  lemma TerminalIsIrrevocableIff(d: Dir, steps: seq<Step>)
    requires Initial(d) && Run(d, steps) && Terminal(After(d, steps).disk.record.state)
    ensures var e := After(d, steps);
      && (Irrevocable(e) <==> e.server.Idle? && Abandoned(e.disk.claim, e.supervisors))
      && (!WasLost(e.disk.record) ==> (Irrevocable(e) <==> e.server.Idle?))
      && (WasLost(e.disk.record) ==> (Irrevocable(e) <==> Abandoned(e.disk.claim, e.supervisors)))
  {
    InitialIsSafe(d);
    RunKeepsSettled(d, steps, d.disk.record);
    var e := After(d, steps);
    SettledIsIrrevocableIff(e, d.disk.record);
    if !WasLost(e.disk.record) {
      DoneIsAbandoned(e, d.disk.record);
    }
  }

  // ---------- Who wrote the state events ----------

  /** The number under which a step of the server logs Lost. */
  function LostBy(d: Dir, step: Step): seq<nat> {
    if step.ReconcileFine? && d.server.Losing? then [d.server.copy.lastSequence + 1]
    else if step.Reconcile? && DecidesLost(d) then [d.disk.record.lastSequence + 1]
    else []
  }

  /** All numbers under which `Reconcile` logged Lost in a run. */
  function LostLog(d: Dir, steps: seq<Step>): seq<nat>
    requires Run(d, steps)
    decreases |steps|
  {
    if steps == [] then [] else LostBy(d, steps[0]) + LostLog(Next(d, steps[0]), steps[1..])
  }

  predicate Ended(stage: Stage) {
    stage.Closing? || stage.Done?
  }

  predicate Unannounced(stage: Stage) {
    stage.Claiming? || stage.Claimed? || stage.Marking? || stage.Marked? || stage.Starting? || stage.Feeding?
    || stage.Announcing?
  }

  /** Logged by the server: by `Create` unless it died, or as Lost. */
  predicate ServerLogged(first: bool, lost: seq<nat>, e: Event) {
    (first && e == StateEvent(1, Queued)) || (e.StateEvent? && e.status == Lost && e.sequence in lost)
  }

  predicate OwnerLogged(s: Supervisor, e: Event) {
    (s.job.grouped && e == StateEvent(2, Running)) || (Ended(s.stage) && e == StateEvent(s.job.lastSequence, s.job.state))
  }

  /** The process group is recorded when "running" is logged, and stays recorded. */
  predicate StageFits(s: Supervisor) {
    if s.job.grouped then !Unannounced(s.stage) else Unannounced(s.stage) || Ending(s.stage)
  }

  /** The event files beside the owner of the claim. */
  ghost predicate OwnerFiles(stateFile: seq<Event>, outputFile: seq<Event>, s: Supervisor, first: bool, lost: seq<nat>) {
    && (forall e :: e in stateFile <==> ServerLogged(first, lost, e) || OwnerLogged(s, e))
    && (forall e :: e in outputFile ==>
          3 <= e.sequence <= s.job.lastSequence && (Ended(s.stage) ==> e.sequence < s.job.lastSequence))
    && StageFits(s)
    && (!s.job.grouped ==> outputFile == [] && s.job.lastSequence == if Ended(s.stage) then 2 else 1)
    && (s.job.grouped ==> s.job.lastSequence >= if Ended(s.stage) then 3 else 2)
  }

  /** As the record is before anybody claimed the job. */
  predicate Untouched(r: Record) {
    r.state == Queued && r.lastSequence == 1 && !r.grouped
  }

  ghost predicate UnclaimedFiles(d: Dir, first: bool, lost: seq<nat>) {
    && d.disk.outputFile == [] && (forall e :: e in d.disk.stateFile <==> ServerLogged(first, lost, e))
    && (!Terminal(d.disk.record.state) ==> Untouched(d.disk.record))
    && (forall i :: 0 <= i < |d.supervisors| && d.supervisors[i].stage.Loaded? ==> Untouched(d.supervisors[i].job))
    && !d.server.WritingBack?
  }

  ghost predicate FilesAreFrom(d: Dir, first: bool, lost: seq<nat>) {
    if d.disk.claim.NoClaim? then UnclaimedFiles(d, first, lost)
    else d.disk.claim.creator < |d.supervisors|
         && OwnerFiles(d.disk.stateFile, d.disk.outputFile, d.supervisors[d.disk.claim.creator], first, lost)
  }

  lemma OwnerLogs(disk: Disk, i: nat, s: Supervisor, action: Action, origin: Record, first: bool, lost: seq<nat>)
    requires Enabled(disk, s, action) && OwnerOk(disk, s, origin)
    requires OwnerFiles(disk.stateFile, disk.outputFile, s, first, lost)
    requires action.AppendRunning? || action.AppendFinal?
    ensures var acted := Act(disk, i, s, action);
      OwnerFiles(acted.disk.stateFile, acted.disk.outputFile, acted.self, first, lost)
  {
    var acted := Act(disk, i, s, action);
    var event := StateEvent(acted.self.job.lastSequence, acted.self.job.state);
    assert acted.disk.stateFile == disk.stateFile + [event];
    forall e ensures e in acted.disk.stateFile <==> ServerLogged(first, lost, e) || OwnerLogged(acted.self, e) {
      assert e in acted.disk.stateFile <==> e in disk.stateFile || e == event;
    }
  }

  lemma OwnerOutputs(disk: Disk, i: nat, s: Supervisor, action: Action, first: bool, lost: seq<nat>)
    requires Enabled(disk, s, action) && action.Output?
    requires OwnerFiles(disk.stateFile, disk.outputFile, s, first, lost)
    ensures var acted := Act(disk, i, s, action);
      OwnerFiles(acted.disk.stateFile, acted.disk.outputFile, acted.self, first, lost)
  {
    var acted := Act(disk, i, s, action);
    if !s.job.quiet {
      var event := OutputEvent(s.job.lastSequence + 1, action.stream, action.data);
      forall e | e in acted.disk.outputFile ensures e in disk.outputFile || e == event {
      }
    }
    forall e ensures OwnerLogged(acted.self, e) <==> OwnerLogged(s, e) {
    }
  }

  predicate MovesFitting(disk: Disk, s: Supervisor, acted: Acted) {
    && StageFits(acted.self) && (Ended(acted.self.stage) <==> Ended(s.stage))
    && acted.self.job == s.job.(supervisorPid := acted.self.job.supervisorPid)
    && acted.disk.stateFile == disk.stateFile && acted.disk.outputFile == disk.outputFile
  }

  lemma OwnerStartsFitting(disk: Disk, i: nat, s: Supervisor, action: Action, origin: Record)
    requires Enabled(disk, s, action) && OwnerOk(disk, s, origin) && StageFits(s) && BeforeStart(action)
    ensures MovesFitting(disk, s, Act(disk, i, s, action))
  {
  }

  lemma OwnerGoesOnFitting(disk: Disk, i: nat, s: Supervisor, action: Action, origin: Record)
    requires Enabled(disk, s, action) && OwnerOk(disk, s, origin) && StageFits(s)
    requires !Appends(action) && !BeforeStart(action)
    ensures MovesFitting(disk, s, Act(disk, i, s, action))
  {
  }

  lemma FilesCarryOver(stateFile: seq<Event>, outputFile: seq<Event>, s: Supervisor, t: Supervisor, first: bool, lost: seq<nat>)
    requires OwnerFiles(stateFile, outputFile, s, first, lost)
    requires StageFits(t) && (Ended(t.stage) <==> Ended(s.stage)) && t.job == s.job.(supervisorPid := t.job.supervisorPid)
    ensures OwnerFiles(stateFile, outputFile, t, first, lost)
  {
    forall e ensures OwnerLogged(t, e) <==> OwnerLogged(s, e) {
    }
  }

  lemma OwnerKeepsFiles(d: Dir, i: nat, action: Action, origin: Record, first: bool, lost: seq<nat>)
    requires Safe(d, origin) && FilesAreFrom(d, first, lost)
    requires Possible(d, Supervise(i, action)) && Past(d.supervisors[i].stage)
    ensures FilesAreFrom(Next(d, Supervise(i, action)), first, lost)
  {
    var s := d.supervisors[i];
    assert SupervisorOk(d.disk.claim, i, s, origin);
    assert OwnerOk(d.disk, s, origin);
    OwnerRecord(d.disk, i, s, action, origin);
    if action.Output? {
      OwnerOutputs(d.disk, i, s, action, first, lost);
    } else if Appends(action) {
      OwnerLogs(d.disk, i, s, action, origin, first, lost);
    } else {
      if BeforeStart(action) {
        OwnerStartsFitting(d.disk, i, s, action, origin);
      } else {
        OwnerGoesOnFitting(d.disk, i, s, action, origin);
      }
      var acted := Act(d.disk, i, s, action);
      FilesCarryOver(d.disk.stateFile, d.disk.outputFile, s, acted.self, first, lost);
    }
  }

  lemma ClaimingKeepsFiles(d: Dir, i: nat, first: bool, lost: seq<nat>)
    requires UnclaimedFiles(d, first, lost) && d.disk.claim.NoClaim? && Possible(d, Supervise(i, CreateClaim))
    ensures FilesAreFrom(Next(d, Supervise(i, CreateClaim)), first, lost)
  {
    var e := Next(d, Supervise(i, CreateClaim));
    forall event ensures !OwnerLogged(e.supervisors[i], event) {
    }
    assert e.disk.stateFile == d.disk.stateFile && e.disk.outputFile == d.disk.outputFile;
  }

  lemma CandidateKeepsFiles(d: Dir, i: nat, action: Action, origin: Record, first: bool, lost: seq<nat>)
    requires Safe(d, origin) && FilesAreFrom(d, first, lost)
    requires Possible(d, Supervise(i, action)) && !Past(d.supervisors[i].stage)
    ensures FilesAreFrom(Next(d, Supervise(i, action)), first, lost)
  {
    assert SupervisorOk(d.disk.claim, i, d.supervisors[i], origin);
    if d.disk.claim.NoClaim? && action.CreateClaim? {
      ClaimingKeepsFiles(d, i, first, lost);
    } else {
      CandidateAct(d.disk, i, d.supervisors[i], action);
      if d.disk.claim.Claim? {
        assert OwnerOk(d.disk, d.supervisors[d.disk.claim.creator], origin);
        assert i != d.disk.claim.creator;
      }
    }
  }

  lemma LostIsLogged(stateFile: seq<Event>, number: nat, first: bool, lost: seq<nat>, event: Event)
    ensures event in stateFile + [StateEvent(number, Lost)] <==> event in stateFile || event == StateEvent(number, Lost)
    ensures ServerLogged(first, lost + [number], event) <==>
      ServerLogged(first, lost, event) || event == StateEvent(number, Lost)
  {
  }

  lemma LoggingLostKeepsFiles(d: Dir, e: Dir, number: nat, first: bool, lost: seq<nat>)
    requires FilesAreFrom(d, first, lost)
    requires e.supervisors == d.supervisors && e.disk.claim == d.disk.claim && e.disk.outputFile == d.disk.outputFile
    requires e.disk.stateFile == d.disk.stateFile + [StateEvent(number, Lost)] && !e.server.WritingBack?
    requires e.disk.record == d.disk.record || Terminal(e.disk.record.state)
    ensures FilesAreFrom(e, first, lost + [number])
  {
    forall event
      ensures event in e.disk.stateFile <==> event in d.disk.stateFile || event == StateEvent(number, Lost)
      ensures ServerLogged(first, lost + [number], event) <==>
      ServerLogged(first, lost, event) || event == StateEvent(number, Lost)
    {
      LostIsLogged(d.disk.stateFile, number, first, lost, event);
    }
  }

  lemma ReconcileStepKeepsFiles(d: Dir, origin: Record, first: bool, lost: seq<nat>)
    requires Safe(d, origin) && FilesAreFrom(d, first, lost)
    ensures FilesAreFrom(ReconcileStep(d), first, lost + LostBy(d, ReconcileFine))
  {
    if d.server.Losing? {
      LoggingLostKeepsFiles(d, ReconcileStep(d), d.server.copy.lastSequence + 1, first, lost);
    } else {
      assert lost + LostBy(d, ReconcileFine) == lost;
    }
  }

  lemma ReconcileKeepsFiles(d: Dir, origin: Record, first: bool, lost: seq<nat>)
    requires Safe(d, origin) && FilesAreFrom(d, first, lost) && d.server.Idle?
    ensures FilesAreFrom(Reconciled(d), first, lost + LostBy(d, Reconcile))
  {
    ReconcileCases(d);
    if DecidesLost(d) {
      LoggingLostKeepsFiles(d, Reconciled(d), d.disk.record.lastSequence + 1, first, lost);
    } else {
      assert lost + LostBy(d, Reconcile) == lost;
      ReconcileTouchesRecordOnly(d);
      assert Reconciled(d).server.Idle? && Reconciled(d).disk.stateFile == d.disk.stateFile;
    }
  }

  lemma StepKeepsFiles(d: Dir, step: Step, origin: Record, first: bool, lost: seq<nat>)
    requires Safe(d, origin) && FilesAreFrom(d, first, lost) && Possible(d, step)
    ensures FilesAreFrom(Next(d, step), first, lost + LostBy(d, step))
  {
    match step
    case Supervise(i, action) =>
      assert lost + LostBy(d, step) == lost;
      if Past(d.supervisors[i].stage) {
        OwnerKeepsFiles(d, i, action, origin, first, lost);
      } else {
        CandidateKeepsFiles(d, i, action, origin, first, lost);
      }
    case ReconcileFine => ReconcileStepKeepsFiles(d, origin, first, lost);
    case Reconcile => ReconcileKeepsFiles(d, origin, first, lost);
    case _ => assert lost + LostBy(d, step) == lost;
  }

  /** `FilesAreFrom`, folded. */
  ghost predicate FilesKept(d: Dir, first: bool, lost: seq<nat>) {
    forall token: nat :: Unfold(token) ==> FilesAreFrom(d, first, lost)
  }

  lemma StepKeepsKept(d: Dir, step: Step, origin: Record, first: bool, lost: seq<nat>)
    requires Safe(d, origin) && FilesKept(d, first, lost) && Possible(d, step)
    ensures FilesKept(Next(d, step), first, lost + LostBy(d, step))
  {
    assert Unfold(0);
    StepKeepsFiles(d, step, origin, first, lost);
  }

  lemma LostLogStep(d: Dir, steps: seq<Step>, lost: seq<nat>)
    requires Run(d, steps) && steps != []
    ensures lost + LostLog(d, steps) == lost + LostBy(d, steps[0]) + LostLog(Next(d, steps[0]), steps[1..])
  {
  }

  lemma {:induction false} RunKeepsFiles(d: Dir, steps: seq<Step>, origin: Record, first: bool, lost: seq<nat>)
    requires Safe(d, origin) && FilesKept(d, first, lost) && Run(d, steps)
    ensures Safe(After(d, steps), origin) && FilesKept(After(d, steps), first, lost + LostLog(d, steps))
    decreases |steps|
  {
    if steps == [] {
      assert lost + LostLog(d, steps) == lost;
    } else {
      StepKeepsSafe(d, steps[0], origin);
      StepKeepsKept(d, steps[0], origin, first, lost);
      RunKeepsFiles(Next(d, steps[0]), steps[1..], origin, first, lost + LostBy(d, steps[0]));
      LostLogStep(d, steps, lost);
    }
  }

  lemma FilesAfter(d: Dir, steps: seq<Step>)
    requires Initial(d) && Run(d, steps)
    ensures Safe(After(d, steps), d.disk.record)
    ensures FilesAreFrom(After(d, steps), d.disk.stateFile != [], LostLog(d, steps))
  {
    InitialIsSafe(d);
    RunKeepsFiles(d, steps, d.disk.record, d.disk.stateFile != [], []);
    assert [] + LostLog(d, steps) == LostLog(d, steps);
    assert Unfold(0);
  }

  /**
   * In every run the state file holds exactly these events: the first one, unless the server died
   * before logging it; one Lost event for each time `Reconcile` logged it; number 2 "running" once
   * the owner of the claim announced it; and the owner's last event once it has logged that.
   */
  lemma StateFileIsExact(d: Dir, steps: seq<Step>, event: Event)
    requires Initial(d) && Run(d, steps)
    ensures var e := After(d, steps);
      event in e.disk.stateFile <==>
        || (d.disk.stateFile != [] && event == StateEvent(1, Queued))
        || (event.StateEvent? && event.status == Lost && event.sequence in LostLog(d, steps))
        || (e.disk.claim.Claim? && e.disk.claim.creator < |e.supervisors|
            && OwnerLogged(e.supervisors[e.disk.claim.creator], event))
  {
    FilesAfter(d, steps);
  }

  // ---------- Numbers that are in use ----------

  /** The owner has given out the number, and what it logged under it is still there. */
  predicate OwnerHolds(d: Dir, number: nat) {
    d.disk.claim.Claim? && d.disk.claim.creator < |d.supervisors| &&
    var s := d.supervisors[d.disk.claim.creator];
    number <= s.job.lastSequence
    && (number == 2 || (Ended(s.stage) && number == s.job.lastSequence) || Has(d.disk.outputFile, number))
  }

  lemma InFile(file: seq<Event>, number: nat) returns (e: Event)
    requires Has(file, number)
    ensures e in file && e.sequence == number
  {
    var k :| 0 <= k < |file| && file[k].sequence == number;
    e := file[k];
  }

  lemma HeldIsThere(d: Dir, number: nat, first: bool, lost: seq<nat>)
    requires FilesAreFrom(d, first, lost) && 2 <= number
    requires number in lost || OwnerHolds(d, number)
    ensures Has(d.disk.stateFile, number) || Has(d.disk.outputFile, number)
  {
    if number in lost {
      assert ServerLogged(first, lost, StateEvent(number, Lost));
      assert StateEvent(number, Lost) in d.disk.stateFile;
    } else if !Has(d.disk.outputFile, number) {
      var s := d.supervisors[d.disk.claim.creator];
      var status := if Ended(s.stage) && number == s.job.lastSequence then s.job.state else Running;
      assert OwnerLogged(s, StateEvent(number, status));
      assert StateEvent(number, status) in d.disk.stateFile;
    }
  }

  lemma ThereIsHeld(d: Dir, number: nat, first: bool, lost: seq<nat>)
    requires FilesAreFrom(d, first, lost) && 2 <= number
    requires Has(d.disk.stateFile, number) || Has(d.disk.outputFile, number)
    ensures number in lost || OwnerHolds(d, number)
  {
    if Has(d.disk.outputFile, number) {
      var e := InFile(d.disk.outputFile, number);
      assert d.disk.claim.Claim?;
    } else {
      var e := InFile(d.disk.stateFile, number);
      if !ServerLogged(first, lost, e) {
        assert OwnerLogged(d.supervisors[d.disk.claim.creator], e);
      }
    }
  }

  /** Every copy of the record has a number from which the next one can be counted. */
  predicate Numbered(d: Dir) {
    && d.disk.record.lastSequence >= 1
    && (!d.server.Idle? ==> d.server.copy.lastSequence >= 1)
    && forall i :: 0 <= i < |d.supervisors| ==> d.supervisors[i].job.lastSequence >= 1
  }

  lemma ActKeepsNumbered(disk: Disk, i: nat, s: Supervisor, action: Action)
    requires Enabled(disk, s, action) && disk.record.lastSequence >= 1 && s.job.lastSequence >= 1
    ensures var acted := Act(disk, i, s, action);
      acted.disk.record.lastSequence >= 1 && acted.self.job.lastSequence >= 1
  {
  }

  lemma StepKeepsNumbered(d: Dir, step: Step)
    requires Numbered(d) && Possible(d, step)
    ensures Numbered(Next(d, step))
  {
    match step
    case Supervise(i, action) => ActKeepsNumbered(d.disk, i, d.supervisors[i], action);
    case Reconcile =>
      ReconcileCases(d);
      ReconcileTouchesRecordOnly(d);
    case _ =>
  }

  lemma {:induction false} RunKeepsNumbered(d: Dir, steps: seq<Step>)
    requires Numbered(d) && Run(d, steps)
    ensures Numbered(After(d, steps))
    decreases |steps|
  {
    if steps != [] {
      StepKeepsNumbered(d, steps[0]);
      RunKeepsNumbered(Next(d, steps[0]), steps[1..]);
    }
  }

  lemma {:induction false} LostIsAboveFirst(d: Dir, steps: seq<Step>, number: nat)
    requires Numbered(d) && Run(d, steps) && number in LostLog(d, steps)
    ensures number >= 2
    decreases |steps|
  {
    if steps != [] {
      StepKeepsNumbered(d, steps[0]);
      if number !in LostBy(d, steps[0]) {
        LostIsAboveFirst(Next(d, steps[0]), steps[1..], number);
      }
    }
  }

  /**
   * After any run, whatever came between the steps of `Reconcile` and wherever the server died:
   * the number under which its next step logs Lost is in use exactly if an earlier `Reconcile`
   * logged Lost under it, or the owner of the claim logged something under it that the record
   * it decided on did not cover and that is still there.
   */
  lemma LostNumberIsUsedIff(d: Dir, steps: seq<Step>, step: Step)
    requires Initial(d) && Run(d, steps) && LostBy(After(d, steps), step) != []
    ensures var e := After(d, steps); var number := LostBy(e, step)[0];
      Has(e.disk.stateFile, number) || Has(e.disk.outputFile, number) <==>
      number in LostLog(d, steps) || OwnerHolds(e, number)
  {
    FilesAfter(d, steps);
    RunKeepsNumbered(d, steps);
    var e := After(d, steps);
    var number := LostBy(e, step)[0];
    if number in LostLog(d, steps) || OwnerHolds(e, number) {
      HeldIsThere(e, number, d.disk.stateFile != [], LostLog(d, steps));
    }
    if Has(e.disk.stateFile, number) || Has(e.disk.outputFile, number) {
      ThereIsHeld(e, number, d.disk.stateFile != [], LostLog(d, steps));
    }
  }
}
