/**
 * One job directory of the Runner as a protocol: the files in it, any number of supervisor
 * processes with their program counters (supervisor.go `Supervise`), and a server that
 * reconciles the record and may restart at any point (store.go `Reconcile`). Every interleaving
 * of the steps is a run.
 */
module JobDirectory {
  import opened Wrappers
  import opened EventLog

  // ---------- The record and the files ----------

  /** SHA-256 of a command, taken to be injective. */
  datatype Digest = Sha256(command: string)

  datatype CancellationMode = ProcessGroup | External

  datatype Message = NoMessage | Unavailable | DigestMismatch | NotStarted | CancellationUnverified
                   | DeclarationUnverified | ExitStatus

  /** job.json; `quiet` is the output mode "none", `grouped` tells that the process group is recorded. */
  datatype Record = Record(id: string, key: string, digest: Digest, mode: CancellationMode, quiet: bool,
                           createdAt: nat, state: Status, supervisorPid: nat, grouped: bool, verified: bool,
                           message: Message, truncated: bool, lastSequence: nat)

  predicate SameCore(a: Record, b: Record) {
    a.id == b.id && a.key == b.key && a.digest == b.digest && a.mode == b.mode && a.quiet == b.quiet
  }

  /** supervisor.claim: which process created it, and whether its PID has been written into it. */
  datatype Claim = NoClaim | Claim(creator: nat, pidWritten: bool)

  datatype Ack = Ack(at: nat, wellFormed: bool)

  datatype Path = OnTimeout | OnCancel | Declared(state: Status)

  datatype Judgement = Judgement(path: Path, acknowledged: bool)

  /**
   * The directory, and after it what the outside world knows: the commands that were started,
   * whether the process group has running members, and on what the outcome was decided.
   */
  datatype Disk = Disk(record: Record, claim: Claim, cancelAt: Option<nat>, timeoutAt: Option<nat>,
                       ack: Option<Ack>, declared: Option<Status>, stateFile: seq<Event>, outputFile: seq<Event>,
                       now: nat, starts: seq<string>, groupRunning: bool, judged: Option<Judgement>)

  predicate Acknowledged(disk: Disk) {
    var trigger := if disk.cancelAt.Some? then disk.cancelAt else disk.timeoutAt;
    disk.ack.Some? && disk.ack.value.wellFormed && trigger.Some? && disk.ack.value.at >= trigger.value
  }

  // ---------- Supervisors ----------

  datatype Outcome = Outcome(state: Status, verified: bool, message: Message)

  /** The program counter: each stage names what was done last, or what comes next. */
  datatype Stage =
    | Spawned | Loaded | Exited
    | Claiming | Claimed | Marking | Marked | Starting | Feeding
    | Announcing | Announced | Copying | Copied | Collected | Untimed | Undisturbed
    | Verifying(path: Path) | Finishing(outcome: Outcome) | Closing(outcome: Outcome) | Done

  /** A process; its PID is its position among the supervisors plus one. `job` is its copy of the record. */
  datatype Supervisor = Supervisor(command: string, alive: bool, started: bool, stage: Stage, job: Record)

  predicate Past(stage: Stage) {
    !stage.Spawned? && !stage.Loaded? && !stage.Exited?
  }

  /** What `appendOutput` does with a record: keep it, drop it, or keep it and compact the file. */
  datatype Retention = Kept | Skipped | Compacted(drop: nat)

  datatype Action =
    | Load | CreateClaim | WritePid | CheckCancel | WriteMark | CheckDigest
    | Start(ok: bool) | Feed(ok: bool) | AppendRunning | WriteRunning
    | Output(stream: Stream, data: string, retention: Retention) | WriteOutput
    | Collect | CheckTimeout | CheckCancelled | CheckDeclared(success: bool) | Judge(gone: bool)
    | AppendFinal | WriteFinal | SetTimeout | Die

  predicate Enabled(disk: Disk, s: Supervisor, action: Action) {
    s.alive &&
    match action
    case Load => s.stage.Spawned?
    case CreateClaim => s.stage.Loaded?
    case WritePid => s.stage.Claiming?
    case CheckCancel => s.stage.Claimed?
    case WriteMark => s.stage.Marking?
    case CheckDigest => s.stage.Marked?
    case Start(_) => s.stage.Starting?
    case Feed(_) => s.stage.Feeding?
    case AppendRunning => s.stage.Announcing?
    case WriteRunning => s.stage.Announced?
    case Output(_, data, retention) =>
      s.stage.Copying? && data != "" && (retention.Compacted? ==> 1 <= retention.drop <= |disk.outputFile| + 1)
    case WriteOutput => s.stage.Copied?
    case Collect => s.stage.Copying?
    case CheckTimeout => s.stage.Collected?
    case CheckCancelled => s.stage.Untimed?
    case CheckDeclared(_) => s.stage.Undisturbed?
    case Judge(gone) => s.stage.Verifying? && (gone ==> !disk.groupRunning)
    case AppendFinal => s.stage.Finishing?
    case WriteFinal => s.stage.Closing?
    case SetTimeout => s.started && disk.timeoutAt.None?
    case Die => true
  }

  function Retain(file: seq<Event>, event: Event, retention: Retention): seq<Event>
    requires retention.Compacted? ==> 1 <= retention.drop <= |file| + 1
  {
    match retention
    case Kept => file + [event]
    case Skipped => file
    case Compacted(drop) => (file + [event])[drop..]
  }

  function Decided(path: Path, gone: bool, acknowledged: bool, mode: CancellationMode): Outcome {
    var verified := gone && (mode.External? ==> acknowledged);
    match path
    case OnTimeout => Outcome(TimedOut, verified, NoMessage)
    case OnCancel =>
      if verified then Outcome(Cancelled, true, NoMessage) else Outcome(Failed, false, CancellationUnverified)
    case Declared(state) =>
      if gone then Outcome(state, true, NoMessage) else Outcome(Failed, false, DeclarationUnverified)
  }

  datatype Acted = Acted(disk: Disk, self: Supervisor)

  /** What one step of supervisor `i` does to the files and to itself. */
  function Act(disk: Disk, i: nat, s: Supervisor, action: Action): Acted
    requires Enabled(disk, s, action)
  {
    match action
    case Load =>
      if Terminal(disk.record.state) then Acted(disk, s.(stage := Exited))
      else Acted(disk, s.(stage := Loaded, job := disk.record))
    case CreateClaim =>
      if disk.claim.Claim? then Acted(disk, s.(stage := Exited))
      else Acted(disk.(claim := Claim(i, false)), s.(stage := Claiming))
    case WritePid => Acted(disk.(claim := Claim(i, true)), s.(stage := Claimed))
    case CheckCancel =>
      Acted(disk, s.(stage := if disk.cancelAt.Some? then Finishing(Outcome(Cancelled, true, NoMessage)) else Marking))
    case WriteMark =>
      var job := s.job.(supervisorPid := i + 1);
      Acted(disk.(record := job), s.(stage := Marked, job := job))
    case CheckDigest =>
      var ok := s.command != "" && Sha256(s.command) == s.job.digest;
      Acted(disk, s.(stage := if ok then Starting else Finishing(Outcome(Lost, false, DigestMismatch))))
    case Start(ok) =>
      if ok then Acted(disk.(starts := disk.starts + [s.command], groupRunning := true), s.(stage := Feeding, started := true))
      else Acted(disk, s.(stage := Finishing(Outcome(Failed, false, NotStarted))))
    case Feed(ok) =>
      Acted(disk, s.(stage := if ok then Announcing else Finishing(Outcome(Failed, false, NotStarted))))
    case AppendRunning =>
      var job := s.job.(state := Running, grouped := true, lastSequence := s.job.lastSequence + 1);
      Acted(disk.(stateFile := disk.stateFile + [StateEvent(job.lastSequence, Running)]), s.(stage := Announced, job := job))
    case WriteRunning => Acted(disk.(record := s.job), s.(stage := Copying))
    case Output(stream, data, retention) =>
      if s.job.quiet then Acted(disk, s.(stage := Copied))
      else
        var number := s.job.lastSequence + 1;
        var job := s.job.(lastSequence := number, truncated := s.job.truncated || !retention.Kept?);
        Acted(disk.(outputFile := Retain(disk.outputFile, OutputEvent(number, stream, data), retention)),
              s.(stage := Copied, job := job))
    case WriteOutput => Acted(disk.(record := s.job), s.(stage := Copying))
    case Collect => Acted(disk, s.(stage := Collected))
    case CheckTimeout => Acted(disk, s.(stage := if disk.timeoutAt.Some? then Verifying(OnTimeout) else Untimed))
    case CheckCancelled => Acted(disk, s.(stage := if disk.cancelAt.Some? then Verifying(OnCancel) else Undisturbed))
    case CheckDeclared(success) =>
      Acted(disk, s.(stage :=
        if disk.declared.Some? then Verifying(Declared(disk.declared.value))
        else if success then Finishing(Outcome(Succeeded, false, NoMessage))
        else Finishing(Outcome(Failed, false, ExitStatus))))
    case Judge(gone) =>
      var acknowledged := Acknowledged(disk);
      Acted(disk.(judged := Some(Judgement(s.stage.path, acknowledged))),
            s.(stage := Finishing(Decided(s.stage.path, gone, acknowledged, s.job.mode))))
    case AppendFinal =>
      var outcome := s.stage.outcome;
      var job := s.job.(state := outcome.state, verified := outcome.verified, message := outcome.message,
                        lastSequence := s.job.lastSequence + 1);
      Acted(disk.(stateFile := disk.stateFile + [StateEvent(job.lastSequence, job.state)]),
            s.(stage := Closing(outcome), job := job))
    case WriteFinal => Acted(disk.(record := s.job), s.(stage := Done))
    case SetTimeout => Acted(disk.(timeoutAt := Some(disk.now)), s)
    case Die => Acted(disk, s.(alive := false))
  }

  // ---------- The server ----------

  /** How far a `Reconcile` has come, with the record it read. */
  datatype Reconciling = Idle | Read(copy: Record) | WritingBack(copy: Record) | Losing(copy: Record) | LostLogged(copy: Record)

  datatype Dir = Dir(disk: Disk, supervisors: seq<Supervisor>, server: Reconciling)

  const CLAIM_GRACE: nat := 5000

  /** `readSupervisorClaim`: an empty claim file reads as PID 0. */
  function ClaimedPid(claim: Claim): (pid: nat) {
    if claim.Claim? && claim.pidWritten then claim.creator + 1 else 0
  }

  predicate ProcessExists(supervisors: seq<Supervisor>, pid: nat) {
    0 < pid <= |supervisors| && supervisors[pid - 1].alive
  }

  /** What `Reconcile` does next with the record it read. */
  function Checked(d: Dir, copy: Record): Reconciling {
    var pid := ClaimedPid(d.disk.claim);
    if d.disk.claim.Claim? && ProcessExists(d.supervisors, pid) then
      if copy.supervisorPid != pid then WritingBack(copy.(supervisorPid := pid)) else Idle
    else if d.disk.claim.NoClaim? && copy.state == Queued && d.disk.now < copy.createdAt + CLAIM_GRACE then Idle
    else Losing(copy)
  }

  function MarkedLost(copy: Record): Record {
    copy.(state := Lost, verified := false, message := Unavailable, lastSequence := copy.lastSequence + 1)
  }

  function LogLost(d: Dir, copy: Record): Dir {
    var lost := MarkedLost(copy);
    d.(disk := d.disk.(stateFile := d.disk.stateFile + [StateEvent(lost.lastSequence, Lost)]), server := LostLogged(lost))
  }

  /** The steps of `Reconcile`, each of which other processes may come between. */
  function ReconcileStep(d: Dir): Dir {
    match d.server
    case Idle => if Terminal(d.disk.record.state) then d else d.(server := Read(d.disk.record))
    case Read(copy) => d.(server := Checked(d, copy))
    case WritingBack(copy) => d.(disk := d.disk.(record := copy), server := Idle)
    case Losing(copy) => LogLost(d, copy)
    case LostLogged(copy) => d.(disk := d.disk.(record := copy), server := Idle)
  }

  /** A whole `Reconcile` with nothing in between. */
  function Reconciled(d: Dir): Dir
    requires d.server.Idle?
  {
    var read := ReconcileStep(d);
    if read.server.Idle? then read
    else
      var checked := ReconcileStep(read);
      if checked.server.Idle? then checked
      else if checked.server.WritingBack? then ReconcileStep(checked)
      else ReconcileStep(ReconcileStep(checked))
  }

  // ---------- Runs ----------

  datatype Step =
    | Supervise(i: nat, action: Action)
    | ReconcileFine | Reconcile | ServerRestarts
    | Spawn(command: string)
    | RequestCancel | Acknowledge(wellFormed: bool) | Declare(state: Option<Status>) | GroupEnds | Tick(elapsed: nat)

  predicate Possible(d: Dir, step: Step) {
    match step
    case Supervise(i, action) => i < |d.supervisors| && Enabled(d.disk, d.supervisors[i], action)
    case Reconcile => d.server.Idle?
    case Declare(state) => state.Some? ==> state.value == Cancelled || state.value == TimedOut
    case _ => true
  }

  function Next(d: Dir, step: Step): Dir
    requires Possible(d, step)
  {
    match step
    case Supervise(i, action) =>
      var acted := Act(d.disk, i, d.supervisors[i], action);
      d.(disk := acted.disk, supervisors := d.supervisors[i := acted.self])
    case ReconcileFine => ReconcileStep(d)
    case Reconcile => Reconciled(d)
    case ServerRestarts => d.(server := Idle)
    case Spawn(command) =>
      d.(supervisors := d.supervisors + [Supervisor(command, true, false, Spawned, d.disk.record)])
    case RequestCancel =>
      if d.disk.cancelAt.Some? then d else d.(disk := d.disk.(cancelAt := Some(d.disk.now)))
    case Acknowledge(wellFormed) => d.(disk := d.disk.(ack := Some(Ack(d.disk.now, wellFormed))))
    case Declare(state) => d.(disk := d.disk.(declared := state))
    case GroupEnds => d.(disk := d.disk.(groupRunning := false))
    case Tick(elapsed) => d.(disk := d.disk.(now := d.disk.now + elapsed))
  }

  predicate Run(d: Dir, steps: seq<Step>)
    decreases |steps|
  {
    steps == [] || (Possible(d, steps[0]) && Run(Next(d, steps[0]), steps[1..]))
  }

  function After(d: Dir, steps: seq<Step>): Dir
    requires Run(d, steps)
    decreases |steps|
  {
    if steps == [] then d else After(Next(d, steps[0]), steps[1..])
  }

  /** As `Create` leaves it; the server may have died before it logged the first event. */
  predicate Initial(d: Dir) {
    var r := d.disk.record;
    && r.state == Queued && r.lastSequence == 1 && r.supervisorPid == 0 && !r.grouped && !r.verified && !r.truncated
    && r.message == NoMessage
    && d.disk.claim == NoClaim && d.disk.cancelAt == None && d.disk.timeoutAt == None && d.disk.ack == None
    && d.disk.declared == None && (d.disk.stateFile == [StateEvent(1, Queued)] || d.disk.stateFile == [])
    && d.disk.outputFile == [] && d.disk.starts == [] && !d.disk.groupRunning && d.disk.judged == None
    && d.supervisors == [] && d.server == Idle
  }

  // ---------- What every step keeps ----------

  /** Copies of the record never change who the job is, and end with a reason. */
  predicate CopyOk(r: Record, origin: Record) {
    SameCore(r, origin) && (!Terminal(r.state) ==> r.message == NoMessage && !r.verified) && (r.state == Cancelled ==> r.verified)
  }

  predicate Ending(stage: Stage) {
    stage.Finishing? || stage.Closing? || stage.Done?
  }

  /** Only the creator of the claim is past it. */
  predicate SupervisorOk(claim: Claim, i: nat, s: Supervisor, origin: Record) {
    && CopyOk(s.job, origin)
    && (Past(s.stage) ==> claim.Claim? && claim.creator == i)
    && (!Past(s.stage) ==> !s.started)
    && (s.stage.Loaded? ==> !Terminal(s.job.state))
  }

  predicate SupervisorsOk(claim: Claim, supervisors: seq<Supervisor>, origin: Record) {
    forall i :: 0 <= i < |supervisors| ==> SupervisorOk(claim, i, supervisors[i], origin)
  }

  predicate OwnerOk(disk: Disk, s: Supervisor, origin: Record) {
    && disk.claim.Claim? && Past(s.stage)
    && (disk.claim.pidWritten <==> !s.stage.Claiming?)
    && disk.starts == (if s.started then [s.command] else [])
    && (s.started || s.stage.Starting? ==> s.command != "" && Sha256(s.command) == origin.digest)
    && (!s.started ==> s.stage.Claiming? || s.stage.Claimed? || s.stage.Marking? || s.stage.Marked?
                       || s.stage.Starting? || Ending(s.stage))
    && (s.started ==> !s.stage.Claiming? && !s.stage.Claimed? && !s.stage.Marking? && !s.stage.Marked? && !s.stage.Starting?)
    && (disk.groupRunning ==> s.started)
    && (s.stage.Finishing? || s.stage.Closing? ==>
          && Terminal(s.stage.outcome.state) && s.stage.outcome.message != Unavailable
          && Grounded(disk, s, s.stage.outcome.state, s.stage.outcome.verified))
    && (s.stage.Verifying? && s.stage.path.Declared? ==> s.stage.path.state == Cancelled || s.stage.path.state == TimedOut)
    && (!s.stage.Closing? && !s.stage.Done? ==> !Terminal(s.job.state))
    && (s.stage.Closing? || s.stage.Done? ==> Terminal(s.job.state) && Grounded(disk, s, s.job.state, s.job.verified))
    && s.job.message != Unavailable
  }

  /**
   * What a "verified" outcome rests on: nothing was started and nothing will be, or the process
   * group is gone. A cancelled outcome is verified, and in external mode, if the cancel request
   * was seen, it was acknowledged no earlier than it was made.
   */
  predicate Grounded(disk: Disk, s: Supervisor, state: Status, verified: bool) {
    && (state == Cancelled ==> verified)
    && (verified ==> Ending(s.stage) && !disk.groupRunning)
    && (state == Cancelled && s.started ==>
          && disk.judged.Some? && !disk.judged.value.path.OnTimeout?
          && (disk.judged.value.path.OnCancel? && s.job.mode.External? ==> disk.judged.value.acknowledged))
  }

  /** The same for any copy of the record, through the supervisor that owns the claim. */
  predicate CopyGrounded(d: Dir, r: Record) {
    r.verified ==>
      d.disk.claim.Claim? && d.disk.claim.creator < |d.supervisors| &&
      Grounded(d.disk, d.supervisors[d.disk.claim.creator], r.state, r.verified)
  }

  predicate ServerOk(d: Dir, origin: Record) {
    && (d.server.Read? || d.server.WritingBack? || d.server.Losing? ==>
          CopyOk(d.server.copy, origin) && !Terminal(d.server.copy.state))
    && (d.server.LostLogged? ==> CopyOk(d.server.copy, origin) && d.server.copy.state == Lost && !d.server.copy.verified)
  }

  predicate ClaimOk(disk: Disk, supervisors: seq<Supervisor>, origin: Record) {
    if disk.claim.Claim? then
      disk.claim.creator < |supervisors| && OwnerOk(disk, supervisors[disk.claim.creator], origin)
    else disk.starts == [] && !disk.groupRunning
  }

  predicate DeclarationOk(disk: Disk) {
    disk.declared.Some? ==> disk.declared.value == Cancelled || disk.declared.value == TimedOut
  }

  predicate Safe(d: Dir, origin: Record) {
    && CopyOk(d.disk.record, origin) && CopyGrounded(d, d.disk.record)
    && SupervisorsOk(d.disk.claim, d.supervisors, origin)
    && ClaimOk(d.disk, d.supervisors, origin)
    && DeclarationOk(d.disk)
    && ServerOk(d, origin)
  }

  lemma InitialIsSafe(d: Dir)
    requires Initial(d)
    ensures Safe(d, d.disk.record)
  {
  }

  predicate OwnerStepOk(disk: Disk, i: nat, acted: Acted, origin: Record) {
    && OwnerOk(acted.disk, acted.self, origin) && CopyOk(acted.self.job, origin)
    && acted.disk.claim.Claim? && acted.disk.claim.creator == i && acted.disk.declared == disk.declared
  }

  predicate BeforeStart(action: Action) {
    action.WritePid? || action.CheckCancel? || action.WriteMark? || action.CheckDigest? || action.Start?
  }

  predicate AtTheEnd(action: Action) {
    action.CheckTimeout? || action.CheckCancelled? || action.CheckDeclared? || action.Judge?
    || action.AppendFinal? || action.WriteFinal?
  }

  lemma OwnerBeforeStart(disk: Disk, i: nat, s: Supervisor, action: Action, origin: Record)
    requires Enabled(disk, s, action) && OwnerOk(disk, s, origin) && disk.claim.creator == i
    requires CopyOk(s.job, origin) && DeclarationOk(disk)
    requires BeforeStart(action)
    ensures OwnerStepOk(disk, i, Act(disk, i, s, action), origin)
  {
  }

  lemma OwnerAtTheEnd(disk: Disk, i: nat, s: Supervisor, action: Action, origin: Record)
    requires Enabled(disk, s, action) && OwnerOk(disk, s, origin) && disk.claim.creator == i
    requires CopyOk(s.job, origin) && DeclarationOk(disk)
    requires AtTheEnd(action)
    ensures OwnerStepOk(disk, i, Act(disk, i, s, action), origin)
  {
  }

  lemma OwnerWhileRunning(disk: Disk, i: nat, s: Supervisor, action: Action, origin: Record)
    requires Enabled(disk, s, action) && OwnerOk(disk, s, origin) && disk.claim.creator == i
    requires CopyOk(s.job, origin) && DeclarationOk(disk)
    requires !BeforeStart(action) && !AtTheEnd(action)
    ensures OwnerStepOk(disk, i, Act(disk, i, s, action), origin)
  {
  }

  /** A step of the owner of the claim. */
  lemma OwnerStep(disk: Disk, i: nat, s: Supervisor, action: Action, origin: Record)
    requires Enabled(disk, s, action) && OwnerOk(disk, s, origin) && disk.claim.creator == i
    requires CopyOk(s.job, origin) && DeclarationOk(disk)
    ensures OwnerStepOk(disk, i, Act(disk, i, s, action), origin)
  {
    if BeforeStart(action) {
      OwnerBeforeStart(disk, i, s, action, origin);
    } else if AtTheEnd(action) {
      OwnerAtTheEnd(disk, i, s, action, origin);
    } else {
      OwnerWhileRunning(disk, i, s, action, origin);
    }
  }

  /** Whatever a copy rests on still holds. */
  lemma GroundsStay(disk: Disk, i: nat, s: Supervisor, action: Action, origin: Record, state: Status)
    requires Enabled(disk, s, action) && OwnerOk(disk, s, origin) && disk.claim.creator == i
    requires Grounded(disk, s, state, true)
    ensures var acted := Act(disk, i, s, action); Grounded(acted.disk, acted.self, state, true)
    ensures Act(disk, i, s, action).disk.starts == disk.starts
  {
  }

  /** A record that is written is the owner's copy, and is grounded. */
  lemma WrittenIsGrounded(disk: Disk, i: nat, s: Supervisor, action: Action, origin: Record)
    requires Enabled(disk, s, action) && OwnerOk(disk, s, origin) && disk.claim.creator == i
    requires CopyOk(s.job, origin)
    ensures var acted := Act(disk, i, s, action);
      acted.disk.record == disk.record ||
      (acted.disk.record == acted.self.job &&
       (acted.self.job.verified ==> Grounded(acted.disk, acted.self, acted.self.job.state, true)))
  {
  }

  lemma OwnerKeepsSafe(d: Dir, i: nat, action: Action, origin: Record)
    requires Safe(d, origin) && Possible(d, Supervise(i, action)) && Past(d.supervisors[i].stage)
    ensures Safe(Next(d, Supervise(i, action)), origin)
  {
    var s := d.supervisors[i];
    OwnerStep(d.disk, i, s, action, origin);
    if d.disk.record.verified {
      GroundsStay(d.disk, i, s, action, origin, d.disk.record.state);
    }
    WrittenIsGrounded(d.disk, i, s, action, origin);
  }

  lemma CandidateKeepsSafe(d: Dir, i: nat, action: Action, origin: Record)
    requires Safe(d, origin) && Possible(d, Supervise(i, action)) && !Past(d.supervisors[i].stage)
    ensures Safe(Next(d, Supervise(i, action)), origin)
  {
    var s := d.supervisors[i];
    assert SupervisorOk(d.disk.claim, i, s, origin);
    if action.CreateClaim? && d.disk.claim.NoClaim? {
      assert !d.disk.record.verified;
    }
  }

  lemma ReconcileStepKeepsSafe(d: Dir, origin: Record)
    requires Safe(d, origin)
    ensures Safe(ReconcileStep(d), origin)
  {
    var e := ReconcileStep(d);
    if d.server.Read? {
      CheckedIsOk(d, d.server.copy, origin);
    }
    if d.disk.claim.Claim? {
      OwnerUndisturbed(d.disk, e.disk, d.supervisors[d.disk.claim.creator], origin);
    }
    assert CopyGrounded(e, e.disk.record);
  }

  lemma CheckedIsOk(d: Dir, copy: Record, origin: Record)
    requires CopyOk(copy, origin) && !Terminal(copy.state)
    ensures ServerOk(d.(server := Checked(d, copy)), origin)
  {
  }

  lemma ReconcileKeepsSafe(d: Dir, origin: Record)
    requires Safe(d, origin) && d.server.Idle?
    ensures Safe(Reconciled(d), origin)
  {
    var read := ReconcileStep(d);
    ReconcileStepKeepsSafe(d, origin);
    ReconcileStepKeepsSafe(read, origin);
    ReconcileStepKeepsSafe(ReconcileStep(read), origin);
    ReconcileStepKeepsSafe(ReconcileStep(ReconcileStep(read)), origin);
  }

  lemma SpawnKeepsSafe(d: Dir, command: string, origin: Record)
    requires Safe(d, origin)
    ensures Safe(Next(d, Spawn(command)), origin)
  {
  }

  lemma OutsideKeepsSafe(d: Dir, step: Step, origin: Record)
    requires Safe(d, origin) && Possible(d, step)
    requires !step.Supervise? && !step.ReconcileFine? && !step.Reconcile? && !step.Spawn?
    ensures Safe(Next(d, step), origin)
  {
    var e := Next(d, step);
    assert e.disk.claim == d.disk.claim && e.supervisors == d.supervisors;
    if d.disk.claim.Claim? {
      OwnerUndisturbed(d.disk, e.disk, d.supervisors[d.disk.claim.creator], origin);
    }
  }

  lemma OwnerUndisturbed(disk: Disk, next: Disk, s: Supervisor, origin: Record)
    requires OwnerOk(disk, s, origin)
    requires next.claim == disk.claim && next.starts == disk.starts && next.judged == disk.judged
    requires next.groupRunning ==> disk.groupRunning
    ensures OwnerOk(next, s, origin)
  {
  }

  lemma StepKeepsSafe(d: Dir, step: Step, origin: Record)
    requires Safe(d, origin) && Possible(d, step)
    ensures Safe(Next(d, step), origin)
  {
    match step
    case Supervise(i, action) =>
      if Past(d.supervisors[i].stage) {
        OwnerKeepsSafe(d, i, action, origin);
      } else {
        CandidateKeepsSafe(d, i, action, origin);
      }
    case ReconcileFine => ReconcileStepKeepsSafe(d, origin);
    case Reconcile => ReconcileKeepsSafe(d, origin);
    case Spawn(command) => SpawnKeepsSafe(d, command, origin);
    case _ => OutsideKeepsSafe(d, step, origin);
  }

  lemma {:induction false} RunKeepsSafe(d: Dir, steps: seq<Step>, origin: Record)
    requires Safe(d, origin) && Run(d, steps)
    ensures Safe(After(d, steps), origin)
    decreases |steps|
  {
    if steps != [] {
      StepKeepsSafe(d, steps[0], origin);
      RunKeepsSafe(Next(d, steps[0]), steps[1..], origin);
    }
  }

  /**
   * In every interleaving of submits, supervisors, reconciliations, crashes and restarts: at most
   * one process is started, and its command has the digest persisted when the job was created.
   */
  lemma AtMostOneStart(d: Dir, steps: seq<Step>)
    requires Initial(d) && Run(d, steps)
    ensures var now := After(d, steps).disk;
      && |now.starts| <= 1
      && (forall command :: command in now.starts ==> command != "" && Sha256(command) == d.disk.record.digest)
      && SameCore(now.record, d.disk.record)
  {
    InitialIsSafe(d);
    RunKeepsSafe(d, steps, d.disk.record);
  }

  /**
   * A cancelled job is verified, and a verified job has no running process: none was ever
   * started, or its group is gone. In external mode a cancelled job that ran was acknowledged
   * when its cancel request was seen, or declared itself cancelled. And it stays that way:
   * no continuation starts anything.
   */
  lemma CancelledIsVerified(d: Dir, steps: seq<Step>, more: seq<Step>)
    requires Initial(d) && Run(d, steps) && Run(After(d, steps), more)
    ensures var r := After(d, steps).disk.record; var later := After(After(d, steps), more).disk;
      && (r.state == Cancelled ==> r.verified)
      && (r.verified ==> later.starts == After(d, steps).disk.starts && !later.groupRunning)
      && (r.state == Cancelled && later.starts != [] ==>
            && later.judged.Some? && !later.judged.value.path.OnTimeout?
            && (r.mode.External? && later.judged.value.path.OnCancel? ==> later.judged.value.acknowledged))
  {
    InitialIsSafe(d);
    RunKeepsSafe(d, steps, d.disk.record);
    VerifiedStays(After(d, steps), more, d.disk.record, After(d, steps).disk.record);
  }

  lemma {:induction false} VerifiedStays(d: Dir, steps: seq<Step>, origin: Record, r: Record)
    requires Safe(d, origin) && CopyOk(r, origin) && CopyGrounded(d, r) && Run(d, steps)
    ensures Safe(After(d, steps), origin) && CopyGrounded(After(d, steps), r)
    ensures r.verified ==> After(d, steps).disk.starts == d.disk.starts
    decreases |steps|
  {
    if steps != [] {
      StepKeepsGround(d, steps[0], origin, r);
      StepKeepsSafe(d, steps[0], origin);
      VerifiedStays(Next(d, steps[0]), steps[1..], origin, r);
    }
  }

  lemma StepKeepsGround(d: Dir, step: Step, origin: Record, r: Record)
    requires Safe(d, origin) && CopyOk(r, origin) && CopyGrounded(d, r) && Possible(d, step)
    ensures CopyGrounded(Next(d, step), r)
    ensures r.verified ==> Next(d, step).disk.starts == d.disk.starts
  {
    if step.Supervise? {
      if r.verified && step.i == d.disk.claim.creator {
        GroundsStay(d.disk, step.i, d.supervisors[step.i], step.action, origin, r.state);
      } else if r.verified {
        assert SupervisorOk(d.disk.claim, step.i, d.supervisors[step.i], origin);
      }
    } else if step.Reconcile? {
      ReconcileTouchesRecordOnly(d);
    }
  }

  lemma ReconcileTouchesRecordOnly(d: Dir)
    requires d.server.Idle?
    ensures var e := Reconciled(d);
      && e.supervisors == d.supervisors
      && e.disk == d.disk.(record := e.disk.record, stateFile := e.disk.stateFile)
  {
  }
}
