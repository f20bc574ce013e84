/**
 * The numbers that the owner of the claim gives to its output, in every run: whatever comes between
 * the steps of `Reconcile`, wherever the server dies, and also if a job is marked Lost too early.
 */
module Writer {
  import opened Wrappers
  import opened EventLog
  import opened JobDirectory
  import opened Finality
  import opened Reconciliation
  import OutputFile
  import opened Utf8

  // ---------- Everything that is ever logged as output ----------

  function NewOutput(s: Supervisor, action: Action): Event
    requires action.Output?
  {
    OutputEvent(s.job.lastSequence + 1, action.stream, action.data)
  }

  function OutputOf(s: Supervisor, action: Action): seq<Event> {
    if action.Output? && !s.job.quiet then [NewOutput(s, action)] else []
  }

  function OutputBy(d: Dir, step: Step): seq<Event>
    requires Possible(d, step)
  {
    if step.Supervise? then OutputOf(d.supervisors[step.i], step.action) else []
  }

  /** Retained or not, in the order in which it was produced. */
  function AllOutputs(d: Dir, steps: seq<Step>): seq<Event>
    requires Run(d, steps)
    decreases |steps|
  {
    if steps == [] then [] else OutputBy(d, steps[0]) + AllOutputs(Next(d, steps[0]), steps[1..])
  }

  // ---------- The writer's discipline ----------

  /**
   * A list of the writer's events: numbers increase, lie between its "running" and its last event,
   * and if the list is complete, none in between is left out.
   */
  predicate Numbers(file: seq<Event>, s: Supervisor, complete: bool) {
    && Increasing(file)
    && (forall k :: 0 <= k < |file| ==>
          3 <= file[k].sequence <= s.job.lastSequence && (Ended(s.stage) ==> file[k].sequence < s.job.lastSequence))
    && (complete ==> forall number :: 3 <= number <= s.job.lastSequence && !(Ended(s.stage) && number == s.job.lastSequence) ==>
          Has(file, number))
  }

  lemma NumbersAppended(file: seq<Event>, s: Supervisor, t: Supervisor, complete: bool, event: Event)
    requires Numbers(file, s, complete) && !Ended(s.stage) && !Ended(t.stage)
    requires t.job.lastSequence == s.job.lastSequence + 1 == event.sequence && event.sequence >= 3
    ensures Numbers(file + [event], t, complete)
  {
    forall number | 3 <= number <= t.job.lastSequence && complete ensures Has(file + [event], number) {
      HasAppend(file, event, number);
    }
  }

  lemma NumbersDropped(file: seq<Event>, s: Supervisor, complete: bool, drop: nat)
    requires Numbers(file, s, complete) && drop <= |file|
    ensures Numbers(file[drop..], s, false)
  {
  }

  lemma NumbersSkipped(file: seq<Event>, s: Supervisor, t: Supervisor, complete: bool)
    requires Numbers(file, s, complete) && !Ended(s.stage) && !Ended(t.stage)
    requires t.job.lastSequence == s.job.lastSequence + 1
    ensures Numbers(file, t, false)
  {
  }

  lemma NumbersRetained(file: seq<Event>, s: Supervisor, t: Supervisor, complete: bool, event: Event, retention: Retention)
    requires Numbers(file, s, complete) && !Ended(s.stage) && !Ended(t.stage)
    requires t.job.lastSequence == s.job.lastSequence + 1 == event.sequence && event.sequence >= 3
    requires retention.Compacted? ==> 1 <= retention.drop <= |file| + 1
    ensures Numbers(Retain(file, event, retention), t, complete && retention.Kept?)
  {
    if retention.Skipped? {
      NumbersSkipped(file, s, t, complete);
    } else {
      NumbersAppended(file, s, t, complete, event);
      if retention.Compacted? {
        NumbersDropped(file + [event], t, complete, retention.drop);
      }
    }
  }

  /** Nothing is written: the last number stays, or the last event gets it, or "running" does. */
  predicate Quietly(file: seq<Event>, s: Supervisor, t: Supervisor) {
    || (t.job.lastSequence == s.job.lastSequence && (Ended(t.stage) <==> Ended(s.stage)))
    || (t.job.lastSequence == s.job.lastSequence + 1 && Ended(t.stage) && !Ended(s.stage))
    || (t.job.lastSequence == 2 && file == [] && !Ended(t.stage))
  }

  lemma NumbersCarryOver(file: seq<Event>, s: Supervisor, t: Supervisor, complete: bool)
    requires Numbers(file, s, complete) && Quietly(file, s, t)
    ensures Numbers(file, t, complete)
  {
  }

  /** What a step of the owner that is no output does to its number. */
  lemma OwnerIsQuiet(disk: Disk, i: nat, s: Supervisor, action: Action, origin: Record, file: seq<Event>)
    requires Enabled(disk, s, action) && OwnerOk(disk, s, origin) && StageFits(s) && !action.Output?
    requires !s.job.grouped ==> file == [] && s.job.lastSequence == if Ended(s.stage) then 2 else 1
    ensures var t := Act(disk, i, s, action).self;
      Quietly(file, s, t) && t.job.truncated == s.job.truncated && (!t.job.grouped ==> !s.job.grouped)
  {
    if Appends(action) {
    } else if BeforeStart(action) {
      OwnerStartsFitting(disk, i, s, action, origin);
    } else {
      OwnerGoesOnFitting(disk, i, s, action, origin);
    }
  }

  /** The directory's output file and everything produced, against the owner's own count. */
  ghost predicate WriterOk(outputFile: seq<Event>, produced: seq<Event>, s: Supervisor) {
    && Numbers(outputFile, s, !s.job.truncated) && Numbers(produced, s, true)
    && (forall e :: e in outputFile ==> e in produced)
    && (forall e :: e in produced ==> e.OutputEvent? && e.data != "")
    && (!s.job.grouped ==> produced == [])
  }

  /** What `OwnerFiles` says of the owner's own record. */
  predicate OwnerCounts(s: Supervisor) {
    && StageFits(s)
    && (!s.job.grouped ==> s.job.lastSequence == if Ended(s.stage) then 2 else 1)
    && (s.job.grouped ==> s.job.lastSequence >= 2)
  }

  lemma OwnerOutputs(disk: Disk, i: nat, s: Supervisor, action: Action, produced: seq<Event>)
    requires Enabled(disk, s, action) && action.Output? && OwnerCounts(s) && WriterOk(disk.outputFile, produced, s)
    ensures var acted := Act(disk, i, s, action);
      WriterOk(acted.disk.outputFile, produced + OutputOf(s, action), acted.self)
  {
    var acted := Act(disk, i, s, action);
    var t := acted.self;
    if s.job.quiet {
      assert produced + [] == produced;
      NumbersCarryOver(disk.outputFile, s, t, !s.job.truncated);
      NumbersCarryOver(produced, s, t, true);
    } else {
      var event := NewOutput(s, action);
      NumbersRetained(disk.outputFile, s, t, !s.job.truncated, event, action.retention);
      NumbersAppended(produced, s, t, true, event);
      assert acted.disk.outputFile == Retain(disk.outputFile, event, action.retention);
      forall e | e in acted.disk.outputFile ensures e in disk.outputFile || e == event {
      }
    }
  }

  lemma OwnerIsSilent(disk: Disk, i: nat, s: Supervisor, action: Action, origin: Record, produced: seq<Event>)
    requires Enabled(disk, s, action) && OwnerOk(disk, s, origin) && !action.Output?
    requires OwnerCounts(s) && WriterOk(disk.outputFile, produced, s)
    ensures var acted := Act(disk, i, s, action); WriterOk(acted.disk.outputFile, produced, acted.self)
  {
    var acted := Act(disk, i, s, action);
    if !s.job.grouped && disk.outputFile != [] {
      NotFromNothing(disk.outputFile, produced);
    }
    OwnerIsQuiet(disk, i, s, action, origin, disk.outputFile);
    OwnerIsQuiet(disk, i, s, action, origin, produced);
    assert acted.disk.outputFile == disk.outputFile;
    NumbersCarryOver(disk.outputFile, s, acted.self, !s.job.truncated);
    NumbersCarryOver(produced, s, acted.self, true);
  }

  lemma NotFromNothing(part: seq<Event>, whole: seq<Event>)
    requires part != [] && forall e :: e in part ==> e in whole
    ensures whole != []
  {
    assert part[0] in whole;
  }

  /** The same for the directory; folded. */
  ghost predicate WriterKept(d: Dir, produced: seq<Event>) {
    forall token: nat :: Unfold(token) ==>
      if d.disk.claim.NoClaim? then d.disk.outputFile == [] && produced == []
      else d.disk.claim.creator < |d.supervisors|
           && WriterOk(d.disk.outputFile, produced, d.supervisors[d.disk.claim.creator])
  }

  lemma OwnerStepKeepsWriter(d: Dir, i: nat, action: Action, origin: Record, first: bool, lost: seq<nat>, produced: seq<Event>)
    requires Safe(d, origin) && FilesKept(d, first, lost) && WriterKept(d, produced)
    requires Possible(d, Supervise(i, action)) && Past(d.supervisors[i].stage)
    ensures WriterKept(Next(d, Supervise(i, action)), produced + OutputOf(d.supervisors[i], action))
  {
    var s := d.supervisors[i];
    OwnerIsCounted(d, i, origin, first, lost);
    OwnerRecord(d.disk, i, s, action, origin);
    OwnerIsWriter(d, produced);
    if action.Output? {
      OwnerOutputs(d.disk, i, s, action, produced);
    } else {
      OwnerIsSilent(d.disk, i, s, action, origin, produced);
      assert produced + OutputOf(s, action) == produced;
    }
  }

  lemma OwnerIsCounted(d: Dir, i: nat, origin: Record, first: bool, lost: seq<nat>)
    requires Safe(d, origin) && FilesKept(d, first, lost) && i < |d.supervisors| && Past(d.supervisors[i].stage)
    ensures d.disk.claim.Claim? && d.disk.claim.creator == i
    ensures OwnerOk(d.disk, d.supervisors[i], origin) && OwnerCounts(d.supervisors[i])
  {
    assert Unfold(0);
    assert SupervisorOk(d.disk.claim, i, d.supervisors[i], origin);
  }

  lemma OwnerIsWriter(d: Dir, produced: seq<Event>)
    requires WriterKept(d, produced) && d.disk.claim.Claim?
    ensures d.disk.claim.creator < |d.supervisors|
    ensures WriterOk(d.disk.outputFile, produced, d.supervisors[d.disk.claim.creator])
  {
    assert Unfold(0);
  }

  lemma CandidateKeepsWriter(d: Dir, i: nat, action: Action, origin: Record, first: bool, lost: seq<nat>, produced: seq<Event>)
    requires Safe(d, origin) && FilesKept(d, first, lost) && WriterKept(d, produced)
    requires Possible(d, Supervise(i, action)) && !Past(d.supervisors[i].stage)
    ensures WriterKept(Next(d, Supervise(i, action)), produced)
  {
    assert Unfold(0);
    assert SupervisorOk(d.disk.claim, i, d.supervisors[i], origin);
    if d.disk.claim.Claim? || !action.CreateClaim? {
      CandidateAct(d.disk, i, d.supervisors[i], action);
    }
    if d.disk.claim.Claim? {
      assert OwnerOk(d.disk, d.supervisors[d.disk.claim.creator], origin);
    }
  }

  lemma ServerKeepsWriter(d: Dir, step: Step, produced: seq<Event>)
    requires WriterKept(d, produced) && Possible(d, step) && !step.Supervise?
    ensures WriterKept(Next(d, step), produced)
  {
    assert Unfold(0);
    if step.Reconcile? {
      ReconcileTouchesRecordOnly(d);
    }
  }

  lemma StepKeepsWriter(d: Dir, step: Step, origin: Record, first: bool, lost: seq<nat>, produced: seq<Event>)
    requires Safe(d, origin) && FilesKept(d, first, lost) && WriterKept(d, produced) && Possible(d, step)
    ensures WriterKept(Next(d, step), produced + OutputBy(d, step))
  {
    if step.Supervise? && Past(d.supervisors[step.i].stage) {
      OwnerStepKeepsWriter(d, step.i, step.action, origin, first, lost, produced);
    } else {
      assert step.Supervise? ==> !step.action.Output?;
      assert produced + OutputBy(d, step) == produced;
      if step.Supervise? {
        CandidateKeepsWriter(d, step.i, step.action, origin, first, lost, produced);
      } else {
        ServerKeepsWriter(d, step, produced);
      }
    }
  }

  lemma AllOutputsStep(d: Dir, steps: seq<Step>, outputs: seq<Event>)
    requires Run(d, steps) && steps != []
    ensures outputs + AllOutputs(d, steps) == outputs + OutputBy(d, steps[0]) + AllOutputs(Next(d, steps[0]), steps[1..])
  {
  }

  lemma {:induction false} RunKeepsWriter(d: Dir, steps: seq<Step>, origin: Record, first: bool, lost: seq<nat>,
                                          produced: seq<Event>)
    requires Safe(d, origin) && FilesKept(d, first, lost) && WriterKept(d, produced) && Run(d, steps)
    ensures WriterKept(After(d, steps), produced + AllOutputs(d, steps))
    decreases |steps|
  {
    if steps == [] {
      assert produced + AllOutputs(d, steps) == produced;
    } else {
      StepKeepsSafe(d, steps[0], origin);
      StepKeepsKept(d, steps[0], origin, first, lost);
      StepKeepsWriter(d, steps[0], origin, first, lost, produced);
      RunKeepsWriter(Next(d, steps[0]), steps[1..], origin, first, lost + LostBy(d, steps[0]),
                     produced + OutputBy(d, steps[0]));
      AllOutputsStep(d, steps, produced);
    }
  }

  lemma WriterAfter(d: Dir, steps: seq<Step>)
    requires Initial(d) && Run(d, steps)
    ensures WriterKept(After(d, steps), AllOutputs(d, steps))
  {
    InitialIsSafe(d);
    assert FilesAreFrom(d, d.disk.stateFile != [], []);
    RunKeepsWriter(d, steps, d.disk.record, d.disk.stateFile != [], [], []);
    assert [] + AllOutputs(d, steps) == AllOutputs(d, steps);
  }

  /**
   * In every run: the numbers in the output file increase and lie strictly between those of the
   * owner's own state events, "running" under 2 and the last one; and unless the owner's copy of
   * the record says "truncated", every number in between is there. Of everything produced, none is
   * ever left out or used twice.
   */
  lemma WriterIsDisciplined(d: Dir, steps: seq<Step>)
    requires Initial(d) && Run(d, steps)
    ensures var e := After(d, steps);
      if e.disk.claim.NoClaim? then e.disk.outputFile == [] && AllOutputs(d, steps) == []
      else
        e.disk.claim.creator < |e.supervisors| &&
        var s := e.supervisors[e.disk.claim.creator];
        && Numbers(e.disk.outputFile, s, !s.job.truncated) && Numbers(AllOutputs(d, steps), s, true)
        && (forall event :: event in e.disk.outputFile ==> event in AllOutputs(d, steps))
        && (forall event :: event in AllOutputs(d, steps) ==> event.OutputEvent? && event.data != "")
  {
    WriterAfter(d, steps);
    assert Unfold(0);
  }

  // ---------- What the file keeps of them ----------

  function EncodedEvents(encode: Event -> seq<byte>, file: seq<Event>): (records: seq<seq<byte>>)
    ensures |records| == |file| && forall k :: 0 <= k < |file| ==> records[k] == encode(file[k])
  {
    seq(|file|, k requires 0 <= k < |file| => encode(file[k]))
  }

  /**
   * The steps of the protocol keep what the real file keeps: for each policy, encoding and file,
   * storing one more record is one of the three retentions, and which one depends on the sizes.
   */
  lemma RetentionIsStorage(policy: OutputFile.Policy, encode: Event -> seq<byte>, file: seq<Event>, event: Event)
    returns (retention: Retention)
    requires OutputFile.Normal(policy) && (forall e :: OutputFile.IsRecord(encode(e)))
    requires |OutputFile.Concat(EncodedEvents(encode, file))| <= policy.maxBytes
    ensures retention.Compacted? ==> 1 <= retention.drop <= |file| + 1
    ensures OutputFile.KeptAfter(policy, EncodedEvents(encode, file), encode(event)) ==
      EncodedEvents(encode, Retain(file, event, retention))
    ensures var fits := |OutputFile.Concat(EncodedEvents(encode, file))| + |encode(event)| <= policy.maxBytes;
      && (retention.Skipped? <==> policy.mode.Nothing? || (policy.mode.Full? && !fits))
      && (retention.Compacted? <==> policy.mode.Tail? && !fits)
  {
    var kept, record := EncodedEvents(encode, file), encode(event);
    var fits := |OutputFile.Concat(kept)| + |record| <= policy.maxBytes;
    OutputFile.RecordIsRetained(policy, kept, record);
    assert EncodedEvents(encode, file + [event]) == kept + [record];
    if policy.mode.Nothing? || (policy.mode.Full? && !fits) {
      retention := Skipped;
    } else if fits {
      retention := Kept;
    } else {
      var drop: nat :| 1 <= drop <= |file| + 1 && OutputFile.KeptAfter(policy, kept, record) == (kept + [record])[drop..];
      retention := Compacted(drop);
      assert EncodedEvents(encode, (file + [event])[drop..]) == (kept + [record])[drop..];
    }
  }
}
