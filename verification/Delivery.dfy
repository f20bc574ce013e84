/**
 * From the job directory to the coordinator: what the supervisor logs in a run, and what of it
 * arrives when the server reads record and files at moments of that run.
 */
module Delivery {
  import opened Wrappers
  import opened EventLog
  import opened JobDirectory
  import opened Finality
  import opened Reconciliation
  import opened Writer
  import Watch
  import Coordinator
  import RunnerAnswers

  // ---------- What a run logs ----------

  function LogOf(d: Dir, steps: seq<Step>): Coordinator.Log
    requires Run(d, steps)
  {
    Coordinator.Log(After(d, steps).disk.stateFile, AllOutputs(d, steps), LostLog(d, steps))
  }

  /** A state event under the number of an output is one that says Lost. */
  lemma SharedNumberIsLost(d: Dir, steps: seq<Step>, f: Event, e: Event)
    requires Initial(d) && Run(d, steps) && f in After(d, steps).disk.stateFile && e in AllOutputs(d, steps)
    ensures f.StateEvent? && (f.sequence == e.sequence ==> f.status == Lost && e.sequence in LostLog(d, steps))
  {
    StateFileIsExact(d, steps, f);
    WriterIsDisciplined(d, steps);
    var k :| 0 <= k < |AllOutputs(d, steps)| && AllOutputs(d, steps)[k] == e;
  }

  lemma StateFileHoldsStates(d: Dir, steps: seq<Step>, f: Event)
    requires Initial(d) && Run(d, steps) && f in After(d, steps).disk.stateFile
    ensures f.StateEvent?
  {
    StateFileIsExact(d, steps, f);
  }

  lemma OutputsAreNumbered(d: Dir, steps: seq<Step>)
    requires Initial(d) && Run(d, steps)
    ensures Increasing(AllOutputs(d, steps))
    ensures forall e :: e in AllOutputs(d, steps) ==> e.OutputEvent? && e.data != "" && e.sequence >= 3
  {
    WriterIsDisciplined(d, steps);
    forall e | e in AllOutputs(d, steps) ensures e.sequence >= 3 {
      var k :| 0 <= k < |AllOutputs(d, steps)| && AllOutputs(d, steps)[k] == e;
    }
  }

  /** In every run output is numbered as the coordinator relies on; only Lost events share a number with it. */
  lemma LogsAreHistory(d: Dir, steps: seq<Step>)
    requires Initial(d) && Run(d, steps)
    ensures Coordinator.History(LogOf(d, steps)) && Increasing(AllOutputs(d, steps))
  {
    var states, outputs := After(d, steps).disk.stateFile, AllOutputs(d, steps);
    OutputsAreNumbered(d, steps);
    forall i | 0 <= i < |states| ensures states[i].StateEvent? {
      StateFileHoldsStates(d, steps, states[i]);
    }
    forall j | 0 <= j < |outputs| ensures outputs[j].OutputEvent? && outputs[j].sequence >= 1 && outputs[j].data != "" {
      assert outputs[j] in outputs;
    }
    forall i, j | 0 <= i < |states| && 0 <= j < |outputs| && states[i].sequence == outputs[j].sequence
      ensures outputs[j].sequence in LostLog(d, steps)
    {
      SharedNumberIsLost(d, steps, states[i], outputs[j]);
    }
  }

  // ---------- What the server reads in a run ----------

  /** The record, the state file and the output file, each read at its moment of the run. */
  ghost predicate TakenAt(d: Dir, steps: seq<Step>, s: Watch.Situation, i: nat, j: nat, k: nat) {
    && i <= j <= k <= |steps| && Run(d, steps[..i]) && Run(d, steps[..j]) && Run(d, steps[..k])
    && s.job == After(d, steps[..i]).disk.record && s.state == After(d, steps[..j]).disk.stateFile
    && s.output == After(d, steps[..k]).disk.outputFile
  }

  ghost predicate Taken(d: Dir, steps: seq<Step>, s: Watch.Situation) {
    exists i, j, k :: TakenAt(d, steps, s, i, j, k)
  }

  /** Each answer of the script is made of what the server read; calls may fail in any way. */
  ghost predicate ScriptTaken(d: Dir, steps: seq<Step>, script: seq<Coordinator.Exchange>) {
    forall i :: 0 <= i < |script| && script[i].Answered? ==>
      script[i].polls != [] && forall k :: 0 <= k < |script[i].polls| ==> Taken(d, steps, script[i].polls[k])
  }

  lemma SplitBehindFirst(steps: seq<Step>, k: nat)
    requires 0 < k <= |steps|
    ensures steps[..k][0] == steps[0] && steps[..k][1..] == steps[1..][..k - 1] && steps[1..][k - 1..] == steps[k..]
  {
  }

  lemma {:induction false} OutputsSplit(d: Dir, steps: seq<Step>, k: nat)
    requires Run(d, steps) && k <= |steps|
    ensures Run(d, steps[..k]) && Run(After(d, steps[..k]), steps[k..])
    ensures AllOutputs(d, steps) == AllOutputs(d, steps[..k]) + AllOutputs(After(d, steps[..k]), steps[k..])
    decreases k
  {
    if k > 0 {
      SplitBehindFirst(steps, k);
      OutputsSplit(Next(d, steps[0]), steps[1..], k - 1);
    } else {
      assert steps[..0] == [] && steps[0..] == steps;
    }
  }

  lemma TakenOutputs(d: Dir, steps: seq<Step>, k: nat)
    requires Initial(d) && Run(d, steps) && k <= |steps|
    ensures Run(d, steps[..k]) && Increasing(After(d, steps[..k]).disk.outputFile)
    ensures forall e :: e in After(d, steps[..k]).disk.outputFile ==> e in AllOutputs(d, steps)
  {
    OutputsSplit(d, steps, k);
    WriterIsDisciplined(d, steps[..k]);
    forall e | e in After(d, steps[..k]).disk.outputFile ensures e in AllOutputs(d, steps) {
      assert e in AllOutputs(d, steps[..k]);
    }
  }

  lemma TakenStates(d: Dir, steps: seq<Step>, j: nat)
    requires Run(d, steps) && j <= |steps|
    ensures Run(d, steps[..j])
    ensures forall e :: e in After(d, steps[..j]).disk.stateFile ==> e in After(d, steps).disk.stateFile
  {
    RunSplits(d, steps, j);
    RunnerAnswers.RunGrowsStateFile(After(d, steps[..j]), steps[j..]);
  }

  lemma TakenIsWithin(d: Dir, steps: seq<Step>, s: Watch.Situation)
    requires Initial(d) && Run(d, steps) && Taken(d, steps, s)
    ensures Coordinator.Within(s, LogOf(d, steps))
  {
    var i, j, k :| TakenAt(d, steps, s, i, j, k);
    TakenStates(d, steps, j);
    TakenOutputs(d, steps, k);
  }

  lemma ScriptIsConsistent(d: Dir, steps: seq<Step>, script: seq<Coordinator.Exchange>)
    requires Initial(d) && Run(d, steps) && ScriptTaken(d, steps, script)
    ensures Coordinator.Consistent(script, LogOf(d, steps))
  {
    forall i | 0 <= i < |script| && script[i].Answered? ensures Coordinator.ExchangeOk(script[i], LogOf(d, steps)) {
      forall k | 0 <= k < |script[i].polls| ensures Coordinator.Within(script[i].polls[k], LogOf(d, steps)) {
        TakenIsWithin(d, steps, script[i].polls[k]);
      }
    }
  }

  // ---------- Calm runs ----------

  lemma {:induction false} CalmRunSplits(d: Dir, steps: seq<Step>, k: nat)
    requires CalmRun(d, steps) && k <= |steps|
    ensures CalmRun(d, steps[..k]) && CalmRun(After(d, steps[..k]), steps[k..])
    ensures After(After(d, steps[..k]), steps[k..]) == After(d, steps)
    decreases k
  {
    if k > 0 {
      SplitBehindFirst(steps, k);
      CalmRunSplits(Next(d, steps[0]), steps[1..], k - 1);
    } else {
      assert steps[..0] == [] && steps[0..] == steps;
    }
  }

  /** A calm step logs Lost exactly when it makes the record Lost. */
  lemma CalmStepLosesOnce(d: Dir, step: Step, origin: Record)
    requires Orderly(d, origin) && Possible(d, step) && Calm(d, step)
    ensures var e := Next(d, step);
      LostBy(d, step) == if WasLost(e.disk.record) && !WasLost(d.disk.record) then [e.disk.record.lastSequence] else []
  {
    if step.Reconcile? {
      ReconcileCases(d);
    } else if step.Supervise? && Past(d.supervisors[step.i].stage) {
      assert SupervisorOk(d.disk.claim, step.i, d.supervisors[step.i], origin);
      OwnerRecord(d.disk, step.i, d.supervisors[step.i], step.action, origin);
    } else if step.Supervise? {
      assert SupervisorOk(d.disk.claim, step.i, d.supervisors[step.i], origin);
    }
  }

  lemma {:induction false} CalmRunLosesOnce(d: Dir, steps: seq<Step>, origin: Record)
    requires Orderly(d, origin) && CalmRun(d, steps)
    ensures var r := After(d, steps).disk.record;
      LostLog(d, steps) == if WasLost(r) && !WasLost(d.disk.record) then [r.lastSequence] else []
    decreases |steps|
  {
    if steps != [] {
      var e := Next(d, steps[0]);
      CalmStepLosesOnce(d, steps[0], origin);
      StepKeepsOrder(d, steps[0], origin);
      CalmRunLosesOnce(e, steps[1..], origin);
      LostIsTerminal(d, origin);
      LostIsTerminal(e, origin);
      CalmRunKeepsOrder(e, steps[1..], origin);
    }
  }

  lemma LostIsTerminal(d: Dir, origin: Record)
    requires Orderly(d, origin)
    ensures WasLost(d.disk.record) ==> Terminal(d.disk.record.state)
  {
  }

  /** At the end of a calm run: how output numbers stand to the record, and which one a Lost event shares. */
  lemma CalmEnd(d: Dir, steps: seq<Step>, e: Event)
    requires Initial(d) && CalmRun(d, steps) && e in AllOutputs(d, steps)
    ensures var end := After(d, steps);
      && (Terminal(end.disk.record.state) ==> e.sequence <= end.disk.record.lastSequence)
      && (e.sequence in LostLog(d, steps) ==>
            RunnerAnswers.LostBehindLog(end) && e.sequence == end.disk.record.lastSequence)
  {
    InitialIsOrderly(d);
    CalmRunKeepsOrder(d, steps, d.disk.record);
    CalmRunLosesOnce(d, steps, d.disk.record);
    WriterIsDisciplined(d, steps);
    var k :| 0 <= k < |AllOutputs(d, steps)| && AllOutputs(d, steps)[k] == e;
  }

  // ---------- What an ended supervisor produces ----------

  predicate OwnerEnded(d: Dir) {
    d.disk.claim.Claim? && d.disk.claim.creator < |d.supervisors| && Ended(d.supervisors[d.disk.claim.creator].stage)
  }

  lemma EndedStep(d: Dir, step: Step, origin: Record)
    requires Safe(d, origin) && OwnerEnded(d) && Possible(d, step)
    ensures OwnerEnded(Next(d, step)) && OutputBy(d, step) == []
  {
    if step.Supervise? {
      assert SupervisorOk(d.disk.claim, step.i, d.supervisors[step.i], origin);
      if Past(d.supervisors[step.i].stage) {
        assert OwnerOk(d.disk, d.supervisors[step.i], origin);
      } else {
        CandidateAct(d.disk, step.i, d.supervisors[step.i], step.action);
      }
    } else if step.Reconcile? {
      ReconcileTouchesRecordOnly(d);
    }
  }

  lemma {:induction false} EndedIsSilent(d: Dir, steps: seq<Step>, origin: Record)
    requires Safe(d, origin) && OwnerEnded(d) && Run(d, steps)
    ensures AllOutputs(d, steps) == []
    decreases |steps|
  {
    if steps != [] {
      EndedStep(d, steps[0], origin);
      StepKeepsSafe(d, steps[0], origin);
      EndedIsSilent(Next(d, steps[0]), steps[1..], origin);
    }
  }

  /** When the number of an output stands in the state file of a calm run, the job has been marked Lost. */
  lemma SharedMeansLost(d: Dir, steps: seq<Step>, j: nat, f: Event, e: Event)
    requires Initial(d) && CalmRun(d, steps) && j <= |steps| && Run(d, steps[..j])
    requires f in After(d, steps[..j]).disk.stateFile && e in AllOutputs(d, steps) && f.sequence == e.sequence
    ensures WasLost(After(d, steps[..j]).disk.record)
  {
    CalmRunSplits(d, steps, j);
    OutputsAreNumbered(d, steps);
    var early := After(d, steps[..j]);
    InitialIsOrderly(d);
    CalmRunLosesOnce(d, steps[..j], d.disk.record);
    StateFileIsExact(d, steps[..j], f);
    if !WasLost(early.disk.record) {
      assert OwnerEnded(early);
      CalmRunKeepsOrder(d, steps[..j], d.disk.record);
      EndedIsSilent(early, steps[j..], d.disk.record);
      OutputsSplit(d, steps, j);
      EndedNumbers(d, steps[..j], f, e);
    }
  }

  lemma EndedNumbers(d: Dir, steps: seq<Step>, f: Event, e: Event)
    requires Initial(d) && Run(d, steps) && OwnerEnded(After(d, steps)) && e in AllOutputs(d, steps)
    requires f.sequence == After(d, steps).supervisors[After(d, steps).disk.claim.creator].job.lastSequence
    ensures e.sequence != f.sequence
  {
    WriterIsDisciplined(d, steps);
    var k :| 0 <= k < |AllOutputs(d, steps)| && AllOutputs(d, steps)[k] == e;
  }

  // ---------- From end to end ----------

  /** The record was read at some moment of the run. */
  ghost predicate Recorded(d: Dir, steps: seq<Step>, job: Record) {
    RunnerAnswers.ReadIn(d, steps, Some(job))
  }

  /** The remote job the loop knows is one that the server read. */
  lemma {:induction false} RemoteIsRecorded(d: Dir, steps: seq<Step>, script: seq<Coordinator.Exchange>,
                                            p: Coordinator.Progress, answers: seq<Option<Watch.Reply>>)
    requires ScriptTaken(d, steps, script) && Recorded(d, steps, p.remote) && Coordinator.Trail(script, p, answers)
    ensures Recorded(d, steps, Coordinator.Followed(p, answers).remote)
    decreases |answers|
  {
    if answers != [] {
      var n := |answers| - 1;
      RemoteIsRecorded(d, steps, script, p, answers[..n]);
      if answers[n].Some? {
        var before := Coordinator.Followed(p, answers[..n]);
        var k :| 0 <= k < |script[n].polls| && Coordinator.AnswersPoll(script[n].polls[k], before.last, answers[n].value);
        Coordinator.AnsweredIs(script[n].polls[k], before.last, answers[n].value);
        assert Taken(d, steps, script[n].polls[k]);
        var i, j, m :| TakenAt(d, steps, script[n].polls[k], i, j, m);
        assert RunnerAnswers.ReadAt(d, steps, answers[n].value.job, i);
      }
    }
  }

  lemma TerminalIsTheLast(d: Dir, steps: seq<Step>, job: Record)
    requires Initial(d) && CalmRun(d, steps) && Recorded(d, steps, job) && Terminal(job.state)
    ensures After(d, steps).disk.record == job
  {
    var k: nat :| RunnerAnswers.ReadAt(d, steps, job, k);
    CalmRunSplits(d, steps, k);
    TerminalIsFinal(d, steps[..k], steps[k..]);
  }

  // ---------- An answer that passes over an event ----------

  /** An untruncated answer to the poll leads past the event and does not hold it. */
  ghost predicate PassesOver(s: Watch.Situation, after: nat, r: Watch.Reply, e: Event) {
    Watch.Serves(s, after, r) && !r.truncated && after < e.sequence <= r.next && e !in r.events
  }

  /** What is missing although no answer was truncated, one answer passed over. */
  lemma {:induction false} MissingIsPassedOver(script: seq<Coordinator.Exchange>, p: Coordinator.Progress,
                                               answers: seq<Option<Watch.Reply>>, e: Event)
    returns (n: nat, k: nat, after: nat, r: Watch.Reply)
    requires Coordinator.Trail(script, p, answers) && Coordinator.Delivers(e)
    requires p.last < e.sequence <= Coordinator.Followed(p, answers).last && e !in Coordinator.Followed(p, answers).received
    requires Coordinator.Followed(p, answers).passed == p.passed
    ensures n < |script| && script[n].Answered? && k < |script[n].polls| && PassesOver(script[n].polls[k], after, r, e)
    decreases |answers|
  {
    var m := |answers| - 1;
    var before := Coordinator.Followed(p, answers[..m]);
    PassedGrows(p, answers[..m]);
    if answers[m].None? || e.sequence <= before.last {
      n, k, after, r := MissingIsPassedOver(script, p, answers[..m], e);
    } else {
      var reply := answers[m].value;
      var at :| 0 <= at < |script[m].polls| && Coordinator.AnswersPoll(script[m].polls[at], before.last, reply);
      Coordinator.AnsweredIs(script[m].polls[at], before.last, reply);
      Coordinator.OutputsOfMember(reply.events, e);
      n, k, after, r := m, at, before.last, reply;
    }
  }

  lemma {:induction false} PassedGrows(p: Coordinator.Progress, answers: seq<Option<Watch.Reply>>)
    ensures |p.passed| <= |Coordinator.Followed(p, answers).passed|
    ensures p.passed <= Coordinator.Followed(p, answers).passed
  {
    if answers != [] {
      PassedGrows(p, answers[..|answers| - 1]);
    }
  }

  /** A full page that ends with the number. */
  ghost predicate FullUpTo(s: Watch.Situation, after: nat, r: Watch.Reply, number: nat) {
    Watch.Serves(s, after, r) && !r.truncated && |r.events| == Watch.PAGE && r.next == number
  }

  ghost predicate SplitAt(script: seq<Coordinator.Exchange>, number: nat) {
    exists n, k, after, r :: 0 <= n < |script| && script[n].Answered? && 0 <= k < |script[n].polls|
      && FullUpTo(script[n].polls[k], after, r, number)
  }

  /** The answer holds another event with the number, from the state file; the job was marked Lost by then. */
  lemma PassedOverIsLost(d: Dir, steps: seq<Step>, s: Watch.Situation, i: nat, j: nat, m: nat,
                         after: nat, r: Watch.Reply, e: Event)
    requires Initial(d) && CalmRun(d, steps) && TakenAt(d, steps, s, i, j, m)
    requires e in AllOutputs(d, steps) && PassesOver(s, after, r, e)
    ensures WasLost(After(d, steps[..j]).disk.record)
  {
    assert Has(r.events, e.sequence);
    var x :| 0 <= x < |r.events| && r.events[x].sequence == e.sequence;
    var f := r.events[x];
    assert f in r.events && Watch.Present(s, f);
    if f in s.state {
      SharedMeansLost(d, steps, j, f, e);
    } else {
      TakenOutputs(d, steps, m);
      LogsAreHistory(d, steps);
      Coordinator.OneOutputPerNumber(LogOf(d, steps), e, f);
    }
  }

  lemma FilesSinceLost(d: Dir, steps: seq<Step>, j: nat, m: nat)
    requires Initial(d) && CalmRun(d, steps) && j <= m <= |steps|
    requires Run(d, steps[..j]) && WasLost(After(d, steps[..j]).disk.record)
    ensures Run(d, steps[..m]) && After(d, steps[..m]).disk.outputFile == After(d, steps).disk.outputFile
  {
    InitialIsOrderly(d);
    CalmRunSplits(d, steps, j);
    CalmRunSplits(d, steps, m);
    CalmRunKeepsOrder(d, steps[..j], d.disk.record);
    LostIsTerminal(After(d, steps[..j]), d.disk.record);
    TerminalIsFinal(d, steps[..j], steps[j..]);
    assert steps[..m][..j] == steps[..j];
    CalmRunSplits(d, steps[..m], j);
    TerminalIsFinal(d, steps[..j], steps[..m][j..]);
  }

  lemma MissingIsExplained(d: Dir, steps: seq<Step>, script: seq<Coordinator.Exchange>, p: Coordinator.Progress,
                           answers: seq<Option<Watch.Reply>>, e: Event)
    requires Initial(d) && CalmRun(d, steps) && ScriptTaken(d, steps, script) && e in AllOutputs(d, steps)
    requires Coordinator.Trail(script, p, answers) && p.last == 0
    requires e.sequence <= Coordinator.Followed(p, answers).last && e !in Coordinator.Followed(p, answers).received
    requires Coordinator.Followed(p, answers).passed == p.passed
    ensures e !in After(d, steps).disk.outputFile || SplitAt(script, e.sequence)
  {
    OutputsAreNumbered(d, steps);
    var n, k, after, r := MissingIsPassedOver(script, p, answers, e);
    var s := script[n].polls[k];
    assert Taken(d, steps, s);
    var i, j, m :| TakenAt(d, steps, s, i, j, m);
    PassedOverIsLost(d, steps, s, i, j, m, after, r, e);
    FilesSinceLost(d, steps, j, m);
    if e in s.output {
      assert Watch.Present(s, e);
      assert FullUpTo(s, after, r, e.sequence);
    }
  }

  // ---------- All of it ----------

  lemma {:induction false} SameEvents(a: seq<Event>, b: seq<Event>)
    requires Increasing(a) && Increasing(b) && forall e :: e in a <==> e in b
    ensures a == b
  {
    if a == [] {
      if b != [] {
        NotFromNothing(b, a);
      }
    } else {
      assert a[|a| - 1] in b;
      var x, y := a[|a| - 1], b[|b| - 1];
      assert x in b && y in a;
      assert x == y;
      var c, f := a[..|a| - 1], b[..|b| - 1];
      forall e ensures e in c <==> e in f {
        InFront(a, e);
        InFront(b, e);
      }
      SameEvents(c, f);
      assert a == c + [x] && b == f + [y];
    }
  }

  lemma InFront(a: seq<Event>, e: Event)
    requires Increasing(a) && a != []
    ensures e in a[..|a| - 1] <==> e in a && e != a[|a| - 1]
  {
    if e in a && e != a[|a| - 1] {
      var k :| 0 <= k < |a| && a[k] == e;
      assert a[..|a| - 1][k] == e;
    }
  }

  /** All but the event with the largest number, if at most that one is missing. */
  lemma AllOrAllButLast(received: seq<Event>, outputs: seq<Event>, last: nat)
    requires Increasing(received) && Increasing(outputs)
    requires (forall e :: e in received ==> e in outputs) && (forall e :: e in outputs ==> e.sequence <= last)
    requires forall e :: e in outputs && e !in received ==> e.sequence == last
    ensures received == outputs
            || (outputs != [] && received == outputs[..|outputs| - 1] && outputs[|outputs| - 1].sequence == last
                && outputs[|outputs| - 1] !in received)
  {
    if e :| e in outputs && e !in received {
      var k :| 0 <= k < |outputs| && outputs[k] == e;
      assert outputs[|outputs| - 1] in outputs;
      assert k == |outputs| - 1;
      forall f ensures f in received <==> f in outputs[..|outputs| - 1] {
        InFront(outputs, f);
      }
      SameEvents(received, outputs[..|outputs| - 1]);
    } else {
      SameEvents(received, outputs);
    }
  }

  /**
   * What a finished watch without a truncated answer received: all that was ever logged as output,
   * but for one event. That one took the last number before its supervisor died, and `Reconcile`
   * gave the number to the Lost event; it was not retained, or a full page ends between the two.
   */
  ghost predicate Complete(d: Dir, steps: seq<Step>, script: seq<Coordinator.Exchange>, received: seq<Event>)
    requires Run(d, steps)
  {
    var end, outputs := After(d, steps), AllOutputs(d, steps);
    received == outputs ||
    (RunnerAnswers.LostBehindLog(end) && outputs != [] && received == outputs[..|outputs| - 1] &&
     var e := outputs[|outputs| - 1];
     e.sequence == end.disk.record.lastSequence
     && (e !in end.disk.outputFile || SplitAt(script, e.sequence)))
  }

  lemma FinishedIsComplete(d: Dir, steps: seq<Step>, script: seq<Coordinator.Exchange>, initial: Record,
                           answers: seq<Option<Watch.Reply>>)
    requires Initial(d) && CalmRun(d, steps) && ScriptTaken(d, steps, script)
    requires var p := Coordinator.Progress(0, [], [], initial); var now := Coordinator.Followed(p, answers);
      && Coordinator.Trail(script, p, answers) && Coordinator.Done(now) && Recorded(d, steps, now.remote)
      && Coordinator.Delivered(LogOf(d, steps), now.last, now.received, []) && now.passed == []
    ensures Complete(d, steps, script, Coordinator.Followed(Coordinator.Progress(0, [], [], initial), answers).received)
  {
    var p := Coordinator.Progress(0, [], [], initial);
    var now := Coordinator.Followed(p, answers);
    var log, last := LogOf(d, steps), now.remote.lastSequence;
    TerminalIsTheLast(d, steps, now.remote);
    LogsAreHistory(d, steps);
    Coordinator.DeliveredInOrder(log, now.last, now.received, []);
    forall e | e in log.outputs
      ensures e.sequence <= last
      ensures e !in now.received ==> e.sequence == last && RunnerAnswers.LostBehindLog(After(d, steps))
    {
      CalmEnd(d, steps, e);
    }
    AllOrAllButLast(now.received, log.outputs, last);
    if now.received != log.outputs {
      MissingIsExplained(d, steps, script, p, answers, log.outputs[|log.outputs| - 1]);
    }
  }

  // ---------- What was not retained is not received ----------

  lemma SilentStepKeepsOutput(d: Dir, step: Step)
    requires Possible(d, step) && OutputBy(d, step) == []
    ensures Next(d, step).disk.outputFile == d.disk.outputFile
  {
    if step.Reconcile? {
      ReconcileTouchesRecordOnly(d);
    }
  }

  lemma {:induction false} SilentRunKeepsOutput(d: Dir, steps: seq<Step>)
    requires Run(d, steps) && AllOutputs(d, steps) == []
    ensures After(d, steps).disk.outputFile == d.disk.outputFile
    decreases |steps|
  {
    if steps != [] {
      SilentStepKeepsOutput(d, steps[0]);
      SilentRunKeepsOutput(Next(d, steps[0]), steps[1..]);
    }
  }

  /** The last output, if it is not in the output file at the end, never was. */
  lemma LastWasNeverThere(d: Dir, steps: seq<Step>, k: nat, e: Event)
    requires Initial(d) && Run(d, steps) && k <= |steps| && Run(d, steps[..k])
    requires AllOutputs(d, steps) != [] && e == AllOutputs(d, steps)[|AllOutputs(d, steps)| - 1]
    requires e in After(d, steps[..k]).disk.outputFile
    ensures e in After(d, steps).disk.outputFile
  {
    OutputsSplit(d, steps, k);
    RunSplits(d, steps, k);
    WriterIsDisciplined(d, steps[..k]);
    OutputsAreNumbered(d, steps);
    var x :| 0 <= x < |AllOutputs(d, steps[..k])| && AllOutputs(d, steps[..k])[x] == e;
    assert AllOutputs(d, steps)[x] == e;
    SilentRunKeepsOutput(After(d, steps[..k]), steps[k..]);
  }

  /** What was received was in the output file when the server read it. */
  lemma {:induction false} ReceivedWasThere(d: Dir, steps: seq<Step>, script: seq<Coordinator.Exchange>,
                                            p: Coordinator.Progress, answers: seq<Option<Watch.Reply>>, e: Event)
    returns (k: nat)
    requires Initial(d) && Run(d, steps) && ScriptTaken(d, steps, script) && Coordinator.Trail(script, p, answers)
    requires e in Coordinator.Followed(p, answers).received && e !in p.received
    ensures k <= |steps| && Run(d, steps[..k]) && e in After(d, steps[..k]).disk.outputFile
    decreases |answers|
  {
    var n := |answers| - 1;
    var before := Coordinator.Followed(p, answers[..n]);
    if e in before.received {
      k := ReceivedWasThere(d, steps, script, p, answers[..n], e);
    } else {
      var reply := answers[n].value;
      var at :| 0 <= at < |script[n].polls| && Coordinator.AnswersPoll(script[n].polls[at], before.last, reply);
      Coordinator.AnsweredIs(script[n].polls[at], before.last, reply);
      Coordinator.OutputsOfMember(reply.events, e);
      k := PresentWasThere(d, steps, script[n].polls[at], e);
    }
  }

  lemma PresentWasThere(d: Dir, steps: seq<Step>, s: Watch.Situation, e: Event) returns (k: nat)
    requires Initial(d) && Run(d, steps) && Taken(d, steps, s) && Watch.Present(s, e) && e.OutputEvent?
    ensures k <= |steps| && Run(d, steps[..k]) && e in After(d, steps[..k]).disk.outputFile
  {
    var i: nat, j: nat, m: nat :| TakenAt(d, steps, s, i, j, m);
    k := m;
    if e in s.state {
      StateFileHoldsStates(d, steps[..j], e);
    }
  }

  predicate IsLastOutput(d: Dir, steps: seq<Step>, e: Event)
    requires Run(d, steps)
  {
    var outputs := AllOutputs(d, steps);
    outputs != [] && e == outputs[|outputs| - 1]
  }

  lemma DroppedIsNotReceived(d: Dir, steps: seq<Step>, script: seq<Coordinator.Exchange>, p: Coordinator.Progress,
                             answers: seq<Option<Watch.Reply>>, e: Event)
    requires Initial(d) && Run(d, steps) && ScriptTaken(d, steps, script) && Coordinator.Trail(script, p, answers)
    requires p.received == [] && IsLastOutput(d, steps, e) && e in Coordinator.Followed(p, answers).received
    ensures e in After(d, steps).disk.outputFile
  {
    var k := ReceivedWasThere(d, steps, script, p, answers, e);
    LastWasNeverThere(d, steps, k, e);
  }

  /** Received, or passed over by an answer that was marked truncated, or under the number of a Lost event. */
  predicate AccountedFor(received: seq<Event>, passed: seq<(nat, nat)>, lost: seq<nat>, e: Event) {
    e in received || Coordinator.Excused(passed, e.sequence) || e.sequence in lost
  }

  lemma AllAccountedFor(d: Dir, steps: seq<Step>, last: nat, received: seq<Event>, passed: seq<(nat, nat)>)
    requires Run(d, steps) && Coordinator.Delivered(LogOf(d, steps), last, received, passed)
    ensures forall e :: e in AllOutputs(d, steps) && e.sequence <= last ==>
      AccountedFor(received, passed, LostLog(d, steps), e)
  {
    Coordinator.DeliveredInOrder(LogOf(d, steps), last, received, passed);
  }

  /**
   * The coordinator beside any run of the directory, with any failing calls, and a server that
   * reads record, state file and output file at any later moments of the run. The answers it got,
   * one for each exchange it used, determine what it has: its number, what it received, and the
   * ranges that answers marked truncated passed over. What it received was logged, once each and
   * in order, and what was logged up to its number is accounted for. In a calm run a watch that
   * finishes reports the last record; and if no answer was marked truncated, what it received is
   * complete.
   */
  method WatchRun(ghost d: Dir, ghost steps: seq<Step>, initial: Record, script: seq<Coordinator.Exchange>)
    returns (ending: Coordinator.Ending, last: nat, received: seq<Event>, truncated: bool,
             ghost answers: seq<Option<Watch.Reply>>)
    requires Initial(d) && Run(d, steps) && Recorded(d, steps, initial) && ScriptTaken(d, steps, script)
    ensures var p := Coordinator.Progress(0, [], [], initial); var now := Coordinator.Followed(p, answers);
      && Coordinator.Trail(script, p, answers) && |answers| <= |script|
      && Coordinator.EndsSo(script, now, |answers|, ending)
      && last == now.last && received == now.received && (truncated <==> now.passed != [])
      && forall e :: e in AllOutputs(d, steps) && e.sequence <= last ==>
           AccountedFor(received, now.passed, LostLog(d, steps), e)
    ensures Increasing(received) && forall e :: e in received ==> e in AllOutputs(d, steps)
    // The last output arrives only if it is retained.
    ensures forall e :: e in received && IsLastOutput(d, steps, e) ==> e in After(d, steps).disk.outputFile
    ensures ending.Finished? ==>
      Terminal(ending.job.state) && last >= ending.job.lastSequence && Recorded(d, steps, ending.job)
    ensures ending.Finished? && CalmRun(d, steps) ==> ending.job == After(d, steps).disk.record
    ensures ending.Finished? && CalmRun(d, steps) && !truncated ==> Complete(d, steps, script, received)
  {
    ghost var log := LogOf(d, steps);
    LogsAreHistory(d, steps);
    ScriptIsConsistent(d, steps, script);
    var watcher := new Coordinator.Watcher();
    ending, answers := watcher.WatchRunnerJob(initial, script, log);
    ghost var p := Coordinator.Progress(0, [], [], initial);
    ghost var now := Coordinator.Followed(p, answers);
    Coordinator.TravelEnds(script, p, answers, now);
    RemoteIsRecorded(d, steps, script, p, answers);
    Coordinator.DeliveredInOrder(log, watcher.last, watcher.received, watcher.passed);
    last, received, truncated := watcher.last, watcher.received, watcher.outputTruncated;
    AllAccountedFor(d, steps, last, received, now.passed);
    forall e | e in received && IsLastOutput(d, steps, e) ensures e in After(d, steps).disk.outputFile {
      DroppedIsNotReceived(d, steps, script, p, answers, e);
    }
    if ending.Finished? && CalmRun(d, steps) {
      TerminalIsTheLast(d, steps, ending.job);
      if !truncated {
        FinishedIsComplete(d, steps, script, initial, answers);
      }
    }
  }

  // ---------- The loop drains the log ----------

  /** Read when the record, which was terminal at moment `t`, could not change any more. */
  ghost predicate TakenSince(d: Dir, steps: seq<Step>, s: Watch.Situation, t: nat) {
    exists i, j, k :: t <= i && TakenAt(d, steps, s, i, j, k)
  }

  ghost predicate ScriptTakenSince(d: Dir, steps: seq<Step>, script: seq<Coordinator.Exchange>, t: nat) {
    forall n :: 0 <= n < |script| && script[n].Answered? ==>
      forall k :: 0 <= k < |script[n].polls| ==> TakenSince(d, steps, script[n].polls[k], t)
  }

  function Answered(answers: seq<Option<Watch.Reply>>): nat {
    if answers == [] then 0
    else Answered(answers[..|answers| - 1]) + if answers[|answers| - 1].Some? then 1 else 0
  }

  lemma TerminalSince(d: Dir, steps: seq<Step>, t: nat, i: nat)
    requires Initial(d) && CalmRun(d, steps) && t <= i <= |steps|
    requires Run(d, steps[..t]) && Terminal(After(d, steps[..t]).disk.record.state)
    ensures Run(d, steps[..i]) && SameFiles(After(d, steps[..i]).disk, After(d, steps[..t]).disk)
  {
    CalmRunSplits(d, steps, i);
    assert steps[..i][..t] == steps[..t];
    CalmRunSplits(d, steps[..i], t);
    TerminalIsFinal(d, steps[..t], steps[..i][t..]);
  }

  /** Whatever the server reads since then is the last record and the files that announce it. */
  lemma SituationSince(d: Dir, steps: seq<Step>, s: Watch.Situation, t: nat)
    requires Initial(d) && CalmRun(d, steps) && t <= |steps| && TakenSince(d, steps, s, t)
    requires Run(d, steps[..t]) && Terminal(After(d, steps[..t]).disk.record.state)
    ensures s.job == After(d, steps[..t]).disk.record && EndsWith(s.state, s.job)
  {
    var i, j, k :| t <= i && TakenAt(d, steps, s, i, j, k);
    TerminalSince(d, steps, t, i);
    TerminalSince(d, steps, t, j);
    CalmRunSplits(d, steps, t);
    NumbersAreDisciplined(d, steps[..t]);
  }

  /** An answer to a loop that is behind a terminal record takes it on. */
  lemma DrainingAnswer(s: Watch.Situation, after: nat, r: Watch.Reply)
    requires Terminal(s.job.state) && EndsWith(s.state, s.job) && after < s.job.lastSequence
    requires Coordinator.AnswersPoll(s, after, r)
    ensures r.next > after && r.job == s.job
  {
    Coordinator.AnsweredIs(s, after, r);
    assert Watch.Present(s, s.state[|s.state| - 1]);
    Coordinator.WatchAdvancesIff(s, after, r);
  }

  /**
   * Once the loop knows the terminal record, each answer it gets, whenever it is made, takes it on,
   * so that it needs at most as many answers as numbers are left, whatever other calls fail.
   */
  lemma {:induction false} TrailDrains(d: Dir, steps: seq<Step>, t: nat, script: seq<Coordinator.Exchange>,
                                       p: Coordinator.Progress, answers: seq<Option<Watch.Reply>>)
    requires Initial(d) && CalmRun(d, steps) && t <= |steps| && ScriptTakenSince(d, steps, script, t)
    requires Run(d, steps[..t]) && Terminal(p.remote.state) && p.remote == After(d, steps[..t]).disk.record
    requires Coordinator.Trail(script, p, answers) && p.last <= p.remote.lastSequence
    ensures Coordinator.Followed(p, answers).remote == p.remote
    ensures p.last + Answered(answers) <= Coordinator.Followed(p, answers).last
    ensures Answered(answers) <= p.remote.lastSequence - p.last
    decreases |answers|
  {
    if answers != [] {
      var n := |answers| - 1;
      TrailDrains(d, steps, t, script, p, answers[..n]);
      var before := Coordinator.Followed(p, answers[..n]);
      if answers[n].Some? {
        var k :| 0 <= k < |script[n].polls| && Coordinator.AnswersPoll(script[n].polls[k], before.last, answers[n].value);
        SituationSince(d, steps, script[n].polls[k], t);
        DrainingAnswer(script[n].polls[k], before.last, answers[n].value);
      }
    }
  }

  // ---------- When an answer is marked truncated although nothing is missing ----------

  lemma HasIn(file: seq<Event>, e: Event)
    requires e in file
    ensures Has(file, e.sequence)
  {
    var k :| 0 <= k < |file| && file[k] == e;
  }

  /** What the owner has given out is logged, retained or not. */
  lemma OwnerLoggedAll(d: Dir, steps: seq<Step>, number: nat)
    requires Initial(d) && Run(d, steps) && After(d, steps).disk.claim.Claim?
    requires After(d, steps).disk.claim.creator < |After(d, steps).supervisors|
    requires 2 <= number <= After(d, steps).supervisors[After(d, steps).disk.claim.creator].job.lastSequence
    ensures Has(After(d, steps).disk.stateFile, number) || Has(AllOutputs(d, steps), number)
  {
    var e := After(d, steps);
    var s := e.supervisors[e.disk.claim.creator];
    FilesAfter(d, steps);
    WriterIsDisciplined(d, steps);
    if number == 2 && s.job.grouped {
      assert OwnerLogged(s, StateEvent(2, Running));
      HasIn(e.disk.stateFile, StateEvent(2, Running));
    } else if Ended(s.stage) && number == s.job.lastSequence {
      assert OwnerLogged(s, StateEvent(number, s.job.state));
      HasIn(e.disk.stateFile, StateEvent(number, s.job.state));
    }
  }

  /** In a calm run every number from 2 up to that of a state event has been logged. */
  lemma LoggedBelow(d: Dir, steps: seq<Step>, f: Event, number: nat)
    requires Initial(d) && CalmRun(d, steps) && f in After(d, steps).disk.stateFile && 2 <= number < f.sequence
    ensures Has(After(d, steps).disk.stateFile, number) || Has(AllOutputs(d, steps), number)
  {
    InitialIsOrderly(d);
    CalmRunKeepsOrder(d, steps, d.disk.record);
    CalmRunLosesOnce(d, steps, d.disk.record);
    StateFileIsExact(d, steps, f);
    OwnerHasGivenOut(d, steps, f);
    OwnerLoggedAll(d, steps, number);
  }

  lemma OwnerHasGivenOut(d: Dir, steps: seq<Step>, f: Event)
    requires Initial(d) && CalmRun(d, steps) && f in After(d, steps).disk.stateFile && f.sequence > 2
    ensures var e := After(d, steps);
      && e.disk.claim.Claim? && e.disk.claim.creator < |e.supervisors|
      && f.sequence <= e.supervisors[e.disk.claim.creator].job.lastSequence + 1
  {
    InitialIsOrderly(d);
    CalmRunKeepsOrder(d, steps, d.disk.record);
    CalmRunLosesOnce(d, steps, d.disk.record);
    StateFileIsExact(d, steps, f);
  }

  /** Nothing that was produced above the number by the time the output file was read is missing in it. */
  ghost predicate NothingMissing(d: Dir, steps: seq<Step>, s: Watch.Situation, k: nat, after: nat)
    requires k <= |steps| && Run(d, steps[..k])
  {
    forall e :: e in AllOutputs(d, steps[..k]) && e.sequence > after ==> e in s.output
  }

  lemma OutputIsPresent(d: Dir, steps: seq<Step>, s: Watch.Situation, k: nat, after: nat, number: nat)
    requires k <= |steps| && Run(d, steps[..k]) && NothingMissing(d, steps, s, k, after)
    requires Has(AllOutputs(d, steps[..k]), number) && number > after
    ensures !Watch.Gap(s, after, number)
  {
    var x :| 0 <= x < |AllOutputs(d, steps[..k])| && AllOutputs(d, steps[..k])[x].sequence == number;
    assert Watch.Present(s, AllOutputs(d, steps[..k])[x]);
  }

  lemma EarlierOutputs(d: Dir, steps: seq<Step>, j: nat, k: nat, number: nat)
    requires Run(d, steps) && j <= k <= |steps| && Run(d, steps[..j]) && Has(AllOutputs(d, steps[..j]), number)
    ensures Run(d, steps[..k]) && Has(AllOutputs(d, steps[..k]), number)
  {
    OutputsSplit(d, steps, k);
    assert steps[..k][..j] == steps[..j];
    OutputsSplit(d, steps[..k], j);
    var x :| 0 <= x < |AllOutputs(d, steps[..j])| && AllOutputs(d, steps[..j])[x].sequence == number;
    assert AllOutputs(d, steps[..k])[x] == AllOutputs(d, steps[..j])[x];
  }

  /** No gap below a state event. */
  lemma NoGapBelowState(d: Dir, steps: seq<Step>, s: Watch.Situation, i: nat, j: nat, k: nat, after: nat, number: nat, f: Event)
    requires Initial(d) && CalmRun(d, steps) && TakenAt(d, steps, s, i, j, k) && NothingMissing(d, steps, s, k, after)
    requires f in s.state && 2 <= number < f.sequence && after < number
    ensures !Watch.Gap(s, after, number)
  {
    CalmRunSplits(d, steps, j);
    LoggedBelow(d, steps[..j], f, number);
    if Has(s.state, number) {
      var x :| 0 <= x < |s.state| && s.state[x].sequence == number;
      assert Watch.Present(s, s.state[x]);
    } else {
      EarlierOutputs(d, steps, j, k, number);
      OutputIsPresent(d, steps, s, k, after, number);
    }
  }

  /** No gap below an output, but for "running". */
  lemma NoGapBelowOutput(d: Dir, steps: seq<Step>, s: Watch.Situation, i: nat, j: nat, k: nat, after: nat, number: nat, e: Event)
    requires Initial(d) && Run(d, steps) && TakenAt(d, steps, s, i, j, k) && NothingMissing(d, steps, s, k, after)
    requires e in s.output && 3 <= number < e.sequence && after < number
    ensures !Watch.Gap(s, after, number)
  {
    WriterIsDisciplined(d, steps[..k]);
    var x :| 0 <= x < |s.output| && s.output[x] == e;
    OutputIsPresent(d, steps, s, k, after, number);
  }

  /** The number of the first event is missing for good, if the server died before logging it. */
  predicate FirstIsMissing(d: Dir, after: nat) {
    after == 0 && d.disk.stateFile == []
  }

  /** The state file was read before "running" was logged, and the output file when there was output. */
  predicate RunningIsSkewed(s: Watch.Situation, after: nat) {
    after <= 1 && !Has(s.state, 2) && s.output != []
  }

  lemma MarkHasReason(d: Dir, steps: seq<Step>, s: Watch.Situation, i: nat, j: nat, k: nat, after: nat, number: nat)
    requires Initial(d) && CalmRun(d, steps) && TakenAt(d, steps, s, i, j, k) && NothingMissing(d, steps, s, k, after)
    requires Watch.Gap(s, after, number)
    ensures FirstIsMissing(d, after) || RunningIsSkewed(s, after)
  {
    var e :| Watch.Present(s, e) && e.sequence > number;
    if number == 1 {
      if d.disk.stateFile != [] {
        StateFileIsExact(d, steps[..j], StateEvent(1, Queued));
        assert Watch.Present(s, StateEvent(1, Queued));
      }
    } else if e in s.state {
      NoGapBelowState(d, steps, s, i, j, k, after, number, e);
    } else if number >= 3 {
      NoGapBelowOutput(d, steps, s, i, j, k, after, number, e);
    } else if Has(s.state, 2) {
      var x :| 0 <= x < |s.state| && s.state[x].sequence == 2;
      assert Watch.Present(s, s.state[x]);
    }
  }

  lemma StateNumbers(d: Dir, steps: seq<Step>, e: Event)
    requires Initial(d) && CalmRun(d, steps) && e in After(d, steps).disk.stateFile
    ensures e.sequence >= 1 && (e.sequence == 1 ==> d.disk.stateFile != [])
  {
    StateFileIsExact(d, steps, e);
    FilesAfter(d, steps);
    if e.StateEvent? && e.sequence in LostLog(d, steps) {
      LostIsAboveFirst(d, steps, e.sequence);
    }
  }

  lemma PresentNumbers(d: Dir, steps: seq<Step>, s: Watch.Situation, i: nat, j: nat, k: nat, e: Event)
    requires Initial(d) && CalmRun(d, steps) && TakenAt(d, steps, s, i, j, k) && Watch.Present(s, e)
    ensures e in s.output ==> e.sequence >= 3
    ensures e.sequence >= 1 && (e.sequence == 1 ==> d.disk.stateFile != [])
  {
    if e in s.output {
      TakenOutputs(d, steps, k);
      OutputsAreNumbered(d, steps);
    } else {
      CalmRunSplits(d, steps, j);
      StateNumbers(d, steps[..j], e);
    }
  }

  /**
   * When an answer with events is marked truncated although nothing is missing: exactly if it asks
   * from the beginning and the first event was never logged, or if the state file was read before
   * "running" was logged and the output file after there was output. In every other case a mark
   * tells that an output has gone.
   */
  lemma FalseMarkIff(d: Dir, steps: seq<Step>, s: Watch.Situation, i: nat, j: nat, k: nat, after: nat, r: Watch.Reply)
    requires Initial(d) && CalmRun(d, steps) && TakenAt(d, steps, s, i, j, k) && NothingMissing(d, steps, s, k, after)
    requires Watch.Serves(s, after, r) && r.events != []
    ensures r.truncated <==> FirstIsMissing(d, after) || RunningIsSkewed(s, after)
  {
    if r.truncated {
      var number :| Watch.Gap(s, after, number);
      MarkHasReason(d, steps, s, i, j, k, after, number);
    }
    forall e | Watch.Present(s, e)
      ensures e in s.output ==> e.sequence >= 3
      ensures e.sequence >= 1 && (e.sequence == 1 ==> d.disk.stateFile != [])
    {
      PresentNumbers(d, steps, s, i, j, k, e);
    }
    if FirstIsMissing(d, after) {
      assert r.events[0] in r.events && Watch.Present(s, r.events[0]);
      assert Watch.Gap(s, after, 1);
    }
    if RunningIsSkewed(s, after) {
      assert Watch.Present(s, s.output[0]) && s.output[0].sequence > 2;
      forall e | Watch.Present(s, e) ensures e.sequence != 2 {
        if e in s.state {
          var x :| 0 <= x < |s.state| && s.state[x] == e;
        }
      }
      assert Watch.Gap(s, after, 2);
    }
  }
}
