/**
 * The Runner's protocol and its answers put together: what a server that reads record, state
 * file and output file one after the other, while the supervisor goes on writing, tells the
 * coordinator.
 */
module RunnerAnswers {
  import opened Wrappers
  import opened EventLog
  import opened JobDirectory
  import opened Finality
  import opened Watch
  import Coordinator

  predicate Prefix(a: seq<Event>, b: seq<Event>) {
    |a| <= |b| && a == b[..|a|]
  }

  lemma StepGrowsStateFile(d: Dir, step: Step)
    requires Possible(d, step)
    ensures Prefix(d.disk.stateFile, Next(d, step).disk.stateFile)
  {
    if step.Reconcile? {
      ReconcileCases(d);
    }
  }

  lemma {:induction false} RunGrowsStateFile(d: Dir, steps: seq<Step>)
    requires Run(d, steps)
    ensures Prefix(d.disk.stateFile, After(d, steps).disk.stateFile)
    decreases |steps|
  {
    if steps != [] {
      StepGrowsStateFile(d, steps[0]);
      RunGrowsStateFile(Next(d, steps[0]), steps[1..]);
      PrefixOfPrefix(d.disk.stateFile, Next(d, steps[0]).disk.stateFile, After(d, steps).disk.stateFile);
    }
  }

  lemma PrefixOfPrefix(a: seq<Event>, b: seq<Event>, c: seq<Event>)
    requires Prefix(a, b) && Prefix(b, c)
    ensures Prefix(a, c)
  {
  }

  /** A job that was marked Lost although its dead owner had logged an event the record does not know. */
  predicate LostBehindLog(d: Dir) {
    WasLost(d.disk.record) && OwnerLags(d)
  }

  lemma FilesAreDistinct(e: Dir, origin: Record)
    requires Orderly(e, origin) && !LostBehindLog(e)
    ensures Increasing(e.disk.stateFile) && Increasing(e.disk.outputFile) && Apart(e.disk.stateFile, e.disk.outputFile)
  {
    if WasLost(e.disk.record) {
      LostNumbers(e, origin);
    }
  }

  /**
   * Read skew: the record is read first, the state file after `steps`, the output file after
   * `more` steps. The page the server makes of them still holds every output event that is
   * retained then, up to the number the coordinator continues from. The one exception is a full
   * page whose last number stands both for the event and for a Lost event that did not cover it.
   */
  lemma ReadSkewIsHarmless(d: Dir, steps: seq<Step>, more: seq<Step>, job: Record, after: nat, r: Reply, e: Event)
    requires Initial(d) && CalmRun(d, steps) && CalmRun(After(d, steps), more)
    requires Serves(Situation(job, After(d, steps).disk.stateFile, After(After(d, steps), more).disk.outputFile), after, r)
    requires e in After(After(d, steps), more).disk.outputFile && after < e.sequence <= r.next
    ensures e in r.events
            || (LostBehindLog(After(After(d, steps), more)) && |r.events| == PAGE && e.sequence == r.next)
  {
    var early := After(d, steps);
    var late := After(early, more);
    var s := Situation(job, early.disk.stateFile, late.disk.outputFile);
    assert Present(s, e);
    if !LostBehindLog(late) {
      InitialIsOrderly(d);
      CalmRunKeepsOrder(d, steps, d.disk.record);
      CalmRunKeepsOrder(early, more, d.disk.record);
      FilesAreDistinct(late, d.disk.record);
      RunGrowsStateFile(early, more);
      PrefixIsApart(s.state, late.disk.stateFile, s.output);
    }
  }

  lemma PrefixIsApart(a: seq<Event>, b: seq<Event>, c: seq<Event>)
    requires Prefix(a, b) && Increasing(b) && Increasing(c) && Apart(b, c)
    ensures DistinctNumbers(a) && DistinctNumbers(c)
    ensures forall i, j :: 0 <= i < |a| && 0 <= j < |c| ==> a[i].sequence != c[j].sequence
  {
  }

  /**
   * Draining: once the server has read a terminal record, whatever it reads later is the same,
   * and the coordinator, which asks from `after` on, is done after at most as many answers as
   * there are numbers left.
   */
  lemma TerminalJobsDrain(d: Dir, steps: seq<Step>, more: seq<Step>, after: nat, answers: seq<Reply>)
    requires Initial(d) && CalmRun(d, steps) && CalmRun(After(d, steps), more)
    requires Terminal(After(d, steps).disk.record.state) && after <= After(d, steps).disk.record.lastSequence
    requires var job, later := After(d, steps).disk.record, After(After(d, steps), more).disk;
      Coordinator.Drains(Situation(job, later.stateFile, later.outputFile), after, answers)
    ensures After(After(d, steps), more).disk.record == After(d, steps).disk.record
    ensures |answers| <= After(d, steps).disk.record.lastSequence - after
  {
    TerminalIsFinal(d, steps, more);
    NumbersAreDisciplined(d, steps);
    var job, later := After(d, steps).disk.record, After(After(d, steps), more).disk;
    Coordinator.DrainEnds(Situation(job, later.stateFile, later.outputFile), after, answers);
  }

  // ---------- What is read at moments of a run ----------

  /** The record as somebody read it at some moment of the run. */
  ghost predicate ReadIn(d: Dir, steps: seq<Step>, read: Option<Record>) {
    read.Some? ==> exists k :: ReadAt(d, steps, read.value, k)
  }

  ghost predicate ReadAt(d: Dir, steps: seq<Step>, r: Record, k: nat) {
    k <= |steps| && Run(d, steps[..k]) && After(d, steps[..k]).disk.record == r
  }

  ghost predicate AllReadIn(d: Dir, steps: seq<Step>, polls: seq<Option<Record>>) {
    forall i :: 0 <= i < |polls| ==> ReadIn(d, steps, polls[i])
  }

  lemma VerifiedIsQuiet(d: Dir, steps: seq<Step>, r: Record, k: nat)
    requires Initial(d) && Run(d, steps) && ReadAt(d, steps, r, k) && r.verified
    ensures After(d, steps).disk.starts == After(d, steps[..k]).disk.starts && !After(d, steps).disk.groupRunning
  {
    RunSplits(d, steps, k);
    CancelledIsVerified(d, steps[..k], steps[k..]);
  }

  /** From the moment `k` on nothing was started, and nothing runs at the end. */
  ghost predicate QuietSince(d: Dir, steps: seq<Step>, k: nat)
    requires Run(d, steps)
  {
    k <= |steps| && Run(d, steps[..k])
    && After(d, steps).disk.starts == After(d, steps[..k]).disk.starts && !After(d, steps).disk.groupRunning
  }

  /**
   * `cancel` beside any run of the directory, with records that it read at moments of the run. A
   * client that is told "cancelled" can rely on it: from the moment that record was read nothing
   * is started, and nothing runs.
   */
  method CancelInRun(ghost d: Dir, ghost steps: seq<Step>, first: Option<Record>, marked: bool,
                     starting: seq<Option<Record>>, signalled: bool, terminating: seq<Option<Record>>,
                     killed: seq<Option<Record>>)
    returns (result: Result<Record, Coordinator.CancelError>)
    requires Initial(d) && Run(d, steps) && ReadIn(d, steps, first)
    requires AllReadIn(d, steps, starting) && AllReadIn(d, steps, terminating) && AllReadIn(d, steps, killed)
    ensures first.Some? && !Terminal(first.value.state) && result.Ok? ==> result.value.state == Cancelled
    ensures result.Ok? && result.value.state == Cancelled ==>
      exists k :: ReadAt(d, steps, result.value, k) && QuietSince(d, steps, k)
  {
    ghost var last;
    result, last := Coordinator.Cancel(first, marked, starting, signalled, terminating, killed);
    if result.Ok? && result.value.state == Cancelled {
      assert ReadIn(d, steps, Some(result.value)) by {
        assert Some(result.value) in [first] + starting + terminating + killed;
      }
      ghost var k :| ReadAt(d, steps, result.value, k);
      VerifiedIsQuiet(d, steps, result.value, k);
      assert QuietSince(d, steps, k);
    }
  }
}
