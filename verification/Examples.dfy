/** Runs that reach the states in which the Runner does not do what one would expect. */
module Examples {
  import opened Wrappers
  import opened EventLog
  import opened JobDirectory
  import opened Finality
  import opened RunnerAnswers
  import opened Watch
  import opened OutputFile
  import opened Utf8
  import Coordinator
  import Delivery
  import Writer

  ghost predicate CalmlyReaches(d: Dir, e: Dir) {
    exists steps :: CalmRun(d, steps) && After(d, steps) == e
  }

  lemma {:induction false} ExtendCalmly(d: Dir, steps: seq<Step>, step: Step)
    requires CalmRun(d, steps) && Possible(After(d, steps), step) && Calm(After(d, steps), step)
    ensures CalmRun(d, steps + [step]) && After(d, steps + [step]) == Next(After(d, steps), step)
    decreases |steps|
  {
    if steps == [] {
      assert [step][1..] == [];
    } else {
      ExtendCalmly(Next(d, steps[0]), steps[1..], step);
      assert (steps + [step])[1..] == steps[1..] + [step];
    }
  }

  lemma Then(d: Dir, e: Dir, step: Step) returns (f: Dir)
    requires CalmlyReaches(d, e) && Possible(e, step) && Calm(e, step)
    ensures f == Next(e, step) && CalmlyReaches(d, f)
  {
    var steps :| CalmRun(d, steps) && After(d, steps) == e;
    ExtendCalmly(d, steps, step);
    f := Next(e, step);
  }

  lemma Acts(d: Dir, e: Dir, action: Action) returns (f: Dir)
    requires CalmlyReaches(d, e) && |e.supervisors| == 1 && Enabled(e.disk, e.supervisors[0], action)
    ensures f == Next(e, Supervise(0, action)) && CalmlyReaches(d, f) && |f.supervisors| == 1
  {
    f := Then(d, e, Supervise(0, action));
  }

  lemma Begins(d: Dir, command: string) returns (e: Dir)
    requires Initial(d)
    ensures CalmlyReaches(d, e) && e.server.Idle? && e.disk == d.disk
    ensures e.supervisors == [Supervisor(command, true, false, Loaded, d.disk.record)]
  {
    assert CalmRun(d, []) && After(d, []) == d;
    e := Then(d, d, Spawn(command));
    e := Acts(d, e, Load);
  }

  // ---------- Lost too early ----------

  lemma NotForGood(d: Dir, e: Dir)
    requires Initial(d) && CalmlyReaches(d, e) && DecidesLost(e) && !Abandoned(e.disk.claim, e.supervisors)
    ensures !Final(Reconciled(e))
  {
    var steps :| CalmRun(d, steps) && After(d, steps) == e;
    InitialIsOrderly(d);
    CalmRunKeepsOrder(d, steps, d.disk.record);
    LostIsFinalIff(e, d.disk.record);
  }

  /** A supervisor has read the record, and does not claim it before the five seconds are over. */
  lemma LateClaimExample(d: Dir) returns (e: Dir)
    requires Initial(d)
    ensures CalmlyReaches(d, e) && e.disk.claim.NoClaim? && DecidesLost(e) && !Final(Reconciled(e))
  {
    e := Begins(d, "true");
    e := Then(d, e, Tick(d.disk.record.createdAt + CLAIM_GRACE));
    assert MayStillWrite(e.disk.claim, e.supervisors[0]);
    NotForGood(d, e);
  }

  /** A supervisor has created the claim file, and has not written its PID into it. */
  lemma ClaimWithoutPidExample(d: Dir) returns (e: Dir)
    requires Initial(d)
    ensures CalmlyReaches(d, e) && e.disk.claim == Claim(0, false) && DecidesLost(e) && !Final(Reconciled(e))
  {
    e := Begins(d, "true");
    e := Acts(d, e, CreateClaim);
    assert MayStillWrite(e.disk.claim, e.supervisors[0]);
    NotForGood(d, e);
  }

  // ---------- A page that ends between two events with one number ----------

  function Outputs(n: nat): seq<Event> {
    seq(n, k requires 0 <= k < n => OutputEvent(k + 3, Stdout, "x"))
  }

  const ANNOUNCED := [StateEvent(1, Queued), StateEvent(2, Running)]

  /** The supervisor has logged so many outputs, and its record covers them. */
  predicate Producing(e: Dir, n: nat) {
    && e.server.Idle? && e.disk.claim == Claim(0, true) && |e.supervisors| == 1
    && e.supervisors[0].alive && e.supervisors[0].stage.Copying? && e.supervisors[0].job == e.disk.record
    && !e.disk.record.quiet && e.disk.record.lastSequence == n + 2 && e.disk.record.state == Running
    && e.disk.record.message == NoMessage && !e.disk.record.truncated
    && e.disk.stateFile == ANNOUNCED && e.disk.outputFile == Outputs(n)
  }

  /** The claim is taken and recorded, and the command is about to be started. */
  predicate AboutToStart(e: Dir) {
    && e.server.Idle? && e.disk.claim == Claim(0, true) && |e.supervisors| == 1
    && e.supervisors[0].alive && e.supervisors[0].stage.Starting? && e.supervisors[0].job == e.disk.record
    && !e.disk.record.quiet && e.disk.record.lastSequence == 1 && e.disk.record.state == Queued
    && e.disk.record.message == NoMessage && !e.disk.record.truncated
    && e.disk.stateFile == [StateEvent(1, Queued)] && e.disk.outputFile == []
  }

  lemma Starts(d: Dir, command: string) returns (e: Dir)
    requires Initial(d) && command != "" && d.disk.record.digest == Sha256(command) && !d.disk.record.quiet
    requires d.disk.stateFile == [StateEvent(1, Queued)]
    ensures CalmlyReaches(d, e) && AboutToStart(e)
  {
    e := Begins(d, command);
    e := Acts(d, e, CreateClaim);
    e := Acts(d, e, WritePid);
    e := Acts(d, e, CheckCancel);
    e := Acts(d, e, WriteMark);
    e := Acts(d, e, CheckDigest);
  }

  lemma Announces(d: Dir, before: Dir) returns (e: Dir)
    requires CalmlyReaches(d, before) && AboutToStart(before)
    ensures CalmlyReaches(d, e) && Producing(e, 0)
  {
    e := Acts(d, before, Start(true));
    e := Acts(d, e, Feed(true));
    e := Acts(d, e, AppendRunning);
    e := Acts(d, e, WriteRunning);
  }

  lemma OutputsGrow(n: nat)
    ensures Outputs(n + 1) == Outputs(n) + [OutputEvent(n + 3, Stdout, "x")]
  {
  }

  lemma {:induction false} Produces(d: Dir, before: Dir, n: nat) returns (e: Dir)
    requires CalmlyReaches(d, before) && Producing(before, 0)
    ensures CalmlyReaches(d, e) && Producing(e, n)
  {
    if n == 0 {
      e := before;
    } else {
      e := Produces(d, before, n - 1);
      OutputsGrow(n - 1);
      e := Acts(d, e, Output(Stdout, "x", Kept));
      e := Acts(d, e, WriteOutput);
    }
  }

  /** The supervisor logs one more output and dies; `Reconcile` gives that number to the Lost event. */
  lemma LosesBehindLog(d: Dir, before: Dir, n: nat, retention: Retention) returns (e: Dir)
    requires CalmlyReaches(d, before) && Producing(before, n) && !retention.Compacted?
    ensures CalmlyReaches(d, e) && LostBehindLog(e) && !e.disk.record.truncated && e.disk.record.lastSequence == n + 3
    ensures e.disk.stateFile == ANNOUNCED + [StateEvent(n + 3, Lost)]
    ensures e.disk.outputFile == Outputs(if retention.Kept? then n + 1 else n)
    ensures e.disk.claim == Claim(0, true) && |e.supervisors| == 1
    ensures e.supervisors[0].stage.Copied? && e.supervisors[0].job.lastSequence == n + 3
  {
    OutputsGrow(n);
    e := Acts(d, before, Output(Stdout, "x", retention));
    e := Acts(d, e, Die);
    assert DecidesLost(e) && Abandoned(e.disk.claim, e.supervisors);
    ReconcileCases(e);
    e := Then(d, e, Reconcile);
  }

  // ---------- An output that is dropped without a mark ----------

  /** The encoded records of so many outputs. */
  function Encoded(encode: Event -> seq<byte>, n: nat): seq<seq<byte>> {
    seq(n, k requires 0 <= k < n => encode(OutputEvent(k + 3, Stdout, "x")))
  }

  /** The limit keeps the record of the next output, or drops it. */
  predicate KeepsNext(policy: Policy, encode: Event -> seq<byte>, n: nat) {
    KeptAfter(policy, Encoded(encode, n), encode(OutputEvent(n + 3, Stdout, "x"))) == Encoded(encode, n + 1)
  }

  predicate DropsNext(policy: Policy, encode: Event -> seq<byte>, n: nat) {
    && KeptAfter(policy, Encoded(encode, n), encode(OutputEvent(n + 3, Stdout, "x"))) == Encoded(encode, n)
    && |Concat(Encoded(encode, n + 1))| > policy.maxBytes
  }

  lemma EncodedGrows(encode: Event -> seq<byte>, n: nat)
    ensures Encoded(encode, n + 1) == Encoded(encode, n) + [encode(OutputEvent(n + 3, Stdout, "x"))]
    ensures |Concat(Encoded(encode, n + 1))| == |Concat(Encoded(encode, n))| + |encode(OutputEvent(n + 3, Stdout, "x"))|
  {
    assert Encoded(encode, n + 1) == Encoded(encode, n) + [encode(OutputEvent(n + 3, Stdout, "x"))];
    ConcatAppend(Encoded(encode, n), encode(OutputEvent(n + 3, Stdout, "x")));
  }

  /** In full mode some output is the first that does not fit, whatever the limit. */
  lemma {:induction false} FillsUp(policy: Policy, encode: Event -> seq<byte>, from: nat) returns (n: nat)
    requires policy.mode.Full? && forall e :: IsRecord(encode(e))
    requires |Concat(Encoded(encode, from))| <= policy.maxBytes && forall m :: 0 <= m < from ==> KeepsNext(policy, encode, m)
    ensures n >= from && DropsNext(policy, encode, n) && forall m :: 0 <= m < n ==> KeepsNext(policy, encode, m)
    decreases policy.maxBytes - |Concat(Encoded(encode, from))|
  {
    EncodedGrows(encode, from);
    assert IsRecord(encode(OutputEvent(from + 3, Stdout, "x")));
    if |Concat(Encoded(encode, from + 1))| > policy.maxBytes {
      n := from;
    } else {
      assert KeepsNext(policy, encode, from);
      n := FillsUp(policy, encode, from + 1);
    }
  }

  /**
   * The other way in which an output is lost unmarked, for every limit in full mode: the first output
   * that does not fit is dropped, the supervisor dies before its record says "truncated", and the
   * Lost event fills the number. Every number up to the last one is there, so no answer that reads
   * all of it is marked truncated.
   */
  lemma DroppedUnmarkedExample(d: Dir, command: string, policy: Policy, encode: Event -> seq<byte>)
    returns (steps: seq<Step>, n: nat)
    requires Initial(d) && command != "" && d.disk.record.digest == Sha256(command) && !d.disk.record.quiet
    requires d.disk.stateFile == [StateEvent(1, Queued)]
    requires Normal(policy) && policy.mode.Full? && forall e :: IsRecord(encode(e))
    // The limit keeps the first `n` outputs and drops the next one, as the run does.
    ensures DropsNext(policy, encode, n) && forall m :: 0 <= m < n ==> KeepsNext(policy, encode, m)
    ensures CalmRun(d, steps)
    ensures var disk := After(d, steps).disk; var last := disk.record.lastSequence;
      && disk.outputFile == Outputs(n) && last == n + 3
      && Has(Writer.AllOutputs(d, steps), last) && !disk.record.truncated
      && forall number :: 1 <= number <= last ==> Has(disk.stateFile, number) || Has(disk.outputFile, number)
  {
    assert Encoded(encode, 0) == [];
    n := FillsUp(policy, encode, 0);
    var e := Starts(d, command);
    e := Announces(d, e);
    e := Produces(d, e, n);
    e := LosesBehindLog(d, e, n, Skipped);
    steps :| CalmRun(d, steps) && After(d, steps) == e;
    Writer.WriterIsDisciplined(d, steps);
    AllAreThere(e.disk.stateFile, e.disk.outputFile, n);
  }

  lemma AllAreThere(stateFile: seq<Event>, outputFile: seq<Event>, n: nat)
    requires stateFile == ANNOUNCED + [StateEvent(n + 3, Lost)] && outputFile == Outputs(n)
    ensures forall number :: 1 <= number <= n + 3 ==> Has(stateFile, number) || Has(outputFile, number)
  {
    assert stateFile[0].sequence == 1 && stateFile[1].sequence == 2 && stateFile[2].sequence == n + 3;
    forall number | 3 <= number < n + 3 ensures Has(outputFile, number) {
      assert outputFile[number - 3].sequence == number;
    }
  }

  lemma {:induction false} AllAreAbove(events: seq<Event>)
    requires forall k :: 0 <= k < |events| ==> events[k].sequence > 0
    ensures EventsAbove(events, 0) == events
  {
    if events != [] {
      AllAreAbove(events[1..]);
      assert events == [events[0]] + events[1..];
    }
  }

  /** What is listed from the beginning: numbers 1 to `n + 3`, and the last one twice. */
  function Listing(n: nat): seq<Event> {
    ANNOUNCED + Outputs(n) + [StateEvent(n + 3, Lost), OutputEvent(n + 3, Stdout, "x")]
  }

  lemma ListingIsSorted(n: nat)
    ensures Sorted(Listing(n)) && forall number :: !Missing(Listing(n), 0, number)
    ensures |Listing(n)| == n + 4
  {
    forall k | 0 <= k < n + 3 ensures Listing(n)[k].sequence == k + 1 {
    }
    forall number | 0 < number <= n + 3 ensures Has(Listing(n), number) {
      assert Listing(n)[number - 1].sequence == number;
    }
  }

  lemma ListingIsFound(s: Situation, n: nat)
    requires s.state == ANNOUNCED + [StateEvent(n + 3, Lost)] && s.output == Outputs(n + 1)
    ensures multiset(Listing(n)) == multiset(Watch.Found(s, 0))
  {
    AllAreAbove(s.state);
    AllAreAbove(s.output);
    OutputsGrow(n);
    SameBag(ANNOUNCED, Outputs(n), StateEvent(n + 3, Lost), OutputEvent(n + 3, Stdout, "x"));
  }

  lemma SameBag(a: seq<Event>, b: seq<Event>, x: Event, y: Event)
    ensures multiset(a + b + [x, y]) == multiset((a + [x]) + (b + [y]))
  {
  }

  lemma ListedOutputsAreDistinct(n: nat)
    ensures DistinctOutputs(Listing(n))
  {
    forall k | 0 <= k < n + 4 && Listing(n)[k].OutputEvent?
      ensures Listing(n)[k].sequence == if k < n + 2 then k + 1 else k
    {
    }
  }

  lemma SharedNumberIsNotNumbered(s: Situation, i: nat, j: nat)
    requires i < |s.state| && j < |s.output| && s.state[i].sequence == s.output[j].sequence
    ensures !Numbered(s)
  {
  }

  lemma LastIsCutOff(n: nat)
    ensures OutputEvent(n + 3, Stdout, "x") !in Listing(n)[..n + 3] && Listing(n)[..n + 3][n + 2] == StateEvent(n + 3, Lost)
    ensures |Listing(n)[..n + 3]| == n + 3
  {
    forall k | 0 <= k < n + 3 ensures Listing(n)[k] != OutputEvent(n + 3, Stdout, "x") {
    }
  }

  /**
   * Any job with output, in a calm run: 125 outputs are logged and recorded, the supervisor logs
   * one more and dies, and the server marks the job Lost under its number. The first page may end
   * with the Lost event. Then the last output, which is there, is on no page, and no answer is
   * marked truncated.
   */
  lemma SplitTieExample(d: Dir, command: string) returns (e: Dir, r: Reply, missing: Event)
    requires Initial(d) && command != "" && d.disk.record.digest == Sha256(command) && !d.disk.record.quiet
    requires d.disk.stateFile == [StateEvent(1, Queued)]
    ensures CalmlyReaches(d, e) && missing in e.disk.outputFile
    ensures var s := Situation(e.disk.record, e.disk.stateFile, e.disk.outputFile);
      IsPage(s, 0, r.events, r.truncated) && Serves(s, 0, r)
    ensures !r.truncated && |r.events| == PAGE && missing.sequence == r.next && missing !in r.events
  {
    var n := PAGE - 3;
    e := Starts(d, command);
    e := Announces(d, e);
    e := Produces(d, e, n);
    e := LosesBehindLog(d, e, n, Kept);
    missing := OutputEvent(n + 3, Stdout, "x");
    var s := Situation(e.disk.record, e.disk.stateFile, e.disk.outputFile);
    r := Reply(s.job, Listing(n)[..PAGE], false, n + 3, false);
    OutputsGrow(n);
    LastIsCutOff(n);
    PageOfListing(s, n, r);
  }

  lemma PageOfListing(s: Situation, n: nat, r: Reply)
    requires s.state == ANNOUNCED + [StateEvent(n + 3, Lost)] && s.output == Outputs(n + 1) && n + 3 == PAGE
    requires r == Reply(s.job, Listing(n)[..PAGE], false, n + 3, false)
    ensures IsPage(s, 0, r.events, false) && Serves(s, 0, r)
  {
    ListingIsFound(s, n);
    ListingIsSorted(n);
    LastIsCutOff(n);
    ListedOutputsAreDistinct(n);
    SharedNumberIsNotNumbered(s, 2, n);
    CutServes(s, Listing(n), r);
  }

  lemma CutServes(s: Situation, listed: seq<Event>, r: Reply)
    requires Sorted(listed) && multiset(listed) == multiset(Watch.Found(s, 0)) && DistinctOutputs(listed) && !Numbered(s)
    requires |listed| > PAGE && forall number :: !Missing(listed, 0, number)
    requires r == Reply(s.job, listed[..PAGE], false, listed[PAGE - 1].sequence, false)
    ensures IsPage(s, 0, r.events, false) && Serves(s, 0, r)
  {
    assert PageOf(listed, 0, r.events, false);
    ListingIsPresent(s, 0, listed);
    PageServes(s, 0, listed, false, r);
  }

  // ---------- A mark although nothing is missing ----------

  lemma Joins(d: Dir, a: seq<Step>, b: seq<Step>)
    requires CalmRun(d, a) && CalmRun(After(d, a), b)
    ensures CalmRun(d, a + b) && After(d, a + b) == After(After(d, a), b)
    decreases |a|
  {
    if a == [] {
      assert [] + b == b;
    } else {
      Joins(Next(d, a[0]), a[1..], b);
      assert (a + b)[0] == a[0] && (a + b)[1..] == a[1..] + b;
    }
  }

  lemma ReachesItselfCalmly(d: Dir)
    ensures CalmlyReaches(d, d)
  {
    assert CalmRun(d, []) && After(d, []) == d;
  }

  /** If the file holds as many outputs as numbers were given out, it holds everything produced. */
  lemma NothingIsMissing(d: Dir, steps: seq<Step>, n: nat)
    requires Initial(d) && CalmRun(d, steps) && Producing(After(d, steps), n)
    ensures forall e :: e in Writer.AllOutputs(d, steps) ==> e in After(d, steps).disk.outputFile
  {
    Writer.WriterIsDisciplined(d, steps);
    Delivery.LogsAreHistory(d, steps);
    forall e | e in Writer.AllOutputs(d, steps) ensures e in Outputs(n) {
      var x :| 0 <= x < |Writer.AllOutputs(d, steps)| && Writer.AllOutputs(d, steps)[x] == e;
      assert Outputs(n)[e.sequence - 3] in Outputs(n);
      Coordinator.OneOutputPerNumber(Delivery.LogOf(d, steps), e, Outputs(n)[e.sequence - 3]);
    }
  }

  /**
   * Any job with output: the server reads the state file before "running" is logged, and the output
   * file when the first output is there. Nothing is missing, and the answer is marked truncated.
   */
  lemma FalseMarkExample(d: Dir, command: string) returns (steps: seq<Step>, j: nat, s: Situation, r: Reply)
    requires Initial(d) && command != "" && d.disk.record.digest == Sha256(command) && !d.disk.record.quiet
    requires d.disk.stateFile == [StateEvent(1, Queued)]
    ensures CalmRun(d, steps) && Delivery.TakenAt(d, steps, s, j, j, |steps|) && Run(d, steps[..|steps|])
    ensures Delivery.NothingMissing(d, steps, s, |steps|, 0) && Delivery.RunningIsSkewed(s, 0)
    ensures Serves(s, 0, r) && r.truncated && !s.job.truncated
  {
    var e := Starts(d, command);
    var a :| CalmRun(d, a) && After(d, a) == e;
    ReachesItselfCalmly(e);
    var f := Announces(e, e);
    f := Produces(e, f, 1);
    var b :| CalmRun(e, b) && After(e, b) == f;
    Joins(d, a, b);
    steps, j := a + b, |a|;
    assert steps[..j] == a && steps[..|steps|] == steps;
    s := Situation(e.disk.record, e.disk.stateFile, f.disk.outputFile);
    r := SkewedReply(s);
    NothingIsMissing(d, steps, 1);
  }

  const SKEWED := [StateEvent(1, Queued), OutputEvent(3, Stdout, "x")]

  lemma SkewedListing(s: Situation)
    requires s.state == [StateEvent(1, Queued)] && s.output == Outputs(1)
    ensures ListsPresent(s, 0, SKEWED) && Missing(SKEWED, 0, 2) && DistinctNumbers(SKEWED)
  {
    assert s.output == [OutputEvent(3, Stdout, "x")];
    forall e ensures Present(s, e) <==> e in SKEWED {
    }
  }

  lemma ShortListingServes(s: Situation, listed: seq<Event>, number: nat) returns (r: Reply)
    requires ListsPresent(s, 0, listed) && DistinctNumbers(listed) && 0 < |listed| <= PAGE && Missing(listed, 0, number)
    ensures Serves(s, 0, r) && r.truncated
  {
    r := Reply(s.job, listed, true, LastNumber(listed, 0), false);
    assert listed[..|listed|] == listed;
    PageServes(s, 0, listed, true, r);
  }

  lemma SkewedReply(s: Situation) returns (r: Reply)
    requires s.state == [StateEvent(1, Queued)] && s.output == Outputs(1)
    ensures Serves(s, 0, r) && r.truncated && Delivery.RunningIsSkewed(s, 0)
  {
    SkewedListing(s);
    r := ShortListingServes(s, SKEWED, 2);
  }
}
