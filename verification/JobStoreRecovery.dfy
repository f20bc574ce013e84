/** What recovery after a crash gives back: properties of the job store. */
module JobStoreRecovery {
  import opened Wrappers
  import opened JobStore

  // ---------- Replaying a journal over any snapshot ----------

  /** The record deletes no job of the snapshot and updates none to a newer version. */
  predicate Older(p: Payload, jobs: Jobs) {
    && p.deleted !! jobs.Keys
    && forall job :: job in p.jobs && job.id in jobs ==>
         job.version < jobs[job.id].version || job == jobs[job.id]
  }

  predicate Subsumed(payloads: seq<Payload>, jobs: Jobs) {
    forall i :: 0 <= i < |payloads| ==> Older(payloads[i], jobs)
  }

  lemma {:induction false} ReplacedAllOver(below: Jobs, jobs: Jobs, news: seq<JobRecord>)
    requires forall job :: job in news && job.id in jobs ==>
      job.version < jobs[job.id].version || job == jobs[job.id]
    ensures ReplacedAll(below + jobs, news) == ReplacedAll(below, news) + jobs
  {
    if news != [] {
      var init, last := news[..|news| - 1], news[|news| - 1];
      assert last in news && forall job :: job in init ==> job in news;
      ReplacedAllOver(below, jobs, init);
    }
  }

  /**
   * Replaying a subsumed journal changes no job of the snapshot. It brings back exactly the
   * jobs the journal by itself would build and the snapshot does not have.
   */
  lemma {:induction false} ReplayOverSnapshot(jobs: Jobs, payloads: seq<Payload>)
    requires Subsumed(payloads, jobs)
    ensures Replay(jobs, payloads) == Replay(map[], payloads) + jobs
  {
    if payloads == [] {
      assert map[] + jobs == jobs;
    } else {
      var init, last := payloads[..|payloads| - 1], payloads[|payloads| - 1];
      assert Older(last, jobs);
      ReplayOverSnapshot(jobs, init);
      var below := Replay(map[], init);
      assert (below + jobs) - last.deleted == (below - last.deleted) + jobs;
      ReplacedAllOver(below - last.deleted, jobs, last.jobs);
    }
  }

  /** The exact condition under which a replay restores the snapshot and nothing else. */
  lemma ReplayIsExactIff(jobs: Jobs, payloads: seq<Payload>)
    requires Subsumed(payloads, jobs)
    ensures Replay(jobs, payloads) == jobs <==> Replay(map[], payloads).Keys <= jobs.Keys
  {
    ReplayOverSnapshot(jobs, payloads);
    var below := Replay(map[], payloads);
    if below + jobs == jobs {
      assert forall id :: id in below ==> id in below + jobs;
    }
  }

  lemma {:induction false} ReplacedAllNeverOlder(jobs: Jobs, news: seq<JobRecord>, id: JobId)
    requires id in jobs
    ensures id in ReplacedAll(jobs, news) && ReplacedAll(jobs, news)[id].version >= jobs[id].version
  {
    if news != [] {
      ReplacedAllNeverOlder(jobs, news[..|news| - 1], id);
    }
  }

  /**
   * No journal whatever, garbage included, loads a job of the snapshot with an older version,
   * provided no accepted record deletes it.
   */
  lemma {:induction false} RecoveryNeverRollsBack(jobs: Jobs, payloads: seq<Payload>, id: JobId)
    requires id in jobs && forall p :: p in payloads ==> id !in p.deleted
    ensures id in Replay(jobs, payloads) && Replay(jobs, payloads)[id].version >= jobs[id].version
  {
    if payloads != [] {
      var init, last := payloads[..|payloads| - 1], payloads[|payloads| - 1];
      assert last in payloads && forall p :: p in init ==> p in payloads;
      RecoveryNeverRollsBack(jobs, init, id);
      ReplacedAllNeverOlder(Replay(jobs, init) - last.deleted, last.jobs, id);
    }
  }

  // ---------- One save ----------

  /**
   * `jobs` may be saved after `durable`: versions do not decrease, one version of a job has
   * one content, and the ids in `seen` that are gone are not used again.
   */
  predicate Follows(durable: Jobs, seen: set<JobId>, jobs: seq<JobRecord>) {
    && Distinct(jobs)
    && forall job :: job in jobs ==>
         if job.id in durable then durable[job.id].version < job.version || durable[job.id] == job
         else job.id !in seen
  }

  lemma {:induction false} AsMapOfDistinct(jobs: seq<JobRecord>)
    requires Distinct(jobs)
    ensures AsMap(jobs).Keys == Ids(jobs)
    ensures forall job :: job in jobs ==> AsMap(jobs)[job.id] == job
  {
    if jobs != [] {
      var init := jobs[..|jobs| - 1];
      AsMapOfDistinct(init);
      assert forall job :: job in jobs <==> job in init || job == jobs[|jobs| - 1];
      assert forall job :: job in init ==> exists i :: 0 <= i < |init| && jobs[i] == job;
    }
  }

  lemma {:induction false} ReplacedAllByNewer(jobs: Jobs, news: seq<JobRecord>)
    requires Distinct(news)
    requires forall job :: job in news && job.id in jobs ==> jobs[job.id].version <= job.version
    ensures ReplacedAll(jobs, news) == jobs + AsMap(news)
  {
    if news == [] {
      assert jobs + map[] == jobs;
    } else {
      var init, last := news[..|news| - 1], news[|news| - 1];
      assert last in news && forall job :: job in init ==> job in news;
      ReplacedAllByNewer(jobs, init);
      AsMapOfDistinct(init);
      LastIsNew(news);
      UpdateOfUnion(jobs, AsMap(init), last);
    }
  }

  lemma LastIsNew(news: seq<JobRecord>)
    requires news != [] && Distinct(news)
    ensures news[|news| - 1].id !in Ids(news[..|news| - 1])
  {
    var init := news[..|news| - 1];
    forall job | job in init ensures job.id != news[|news| - 1].id {
      var i :| 0 <= i < |init| && init[i] == job;
    }
  }

  lemma UpdateOfUnion(a: Jobs, b: Jobs, job: JobRecord)
    ensures (a + b)[job.id := job] == a + b[job.id := job]
  {
  }

  /** An unchanged job is in the base already, a changed one is in the difference. */
  lemma DifferenceCovers(versions: map<JobId, int>, durable: Jobs, jobs: seq<JobRecord>, job: JobRecord)
    requires versions == Versions(durable) && job in jobs && Distinct(jobs)
    requires job.id in durable ==> durable[job.id].version < job.version || durable[job.id] == job
    ensures var news := Changed(versions, jobs);
      if job.id in AsMap(news) then AsMap(news)[job.id] == job
      else job.id in durable && durable[job.id] == job
  {
    var news := Changed(versions, jobs);
    AsMapOfDistinct(news);
    if job.id in AsMap(news) {
      var other := AsMap(news)[job.id];
      assert other in jobs && other.id == job.id;
      var i, j :| 0 <= i < |jobs| && 0 <= j < |jobs| && jobs[i] == job && jobs[j] == other;
      assert i == j;
    } else {
      assert job !in news;
    }
  }

  lemma MapsAgree(a: Jobs, b: Jobs)
    requires a.Keys <= b.Keys
    requires forall id :: id in b ==> id in a && a[id] == b[id]
    ensures a == b
  {
  }

  /** Applying the difference a save journals to the state it started from gives what it saves. */
  lemma DifferenceRestores(versions: map<JobId, int>, durable: Jobs, seen: set<JobId>, jobs: seq<JobRecord>)
    requires versions == Versions(durable) && Follows(durable, seen, jobs)
    ensures ReplacedAll(durable - (versions.Keys - Ids(jobs)), Changed(versions, jobs)) == AsMap(jobs)
  {
    var news := Changed(versions, jobs);
    var kept := durable - (versions.Keys - Ids(jobs));
    ReplacedAllByNewer(kept, news);
    AsMapOfDistinct(jobs);
    AsMapOfDistinct(news);
    forall id | id in AsMap(jobs)
      ensures id in kept + AsMap(news) && (kept + AsMap(news))[id] == AsMap(jobs)[id]
    {
      var job :| job in jobs && job.id == id;
      DifferenceCovers(versions, durable, jobs, job);
    }
    ChangedIds(versions, jobs);
    assert kept.Keys <= Ids(jobs);
    MapsAgree(kept + AsMap(news), AsMap(jobs));
  }

  lemma ChangedIds(versions: map<JobId, int>, jobs: seq<JobRecord>)
    ensures Ids(Changed(versions, jobs)) <= Ids(jobs)
  {
  }

  function Mentioned(payloads: seq<Payload>): set<JobId> {
    if payloads == [] then {}
    else
      var last := payloads[|payloads| - 1];
      Mentioned(payloads[..|payloads| - 1]) + last.deleted + Ids(last.jobs)
  }

  lemma {:induction false} MentionedCovers(payloads: seq<Payload>, i: nat)
    requires i < |payloads|
    ensures payloads[i].deleted <= Mentioned(payloads) && Ids(payloads[i].jobs) <= Mentioned(payloads)
  {
    if i < |payloads| - 1 {
      MentionedCovers(payloads[..|payloads| - 1], i);
    }
  }

  /** A journal that says nothing a snapshot of `durable` does not know, and only names used ids; folded. */
  ghost predicate Sound(payloads: seq<Payload>, durable: Jobs, seen: set<JobId>) {
    forall token: nat :: Unfold(token) ==>
      && Subsumed(payloads, durable)
      && Replay(map[], payloads).Keys <= durable.Keys
      && Mentioned(payloads) <= seen
      && durable.Keys <= seen
  }

  /**
   * The state between two saves of a run without torn journal lines: the journal is sound,
   * `durable` is what a crash now would recover, and the memory matches it.
   */
  ghost predicate Consistent(store: Store, durable: Jobs, seen: set<JobId>) {
    var payloads := Accepted(store.disk.journal.lines);
    && store.disk.journal.tail.Clean? && |payloads| == |store.disk.journal.lines|
    && Recovered(store.disk) == durable
    && store == Restarted(store.disk)
    && Sound(payloads, durable, seen)
  }

  lemma IdsOfLast(jobs: seq<JobRecord>)
    requires jobs != []
    ensures Ids(jobs) == Ids(jobs[..|jobs| - 1]) + {jobs[|jobs| - 1].id}
  {
    assert forall job :: job in jobs <==> job in jobs[..|jobs| - 1] || job == jobs[|jobs| - 1];
  }

  lemma {:induction false} ReplacedAllKeys(jobs: Jobs, news: seq<JobRecord>)
    ensures ReplacedAll(jobs, news).Keys == jobs.Keys + Ids(news)
  {
    if news != [] {
      ReplacedAllKeys(jobs, news[..|news| - 1]);
      IdsOfLast(news);
    }
  }

  /** An older record stays older than what is saved next. */
  lemma OlderThanNext(p: Payload, durable: Jobs, seen: set<JobId>, jobs: seq<JobRecord>)
    requires Older(p, durable) && p.deleted + Ids(p.jobs) <= seen && Follows(durable, seen, jobs)
    ensures Older(p, AsMap(jobs))
  {
    AsMapOfDistinct(jobs);
    forall id | id in Ids(jobs) ensures id !in p.deleted {
      var job :| job in jobs && job.id == id;
    }
    forall old_ | old_ in p.jobs && old_.id in Ids(jobs)
      ensures old_.version < AsMap(jobs)[old_.id].version || old_ == AsMap(jobs)[old_.id]
    {
      var job :| job in jobs && job.id == old_.id;
      assert old_.id in Ids(p.jobs);
    }
  }

  lemma SubsumedByNext(payloads: seq<Payload>, durable: Jobs, seen: set<JobId>, jobs: seq<JobRecord>)
    requires Sound(payloads, durable, seen) && Follows(durable, seen, jobs)
    ensures Subsumed(payloads, AsMap(jobs))
  {
    assert Unfold(0);
    forall i | 0 <= i < |payloads|
      ensures Older(payloads[i], AsMap(jobs))
    {
      MentionedCovers(payloads, i);
      OlderThanNext(payloads[i], durable, seen, jobs);
    }
  }

  lemma KeysOfLonger(payloads: seq<Payload>, payload: Payload, durable: set<JobId>, ids: set<JobId>)
    requires Replay(map[], payloads).Keys <= durable
    requires payload.deleted == durable - ids && Ids(payload.jobs) <= ids
    ensures Replay(map[], payloads + [payload]).Keys <= ids
  {
    assert (payloads + [payload])[..|payloads|] == payloads;
    ReplacedAllKeys(Replay(map[], payloads) - payload.deleted, payload.jobs);
  }

  lemma MentionedOfLonger(payloads: seq<Payload>, payload: Payload)
    ensures Mentioned(payloads + [payload]) == Mentioned(payloads) + payload.deleted + Ids(payload.jobs)
  {
    assert (payloads + [payload])[..|payloads|] == payloads;
  }

  lemma SubsumedLonger(payloads: seq<Payload>, payload: Payload, jobs: Jobs)
    requires Subsumed(payloads, jobs) && Older(payload, jobs)
    ensures Subsumed(payloads + [payload], jobs)
  {
  }

  /** Appending the difference to a sound journal keeps it sound, for the newly saved state. */
  lemma DifferenceKeepsSound(payloads: seq<Payload>, payload: Payload, versions: map<JobId, int>,
                             durable: Jobs, seen: set<JobId>, jobs: seq<JobRecord>)
    requires Sound(payloads, durable, seen) && Follows(durable, seen, jobs)
    requires payload.jobs == Changed(versions, jobs) && payload.deleted == durable.Keys - Ids(jobs)
    ensures Sound(payloads + [payload], AsMap(jobs), seen + Ids(jobs))
  {
    AsMapOfDistinct(jobs);
    ChangedIds(versions, jobs);
    SubsumedByNext(payloads, durable, seen, jobs);
    OlderThanItself(payload, jobs);
    SubsumedLonger(payloads, payload, AsMap(jobs));
    MentionedOfLonger(payloads, payload);
    SoundSets(payloads, durable, seen);
    KeysOfLonger(payloads, payload, durable.Keys, Ids(jobs));
  }

  lemma SoundSets(payloads: seq<Payload>, durable: Jobs, seen: set<JobId>)
    requires Sound(payloads, durable, seen)
    ensures Replay(map[], payloads).Keys <= durable.Keys <= seen && Mentioned(payloads) <= seen
  {
    assert Unfold(0);
  }

  lemma OlderThanItself(payload: Payload, jobs: seq<JobRecord>)
    requires Distinct(jobs) && payload.deleted !! Ids(jobs) && forall job :: job in payload.jobs ==> job in jobs
    ensures Older(payload, AsMap(jobs))
  {
    AsMapOfDistinct(jobs);
  }

  /** Under a snapshot of the durable state a sound journal changes nothing. */
  lemma SoundIsExact(payloads: seq<Payload>, durable: Jobs, seen: set<JobId>)
    requires Sound(payloads, durable, seen)
    ensures Subsumed(payloads, durable) && Replay(durable, payloads) == durable
  {
    assert Unfold(0);
    ReplayIsExactIff(durable, payloads);
  }

  /** Journalling the difference of a save makes the save durable. */
  lemma DifferenceReplays(store: Store, durable: Jobs, seen: set<JobId>, jobs: seq<JobRecord>)
    requires Consistent(store, durable, seen) && Follows(durable, seen, jobs)
    ensures var payloads := Accepted(store.disk.journal.lines);
      Replay(Snapshot(store.disk), payloads + [Difference(store, jobs)]) == AsMap(jobs)
  {
    var payloads := Accepted(store.disk.journal.lines);
    assert (payloads + [Difference(store, jobs)])[..|payloads|] == payloads;
    DifferenceRestores(store.persistedVersions, durable, seen, jobs);
  }

  lemma EmptyDifference(store: Store, durable: Jobs, seen: set<JobId>, jobs: seq<JobRecord>)
    requires Consistent(store, durable, seen) && Follows(durable, seen, jobs)
    requires Difference(store, jobs).jobs == [] && Difference(store, jobs).deleted == {}
    ensures AsMap(jobs) == durable
  {
    DifferenceRestores(store.persistedVersions, durable, seen, jobs);
    assert durable - {} == durable;
  }

  // ---------- Crashes at any step of a save ----------

  lemma AcceptedOfAppend(lines: seq<Line>, line: Line)
    ensures Accepted(lines + [line]) ==
      if |Accepted(lines)| == |lines| && Acceptable(line, |lines| + 1) then Accepted(lines) + [line.payload]
      else Accepted(lines)
  {
    assert (lines + [line])[..|lines|] == lines;
  }

  /** A torn save leaves a fragment, or the whole record without its newline. */
  predicate Possible(store: Store, jobs: seq<JobRecord>, progress: Progress) {
    progress.TearsJournal? && progress.part.Unterminated? ==> progress.part.payload == Difference(store, jobs)
  }

  /** Which of the two states a crash at `progress` leaves durable. */
  function Outcome(durable: Jobs, jobs: seq<JobRecord>, progress: Progress): Jobs {
    match progress
    case BeforeJournal => durable
    case TearsJournal(part) => if part.Unterminated? then AsMap(jobs) else durable
    case _ => AsMap(jobs)
  }

  lemma TornDisk(store: Store, durable: Jobs, seen: set<JobId>)
    requires Consistent(store, durable, seen)
    ensures Recovered(store.disk.(journal := store.disk.journal.AppendTorn(Torn))) == durable
  {
    AcceptedOfAppend(store.disk.journal.lines, Garbage);
  }

  lemma AcceptedDifference(store: Store, durable: Jobs, seen: set<JobId>, jobs: seq<JobRecord>)
    requires Consistent(store, durable, seen)
    ensures var lines, payload := store.disk.journal.lines, Difference(store, jobs);
      Accepted(lines + [Entry(payload, true)]) == Accepted(lines) + [payload]
  {
    AcceptedOfAppend(store.disk.journal.lines, Entry(Difference(store, jobs), true));
  }

  lemma LoggedDisk(store: Store, durable: Jobs, seen: set<JobId>, jobs: seq<JobRecord>, journal: Journal)
    requires Consistent(store, durable, seen) && Follows(durable, seen, jobs)
    requires journal.Readable() == store.disk.journal.lines + [Entry(Difference(store, jobs), true)]
    ensures Recovered(store.disk.(journal := journal)) == AsMap(jobs)
  {
    AcceptedDifference(store, durable, seen, jobs);
    DifferenceReplays(store, durable, seen, jobs);
  }

  /** With the new snapshot in place, both the longer and the unchanged journal are harmless. */
  lemma RenamedDisk(store: Store, durable: Jobs, seen: set<JobId>, jobs: seq<JobRecord>)
    requires Consistent(store, durable, seen) && Follows(durable, seen, jobs)
    ensures Recovered(Disk(Some(jobs), Logged(store, jobs))) == AsMap(jobs)
  {
    var payloads, payload := Accepted(store.disk.journal.lines), Difference(store, jobs);
    if payload.jobs == [] && payload.deleted == {} {
      EmptyDifference(store, durable, seen, jobs);
      SoundIsExact(payloads, durable, seen);
    } else {
      AcceptedDifference(store, durable, seen, jobs);
      DifferenceKeepsSound(payloads, payload, store.persistedVersions, durable, seen, jobs);
      SoundIsExact(payloads + [payload], AsMap(jobs), seen + Ids(jobs));
    }
  }

  /** The journal with the difference appended, or unchanged when there is no difference. */
  function Logged(store: Store, jobs: seq<JobRecord>): Journal {
    var payload := Difference(store, jobs);
    if payload.jobs != [] || payload.deleted != {} then store.disk.journal.Append(payload) else store.disk.journal
  }

  /** Crash atomicity of one save: recovery finds the old state or the new one, never a mixture. */
  lemma CrashIsAtomic(store: Store, durable: Jobs, seen: set<JobId>, jobs: seq<JobRecord>,
                      progress: Progress, overLimit: bool)
    requires Consistent(store, durable, seen) && Follows(durable, seen, jobs)
    requires Possible(store, jobs, progress)
    ensures Recovered(Saved(store, jobs, progress, overLimit).disk) == Outcome(durable, jobs, progress)
  {
    var payload, journal := Difference(store, jobs), store.disk.journal;
    if payload.jobs == [] && payload.deleted == {} {
      EmptyDifference(store, durable, seen, jobs);
      RenamedDisk(store, durable, seen, jobs);
    } else {
      match progress
      case BeforeJournal =>
      case TearsJournal(Clean) =>
      case TearsJournal(Torn) =>
        TornDisk(store, durable, seen);
      case TearsJournal(Unterminated(_)) =>
        LoggedDisk(store, durable, seen, jobs, journal.AppendTorn(Unterminated(payload)));
      case BeforeRename =>
        LoggedDisk(store, durable, seen, jobs, journal.Append(payload));
      case _ =>
        RenamedDisk(store, durable, seen, jobs);
    }
  }

  /** A crash outside the journal write, or no crash, keeps the store consistent. */
  lemma SaveKeepsConsistent(store: Store, durable: Jobs, seen: set<JobId>, jobs: seq<JobRecord>,
                            progress: Progress, overLimit: bool)
    requires Consistent(store, durable, seen) && Follows(durable, seen, jobs)
    requires !progress.TearsJournal?
    ensures Consistent(Next(store, Op(jobs, progress, overLimit)), Outcome(durable, jobs, progress), seen + Ids(jobs))
  {
    CrashIsAtomic(store, durable, seen, jobs, progress, overLimit);
    AsMapOfDistinct(jobs);
    if progress.BeforeJournal? {
    } else if progress.Completed? && overLimit {
      assert Next(store, Op(jobs, progress, overLimit)) == Restarted(Disk(Some(jobs), Journal([], Clean)));
      CompactedIsConsistent(jobs, seen + Ids(jobs));
    } else {
      LoggedIsConsistent(store, durable, seen, jobs,
                         if progress.BeforeRename? then store.disk.snapshot else Some(jobs));
    }
  }

  lemma CompactedIsConsistent(jobs: seq<JobRecord>, seen: set<JobId>)
    requires Distinct(jobs) && Ids(jobs) <= seen
    ensures Consistent(Restarted(Disk(Some(jobs), Journal([], Clean))), AsMap(jobs), seen)
  {
    AsMapOfDistinct(jobs);
    assert Accepted([]) == [];
  }

  lemma LoggedIsConsistent(store: Store, durable: Jobs, seen: set<JobId>, jobs: seq<JobRecord>,
                           snapshot: Option<seq<JobRecord>>)
    requires Consistent(store, durable, seen) && Follows(durable, seen, jobs)
    requires Recovered(Disk(snapshot, Logged(store, jobs))) == AsMap(jobs)
    ensures Consistent(Restarted(Disk(snapshot, Logged(store, jobs))), AsMap(jobs), seen + Ids(jobs))
    ensures |Accepted(Logged(store, jobs).Readable())| == |Logged(store, jobs).lines|
  {
    var payloads, payload := Accepted(store.disk.journal.lines), Difference(store, jobs);
    AsMapOfDistinct(jobs);
    if payload.jobs == [] && payload.deleted == {} {
      EmptyDifference(store, durable, seen, jobs);
    } else {
      AcceptedDifference(store, durable, seen, jobs);
      DifferenceKeepsSound(payloads, payload, store.persistedVersions, durable, seen, jobs);
    }
  }

  /** One save that completes, or dies at `progress` and is followed by a restart. */
  datatype Op = Op(jobs: seq<JobRecord>, progress: Progress, overLimit: bool)

  function Next(store: Store, op: Op): Store {
    var after := Saved(store, op.jobs, op.progress, op.overLimit);
    if op.progress.Completed? then after else Restarted(after.disk)
  }

  /** The store, the state it should recover, and the ids used so far, after a run from `disk`. */
  function Run(disk: Disk, ops: seq<Op>): (Store, Jobs, set<JobId>) {
    if ops == [] then (Restarted(disk), Recovered(disk), Recovered(disk).Keys)
    else
      var (store, durable, seen) := Run(disk, ops[..|ops| - 1]);
      var op := ops[|ops| - 1];
      (Next(store, op), Outcome(durable, op.jobs, op.progress), seen + Ids(op.jobs))
  }

  /** Every save follows the durable state, and only the last one may tear the journal. */
  predicate Regular(disk: Disk, ops: seq<Op>) {
    ops == [] ||
    (var init, op := ops[..|ops| - 1], ops[|ops| - 1];
     var (store, durable, seen) := Run(disk, init);
     && Regular(disk, init) && (forall o :: o in init ==> !o.progress.TearsJournal?)
     && Follows(durable, seen, op.jobs) && Possible(store, op.jobs, op.progress))
  }

  /**
   * Over any number of saves, crashes between any two steps, restarts and compactions,
   * loading gives exactly the last save whose record reached the journal.
   */
  lemma {:induction false} RecoveryIsExact(disk: Disk, ops: seq<Op>)
    requires disk.journal == Journal([], Clean) && Regular(disk, ops)
    ensures var (store, durable, seen) := Run(disk, ops);
      && Recovered(store.disk) == durable
      && ((forall op :: op in ops ==> !op.progress.TearsJournal?) ==> Consistent(store, durable, seen))
  {
    if ops != [] {
      var init, op := ops[..|ops| - 1], ops[|ops| - 1];
      RecoveryIsExact(disk, init);
      var (store, durable, seen) := Run(disk, init);
      CrashIsAtomic(store, durable, seen, op.jobs, op.progress, op.overLimit);
      if !op.progress.TearsJournal? {
        SaveKeepsConsistent(store, durable, seen, op.jobs, op.progress, op.overLimit);
      }
    }
  }

  // ---------- Behind a torn line ----------

  /** A bad line freezes the journal: nothing appended behind it is ever replayed. */
  lemma BadLineFreezesJournal(lines: seq<Line>, line: Line)
    requires |Accepted(lines)| < |lines|
    ensures Accepted(lines + [line]) == Accepted(lines) && |Accepted(lines + [line])| < |lines + [line]|
  {
    AcceptedOfAppend(lines, line);
  }

  /**
   * A save that completes after a torn append. Recovery then still has every saved job
   * unchanged, and brings back each job the surviving records built and the save no longer
   * has. So it is exact if and only if the save drops no job that those records hold.
   */
  lemma SaveBehindTornLine(store: Store, durable: Jobs, seen: set<JobId>, torn: Store, jobs: seq<JobRecord>)
    requires Consistent(store, durable, seen) && Follows(durable, seen, jobs)
    requires torn == Restarted(store.disk.(journal := store.disk.journal.AppendTorn(Torn)))
    requires Difference(torn, jobs).jobs != [] || Difference(torn, jobs).deleted != {}
    ensures var below := Replay(map[], Accepted(store.disk.journal.lines));
      var disk := Saved(torn, jobs, Completed, false).disk;
      Recovered(disk) == below + AsMap(jobs) && (Recovered(disk) == AsMap(jobs) <==> below.Keys <= Ids(jobs))
  {
    assert Saved(torn, jobs, Completed, false).disk ==
           Disk(Some(jobs), Journal(store.disk.journal.lines + [Garbage], Clean));
    SnapshotBehindBadLine(store.disk.journal.lines, durable, seen, jobs);
  }

  lemma SnapshotBehindBadLine(lines: seq<Line>, durable: Jobs, seen: set<JobId>, jobs: seq<JobRecord>)
    requires Sound(Accepted(lines), durable, seen) && Follows(durable, seen, jobs)
    ensures var disk := Disk(Some(jobs), Journal(lines + [Garbage], Clean));
      && Recovered(disk) == Replay(map[], Accepted(lines)) + AsMap(jobs)
      && (Recovered(disk) == AsMap(jobs) <==> Replay(map[], Accepted(lines)).Keys <= Ids(jobs))
  {
    AcceptedOfAppend(lines, Garbage);
    SubsumedByNext(Accepted(lines), durable, seen, jobs);
    ReplayOverSnapshot(AsMap(jobs), Accepted(lines));
    ReplayIsExactIff(AsMap(jobs), Accepted(lines));
    AsMapOfDistinct(jobs);
  }

  /**
   * The other torn tail: a whole record without its newline is recovered once, but the next
   * append is glued to it. A crash before the next rename then recovers the state before both.
   */
  lemma UnterminatedRecordIsForgotten(store: Store, durable: Jobs, seen: set<JobId>, jobs: seq<JobRecord>, later: Payload)
    requires Consistent(store, durable, seen) && Follows(durable, seen, jobs)
    ensures var journal := store.disk.journal.AppendTorn(Unterminated(Difference(store, jobs)));
      && Recovered(store.disk.(journal := journal)) == AsMap(jobs)
      && Recovered(store.disk.(journal := journal.Append(later))) == durable
  {
    LoggedDisk(store, durable, seen, jobs, store.disk.journal.AppendTorn(Unterminated(Difference(store, jobs))));
    AcceptedOfAppend(store.disk.journal.lines, Garbage);
  }

  /** The smallest such run: job "b", dropped by the last completed save, comes back. */
  lemma ResurrectionExample()
    ensures var a1, a2, b := JobRecord("a", 1, ""), JobRecord("a", 2, ""), JobRecord("b", 1, "");
      var journal := Journal([Entry(Payload(1, [a1, b], {}), true), Garbage], Clean);
      Recovered(Disk(Some([a2]), journal)) == map["a" := a2, "b" := b]
  {
    var a1, a2, b := JobRecord("a", 1, ""), JobRecord("a", 2, ""), JobRecord("b", 1, "");
    var first := Entry(Payload(1, [a1, b], {}), true);
    AcceptedOfAppend([first], Garbage);
    AcceptedOfAppend([], first);
    assert [first] + [Garbage] == [first, Garbage] && [] + [first] == [first];
    assert AsMap([a2]) == map["a" := a2];
    assert [first.payload][..0] == [] && Replay(AsMap([a2]), [first.payload]) == Applied(AsMap([a2]), first.payload);
    assert AsMap([a2]) - {} == AsMap([a2]);
    assert [a1, b][..1] == [a1] && ReplacedAll(AsMap([a2]), [a1]) == AsMap([a2]) by {
      assert [a1][..0] == [];
    }
  }

  // ---------- A save that fails while the process lives on ----------

  /** The jobs that only the failed save knew and the next one no longer has. */
  function Forgotten(durable: Jobs, failed: seq<JobRecord>, jobs: seq<JobRecord>): set<JobId> {
    Ids(failed) - durable.Keys - Ids(jobs)
  }

  /** A job of the next save is in its difference, or the failed save left it as it is. */
  lemma StillCovered(durable: Jobs, seen: set<JobId>, failed: seq<JobRecord>, jobs: seq<JobRecord>, job: JobRecord)
    requires Follows(durable, seen, failed) && Follows(AsMap(failed), seen + Ids(failed), jobs) && durable.Keys <= seen
    requires job in jobs
    ensures var news := Changed(Versions(durable), jobs);
      if job.id in AsMap(news) then AsMap(news)[job.id] == job
      else job.id in durable && job.id in AsMap(failed) && AsMap(failed)[job.id] == job
  {
    var news := Changed(Versions(durable), jobs);
    AsMapOfDistinct(news);
    AsMapOfDistinct(failed);
    if job.id in AsMap(news) {
      var other := AsMap(news)[job.id];
      assert other in jobs && other.id == job.id;
      var i, j :| 0 <= i < |jobs| && 0 <= j < |jobs| && jobs[i] == job && jobs[j] == other;
      assert i == j;
    } else {
      assert job !in news;
      assert job.id in durable && durable[job.id].version == job.version;
      assert job.id in AsMap(failed);
      var f :| f in failed && f.id == job.id;
      assert AsMap(failed)[job.id] == f;
    }
  }

  /** What the next difference makes of the state that the failed save journalled. */
  lemma AppliedAgain(durable: Jobs, seen: set<JobId>, failed: seq<JobRecord>, jobs: seq<JobRecord>)
    requires Follows(durable, seen, failed) && Follows(AsMap(failed), seen + Ids(failed), jobs) && durable.Keys <= seen
    ensures var r := ReplacedAll(AsMap(failed) - (durable.Keys - Ids(jobs)), Changed(Versions(durable), jobs));
      && r.Keys == Ids(jobs) + Forgotten(durable, failed, jobs)
      && forall job :: job in jobs ==> job.id in r && r[job.id] == job
  {
    var news := Changed(Versions(durable), jobs);
    var kept := AsMap(failed) - (durable.Keys - Ids(jobs));
    ReplacedAllByNewer(kept, news);
    AsMapOfDistinct(jobs);
    AsMapOfDistinct(failed);
    AsMapOfDistinct(news);
    ChangedIds(Versions(durable), jobs);
    forall job | job in jobs ensures job.id in kept + AsMap(news) && (kept + AsMap(news))[job.id] == job {
      StillCovered(durable, seen, failed, jobs, job);
    }
  }

  /** The store after a save whose rename failed: the journal holds it, the memory does not. */
  lemma AfterFailedRename(store: Store, durable: Jobs, seen: set<JobId>, failed: seq<JobRecord>)
    requires Consistent(store, durable, seen) && Follows(durable, seen, failed)
    ensures var after := Saved(store, failed, BeforeRename, false);
      && after.persistedVersions == Versions(durable) && after.disk.journal.tail.Clean?
      && |Accepted(after.disk.journal.lines)| == |after.disk.journal.lines| == after.journalSequence
      && Recovered(after.disk) == AsMap(failed)
  {
    CrashIsAtomic(store, durable, seen, failed, BeforeRename, false);
    AcceptedDifference(store, durable, seen, failed);
  }

  lemma ReplayOneMore(base: Jobs, payloads: seq<Payload>, payload: Payload)
    ensures Replay(base, payloads + [payload]) == Applied(Replay(base, payloads), payload)
  {
    assert (payloads + [payload])[..|payloads|] == payloads;
  }

  lemma NothingApplied(jobs: Jobs, payload: Payload)
    requires payload.jobs == [] && payload.deleted == {}
    ensures Applied(jobs, payload) == jobs
  {
    assert jobs - {} == jobs;
  }

  /** The payloads that a save leaves in the journal. */
  function PayloadsAfter(payloads: seq<Payload>, payload: Payload): seq<Payload> {
    if payload.jobs != [] || payload.deleted != {} then payloads + [payload] else payloads
  }

  lemma ReplayAfter(base: Jobs, payloads: seq<Payload>, payload: Payload)
    ensures Replay(base, PayloadsAfter(payloads, payload)) == Applied(Replay(base, payloads), payload)
  {
    if payload.jobs != [] || payload.deleted != {} {
      ReplayOneMore(base, payloads, payload);
    } else {
      NothingApplied(Replay(base, payloads), payload);
    }
  }

  lemma JournalOfNext(after: Store, jobs: seq<JobRecord>)
    requires after.disk.journal.tail.Clean?
    requires |Accepted(after.disk.journal.lines)| == |after.disk.journal.lines| == after.journalSequence
    ensures Accepted(Logged(after, jobs).Readable()) ==
      PayloadsAfter(Accepted(after.disk.journal.lines), Difference(after, jobs))
  {
    AcceptedOfAppend(after.disk.journal.lines, Entry(Difference(after, jobs), true));
  }

  lemma LoggedAgain(store: Store, jobs: seq<JobRecord>)
    requires store.disk.journal.tail.Clean?
    requires |Accepted(store.disk.journal.lines)| == |store.disk.journal.lines| == store.journalSequence
    ensures Recovered(Saved(store, jobs, BeforeRename, false).disk) == Applied(Recovered(store.disk), Difference(store, jobs))
  {
    assert Saved(store, jobs, BeforeRename, false).disk == store.disk.(journal := Logged(store, jobs));
    JournalOfNext(store, jobs);
    ReplayAfter(Snapshot(store.disk), Accepted(store.disk.journal.lines), Difference(store, jobs));
  }

  lemma ExactIffNothingMore(r: Jobs, jobs: seq<JobRecord>, more: set<JobId>)
    requires Distinct(jobs) && more !! Ids(jobs) && r.Keys == Ids(jobs) + more
    requires forall job :: job in jobs ==> job.id in r && r[job.id] == job
    ensures r == AsMap(jobs) <==> more == {}
  {
    AsMapOfDistinct(jobs);
    if more == {} {
      forall id | id in AsMap(jobs) ensures id in r && r[id] == AsMap(jobs)[id] {
        var job :| job in jobs && job.id == id;
      }
      MapsAgree(r, AsMap(jobs));
    }
  }

  lemma SecondSave(after: Store, durable: Jobs, seen: set<JobId>, failed: seq<JobRecord>, jobs: seq<JobRecord>, recovered: Jobs)
    requires after.persistedVersions == Versions(durable) && durable.Keys <= seen
    requires Follows(durable, seen, failed) && Follows(AsMap(failed), seen + Ids(failed), jobs)
    requires recovered == Applied(AsMap(failed), Difference(after, jobs))
    ensures recovered.Keys == Ids(jobs) + Forgotten(durable, failed, jobs)
    ensures recovered == AsMap(jobs) <==> Forgotten(durable, failed, jobs) == {}
  {
    assert Versions(durable).Keys == durable.Keys;
    AppliedAgain(durable, seen, failed, jobs);
    ExactIffNothingMore(recovered, jobs, Forgotten(durable, failed, jobs));
  }

  /** The journal behind the failed save: sound for what it journalled, and naming the jobs that were new in it. */
  lemma JournalAfterFailure(store: Store, durable: Jobs, seen: set<JobId>, failed: seq<JobRecord>)
    requires Consistent(store, durable, seen) && Follows(durable, seen, failed)
    ensures var payloads := Accepted(Saved(store, failed, BeforeRename, false).disk.journal.lines);
      && Sound(payloads, AsMap(failed), seen + Ids(failed))
      && Ids(failed) - durable.Keys <= Replay(map[], payloads).Keys <= Ids(failed)
  {
    var before, payload := Accepted(store.disk.journal.lines), Difference(store, failed);
    var after := Saved(store, failed, BeforeRename, false);
    SaveKeepsConsistent(store, durable, seen, failed, BeforeRename, false);
    AsMapOfDistinct(failed);
    SoundSets(Accepted(after.disk.journal.lines), AsMap(failed), seen + Ids(failed));
    NewAreChanged(Versions(durable), failed);
    assert Versions(durable).Keys == durable.Keys;
    if payload.jobs != [] || payload.deleted != {} {
      AcceptedDifference(store, durable, seen, failed);
      ReplayOneMore(map[], before, payload);
      ReplacedAllKeys(Replay(map[], before) - payload.deleted, payload.jobs);
    }
  }

  lemma NewAreChanged(versions: map<JobId, int>, jobs: seq<JobRecord>)
    ensures Ids(jobs) - versions.Keys <= Ids(Changed(versions, jobs))
  {
    forall id | id in Ids(jobs) - versions.Keys ensures id in Ids(Changed(versions, jobs)) {
      var job :| job in jobs && job.id == id;
      assert job in Changed(versions, jobs);
    }
  }

  /** Replayed from nothing, they build besides jobs of the next save only the forgotten ones. */
  lemma KeysOfNext(payloads: seq<Payload>, payload: Payload, durable: set<JobId>, failed: set<JobId>, ids: set<JobId>)
    requires failed - durable <= Replay(map[], payloads).Keys <= failed
    requires payload.deleted == durable - ids && Ids(payload.jobs) <= ids
    ensures Replay(map[], PayloadsAfter(payloads, payload)).Keys + ids == ids + (failed - durable - ids)
  {
    ReplayAfter(map[], payloads, payload);
    ReplacedAllKeys(Replay(map[], payloads) - payload.deleted, payload.jobs);
    OnlyForgotten(Replay(map[], payloads).Keys, Ids(payload.jobs), durable, failed, ids);
  }

  lemma OnlyForgotten(below: set<JobId>, news: set<JobId>, durable: set<JobId>, failed: set<JobId>, ids: set<JobId>)
    requires failed - durable <= below <= failed && news <= ids
    ensures below - (durable - ids) + news + ids == ids + (failed - durable - ids)
  {
  }

  lemma SubsumedNext(payloads: seq<Payload>, payload: Payload, failed: Jobs, seen: set<JobId>, jobs: seq<JobRecord>)
    requires Sound(payloads, failed, seen) && Follows(failed, seen, jobs)
    requires payload.deleted !! Ids(jobs) && forall job :: job in payload.jobs ==> job in jobs
    ensures Subsumed(PayloadsAfter(payloads, payload), AsMap(jobs))
  {
    SubsumedByNext(payloads, failed, seen, jobs);
    OlderThanItself(payload, jobs);
    SubsumedLonger(payloads, payload, AsMap(jobs));
  }

  lemma UnderNewSnapshot(payloads: seq<Payload>, jobs: seq<JobRecord>, more: set<JobId>)
    requires Subsumed(payloads, AsMap(jobs)) && Distinct(jobs) && more !! Ids(jobs)
    requires Replay(map[], payloads).Keys + Ids(jobs) == Ids(jobs) + more
    ensures var recovered := Replay(AsMap(jobs), payloads);
      recovered.Keys == Ids(jobs) + more && (recovered == AsMap(jobs) <==> more == {})
  {
    ReplayOverSnapshot(AsMap(jobs), payloads);
    ReplayIsExactIff(AsMap(jobs), payloads);
    AsMapOfDistinct(jobs);
    assert more <= Replay(map[], payloads).Keys;
    assert more == {} ==> Replay(map[], payloads).Keys <= Ids(jobs);
  }

  /** Every saved job, and besides them the jobs `more`. */
  ghost predicate RecoversWith(recovered: Jobs, jobs: seq<JobRecord>, more: set<JobId>) {
    recovered.Keys == Ids(jobs) + more && (recovered == AsMap(jobs) <==> more == {})
  }

  lemma RenamedOver(after: Store, durable: Jobs, seen: set<JobId>, failed: seq<JobRecord>, jobs: seq<JobRecord>,
                    payloads: seq<Payload>)
    requires payloads == Accepted(after.disk.journal.lines) && after.persistedVersions == Versions(durable)
    requires Sound(payloads, AsMap(failed), seen + Ids(failed)) && Follows(AsMap(failed), seen + Ids(failed), jobs)
    requires Ids(failed) - durable.Keys <= Replay(map[], payloads).Keys <= Ids(failed)
    ensures RecoversWith(Replay(AsMap(jobs), PayloadsAfter(payloads, Difference(after, jobs))), jobs,
                         Forgotten(durable, failed, jobs))
  {
    var payload := Difference(after, jobs);
    ChangedIds(after.persistedVersions, jobs);
    assert Versions(durable).Keys == durable.Keys;
    KeysOfNext(payloads, payload, durable.Keys, Ids(failed), Ids(jobs));
    SubsumedNext(payloads, payload, AsMap(failed), seen + Ids(failed), jobs);
    UnderNewSnapshot(PayloadsAfter(payloads, payload), jobs, Forgotten(durable, failed, jobs));
  }

  /** The next save comes past its rename, and the journal is not truncated. */
  lemma NextIsRenamed(store: Store, durable: Jobs, seen: set<JobId>, failed: seq<JobRecord>, jobs: seq<JobRecord>)
    requires Consistent(store, durable, seen) && Follows(durable, seen, failed)
    requires Follows(AsMap(failed), seen + Ids(failed), jobs)
    ensures var after := Saved(store, failed, BeforeRename, false);
      RecoversWith(Recovered(Disk(Some(jobs), Logged(after, jobs))), jobs, Forgotten(durable, failed, jobs))
  {
    var after := Saved(store, failed, BeforeRename, false);
    AfterFailedRename(store, durable, seen, failed);
    JournalAfterFailure(store, durable, seen, failed);
    JournalOfNext(after, jobs);
    RenamedOver(after, durable, seen, failed, jobs, Accepted(after.disk.journal.lines));
  }

  /** The next save comes as far as its rename. */
  lemma NextIsLogged(store: Store, durable: Jobs, seen: set<JobId>, failed: seq<JobRecord>, jobs: seq<JobRecord>)
    requires Consistent(store, durable, seen) && Follows(durable, seen, failed)
    requires Follows(AsMap(failed), seen + Ids(failed), jobs)
    ensures var after := Saved(store, failed, BeforeRename, false);
      RecoversWith(Recovered(after.disk.(journal := Logged(after, jobs))), jobs, Forgotten(durable, failed, jobs))
  {
    var after := Saved(store, failed, BeforeRename, false);
    AfterFailedRename(store, durable, seen, failed);
    LoggedAgain(after, jobs);
    DurableIsSeen(store, durable, seen);
    assert Saved(after, jobs, BeforeRename, false).disk == after.disk.(journal := Logged(after, jobs));
    SecondSave(after, durable, seen, failed, jobs, Recovered(after.disk.(journal := Logged(after, jobs))));
  }

  /** The whole record of the save is in the journal, if there is a difference to record. */
  predicate IsLogged(store: Store, jobs: seq<JobRecord>, progress: Progress) {
    var payload := Difference(store, jobs);
    match progress
    case BeforeJournal => false
    case TearsJournal(part) => part.Unterminated? && (payload.jobs != [] || payload.deleted != {})
    case _ => true
  }

  lemma NotLogged(after: Store, jobs: seq<JobRecord>, progress: Progress, overLimit: bool)
    requires after.disk.journal.tail.Clean? && !IsLogged(after, jobs, progress)
    ensures Recovered(Saved(after, jobs, progress, overLimit).disk) == Recovered(after.disk)
  {
    AcceptedOfAppend(after.disk.journal.lines, Garbage);
  }

  lemma LoggedDiskIs(after: Store, jobs: seq<JobRecord>, progress: Progress, overLimit: bool)
    requires after.disk.journal.tail.Clean? && Possible(after, jobs, progress) && IsLogged(after, jobs, progress)
    ensures var disk := Saved(after, jobs, progress, overLimit).disk;
      if progress.Completed? && overLimit then disk == Disk(Some(jobs), Journal([], Clean))
      else if progress.BeforeTruncate? || progress.Completed? then disk == Disk(Some(jobs), Logged(after, jobs))
      else disk.snapshot == after.disk.snapshot && disk.journal.Readable() == Logged(after, jobs).Readable()
  {
  }

  lemma ReadableIsRecovered(a: Disk, b: Disk)
    requires a.snapshot == b.snapshot && a.journal.Readable() == b.journal.Readable()
    ensures Recovered(a) == Recovered(b)
  {
  }

  lemma EmptyJournalRecovers(jobs: seq<JobRecord>)
    ensures Recovered(Disk(Some(jobs), Journal([], Clean))) == AsMap(jobs)
  {
    assert Accepted([]) == [];
  }

  lemma LoggedThen(after: Store, jobs: seq<JobRecord>, progress: Progress, overLimit: bool)
    requires after.disk.journal.tail.Clean? && Possible(after, jobs, progress) && IsLogged(after, jobs, progress)
    ensures var recovered := Recovered(Saved(after, jobs, progress, overLimit).disk);
      if progress.Completed? && overLimit then recovered == AsMap(jobs)
      else if progress.BeforeTruncate? || progress.Completed? then recovered == Recovered(Disk(Some(jobs), Logged(after, jobs)))
      else recovered == Recovered(after.disk.(journal := Logged(after, jobs)))
  {
    LoggedDiskIs(after, jobs, progress, overLimit);
    EmptyJournalRecovers(jobs);
    if progress.TearsJournal? || progress.BeforeRename? {
      ReadableIsRecovered(Saved(after, jobs, progress, overLimit).disk, after.disk.(journal := Logged(after, jobs)));
    }
  }

  /**
   * A save whose rename fails after its record was journalled, in a process that lives on; then
   * the next save, which dies anywhere or completes. The memory still compares with the state
   * before both, so a job that was new in the failed save is not deleted by the next: once the
   * next save is logged, recovery is exact if and only if no such job is gone, also when that
   * save completes, until the journal is truncated.
   */
  lemma FailedRenameIff(store: Store, durable: Jobs, seen: set<JobId>, failed: seq<JobRecord>, jobs: seq<JobRecord>,
                        progress: Progress, overLimit: bool)
    requires Consistent(store, durable, seen) && Follows(durable, seen, failed)
    requires Follows(AsMap(failed), seen + Ids(failed), jobs)
    requires Possible(Saved(store, failed, BeforeRename, false), jobs, progress)
    ensures var after := Saved(store, failed, BeforeRename, false);
      var recovered := Recovered(Saved(after, jobs, progress, overLimit).disk);
      if !IsLogged(after, jobs, progress) then recovered == AsMap(failed)
      else if progress.Completed? && overLimit then recovered == AsMap(jobs)
      else RecoversWith(recovered, jobs, Forgotten(durable, failed, jobs))
  {
    var after := Saved(store, failed, BeforeRename, false);
    AfterFailedRename(store, durable, seen, failed);
    if !IsLogged(after, jobs, progress) {
      NotLogged(after, jobs, progress, overLimit);
    } else {
      LoggedThen(after, jobs, progress, overLimit);
      NextIsRenamed(store, durable, seen, failed, jobs);
      NextIsLogged(store, durable, seen, failed, jobs);
    }
  }

  lemma FreshIsConsistent()
    ensures Consistent(Restarted(Disk(None, Journal([], Clean))), map[], {})
  {
    assert Accepted([]) == [];
  }

  lemma SinglesFollow(a: JobRecord, b: JobRecord)
    requires a.id != b.id
    ensures Ids([a]) == {a.id} && Ids([b]) == {b.id}
    ensures Follows(map[], {}, [a]) && Follows(AsMap([a]), {} + Ids([a]), [b])
    ensures Forgotten(map[], [a], [b]) == {a.id}
  {
    assert a in [a] && b in [b];
    AsMapOfDistinct([a]);
  }

  /**
   * The smallest such runs: a new process saves a job, and the rename fails; the next save has
   * only another job and completes, and loading brings the first one back.
   */
  lemma FailedRenameExample(a: JobRecord, b: JobRecord)
    requires a.id != b.id
    ensures var store := Restarted(Disk(None, Journal([], Clean)));
      var after := Saved(Saved(store, [a], BeforeRename, false), [b], Completed, false);
      Recovered(after.disk).Keys == {b.id, a.id} && Recovered(after.disk) != AsMap([b])
  {
    var store := Restarted(Disk(None, Journal([], Clean)));
    FreshIsConsistent();
    SinglesFollow(a, b);
    FailedRenameIff(store, map[], {}, [a], [b], Completed, false);
    assert RecoversWith(Recovered(Saved(Saved(store, [a], BeforeRename, false), [b], Completed, false).disk), [b], {a.id});
  }

  lemma DurableIsSeen(store: Store, durable: Jobs, seen: set<JobId>)
    requires Consistent(store, durable, seen)
    ensures durable.Keys <= seen
  {
    SoundSets(Accepted(store.disk.journal.lines), durable, seen);
  }
}
