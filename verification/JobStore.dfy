/**
 * The coordinator's crash-safe job store (JobStore.ts): an atomically renamed snapshot and
 * a journal of checked differences that is replayed over it.
 */
module JobStore {
  import opened Wrappers

  type JobId = string

  /** A job as it is persisted: its id, its version, and everything else. */
  datatype JobRecord = JobRecord(id: JobId, version: int, body: string)

  type Jobs = map<JobId, JobRecord>

  datatype Payload = Payload(sequence: int, jobs: seq<JobRecord>, deleted: set<JobId>)

  /** A line of the journal; `sealed` says that its format version and checksum are right. */
  datatype Line = Garbage | Entry(payload: Payload, sealed: bool)

  /**
   * What stands behind the last newline: nothing, a fragment that does not parse, or a whole
   * record that lacks only its newline.
   */
  datatype Tail = Clean | Torn | Unterminated(payload: Payload)

  datatype Journal = Journal(lines: seq<Line>, tail: Tail) {
    /** The lines a reader gets. */
    function Readable(): seq<Line> {
      match tail
      case Clean => lines
      case Torn => lines + [Garbage]
      case Unterminated(payload) => lines + [Entry(payload, true)]
    }

    /** Text appended behind a tail continues the line the tail began. */
    function Append(payload: Payload): Journal {
      Journal(lines + [if tail.Clean? then Entry(payload, true) else Garbage], Clean)
    }

    function AppendTorn(part: Tail): Journal {
      Journal(lines, if tail.Clean? then part else Torn)
    }
  }

  datatype Disk = Disk(snapshot: Option<seq<JobRecord>>, journal: Journal)

  datatype Store = Store(disk: Disk, persistedVersions: map<JobId, int>, journalSequence: nat)

  // ---------- Loading ----------

  function AsMap(jobs: seq<JobRecord>): Jobs {
    if jobs == [] then map[]
    else var last := jobs[|jobs| - 1]; AsMap(jobs[..|jobs| - 1])[last.id := last]
  }

  /** Of several records with one id the last one counts. */
  lemma {:induction false} LastRecordCounts(jobs: seq<JobRecord>, i: nat)
    requires i < |jobs| && forall j :: i < j < |jobs| ==> jobs[j].id != jobs[i].id
    ensures jobs[i].id in AsMap(jobs) && AsMap(jobs)[jobs[i].id] == jobs[i]
  {
    if i < |jobs| - 1 {
      LastRecordCounts(jobs[..|jobs| - 1], i);
    }
  }

  function Snapshot(disk: Disk): Jobs {
    if disk.snapshot.None? then map[] else AsMap(disk.snapshot.value)
  }

  predicate Acceptable(line: Line, expected: int) {
    line.Entry? && line.sealed && line.payload.sequence == expected
  }

  /** The records a replay accepts: those before the first bad or misnumbered line. */
  function Accepted(lines: seq<Line>): (payloads: seq<Payload>)
    ensures |payloads| <= |lines|
    ensures forall i :: 0 <= i < |payloads| ==>
      Acceptable(lines[i], i + 1) && payloads[i] == lines[i].payload
    ensures |payloads| < |lines| ==> !Acceptable(lines[|payloads|], |payloads| + 1)
  {
    if lines == [] then []
    else
      var init := Accepted(lines[..|lines| - 1]);
      if |init| == |lines| - 1 && Acceptable(lines[|lines| - 1], |lines|)
      then init + [lines[|lines| - 1].payload] else init
  }

  function Replaced(jobs: Jobs, job: JobRecord): Jobs {
    if job.id in jobs && jobs[job.id].version > job.version then jobs else jobs[job.id := job]
  }

  function ReplacedAll(jobs: Jobs, news: seq<JobRecord>): Jobs {
    if news == [] then jobs
    else Replaced(ReplacedAll(jobs, news[..|news| - 1]), news[|news| - 1])
  }

  function Applied(jobs: Jobs, payload: Payload): Jobs {
    ReplacedAll(jobs - payload.deleted, payload.jobs)
  }

  function Replay(jobs: Jobs, payloads: seq<Payload>): Jobs {
    if payloads == [] then jobs
    else Applied(Replay(jobs, payloads[..|payloads| - 1]), payloads[|payloads| - 1])
  }

  lemma ReplayStep(jobs: Jobs, payloads: seq<Payload>, n: nat)
    requires n < |payloads|
    ensures Replay(jobs, payloads[..n + 1]) == Applied(Replay(jobs, payloads[..n]), payloads[n])
  {
    assert payloads[..n + 1][..n] == payloads[..n];
  }

  /** The replay so far: the first `n` lines were accepted; folded. */
  ghost predicate Replayed(base: Jobs, lines: seq<Line>, n: nat, jobs: Jobs) {
    forall token: nat :: Unfold(token) ==> n <= |Accepted(lines)| && jobs == Replay(base, Accepted(lines)[..n])
  }

  lemma ReplayBegins(base: Jobs, lines: seq<Line>)
    ensures Replayed(base, lines, 0, base)
  {
    assert Accepted(lines)[..0] == [];
  }

  lemma ReplayGoesOn(base: Jobs, lines: seq<Line>, n: nat, jobs: Jobs)
    requires Replayed(base, lines, n, jobs) && n < |lines| && Acceptable(lines[n], n + 1)
    ensures Replayed(base, lines, n + 1, Applied(jobs, lines[n].payload))
  {
    assert Unfold(0);
    ReplayStep(base, Accepted(lines), n);
  }

  lemma ReplayEnds(base: Jobs, lines: seq<Line>, n: nat, jobs: Jobs)
    requires Replayed(base, lines, n, jobs) && n <= |lines| && (n < |lines| ==> !Acceptable(lines[n], n + 1))
    ensures n == |Accepted(lines)| && jobs == Replay(base, Accepted(lines))
  {
    assert Unfold(0);
    assert Accepted(lines)[..|Accepted(lines)|] == Accepted(lines);
  }

  /** What `load` returns. */
  function Recovered(disk: Disk): Jobs {
    Replay(Snapshot(disk), Accepted(disk.journal.Readable()))
  }

  function Versions(jobs: Jobs): map<JobId, int> {
    map id | id in jobs :: jobs[id].version
  }

  function Restarted(disk: Disk): Store {
    Store(disk, Versions(Recovered(disk)), |Accepted(disk.journal.Readable())|)
  }

  // ---------- Saving ----------

  predicate Distinct(jobs: seq<JobRecord>) {
    forall i, j :: 0 <= i < j < |jobs| ==> jobs[i].id != jobs[j].id
  }

  function Ids(jobs: seq<JobRecord>): set<JobId> {
    set job | job in jobs :: job.id
  }

  function Changed(versions: map<JobId, int>, jobs: seq<JobRecord>): (news: seq<JobRecord>)
    ensures forall job :: job in news <==>
      job in jobs && !(job.id in versions && versions[job.id] == job.version)
    ensures Distinct(jobs) ==> Distinct(news)
  {
    if jobs == [] then []
    else
      var init, job := Changed(versions, jobs[..|jobs| - 1]), jobs[|jobs| - 1];
      if job.id in versions && versions[job.id] == job.version then init else init + [job]
  }

  function Difference(store: Store, jobs: seq<JobRecord>): Payload {
    Payload(store.journalSequence + 1, Changed(store.persistedVersions, jobs),
            store.persistedVersions.Keys - Ids(jobs))
  }

  /** How far a save gets before the process dies. */
  datatype Progress =
    | BeforeJournal
    | TearsJournal(part: Tail)
    | BeforeRename
    | BeforeTruncate
    | Completed

  function Saved(store: Store, jobs: seq<JobRecord>, progress: Progress, overLimit: bool): Store {
    var payload := Difference(store, jobs);
    var writes := payload.jobs != [] || payload.deleted != {};
    var journal := store.disk.journal;
    var logged := if writes then journal.Append(payload) else journal;
    var sequence := if writes then payload.sequence else store.journalSequence;
    match progress
    case BeforeJournal => store
    case TearsJournal(part) =>
      if writes then store.(disk := store.disk.(journal := journal.AppendTorn(part))) else store
    case BeforeRename => store.(disk := store.disk.(journal := logged), journalSequence := sequence)
    case BeforeTruncate => Store(Disk(Some(jobs), logged), Versions(AsMap(jobs)), sequence)
    case Completed =>
      if overLimit then Store(Disk(Some(jobs), Journal([], Clean)), Versions(AsMap(jobs)), 0)
      else Store(Disk(Some(jobs), logged), Versions(AsMap(jobs)), sequence)
  }

  class JobStore {
    var disk: Disk
    var persistedVersions: map<JobId, int>
    var journalSequence: nat

    ghost function State(): Store
      reads this
    {
      Store(disk, persistedVersions, journalSequence)
    }

    /** A new process, attached to whatever the previous one left on disk. */
    constructor (disk: Disk)
      ensures State() == Store(disk, map[], 0)
    {
      this.disk, persistedVersions, journalSequence := disk, map[], 0;
    }

    method Load() returns (jobs: Jobs)
      requires persistedVersions == map[] && journalSequence == 0
      modifies this
      ensures jobs == Recovered(disk) && State() == Restarted(old(disk))
    {
      jobs := map[];
      if disk.snapshot.Some? {
        var document := disk.snapshot.value;
        for n := 0 to |document|
          invariant jobs == AsMap(document[..n])
        {
          assert document[..n + 1][..n] == document[..n];
          jobs := jobs[document[n].id := document[n]];
        }
        assert document[..|document|] == document;
      }
      jobs := ReplayJournal(jobs);
      persistedVersions := map id | id in jobs :: jobs[id].version;
    }

    static method ReplayRecord(base: Jobs, payload: Payload) returns (jobs: Jobs)
      ensures jobs == Applied(base, payload)
    {
      jobs := base - payload.deleted;
      for n := 0 to |payload.jobs|
        invariant jobs == ReplacedAll(base - payload.deleted, payload.jobs[..n])
      {
        assert payload.jobs[..n + 1][..n] == payload.jobs[..n];
        var job := payload.jobs[n];
        if job.id !in jobs || jobs[job.id].version <= job.version {
          jobs := jobs[job.id := job];
        }
      }
      assert payload.jobs[..|payload.jobs|] == payload.jobs;
    }

    method ReplayJournal(base: Jobs) returns (jobs: Jobs)
      requires journalSequence == 0
      modifies this`journalSequence
      ensures jobs == Replay(base, Accepted(disk.journal.Readable()))
      ensures journalSequence == |Accepted(disk.journal.Readable())|
    {
      jobs := base;
      var lines := disk.journal.Readable();
      var n := 0;
      ReplayBegins(base, lines);
      while n < |lines| && lines[n].Entry? && lines[n].sealed && lines[n].payload.sequence == n + 1
        invariant n <= |lines| && journalSequence == n && Replayed(base, lines, n, jobs)
      {
        var payload := lines[n].payload;
        ReplayGoesOn(base, lines, n, jobs);
        if journalSequence < payload.sequence {
          journalSequence := payload.sequence;
        }
        jobs := ReplayRecord(jobs, payload);
        n := n + 1;
      }
      ReplayEnds(base, lines, n, jobs);
    }

    method AppendJournal(payload: Payload)
      modifies this`disk
      ensures disk == old(disk).(journal := old(disk).journal.Append(payload))
    {
      disk := disk.(journal := disk.journal.Append(payload));
    }

    method ChangedJobs(jobs: seq<JobRecord>) returns (news: seq<JobRecord>)
      ensures news == Changed(persistedVersions, jobs)
    {
      news := [];
      for n := 0 to |jobs|
        invariant news == Changed(persistedVersions, jobs[..n])
      {
        assert jobs[..n + 1][..n] == jobs[..n];
        var job := jobs[n];
        if !(job.id in persistedVersions && persistedVersions[job.id] == job.version) {
          news := news + [job];
        }
      }
      assert jobs[..|jobs|] == jobs;
    }

    /** `progress` is where the process dies, `overLimit` the result of comparing the journal's size. */
    method Save(jobs: seq<JobRecord>, progress: Progress, overLimit: bool)
      requires Distinct(jobs)
      modifies this
      ensures State() == Saved(old(State()), jobs, progress, overLimit)
    {
      var news := ChangedJobs(jobs);
      var currentIds := set job | job in jobs :: job.id;
      var payload := Payload(journalSequence + 1, news, persistedVersions.Keys - currentIds);
      if progress.BeforeJournal? { return; }
      if payload.jobs != [] || payload.deleted != {} {
        if progress.TearsJournal? {
          disk := disk.(journal := disk.journal.AppendTorn(progress.part));
          return;
        }
        AppendJournal(payload);
        journalSequence := payload.sequence;
      }
      if progress.TearsJournal? || progress.BeforeRename? { return; }
      disk := disk.(snapshot := Some(jobs));
      persistedVersions := Versions(AsMap(jobs));
      if progress.BeforeTruncate? { return; }
      CompactJournalIfNeeded(overLimit);
    }

    method CompactJournalIfNeeded(overLimit: bool)
      modifies this
      ensures persistedVersions == old(persistedVersions)
      ensures disk == if overLimit then old(disk).(journal := Journal([], Clean)) else old(disk)
      ensures journalSequence == if overLimit then 0 else old(journalSequence)
    {
      if !overLimit { return; }
      disk := disk.(journal := Journal([], Clean));
      journalSequence := 0;
    }
  }
}
