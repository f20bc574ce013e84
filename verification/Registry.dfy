/**
 * All job directories of a Runner: how a submission is bound to one of them (store.go `Create`,
 * `FindByIdempotency`) and what the server does with it (server.go `dispatch`).
 */
module Registry {
  import opened Wrappers
  import opened EventLog
  import opened JobDirectory

  type JobId = string

  const MAXIMUM_COMMAND := 1024 * 1024
  const MAXIMUM_ENV := 1024 * 1024
  const MAXIMUM_KEY := 200

  datatype Params = Params(id: JobId, key: string, digest: Option<Digest>, command: string, envSize: nat,
                           mode: CancellationMode, quiet: bool)

  datatype Error = Incomplete | TooLong | DigestDiffers | Conflict | InvalidId | WriteFailed | StartFailed

  /** Where a write of `Create` fails or the server dies. */
  datatype Fault = NoFault | AtRecord | AtFirstEvent

  datatype Created = Created(job: Record, created: bool)

  predicate ValidJobId(id: JobId) {
    8 <= |id| <= 128 &&
    forall i :: 0 <= i < |id| ==>
      'a' <= id[i] <= 'z' || 'A' <= id[i] <= 'Z' || '0' <= id[i] <= '9' || id[i] == '-' || id[i] == '_'
  }

  /** What a submission must satisfy before it is looked up. */
  predicate WellFormed(params: Params) {
    && params.command != "" && params.key != ""
    && |params.key| <= MAXIMUM_KEY && |params.command| <= MAXIMUM_COMMAND && params.envSize <= MAXIMUM_ENV
    && (params.digest.Some? ==> params.digest.value == Sha256(params.command))
  }

  /** A key of more than 200 characters, or a command or an environment of more than 1 MiB. */
  predicate TooLarge(params: Params) {
    |params.key| > 200 || |params.command| > 1048576 || params.envSize > 1048576
  }

  /** It is too short or too long, or has another character than a letter, a digit, `-` or `_`. */
  predicate WrongId(id: JobId) {
    |id| < 8 || |id| > 128 || exists i :: 0 <= i < |id| && !IsIdChar(id[i])
  }

  predicate IsIdChar(c: char) {
    c == '-' || c == '_' || '0' <= c <= '9' || 'A' <= c <= 'Z' || 'a' <= c <= 'z'
  }

  lemma ValidIsNotWrong(id: JobId)
    ensures ValidJobId(id) <==> !WrongId(id)
  {
  }

  function NewDir(params: Params, now: nat, logged: bool): Dir {
    var record := Record(params.id, params.key, Sha256(params.command), params.mode, params.quiet, now, Queued,
                         0, false, false, NoMessage, false, 1);
    var log := if logged then [StateEvent(1, Queued)] else [];
    Dir(Disk(record, NoClaim, None, None, None, None, log, [], now, [], false, None), [], Idle)
  }

  /** None is a directory without a readable record. */
  type Dirs = map<JobId, Option<Dir>>

  predicate Readable(dirs: Dirs, id: JobId) {
    id in dirs && dirs[id].Some?
  }

  function RecordOf(dirs: Dirs, id: JobId): Record
    requires Readable(dirs, id)
  {
    dirs[id].value.disk.record
  }

  predicate Bound(dirs: Dirs, key: string, id: JobId) {
    Readable(dirs, id) && RecordOf(dirs, id).key == key
  }

  ghost predicate EntryOk(dirs: Dirs, id: JobId) {
    Readable(dirs, id) ==>
      ValidJobId(id) && RecordOf(dirs, id).id == id && RecordOf(dirs, id).key != "" &&
      Safe(dirs[id].value, RecordOf(dirs, id))
  }

  /** Every directory satisfies the protocol invariant, and no key is bound twice; folded. */
  ghost predicate Sound(dirs: Dirs) {
    forall token: nat :: Unfold(token) ==>
      && (forall id :: id in dirs ==> EntryOk(dirs, id))
      && (forall key, a, b :: Bound(dirs, key, a) && Bound(dirs, key, b) ==> a == b)
  }

  lemma EntryIsOk(dirs: Dirs, id: JobId)
    requires Sound(dirs) && Readable(dirs, id)
    ensures EntryOk(dirs, id)
  {
    assert Unfold(0);
  }

  lemma KeyIsBoundOnce(dirs: Dirs, key: string, a: JobId)
    requires Sound(dirs) && Bound(dirs, key, a)
    ensures forall b :: Bound(dirs, key, b) ==> a == b
  {
    assert Unfold(0);
  }

  lemma SafeForSameCore(d: Dir, a: Record, b: Record)
    requires Safe(d, a) && SameCore(a, b)
    ensures Safe(d, b)
  {
    forall i | 0 <= i < |d.supervisors| ensures SupervisorOk(d.disk.claim, i, d.supervisors[i], b) {
      assert SupervisorOk(d.disk.claim, i, d.supervisors[i], a);
    }
  }

  lemma StepIsSafe(d: Dir, step: Step)
    requires Safe(d, d.disk.record) && Possible(d, step)
    ensures var e := Next(d, step); Safe(e, e.disk.record) && SameCore(e.disk.record, d.disk.record)
  {
    StepKeepsSafe(d, step, d.disk.record);
    SafeForSameCore(Next(d, step), d.disk.record, Next(d, step).disk.record);
  }

  lemma AddedIsSound(dirs: Dirs, id: JobId, d: Dir)
    requires Sound(dirs) && id !in dirs && ValidJobId(id)
    requires Initial(d) && d.disk.record.id == id && d.disk.record.key != ""
    requires forall other :: !Bound(dirs, d.disk.record.key, other)
    ensures Sound(dirs[id := Some(d)])
  {
    assert Unfold(0);
    InitialIsSafe(d);
    var larger := dirs[id := Some(d)];
    forall other | other in larger ensures EntryOk(larger, other) {
      if other != id {
        assert EntryOk(dirs, other);
      }
    }
    forall key, a, b | Bound(larger, key, a) && Bound(larger, key, b) ensures a == b {
      OnlyAdded(dirs, id, d, key, a);
      OnlyAdded(dirs, id, d, key, b);
    }
  }

  lemma OnlyAdded(dirs: Dirs, id: JobId, d: Dir, key: string, a: JobId)
    requires id !in dirs && Bound(dirs[id := Some(d)], key, a)
    ensures if a == id then key == d.disk.record.key else Bound(dirs, key, a)
  {
  }

  lemma ReplacedIsSound(dirs: Dirs, id: JobId, e: Dir)
    requires Sound(dirs) && Readable(dirs, id)
    requires Safe(e, e.disk.record) && SameCore(e.disk.record, RecordOf(dirs, id))
    ensures Sound(dirs[id := Some(e)])
    ensures forall key, a :: Bound(dirs[id := Some(e)], key, a) <==> Bound(dirs, key, a)
  {
    assert Unfold(0);
    var other := dirs[id := Some(e)];
    assert EntryOk(dirs, id);
    forall a | a in other ensures EntryOk(other, a) {
      assert EntryOk(dirs, a);
    }
    forall key, a ensures Bound(other, key, a) <==> Bound(dirs, key, a) {
    }
  }

  /** The protocol begins here: nothing but the queued record and its event; folded. */
  ghost predicate Begun(d: Dir, now: nat) {
    forall token: nat :: Unfold(token) ==>
      Initial(d) && d.disk.stateFile == [StateEvent(1, Queued)] && d.disk.now == now && d.supervisors == []
  }

  /** Which error a submission gets, in the order in which they are looked for, and none other; folded. */
  ghost predicate Refusals(was: Dirs, dirs: Dirs, params: Params, now: nat, fault: Fault, result: Result<Created, Error>) {
    forall token: nat :: Unfold(token) ==>
      && (result == Err(Incomplete) <==> params.command == "" || params.key == "")
      && (result == Err(TooLong) <==> params.command != "" && params.key != "" && TooLarge(params))
      && (result == Err(DigestDiffers) <==>
          params.command != "" && params.key != "" && !TooLarge(params)
          && params.digest.Some? && params.digest.value != Sha256(params.command))
      && (WellFormed(params) && (forall id :: !Bound(was, params.key, id)) ==>
            if WrongId(params.id) then result == Err(InvalidId)
            else if params.id !in was then
              if fault.NoFault? then result.Ok? else result == Err(WriteFailed)
            else
              (result == Err(Conflict) <==>
               !Readable(was, params.id) || RecordOf(was, params.id).digest != Sha256(params.command)))
      && (result == Err(WriteFailed) ==>
            dirs == was[params.id := if fault.AtRecord? then None else Some(NewDir(params, now, false))])
  }

  class Store {
    var dirs: Dirs

    ghost predicate Valid()
      reads this
    {
      Sound(dirs)
    }

    constructor ()
      ensures Valid() && dirs == map[]
    {
      dirs := map[];
    }

    /** The directory listing. */
    method List() returns (listing: seq<JobId>)
      ensures forall id :: id in dirs <==> id in listing
    {
      listing := [];
      var rest := dirs.Keys;
      while rest != {}
        invariant forall id :: id in dirs <==> id in rest || id in listing
        decreases |rest|
      {
        var id :| id in rest;
        listing, rest := listing + [id], rest - {id};
      }
    }

    method FindByIdempotency(listing: seq<JobId>, key: string) returns (found: Option<JobId>)
      requires forall id :: id in dirs <==> id in listing
      ensures found.Some? ==> Bound(dirs, key, found.value)
      ensures found.None? && key != "" ==> forall id :: !Bound(dirs, key, id)
    {
      if key == "" {
        return None;
      }
      for i := 0 to |listing|
        invariant forall k :: 0 <= k < i ==> !Bound(dirs, key, listing[k])
      {
        if Readable(dirs, listing[i]) && RecordOf(dirs, listing[i]).key == key {
          return Some(listing[i]);
        }
      }
      forall id ensures !Bound(dirs, key, id) {
        if id in dirs {
          assert id in listing;
        }
      }
      return None;
    }

    method Create(params: Params, listing: seq<JobId>, now: nat, fault: Fault) returns (result: Result<Created, Error>)
      requires Valid() && forall id :: id in dirs <==> id in listing
      modifies this
      ensures Valid()
      // A reply names a job of the submitted command that is on disk.
      ensures result.Ok? ==>
        var job := result.value.job;
        WellFormed(params) && job.digest == Sha256(params.command) && Readable(dirs, job.id) && RecordOf(dirs, job.id) == job
      // A bound key decides: its job is returned if the command is the same, and refused otherwise.
      ensures forall id :: WellFormed(params) && Bound(old(dirs), params.key, id) ==>
        result == (if RecordOf(old(dirs), id).digest == Sha256(params.command)
                   then Ok(Created(RecordOf(old(dirs), id), false)) else Err(Conflict))
      // A job is created only under a new id and a new key.
      ensures result.Ok? && result.value.created ==>
        && params.id !in old(dirs) && (forall id :: !Bound(old(dirs), params.key, id))
        && dirs == old(dirs)[params.id := Some(NewDir(params, now, true))]
        && result.value.job == RecordOf(dirs, params.id) && result.value.job.key == params.key
      // Under a key that is not bound it is created, unless its id exists or cannot name a directory.
      ensures WellFormed(params) && (forall id :: !Bound(old(dirs), params.key, id)) ==>
        (ValidJobId(params.id) && params.id !in old(dirs) && fault.NoFault? ==> result.Ok? && result.value.created)
      // Its record says what was submitted.
      ensures result.Ok? && result.value.created ==>
        var job := result.value.job;
        && job.id == params.id && job.key == params.key && job.digest == Sha256(params.command)
        && job.mode == params.mode && job.quiet == params.quiet && job.createdAt == now && job.state == Queued
      ensures result.Ok? && !result.value.created ==>
        dirs == old(dirs) && (result.value.job.key == params.key || result.value.job.id == params.id)
      // An unbound key is answered with a job of another key exactly if the id is that job's and the
      // command is the same; the key then stays unbound.
      ensures WellFormed(params) && (forall id :: !Bound(old(dirs), params.key, id)) ==>
        (result.Ok? && !result.value.created <==>
         ValidJobId(params.id) && Readable(old(dirs), params.id)
         && RecordOf(old(dirs), params.id).digest == Sha256(params.command))
      ensures WellFormed(params) && (forall id :: !Bound(old(dirs), params.key, id)) && result.Ok? && !result.value.created ==>
        result.value.job == RecordOf(old(dirs), params.id) && result.value.job.key != params.key
      // A failure leaves at most a new directory behind, which holds nothing or the queued job.
      ensures result.Err? ==>
        dirs == old(dirs) ||
        (params.id !in old(dirs) && WellFormed(params) &&
         (dirs == old(dirs)[params.id := None] || dirs == old(dirs)[params.id := Some(NewDir(params, now, false))]))
      ensures !WellFormed(params) ==> result.Err? && result.error != Conflict && dirs == old(dirs)
      ensures result.Ok? && result.value.created ==> Begun(dirs[params.id].value, now)
      ensures Refusals(old(dirs), dirs, params, now, fault, result)
    {
      if params.command == "" || params.key == "" {
        return Err(Incomplete);
      }
      if |params.key| > MAXIMUM_KEY || |params.command| > MAXIMUM_COMMAND || params.envSize > MAXIMUM_ENV {
        return Err(TooLong);
      }
      var digest := Sha256(params.command);
      ValidIsNotWrong(params.id);
      if params.digest.Some? && params.digest.value != digest {
        return Err(DigestDiffers);
      }
      var existing := FindByIdempotency(listing, params.key);
      if existing.Some? {
        var job := RecordOf(dirs, existing.value);
        EntryIsOk(dirs, existing.value);
        KeyIsBoundOnce(dirs, params.key, existing.value);
        return if job.digest != digest then Err(Conflict) else Ok(Created(job, false));
      }
      if !ValidJobId(params.id) {
        return Err(InvalidId);
      }
      if params.id in dirs {
        if dirs[params.id].None? || RecordOf(dirs, params.id).digest != digest {
          return Err(Conflict);
        }
        EntryIsOk(dirs, params.id);
        assert !Bound(dirs, params.key, params.id);
        return Ok(Created(RecordOf(dirs, params.id), false));
      }
      if fault.AtRecord? {
        EmptyIsSound(dirs, params.id);
        dirs := dirs[params.id := None];
        return Err(WriteFailed);
      }
      var dir := NewDir(params, now, !fault.AtFirstEvent?);
      AddedIsSound(dirs, params.id, dir);
      dirs := dirs[params.id := Some(dir)];
      return if fault.AtFirstEvent? then Err(WriteFailed) else Ok(Created(dir.disk.record, true));
    }

    /** `submit`: a supervisor with the submitted command is started for a queued, unclaimed job. */
    method Submit(params: Params, listing: seq<JobId>, now: nat, fault: Fault, startOk: bool)
      returns (result: Result<Created, Error>)
      requires Valid() && forall id :: id in dirs <==> id in listing
      modifies this
      ensures Valid()
      ensures result.Ok? ==>
        var job := result.value.job;
        && job.digest == Sha256(params.command) && Readable(dirs, job.id) && RecordOf(dirs, job.id) == job
        && (job.key == params.key || (!result.value.created && job.id == params.id))
      // A queued job that nobody claimed gets a supervisor with the submitted command; nothing else changes.
      ensures result.Ok? ==>
        var job := result.value.job;
        (result.value.created || Readable(old(dirs), job.id)) &&
        var base := if result.value.created then NewDir(params, now, true) else old(dirs)[job.id].value;
        dirs == old(dirs)[job.id := Some(if job.state == Queued && base.disk.claim.NoClaim?
                                         then Next(base, Spawn(params.command)) else base)]
      // It succeeds for a key that is bound to a job of this command, and for a new id and key, unless
      // a write or the supervisor fails.
      ensures forall id :: WellFormed(params) && Bound(old(dirs), params.key, id) ==>
        (RecordOf(old(dirs), id).digest == Sha256(params.command) && startOk ==> result.Ok?)
      ensures WellFormed(params) && (forall id :: !Bound(old(dirs), params.key, id)) ==>
        (ValidJobId(params.id) && params.id !in old(dirs) && fault.NoFault? && startOk ==> result.Ok? && result.value.created)
      // Resending a submission finds the same job again, whatever became of the first reply.
      ensures forall id :: WellFormed(params) && Bound(old(dirs), params.key, id) ==>
        (result.Ok? ==> result.value.job == RecordOf(old(dirs), id) && !result.value.created)
      // A key that is bound to another command is a conflict.
      ensures forall id :: WellFormed(params) && Bound(old(dirs), params.key, id) ==>
        (RecordOf(old(dirs), id).digest != Sha256(params.command) ==> result == Err(Conflict))
      ensures forall id :: Readable(old(dirs), id) ==> Readable(dirs, id) && RecordOf(dirs, id) == RecordOf(old(dirs), id)
      ensures forall key, id :: key != params.key ==> (Bound(dirs, key, id) <==> Bound(old(dirs), key, id))
      ensures forall id :: Bound(dirs, params.key, id) && !Bound(old(dirs), params.key, id) ==>
        RecordOf(dirs, id).digest == Sha256(params.command)
    {
      result := Create(params, listing, now, fault);
      CreatedOnly(old(dirs), dirs, params, now);
      if result.Err? {
        return;
      }
      var started := StartSupervisor(result.value.job.id, params.command, startOk);
      if !started {
        return Err(StartFailed);
      }
    }

    /** A queued job that nobody claimed gets a supervisor, unless starting it fails. */
    method StartSupervisor(id: JobId, command: string, startOk: bool) returns (ok: bool)
      requires Valid() && Readable(dirs, id)
      modifies this
      ensures Valid()
      ensures ok <==> startOk || RecordOf(old(dirs), id).state != Queued || old(dirs)[id].value.disk.claim.Claim?
      ensures var dir := old(dirs)[id].value;
        if ok && dir.disk.record.state == Queued && dir.disk.claim.NoClaim? then
          dirs == old(dirs)[id := Some(Next(dir, Spawn(command)))]
        else dirs == old(dirs)
      ensures forall other :: Readable(old(dirs), other) <==> Readable(dirs, other)
      ensures forall other :: Readable(dirs, other) ==> RecordOf(dirs, other) == RecordOf(old(dirs), other)
      ensures forall key, other :: Bound(dirs, key, other) <==> Bound(old(dirs), key, other)
    {
      var dir := dirs[id].value;
      if dir.disk.record.state == Queued && dir.disk.claim.NoClaim? {
        if !startOk {
          return false;
        }
        Advance(id, Spawn(command));
      }
      return true;
    }

    /** Any other step in one of the directories. */
    method Advance(id: JobId, step: Step)
      requires Valid() && Readable(dirs, id) && Possible(dirs[id].value, step)
      modifies this
      ensures Valid()
      ensures dirs == old(dirs)[id := Some(Next(old(dirs)[id].value, step))]
      ensures SameCore(RecordOf(dirs, id), RecordOf(old(dirs), id))
      ensures step.Spawn? ==> RecordOf(dirs, id) == RecordOf(old(dirs), id)
      ensures forall key, other :: Bound(dirs, key, other) <==> Bound(old(dirs), key, other)
    {
      var dir := dirs[id].value;
      EntryIsOk(dirs, id);
      StepIsSafe(dir, step);
      ReplacedIsSound(dirs, id, Next(dir, step));
      dirs := dirs[id := Some(Next(dir, step))];
    }

    /** Pruning forgets the job and its key. */
    method Remove(id: JobId)
      requires Valid()
      modifies this
      ensures Valid() && dirs == old(dirs) - {id}
    {
      RemovedIsSound(dirs, id);
      dirs := dirs - {id};
    }
  }

  /** What a new directory changes. */
  lemma CreatedOnly(was: Dirs, dirs: Dirs, params: Params, now: nat)
    requires dirs == was ||
      (params.id !in was && (dirs == was[params.id := None] || dirs == was[params.id := Some(NewDir(params, now, false))]
                             || dirs == was[params.id := Some(NewDir(params, now, true))]))
    ensures forall id :: Readable(was, id) ==> Readable(dirs, id) && RecordOf(dirs, id) == RecordOf(was, id)
    ensures forall key, id :: key != params.key ==> (Bound(dirs, key, id) <==> Bound(was, key, id))
    ensures forall id :: Bound(dirs, params.key, id) && !Bound(was, params.key, id) ==>
      RecordOf(dirs, id).digest == Sha256(params.command)
  {
  }

  lemma EmptyIsSound(dirs: Dirs, id: JobId)
    requires Sound(dirs) && id !in dirs
    ensures Sound(dirs[id := None])
  {
    assert Unfold(0);
    var larger := dirs[id := None];
    forall other | other in larger ensures EntryOk(larger, other) {
      if other != id {
        assert EntryOk(dirs, other);
      }
    }
    forall key, a | Bound(larger, key, a) ensures Bound(dirs, key, a) {
    }
  }

  lemma RemovedIsSound(dirs: Dirs, id: JobId)
    requires Sound(dirs)
    ensures Sound(dirs - {id})
  {
    assert Unfold(0);
    var smaller := dirs - {id};
    forall other | other in smaller ensures EntryOk(smaller, other) {
      assert EntryOk(dirs, other);
    }
    forall key, a | Bound(smaller, key, a) ensures Bound(dirs, key, a) {
    }
  }

  /** All commands started for jobs bound to a key, over all the directories that exist. */
  ghost predicate StartedFor(dirs: Dirs, key: string, id: JobId, n: nat, command: string) {
    Bound(dirs, key, id) && n < |dirs[id].value.disk.starts| && dirs[id].value.disk.starts[n] == command
  }

  /** One key, at most one start on the whole Runner, and it has the digest bound to the key. */
  lemma OneStartPerKey(dirs: Dirs, key: string, a: JobId, m: nat, x: string, b: JobId, n: nat, y: string)
    requires Sound(dirs) && StartedFor(dirs, key, a, m, x) && StartedFor(dirs, key, b, n, y)
    ensures a == b && m == n == 0 && x == y && Sha256(x) == RecordOf(dirs, a).digest
  {
    EntryIsOk(dirs, a);
    KeyIsBoundOnce(dirs, key, a);
  }
}
