/**
 * How the coordinator runs a job on an SSH target (LifecycleManager.ts `runSshJob`, `runRunner`,
 * `recoverRunnerJob`): on the Runner, or over plain SSH if the Runner turns out to be
 * unavailable before anything was submitted. The transport may fail any call, before or after
 * the Runner acted on it, and the Runner goes on by itself in between.
 */
module RunnerClient {
  import opened Wrappers
  import opened JobDirectory
  import opened Registry
  import Coordinator
  import SshAttempts

  datatype Code = RunnerUnavailable | NotInstalled | ResponseLost | IdempotencyConflict | RemoteStateLost | OtherCode

  datatype ClientError = Transport(code: Code, ambiguous: bool) | Other

  datatype Mode = Auto | Runner | Direct

  /** What the Runner may do by itself between two calls: a step, or somebody else's submission. */
  datatype Activity = Proceed(id: JobId, step: Step) | Foreign(params: Params, now: nat, fault: Fault, startOk: bool)

  /** One submission: whether it reaches the Runner, what happens there, and whether the reply is lost. */
  datatype Call = Call(before: seq<Activity>, arrives: bool, now: nat, fault: Fault, startOk: bool, lost: Option<ClientError>)

  datatype Script = Script(ping: Option<ClientError>, calls: seq<Call>, afterwards: seq<Activity>,
                           ending: Coordinator.Ending, ssh: seq<SshAttempts.Occurrence>)

  datatype Result = Completed | InProgress | Thrown(error: ClientError)

  ghost predicate Unbound(dirs: Dirs, key: string) {
    forall id :: !Bound(dirs, key, id)
  }

  /** Jobs bound to this key run this command. */
  ghost predicate Mine(dirs: Dirs, params: Params) {
    forall id :: Bound(dirs, params.key, id) ==> RecordOf(dirs, id).digest == Sha256(params.command)
  }

  /** A bound job keeps its digest. */
  ghost predicate DigestsKept(was: Dirs, dirs: Dirs, key: string) {
    forall id :: Bound(was, key, id) && Bound(dirs, key, id) ==> RecordOf(dirs, id).digest == RecordOf(was, id).digest
  }

  type Answer = Wrappers.Result<Record, ClientError>

  /** What the script and the Runner make of one submission. */
  predicate AnswersCall(call: Call, answer: Answer) {
    if call.lost.Some? then answer == Err(call.lost.value)
    else if !call.arrives then answer == Err(Transport(RunnerUnavailable, false))
    else answer.Ok? || answer == Err(Transport(IdempotencyConflict, false)) || answer == Err(Transport(OtherCode, false))
  }

  /** Any error of the transport but a conflict. */
  predicate SentAgain(answer: Answer) {
    answer.Err? && answer.error.Transport? && answer.error.code != IdempotencyConflict
  }

  /** Which submissions there are: each but the last was sent again, and it goes on as long as it may. */
  predicate Submitted(limit: nat, script: Script, answers: seq<Answer>) {
    && |answers| <= limit && |answers| <= |script.calls|
    && (forall k :: 0 <= k < |answers| ==> AnswersCall(script.calls[k], answers[k]))
    && (forall k :: 0 <= k < |answers| - 1 ==> SentAgain(answers[k]))
    && (answers == [] || SentAgain(answers[|answers| - 1]) ==> |answers| == limit || |answers| == |script.calls|)
  }

  /** How it ends: as the watching does, with the error that is not met by sending again, or with the last attempt. */
  function Conclusion(limit: nat, script: Script, answers: seq<Answer>): Result {
    if answers != [] && answers[|answers| - 1].Ok? then
      match script.ending
      case Finished(_) => Completed
      case StillWatching => InProgress
      case Conflicting => Thrown(Transport(IdempotencyConflict, false))
      case StateLost => Thrown(Transport(RemoteStateLost, true))
    else if answers != [] && !SentAgain(answers[|answers| - 1]) then Thrown(answers[|answers| - 1].error)
    else if |answers| == limit then Thrown(Transport(RemoteStateLost, true))
    else InProgress
  }

  class Client {
    const runner: Store
    const isSsh: bool
    const params: Params
    /** `sshHandshakeAttempts`, and whether the target pins a host key algorithm. */
    const options: SshAttempts.Options
    /** The submissions handed to the transport, and the `exec` requests sent over plain SSH. */
    var submitted: seq<Params>
    var direct: nat

    ghost predicate Valid()
      reads this, runner
    {
      && runner.Valid() && options.limit >= 1
      && (forall i :: 0 <= i < |submitted| ==> submitted[i] == params)
      && (direct > 0 ==> submitted == [])
    }

    constructor (runner: Store, isSsh: bool, params: Params, options: SshAttempts.Options)
      requires runner.Valid() && options.limit >= 1
      ensures Valid() && this.runner == runner && this.params == params && submitted == [] && direct == 0
    {
      this.runner, this.isSsh, this.params, this.options := runner, isSsh, params, options;
      submitted, direct := [], 0;
    }

    /** Nobody else uses this job's key. */
    method Evolve(activity: seq<Activity>)
      requires Valid()
      modifies runner
      ensures Valid()
      ensures forall id :: Bound(runner.dirs, params.key, id) <==> Bound(old(runner.dirs), params.key, id)
      ensures old(Mine(runner.dirs, params)) ==> Mine(runner.dirs, params)
      ensures DigestsKept(old(runner.dirs), runner.dirs, params.key)
    {
      for n := 0 to |activity|
        invariant DigestsKept(old(runner.dirs), runner.dirs, params.key)
        invariant Valid()
        invariant old(Mine(runner.dirs, params)) ==> Mine(runner.dirs, params)
        invariant forall id :: Bound(runner.dirs, params.key, id) <==> Bound(old(runner.dirs), params.key, id)
      {
        match activity[n] {
          case Proceed(id, step) =>
            if Readable(runner.dirs, id) && Possible(runner.dirs[id].value, step) {
              runner.Advance(id, step);
            }
          case Foreign(other, now, fault, startOk) =>
            if other.key != params.key {
              var listing := runner.List();
              var _ := runner.Submit(other, listing, now, fault, startOk);
            }
        }
      }
    }

    method CallSubmit(call: Call) returns (result: Wrappers.Result<Record, ClientError>)
      requires Valid() && direct == 0
      modifies this`submitted, runner
      ensures Valid()
      ensures submitted == old(submitted) + [params]
      ensures old(Mine(runner.dirs, params)) ==> Mine(runner.dirs, params)
      ensures AnswersCall(call, result)
      ensures result.Ok? ==> result.value.digest == Sha256(params.command)
      // A key that somebody bound to another command is reported as a conflict.
      ensures forall id :: call.arrives && call.lost.None? && WellFormed(params) && Bound(old(runner.dirs), params.key, id) ==>
        (RecordOf(old(runner.dirs), id).digest != Sha256(params.command) ==>
           result == Err(Transport(IdempotencyConflict, false)))
      ensures !call.arrives ==>
        forall id :: Bound(runner.dirs, params.key, id) <==> Bound(old(runner.dirs), params.key, id)
    {
      Evolve(call.before);
      submitted := submitted + [params];
      if !call.arrives {
        return Err(if call.lost.Some? then call.lost.value else Transport(RunnerUnavailable, false));
      }
      var listing := runner.List();
      var reply := runner.Submit(params, listing, call.now, call.fault, call.startOk);
      if call.lost.Some? {
        return Err(call.lost.value);
      }
      match reply {
        case Ok(created) => return Ok(created.job);
        case Err(error) => return Err(Transport(if error.Conflict? then IdempotencyConflict else OtherCode, false));
      }
    }

    /** `answers` has what each submission came to. */
    method RunRunner(script: Script) returns (result: Result, answers: seq<Answer>)
      requires Valid() && direct == 0 && submitted == []
      modifies this`submitted, runner
      ensures Valid()
      ensures !isSsh ==> result == Thrown(Transport(RunnerUnavailable, false))
      ensures isSsh && script.ping.Some? ==>
        result == Thrown(if script.ping.value.Transport? then script.ping.value else Transport(RunnerUnavailable, false))
      // A submission whose reply is lost, or that fails otherwise than by a conflict, is sent again.
      ensures |answers| == |submitted|
      ensures isSsh && script.ping.None? ==>
        Submitted(options.limit, script, answers) && result == Conclusion(options.limit, script, answers)
      ensures isSsh ==> (result.Thrown? && FallsBack(result.error) <==> PingFellBack(script))
      // An error that allows the fallback means that nothing was handed over.
      ensures result.Thrown? && FallsBack(result.error) ==> submitted == []
      ensures submitted == [] ==>
        forall id :: Bound(runner.dirs, params.key, id) <==> Bound(old(runner.dirs), params.key, id)
      ensures submitted != [] ==> isSsh && script.ping.None?
      ensures |submitted| <= options.limit
      ensures old(Mine(runner.dirs, params)) ==> Mine(runner.dirs, params)
    {
      answers := [];
      if !isSsh {
        return Thrown(Transport(RunnerUnavailable, false)), answers;
      }
      if script.ping.Some? {
        return Thrown(if script.ping.value.Transport? then script.ping.value else Transport(RunnerUnavailable, false)), answers;
      }
      answers := SubmitUntilAnswered(script);
      if answers == [] || answers[|answers| - 1].Err? {
        if answers != [] && !SentAgain(answers[|answers| - 1]) {
          return Thrown(answers[|answers| - 1].error), answers;
        }
        return if |answers| < options.limit then InProgress else Thrown(Transport(RemoteStateLost, true)), answers;
      }
      Evolve(script.afterwards);
      match script.ending {
        case Finished(_) => return Completed, answers;
        case StillWatching => return InProgress, answers;
        case Conflicting => return Thrown(Transport(IdempotencyConflict, false)), answers;
        case StateLost => return Thrown(Transport(RemoteStateLost, true)), answers;
      }
    }

    /** The loop over the attempts, for as long as the script goes. */
    method SubmitUntilAnswered(script: Script) returns (answers: seq<Answer>)
      requires Valid() && direct == 0 && submitted == []
      modifies this`submitted, runner
      ensures Valid() && |answers| == |submitted| && Submitted(options.limit, script, answers)
      ensures submitted == [] ==> runner.dirs == old(runner.dirs)
      ensures old(Mine(runner.dirs, params)) ==> Mine(runner.dirs, params)
    {
      answers := [];
      var attempt := 1;
      while attempt <= options.limit && attempt <= |script.calls|
        invariant 1 <= attempt <= options.limit + 1 && Valid() && direct == 0
        invariant |submitted| == |answers| == attempt - 1 <= |script.calls|
        invariant forall k :: 0 <= k < |answers| ==> AnswersCall(script.calls[k], answers[k]) && SentAgain(answers[k])
        invariant attempt == 1 ==> runner.dirs == old(runner.dirs)
        invariant old(Mine(runner.dirs, params)) ==> Mine(runner.dirs, params)
      {
        var submit := CallSubmit(script.calls[attempt - 1]);
        answers := answers + [submit];
        if submit.Ok? || submit.error.Other? || submit.error.code.IdempotencyConflict? {
          return;
        }
        attempt := attempt + 1;
      }
    }

    /** The decision of `runSshJob`, once per job. */
    method RunSshJob(mode: Mode, requireDurable: bool, script: Script) returns (result: Result)
      requires Valid() && direct == 0 && submitted == []
      modifies this, runner
      ensures Valid()
      ensures mode.Direct? ==> result == if isSsh then Completed else Thrown(Other)
      ensures !mode.Direct? && isSsh && script.ping.None? ==>
        exists answers :: Submitted(options.limit, script, answers) && |answers| == |submitted|
          && result == Conclusion(options.limit, script, answers)
      ensures !mode.Direct? && isSsh && script.ping.Some? ==>
        result == if mode.Auto? && !requireDurable && PingFellBack(script) then Completed
                  else Thrown(if script.ping.value.Transport? then script.ping.value else Transport(RunnerUnavailable, false))
      // Plain SSH is used in exactly these cases.
      ensures direct ==
        if isSsh && (mode.Direct? || (mode.Auto? && !requireDurable && script.ping.Some? &&
                                      match script.ping.value
                                      case Other => true
                                      case Transport(code, ambiguous) =>
                                        (code == RunnerUnavailable || code == NotInstalled) && !ambiguous))
        then SshAttempts.Play(options, script.ssh).execs else 0
      ensures mode.Direct? || submitted == [] ==>
        forall id :: Bound(runner.dirs, params.key, id) <==> Bound(old(runner.dirs), params.key, id)
      ensures old(Mine(runner.dirs, params)) ==> Mine(runner.dirs, params)
    {
      if mode.Direct? {
        result := RunSsh(script);
        return;
      }
      var answers;
      result, answers := RunRunner(script);
      if result.Thrown? && mode.Auto? && !requireDurable && FallsBack(result.error) {
        result := RunSsh(script);
      }
    }

    method RunSsh(script: Script) returns (result: Result)
      requires Valid() && direct == 0 && submitted == []
      modifies this`direct
      ensures Valid() && direct == if isSsh then SshAttempts.Play(options, script.ssh).execs else 0
      ensures result == if isSsh then Completed else Thrown(Other)
    {
      if !isSsh {
        return Thrown(Other);
      }
      var execs, tries := SshAttempts.RunSsh(options, script.ssh);
      direct := execs;
      return Completed;
    }

    /** After a restart of the coordinator: `ping`, `get` and `watch`, and never a submission. */
    method RecoverRunnerJob(activity: seq<Activity>, ending: Coordinator.Ending) returns (result: Result)
      requires Valid()
      modifies runner
      ensures Valid()
      ensures forall id :: Bound(runner.dirs, params.key, id) <==> Bound(old(runner.dirs), params.key, id)
      ensures old(Mine(runner.dirs, params)) ==> Mine(runner.dirs, params)
    {
      Evolve(activity);
      match ending {
        case Finished(_) => return Completed;
        case StillWatching => return InProgress;
        case _ => return Thrown(Transport(RemoteStateLost, true));
      }
    }
  }

  predicate FallsBack(error: ClientError) {
    error.Transport? && (error.code.RunnerUnavailable? || error.code.NotInstalled?) && !error.ambiguous
  }

  predicate PingFellBack(script: Script) {
    script.ping.Some? && (script.ping.value.Other? || FallsBack(script.ping.value))
  }

  /**
   * The whole life of a job with a key of its own, with any number of coordinator restarts:
   * if no SSH client becomes ready after it failed, the command is started at most once on both
   * backends together, and a start on the Runner is of the submitted command. Without that, each
   * connection attempt sends it at most once.
   */
  method Lifetime(client: Client, mode: Mode, requireDurable: bool, script: Script, restarts: seq<seq<Activity>>)
    requires client.Valid() && client.direct == 0 && client.submitted == []
    requires Unbound(client.runner.dirs, client.params.key)
    modifies client, client.runner
    ensures client.Valid() && client.direct <= client.options.limit
    ensures SshAttempts.Polite(script.ssh) ==> client.direct <= 1
    ensures forall i, j :: 0 <= i < j < |client.submitted| ==> client.submitted[i] == client.submitted[j]
    ensures client.direct > 0 ==> forall id, n, x :: !StartedFor(client.runner.dirs, client.params.key, id, n, x)
    ensures forall a, m, x, b, n, y ::
      StartedFor(client.runner.dirs, client.params.key, a, m, x) && StartedFor(client.runner.dirs, client.params.key, b, n, y) ==>
      a == b && m == n && x == y == client.params.command
  {
    var _ := client.RunSshJob(mode, requireDurable, script);
    SshAttempts.RequestsAreCounted(client.options, script.ssh);
    if SshAttempts.Polite(script.ssh) {
      SshAttempts.PoliteRunSendsOnce(client.options, script.ssh);
    }
    for n := 0 to |restarts|
      invariant client.Valid() && Mine(client.runner.dirs, client.params)
      invariant client.direct == 0 || client.direct == SshAttempts.Play(client.options, script.ssh).execs
      invariant client.direct > 0 ==> Unbound(client.runner.dirs, client.params.key)
    {
      var _ := client.RecoverRunnerJob(restarts[n], Coordinator.StillWatching);
    }
    ghost var dirs, key := client.runner.dirs, client.params.key;
    forall a, m, x, b, n, y | StartedFor(dirs, key, a, m, x) && StartedFor(dirs, key, b, n, y)
      ensures a == b && m == n && x == y == client.params.command
    {
      OneStartPerKey(dirs, key, a, m, x, b, n, y);
    }
  }
}
