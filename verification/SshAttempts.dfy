/**
 * Direct SSH execution (LifecycleManager.ts `runSsh`): connection attempts that are retried
 * until a client is ready, and the one `exec` request. What happens to a run is a list of
 * occurrences in any order.
 */
module SshAttempts {
  type Algorithm = string

  /** One connection attempt. `cleaning`: destroyed, and its close is awaited before the retry. */
  datatype Client = Client(ready: bool, readyFired: bool, failureHandled: bool, destroyed: bool, cleaning: bool,
                           hostKeyRejected: bool, rejected: set<Algorithm>)

  function NewClient(): Client {
    Client(false, false, false, false, false, false, {})
  }

  datatype Settlement = Pending | Resolved | Rejected | HostKeyMismatch

  /** The number of attempts allowed, and whether the target pins a host key algorithm. */
  datatype Options = Options(limit: nat, pinned: bool)

  /** All clients made, of which the last is the current one, and the `exec` requests sent. */
  datatype State = State(settlement: Settlement, timedOut: bool, retryTimer: bool, clients: seq<Client>,
                         excluded: set<Algorithm>, execs: nat)

  datatype Occurrence =
    | KeyRefused(id: nat, algorithms: set<Algorithm>)
    | BecameReady(id: nat)
    | Failed(id: nat, alreadyClosed: bool)
    | Cleaned(id: nat)
    | TimerFired
    | Ended(outcome: Settlement, timeout: bool)

  // ---------- What each occurrence does ----------

  predicate Possible(s: State, o: Occurrence) {
    match o
    case KeyRefused(id, _) => id < |s.clients|
    case BecameReady(id) => id < |s.clients| && !s.clients[id].readyFired
    case Failed(id, _) => id < |s.clients|
    case Cleaned(id) => id < |s.clients| && s.clients[id].cleaning
    case TimerFired => s.retryTimer && |s.clients| > 0
    case Ended(outcome, _) => outcome != Pending && |s.clients| > 0
  }

  function Settled(s: State, outcome: Settlement): State
    requires |s.clients| > 0
  {
    var last := |s.clients| - 1;
    if s.settlement != Pending then s
    else s.(settlement := outcome, retryTimer := false, clients := s.clients[last := s.clients[last].(destroyed := true)])
  }

  /** The handlers look only at the current client of an unsettled run. */
  predicate Heeded(s: State, id: nat) {
    s.settlement.Pending? && id == |s.clients| - 1
  }

  function Readied(s: State, id: nat): State
    requires id < |s.clients|
  {
    var fired := s.clients[id].(readyFired := true);
    if Heeded(s, id) then s.(clients := s.clients[id := fired.(ready := true)], execs := s.execs + 1)
    else s.(clients := s.clients[id := fired])
  }

  /** Why a failed attempt is the last one. Once ready, the request may have reached the server. */
  predicate GivesUp(options: Options, s: State, client: Client) {
    client.ready || |s.clients| >= options.limit || s.timedOut ||
    (client.hostKeyRejected && (options.pinned || client.rejected <= s.excluded))
  }

  function FailedAttempt(options: Options, s: State, id: nat, alreadyClosed: bool): State
    requires id < |s.clients|
  {
    var client := s.clients[id];
    var excluded := if options.pinned then s.excluded else s.excluded + client.rejected;
    var handled := client.(failureHandled := true);
    if !Heeded(s, id) || client.failureHandled then s
    else if GivesUp(options, s, client) then
      Settled(s.(clients := s.clients[id := handled], excluded := excluded),
              if client.hostKeyRejected then HostKeyMismatch else Rejected)
    else
      s.(clients := s.clients[id := handled.(destroyed := true, cleaning := !alreadyClosed)], excluded := excluded,
         retryTimer := s.retryTimer || alreadyClosed)
  }

  function Next(options: Options, s: State, o: Occurrence): State
    requires Possible(s, o)
  {
    match o
    case KeyRefused(id, algorithms) =>
      s.(clients := s.clients[id := s.clients[id].(hostKeyRejected := true, rejected := algorithms)])
    case BecameReady(id) => Readied(s, id)
    case Failed(id, alreadyClosed) => FailedAttempt(options, s, id, alreadyClosed)
    case Cleaned(id) =>
      s.(clients := s.clients[id := s.clients[id].(cleaning := false)], retryTimer := s.settlement.Pending?)
    case TimerFired => s.(retryTimer := false, clients := s.clients + [NewClient()])
    case Ended(outcome, timeout) =>
      Settled(s.(timedOut := s.timedOut || timeout, retryTimer := false), outcome)
  }

  function Begun(): State {
    State(Pending, false, false, [NewClient()], {}, 0)
  }

  /** A whole run; what cannot happen is skipped. */
  function Play(options: Options, occurrences: seq<Occurrence>): State {
    if occurrences == [] then Begun()
    else
      var s, o := Play(options, occurrences[..|occurrences| - 1]), occurrences[|occurrences| - 1];
      if Possible(s, o) then Next(options, s, o) else s
  }

  // ---------- Counting the requests ----------

  /** The request is sent for a client that had failed, and was destroyed for a retry. */
  predicate IsLate(s: State, o: Occurrence) {
    o.BecameReady? && Possible(s, o) && Heeded(s, o.id) && s.clients[o.id].failureHandled
  }

  predicate IsPrompt(s: State, o: Occurrence) {
    o.BecameReady? && Possible(s, o) && Heeded(s, o.id) && !s.clients[o.id].failureHandled
  }

  /** How many requests of the run were late. */
  function LateCount(options: Options, occurrences: seq<Occurrence>): nat {
    if occurrences == [] then 0
    else
      var init, o := occurrences[..|occurrences| - 1], occurrences[|occurrences| - 1];
      LateCount(options, init) + if IsLate(Play(options, init), o) then 1 else 0
  }

  function PromptCount(options: Options, occurrences: seq<Occurrence>): nat {
    if occurrences == [] then 0
    else
      var init, o := occurrences[..|occurrences| - 1], occurrences[|occurrences| - 1];
      PromptCount(options, init) + if IsPrompt(Play(options, init), o) then 1 else 0
  }

  function Current(s: State): Client
    requires |s.clients| > 0
  {
    s.clients[|s.clients| - 1]
  }

  predicate ClientOk(s: State, id: nat)
    requires id < |s.clients|
  {
    var c := s.clients[id];
    && (id < |s.clients| - 1 ==> c.failureHandled && !c.cleaning)
    && (c.ready ==> c.readyFired) && (c.cleaning ==> c.failureHandled)
  }

  /** Which clients sent a request. */
  function Senders(clients: seq<Client>): nat {
    if clients == [] then 0 else Senders(clients[..|clients| - 1]) + if clients[|clients| - 1].ready then 1 else 0
  }

  predicate Inv(options: Options, s: State, late: nat, prompt: nat) {
    && 1 <= |s.clients| <= options.limit
    && (forall id :: 0 <= id < |s.clients| ==> ClientOk(s, id))
    && s.execs == late + prompt == Senders(s.clients) && prompt <= 1
    && (s.settlement != Pending ==> !s.retryTimer)
    && (s.retryTimer ==> Current(s).failureHandled && !Current(s).cleaning)
    && (s.settlement.Pending? && Current(s).failureHandled ==>
          Current(s).destroyed && |s.clients| < options.limit && prompt == 0)
    && (prompt == 1 ==> Current(s).ready && !s.retryTimer)
    && (Current(s).ready && s.settlement.Pending? && !Current(s).failureHandled ==> prompt == 1)
  }

  lemma {:induction false} SendersUpdated(clients: seq<Client>, id: nat, c: Client)
    requires id < |clients|
    ensures Senders(clients[id := c]) ==
      Senders(clients) + (if c.ready then 1 else 0) - (if clients[id].ready then 1 else 0)
  {
    var init := clients[..|clients| - 1];
    if id == |clients| - 1 {
      assert clients[id := c][..id] == init;
    } else {
      assert clients[id := c][..|clients| - 1] == init[id := c];
      SendersUpdated(init, id, c);
    }
  }

  lemma SendersAppended(clients: seq<Client>, c: Client)
    ensures Senders(clients + [c]) == Senders(clients) + if c.ready then 1 else 0
  {
    assert (clients + [c])[..|clients|] == clients;
  }

  lemma {:induction false} SendersAtMost(clients: seq<Client>)
    ensures Senders(clients) <= |clients|
  {
    if clients != [] {
      SendersAtMost(clients[..|clients| - 1]);
    }
  }

  lemma ReadyKeeps(options: Options, s: State, o: Occurrence, late: nat, prompt: nat)
    requires Inv(options, s, late, prompt) && Possible(s, o) && o.BecameReady?
    ensures Inv(options, Next(options, s, o), late + (if IsLate(s, o) then 1 else 0), prompt + if IsPrompt(s, o) then 1 else 0)
  {
    assert ClientOk(s, o.id);
    var t := Next(options, s, o);
    SendersUpdated(s.clients, o.id, t.clients[o.id]);
    forall id | 0 <= id < |t.clients| ensures ClientOk(t, id) {
      assert ClientOk(s, id);
    }
  }

  lemma FailureKeeps(options: Options, s: State, id: nat, alreadyClosed: bool, late: nat, prompt: nat)
    requires Inv(options, s, late, prompt) && id < |s.clients|
    ensures Inv(options, FailedAttempt(options, s, id, alreadyClosed), late, prompt)
  {
    assert ClientOk(s, id);
    var t := FailedAttempt(options, s, id, alreadyClosed);
    if Heeded(s, id) && !s.clients[id].failureHandled {
      assert t.clients == s.clients[id := t.clients[id]];
      SendersUpdated(s.clients, id, t.clients[id]);
    }
    forall k | 0 <= k < |t.clients| ensures ClientOk(t, k) {
      assert ClientOk(s, k);
    }
  }

  lemma OtherKeeps(options: Options, s: State, o: Occurrence, late: nat, prompt: nat)
    requires Inv(options, s, late, prompt) && Possible(s, o) && !o.BecameReady? && !o.Failed?
    ensures Inv(options, Next(options, s, o), late, prompt)
  {
    var t := Next(options, s, o);
    assert ClientOk(s, |s.clients| - 1);
    if o.TimerFired? {
      SendersAppended(s.clients, NewClient());
    } else {
      var id := if o.Ended? then |s.clients| - 1 else o.id;
      assert ClientOk(s, id);
      assert t.clients == s.clients || t.clients == s.clients[id := t.clients[id]];
      SendersUpdated(s.clients, id, t.clients[id]);
    }
    forall k | 0 <= k < |t.clients| ensures ClientOk(t, k) {
      assert k < |s.clients| ==> ClientOk(s, k);
    }
  }

  lemma NextKeeps(options: Options, s: State, o: Occurrence, late: nat, prompt: nat)
    requires Inv(options, s, late, prompt) && Possible(s, o)
    ensures Inv(options, Next(options, s, o), late + (if IsLate(s, o) then 1 else 0), prompt + if IsPrompt(s, o) then 1 else 0)
  {
    if o.BecameReady? {
      ReadyKeeps(options, s, o, late, prompt);
    } else if o.Failed? {
      FailureKeeps(options, s, o.id, o.alreadyClosed, late, prompt);
    } else {
      OtherKeeps(options, s, o, late, prompt);
    }
  }

  lemma BegunIsFine(options: Options)
    requires options.limit >= 1
    ensures Inv(options, Begun(), 0, 0)
  {
    SendersAppended([], NewClient());
    assert [] + [NewClient()] == [NewClient()];
  }

  lemma {:induction false} PlayKeeps(options: Options, occurrences: seq<Occurrence>)
    requires options.limit >= 1
    ensures Inv(options, Play(options, occurrences), LateCount(options, occurrences), PromptCount(options, occurrences))
  {
    if occurrences == [] {
      BegunIsFine(options);
    } else {
      var init, o := occurrences[..|occurrences| - 1], occurrences[|occurrences| - 1];
      PlayKeeps(options, init);
      if Possible(Play(options, init), o) {
        NextKeeps(options, Play(options, init), o, LateCount(options, init), PromptCount(options, init));
      }
    }
  }

  /**
   * In every order of occurrences, each attempt sends at most one request and there are at most
   * `limit` attempts; at most one request is prompt, and all others are late.
   */
  lemma RequestsAreCounted(options: Options, occurrences: seq<Occurrence>)
    requires options.limit >= 1
    ensures var s := Play(options, occurrences);
      && s.execs == LateCount(options, occurrences) + PromptCount(options, occurrences)
      && PromptCount(options, occurrences) <= 1
      && s.execs <= |s.clients| <= options.limit
  {
    PlayKeeps(options, occurrences);
    SendersAtMost(Play(options, occurrences).clients);
  }

  // ---------- Once, or more than once ----------

  /** A client that failed does not become ready afterwards. */
  predicate Polite(occurrences: seq<Occurrence>) {
    forall i, j :: 0 <= i < j < |occurrences| && occurrences[i].Failed? && occurrences[j].BecameReady? ==>
      occurrences[i].id != occurrences[j].id
  }

  predicate ReportedFailed(occurrences: seq<Occurrence>, id: nat) {
    exists i :: 0 <= i < |occurrences| && occurrences[i].Failed? && occurrences[i].id == id
  }

  lemma HandledByNext(options: Options, s: State, o: Occurrence, id: nat)
    requires Possible(s, o) && id < |Next(options, s, o).clients| && Next(options, s, o).clients[id].failureHandled
    ensures (id < |s.clients| && s.clients[id].failureHandled) || (o.Failed? && o.id == id)
  {
  }

  lemma {:induction false} FailureWasReported(options: Options, occurrences: seq<Occurrence>, id: nat)
    requires id < |Play(options, occurrences).clients| && Play(options, occurrences).clients[id].failureHandled
    ensures ReportedFailed(occurrences, id)
  {
    if occurrences != [] {
      var n := |occurrences| - 1;
      var s := Play(options, occurrences[..n]);
      if Possible(s, occurrences[n]) {
        HandledByNext(options, s, occurrences[n], id);
      }
      if id < |s.clients| && s.clients[id].failureHandled {
        FailureWasReported(options, occurrences[..n], id);
        var i :| 0 <= i < n && occurrences[..n][i].Failed? && occurrences[..n][i].id == id;
        assert occurrences[i].Failed? && occurrences[i].id == id;
      }
    }
  }

  lemma LateIsImpolite(options: Options, occurrences: seq<Occurrence>, n: nat)
    requires n < |occurrences| && IsLate(Play(options, occurrences[..n]), occurrences[n])
    ensures !Polite(occurrences)
  {
    FailureWasReported(options, occurrences[..n], occurrences[n].id);
    var i :| 0 <= i < n && occurrences[..n][i].Failed? && occurrences[..n][i].id == occurrences[n].id;
    assert occurrences[i].Failed? && occurrences[i].id == occurrences[n].id;
  }

  lemma {:induction false} PoliteMeansNoneLate(options: Options, occurrences: seq<Occurrence>)
    requires Polite(occurrences)
    ensures LateCount(options, occurrences) == 0
  {
    if occurrences != [] {
      var n := |occurrences| - 1;
      PoliteMeansNoneLate(options, occurrences[..n]);
      if IsLate(Play(options, occurrences[..n]), occurrences[n]) {
        LateIsImpolite(options, occurrences, n);
      }
    }
  }

  /** If no client becomes ready after it failed, the command is sent at most once. */
  lemma PoliteRunSendsOnce(options: Options, occurrences: seq<Occurrence>)
    requires options.limit >= 1 && Polite(occurrences)
    ensures Play(options, occurrences).execs <= 1
  {
    RequestsAreCounted(options, occurrences);
    PoliteMeansNoneLate(options, occurrences);
  }

  // ---------- When it is sent twice ----------

  /** At this position the current client of a pending run becomes ready for the first time. */
  predicate SendsAt(options: Options, occurrences: seq<Occurrence>, n: nat) {
    n < |occurrences| && occurrences[n].BecameReady? &&
    var s := Play(options, occurrences[..n]); Possible(s, occurrences[n]) && Heeded(s, occurrences[n].id)
  }

  /**
   * A client was reported failed, then became ready while it still was the current one, then the
   * timer started a later client, and that one became ready too.
   */
  predicate Repeats(options: Options, occurrences: seq<Occurrence>, failed: nat, late: nat, timer: nat, again: nat) {
    && failed < late < timer < again
    && SendsAt(options, occurrences, late) && SendsAt(options, occurrences, again)
    && occurrences[failed].Failed? && occurrences[failed].id == occurrences[late].id < occurrences[again].id
    && occurrences[timer].TimerFired?
  }

  lemma PlayTo(options: Options, occurrences: seq<Occurrence>, n: nat)
    requires n < |occurrences|
    ensures Play(options, occurrences[..n + 1]) ==
      var s := Play(options, occurrences[..n]); if Possible(s, occurrences[n]) then Next(options, s, occurrences[n]) else s
    ensures Play(options, occurrences[..n + 1]).execs ==
      Play(options, occurrences[..n]).execs + if SendsAt(options, occurrences, n) then 1 else 0
  {
    assert occurrences[..n + 1][..n] == occurrences[..n];
  }

  /** Clients and requests are only added, and a client that was ready once stays so. */
  predicate Later(s: State, t: State) {
    && s.execs <= t.execs && |s.clients| <= |t.clients|
    && forall id :: 0 <= id < |s.clients| && s.clients[id].readyFired ==> t.clients[id].readyFired
  }

  lemma LaterIsTransitive(s: State, t: State, u: State)
    requires Later(s, t) && Later(t, u)
    ensures Later(s, u)
  {
  }

  lemma NextIsLater(options: Options, s: State, o: Occurrence)
    requires Possible(s, o)
    ensures Later(s, Next(options, s, o)) && (|Next(options, s, o).clients| > |s.clients| ==> o.TimerFired?)
  {
  }

  lemma {:induction false} PlayOn(options: Options, occurrences: seq<Occurrence>, i: nat, j: nat)
    requires i <= j <= |occurrences|
    ensures Later(Play(options, occurrences[..i]), Play(options, occurrences[..j]))
    ensures |Play(options, occurrences[..i]).clients| < |Play(options, occurrences[..j]).clients| ==>
      exists k :: i <= k < j && occurrences[k].TimerFired?
    decreases j - i
  {
    if i < j {
      var s, t := Play(options, occurrences[..j - 1]), Play(options, occurrences[..j]);
      PlayOn(options, occurrences, i, j - 1);
      PlayTo(options, occurrences, j - 1);
      if Possible(s, occurrences[j - 1]) {
        NextIsLater(options, s, occurrences[j - 1]);
        LaterIsTransitive(Play(options, occurrences[..i]), s, t);
      }
    }
  }

  lemma {:induction false} SendersBefore(options: Options, occurrences: seq<Occurrence>, n: nat)
    requires n <= |occurrences|
    ensures Play(options, occurrences[..n]).execs >= 1 ==> exists i :: 0 <= i < n && SendsAt(options, occurrences, i)
    ensures Play(options, occurrences[..n]).execs >= 2 ==>
      exists i, j :: 0 <= i < j < n && SendsAt(options, occurrences, i) && SendsAt(options, occurrences, j)
  {
    if n > 0 {
      SendersBefore(options, occurrences, n - 1);
      PlayTo(options, occurrences, n - 1);
    }
  }

  /** A client that became ready has fired, and its request counts, from then on. */
  lemma SenderStays(options: Options, occurrences: seq<Occurrence>, i: nat, j: nat)
    requires i < j <= |occurrences| && SendsAt(options, occurrences, i)
    ensures var t := Play(options, occurrences[..j]);
      && Play(options, occurrences[..i]).execs < t.execs
      && occurrences[i].id < |t.clients| && t.clients[occurrences[i].id].readyFired
  {
    ReadyFires(options, occurrences, i);
    PlayOn(options, occurrences, i + 1, j);
  }

  lemma ReadyFires(options: Options, occurrences: seq<Occurrence>, i: nat)
    requires i < |occurrences| && SendsAt(options, occurrences, i)
    ensures var t := Play(options, occurrences[..i + 1]);
      && Play(options, occurrences[..i]).execs < t.execs
      && occurrences[i].id == |t.clients| - 1 && t.clients[occurrences[i].id].readyFired
  {
    PlayTo(options, occurrences, i);
  }

  lemma SecondIsLater(options: Options, occurrences: seq<Occurrence>, i: nat, j: nat)
    requires i < j && SendsAt(options, occurrences, i) && SendsAt(options, occurrences, j)
    ensures occurrences[i].id < occurrences[j].id
    ensures exists k :: i < k < j && occurrences[k].TimerFired?
  {
    SenderStays(options, occurrences, i, j);
    ReadyFires(options, occurrences, i);
    PlayOn(options, occurrences, i + 1, j);
  }

  lemma CurrentIsReady(options: Options, s: State, late: nat, prompt: nat)
    requires Inv(options, s, late, prompt) && prompt >= 1
    ensures Current(s).readyFired
  {
    assert ClientOk(s, |s.clients| - 1);
  }

  /** The first of two senders had failed before it became ready. */
  lemma FirstIsLate(options: Options, occurrences: seq<Occurrence>, i: nat, j: nat)
    requires options.limit >= 1 && i < j && SendsAt(options, occurrences, i) && SendsAt(options, occurrences, j)
    ensures IsLate(Play(options, occurrences[..i]), occurrences[i])
  {
    if IsPrompt(Play(options, occurrences[..i]), occurrences[i]) {
      PromptStays(options, occurrences, i, j);
      PlayKeeps(options, occurrences[..j]);
      CurrentIsReady(options, Play(options, occurrences[..j]), LateCount(options, occurrences[..j]),
                     PromptCount(options, occurrences[..j]));
    }
  }

  lemma {:induction false} PromptStays(options: Options, occurrences: seq<Occurrence>, i: nat, j: nat)
    requires i < j <= |occurrences| && IsPrompt(Play(options, occurrences[..i]), occurrences[i])
    ensures PromptCount(options, occurrences[..j]) >= 1
    decreases j
  {
    assert occurrences[..j][..j - 1] == occurrences[..j - 1];
    if i < j - 1 {
      PromptStays(options, occurrences, i, j - 1);
    }
  }

  lemma RepeatsFrom(options: Options, occurrences: seq<Occurrence>, i: nat, j: nat) returns (failed: nat, timer: nat)
    requires options.limit >= 1 && i < j && SendsAt(options, occurrences, i) && SendsAt(options, occurrences, j)
    ensures Repeats(options, occurrences, failed, i, timer, j)
  {
    FirstIsLate(options, occurrences, i, j);
    SecondIsLater(options, occurrences, i, j);
    var id := occurrences[i].id;
    FailureWasReported(options, occurrences[..i], id);
    failed :| 0 <= failed < i && occurrences[..i][failed].Failed? && occurrences[..i][failed].id == id;
    timer :| i < timer < j && occurrences[timer].TimerFired?;
  }

  lemma TwiceRepeats(options: Options, occurrences: seq<Occurrence>)
    requires options.limit >= 1 && Play(options, occurrences).execs > 1
    ensures exists failed, late, timer, again :: Repeats(options, occurrences, failed, late, timer, again)
  {
    var n := |occurrences|;
    assert occurrences[..n] == occurrences;
    SendersBefore(options, occurrences, n);
    var i, j :| 0 <= i < j < n && SendsAt(options, occurrences, i) && SendsAt(options, occurrences, j);
    var failed, timer := RepeatsFrom(options, occurrences, i, j);
  }

  lemma TwoSenders(options: Options, occurrences: seq<Occurrence>, i: nat, j: nat)
    requires i < j && SendsAt(options, occurrences, i) && SendsAt(options, occurrences, j)
    ensures Play(options, occurrences).execs > 1
  {
    assert occurrences[..|occurrences|] == occurrences;
    SenderStays(options, occurrences, i, j);
    SenderStays(options, occurrences, j, |occurrences|);
  }

  /** The command is sent more than once exactly when a client that failed became ready, and a later client too. */
  lemma SentTwiceIff(options: Options, occurrences: seq<Occurrence>)
    requires options.limit >= 1
    ensures Play(options, occurrences).execs > 1 <==>
      exists failed, late, timer, again :: Repeats(options, occurrences, failed, late, timer, again)
  {
    if Play(options, occurrences).execs > 1 {
      TwiceRepeats(options, occurrences);
    }
    if failed, late, timer, again :| Repeats(options, occurrences, failed, late, timer, again) {
      TwoSenders(options, occurrences, late, again);
    }
  }

  lemma PlayOne(options: Options, occurrences: seq<Occurrence>, o: Occurrence)
    ensures Play(options, occurrences + [o]) ==
      var s := Play(options, occurrences); if Possible(s, o) then Next(options, s, o) else s
  {
    assert (occurrences + [o])[..|occurrences|] == occurrences;
  }

  /** After `n` attempts that failed and became ready all the same. */
  predicate Repeating(s: State, n: nat) {
    s.settlement.Pending? && !s.timedOut && !s.retryTimer && |s.clients| == n + 1 && Current(s) == NewClient() && s.execs == n
  }

  lemma LateRound(options: Options, s: State, n: nat)
    requires Repeating(s, n) && n + 1 < options.limit
    ensures Possible(s, Failed(n, true))
    ensures var failed := Next(options, s, Failed(n, true));
      Possible(failed, BecameReady(n)) &&
      var ready := Next(options, failed, BecameReady(n));
      Possible(ready, TimerFired) && Repeating(Next(options, ready, TimerFired), n + 1)
  {
  }

  lemma {:induction false} LateReadies(options: Options, n: nat) returns (occurrences: seq<Occurrence>)
    requires n < options.limit
    ensures Repeating(Play(options, occurrences), n)
  {
    occurrences := [];
    if n > 0 {
      var before := LateReadies(options, n - 1);
      LateRound(options, Play(options, before), n - 1);
      var failed := before + [Failed(n - 1, true)];
      var ready := failed + [BecameReady(n - 1)];
      PlayOne(options, before, Failed(n - 1, true));
      PlayOne(options, failed, BecameReady(n - 1));
      PlayOne(options, ready, TimerFired);
      occurrences := ready + [TimerFired];
    }
  }

  /**
   * The bound is reached: whatever number of attempts is allowed, there is a run in which every
   * one of them sends the command.
   */
  lemma EveryAttemptMaySend(options: Options) returns (occurrences: seq<Occurrence>)
    requires options.limit >= 1
    ensures Play(options, occurrences).execs == options.limit
  {
    var before := LateReadies(options, options.limit - 1);
    occurrences := before + [BecameReady(options.limit - 1)];
    PlayOne(options, before, BecameReady(options.limit - 1));
  }

  // ---------- The run ----------

  /**
   * What the first failure of the current client does. The algorithms of a refused host key are not
   * offered again, and after a refusal it tries again only with less to offer.
   */
  predicate FailsSo(options: Options, s: State, t: State, id: nat, alreadyClosed: bool)
    requires id < |s.clients|
  {
    var client := s.clients[id];
    if s.settlement != Pending || client.failureHandled || id != |s.clients| - 1 then t == s
    else
      && t.excluded == (if options.pinned then s.excluded else s.excluded + client.rejected)
      && t.execs == s.execs && |t.clients| == |s.clients| && t.clients[id].failureHandled && t.clients[id].destroyed
      && if client.ready || |s.clients| >= options.limit || s.timedOut
            || (client.hostKeyRejected && (options.pinned || client.rejected <= s.excluded)) then
           t.settlement == (if client.hostKeyRejected then HostKeyMismatch else Rejected) && !t.retryTimer
         else
           && t.settlement == Pending && t.clients[id].cleaning == !alreadyClosed && (alreadyClosed ==> t.retryTimer)
           && (client.hostKeyRejected ==> s.excluded < t.excluded && client.rejected <= t.excluded)
  }

  lemma FailureIsPlain(options: Options, s: State, id: nat, alreadyClosed: bool)
    requires id < |s.clients|
    ensures FailsSo(options, s, Next(options, s, Failed(id, alreadyClosed)), id, alreadyClosed)
  {
  }

  class SshRun {
    const options: Options
    var settlement: Settlement
    var timedOut: bool
    var retryTimer: bool
    var clients: seq<Client>
    var excluded: set<Algorithm>
    var execs: nat

    ghost function View(): State
      reads this
    {
      State(settlement, timedOut, retryTimer, clients, excluded, execs)
    }

    constructor (options: Options)
      ensures View() == Begun() && this.options == options
    {
      this.options := options;
      settlement, timedOut, retryTimer, excluded, execs := Pending, false, false, {}, 0;
      clients := [NewClient()];
    }

    method Settle(outcome: Settlement)
      requires |clients| > 0
      modifies this`settlement, this`retryTimer, this`clients
      ensures View() == Settled(old(View()), outcome)
    {
      if settlement != Pending {
        return;
      }
      settlement, retryTimer := outcome, false;
      clients := clients[|clients| - 1 := clients[|clients| - 1].(destroyed := true)];
    }

    /** The host verifier is asked; the key does not match. */
    method HostKeyRefused(id: nat, algorithms: set<Algorithm>)
      requires id < |clients|
      modifies this`clients
      ensures View() == Next(options, old(View()), KeyRefused(id, algorithms))
    {
      clients := clients[id := clients[id].(hostKeyRejected := true, rejected := algorithms)];
    }

    /** 'ready', which each client emits at most once. */
    method Ready(id: nat)
      requires id < |clients| && !clients[id].readyFired
      modifies this`clients, this`execs
      ensures View() == Next(options, old(View()), BecameReady(id))
      ensures execs == old(execs) + if settlement == Pending && id == |clients| - 1 then 1 else 0
      ensures clients[id].readyFired && (clients[id].ready <==> old(clients)[id].ready || execs > old(execs))
    {
      clients := clients[id := clients[id].(readyFired := true)];
      if settlement != Pending || id != |clients| - 1 {
        return;
      }
      clients := clients[id := clients[id].(ready := true)];
      execs := execs + 1;
    }

    /** 'error', 'close', a failed `exec` or a throwing `connect` of one client. */
    method FailAttempt(id: nat, alreadyClosed: bool)
      requires id < |clients|
      modifies this
      ensures View() == Next(options, old(View()), Failed(id, alreadyClosed))
      ensures FailsSo(options, old(View()), View(), id, alreadyClosed)
    {
      FailureIsPlain(options, View(), id, alreadyClosed);
      if settlement != Pending || clients[id].failureHandled || id != |clients| - 1 {
        return;
      }
      var client := clients[id].(failureHandled := true);
      var added := !options.pinned && !(client.rejected <= excluded);
      if !options.pinned {
        excluded := excluded + client.rejected;
      }
      if client.ready || |clients| >= options.limit || timedOut
         || (client.hostKeyRejected && (options.pinned || client.rejected == {} || !added)) {
        clients := clients[id := client];
        Settle(if client.hostKeyRejected then HostKeyMismatch else Rejected);
      } else {
        clients := clients[id := client.(destroyed := true, cleaning := !alreadyClosed)];
        if alreadyClosed {
          retryTimer := true;
        }
      }
    }

    /** The destroyed client closed, or the wait for that ended. */
    method FinishCleanup(id: nat)
      requires id < |clients| && clients[id].cleaning
      modifies this`clients, this`retryTimer
      ensures View() == Next(options, old(View()), Cleaned(id))
      ensures retryTimer == (settlement == Pending) && !clients[id].cleaning
    {
      clients := clients[id := clients[id].(cleaning := false)];
      retryTimer := settlement.Pending?;
    }

    /** The retry timer fires: the next attempt. */
    method Retry()
      requires retryTimer && |clients| > 0
      modifies this`clients, this`retryTimer
      ensures View() == Next(options, old(View()), TimerFired)
      ensures clients == old(clients) + [Client(false, false, false, false, false, false, {})] && !retryTimer
    {
      retryTimer := false;
      clients := clients + [NewClient()];
    }

    /** The stream ended or failed, or the job is cancelled or times out. */
    method Finish(outcome: Settlement, timeout: bool)
      requires outcome != Pending && |clients| > 0
      modifies this
      ensures View() == Next(options, old(View()), Ended(outcome, timeout))
      ensures settlement == (if old(settlement) == Pending then outcome else old(settlement)) && !retryTimer
      ensures timedOut == (old(timedOut) || timeout) && execs == old(execs)
      ensures old(settlement) == Pending ==> clients[|clients| - 1].destroyed
    {
      timedOut := timedOut || timeout;
      retryTimer := false;
      Settle(outcome);
    }
  }

  /** A whole run: the requests sent and the attempts made. */
  method RunSsh(options: Options, occurrences: seq<Occurrence>) returns (execs: nat, attempts: nat)
    requires options.limit >= 1
    ensures execs == Play(options, occurrences).execs
    ensures execs == LateCount(options, occurrences) + PromptCount(options, occurrences)
    ensures PromptCount(options, occurrences) <= 1 && execs <= attempts <= options.limit
    ensures Polite(occurrences) ==> execs <= 1
  {
    var run := new SshRun(options);
    for n := 0 to |occurrences|
      invariant fresh(run) && run.options == options && run.View() == Play(options, occurrences[..n])
      invariant |run.clients| > 0
    {
      PlayOne(options, occurrences[..n], occurrences[n]);
      assert occurrences[..n + 1] == occurrences[..n] + [occurrences[n]];
      match occurrences[n] {
        case KeyRefused(id, algorithms) => if id < |run.clients| { run.HostKeyRefused(id, algorithms); }
        case BecameReady(id) => if id < |run.clients| && !run.clients[id].readyFired { run.Ready(id); }
        case Failed(id, alreadyClosed) => if id < |run.clients| { run.FailAttempt(id, alreadyClosed); }
        case Cleaned(id) => if id < |run.clients| && run.clients[id].cleaning { run.FinishCleanup(id); }
        case TimerFired => if run.retryTimer { run.Retry(); }
        case Ended(outcome, timeout) => if outcome != Pending { run.Finish(outcome, timeout); }
      }
    }
    assert occurrences[..|occurrences|] == occurrences;
    RequestsAreCounted(options, occurrences);
    if Polite(occurrences) {
      PoliteRunSendsOnce(options, occurrences);
    }
    execs, attempts := run.execs, |run.clients|;
  }
}
