/**
 * Waiting for a job to end (LifecycleManager.ts `waitForTerminal` and its helpers): one
 * coordinator with one timer per job, any number of waiters within limits, and each waiter
 * settled once, by whatever comes first.
 */
module WaitCoordinators {
  import opened Wrappers

  type JobId = string

  const MAX_WAITERS_PER_JOB := 8
  const MAX_WAITERS_GLOBAL := 128
  const MAX_WAIT_MS := 24 * 60 * 60 * 1000

  /** Waiters by their id, with the time each expires; and when the armed timer is due. */
  datatype Coordinator = Coordinator(waiters: map<nat, int>, timer: Option<int>)

  type Coordinators = map<JobId, Coordinator>

  datatype Outcome = JobEnded | TimedOut | Aborted | JobUnknown | Disposed

  datatype Settlement = Settlement(waiter: nat, outcome: Outcome)

  /**
   * `jobs` tells which jobs exist and whether they have ended, `home` where each waiter waits,
   * and `settled` what waiters were told so far.
   */
  datatype State = State(jobs: map<JobId, bool>, coordinators: Coordinators, total: int, last: nat,
                         home: map<nat, JobId>, settled: seq<Settlement>)

  // ---------- Sums over jobs ----------

  function WaitersOf(coordinators: Coordinators, j: JobId): map<nat, int> {
    if j in coordinators then coordinators[j].waiters else map[]
  }

  /** The waiters of these jobs. */
  ghost function SumOver(coordinators: Coordinators, jobs: set<JobId>): nat
    decreases jobs
  {
    if jobs == {} then 0
    else
      var j :| j in jobs;
      |WaitersOf(coordinators, j)| + SumOver(coordinators, jobs - {j})
  }

  ghost function Sum(coordinators: Coordinators): nat {
    SumOver(coordinators, coordinators.Keys)
  }

  lemma {:induction false} SumSplit(coordinators: Coordinators, jobs: set<JobId>, j: JobId)
    requires j in jobs
    ensures SumOver(coordinators, jobs) == |WaitersOf(coordinators, j)| + SumOver(coordinators, jobs - {j})
    decreases jobs
  {
    var k :| k in jobs && SumOver(coordinators, jobs) == |WaitersOf(coordinators, k)| + SumOver(coordinators, jobs - {k});
    if k != j {
      SumSplit(coordinators, jobs - {k}, j);
      SumSplit(coordinators, jobs - {j}, k);
      assert jobs - {k} - {j} == jobs - {j} - {k};
    }
  }

  lemma {:induction false} SumSame(a: Coordinators, b: Coordinators, jobs: set<JobId>)
    requires forall j :: j in jobs ==> WaitersOf(a, j) == WaitersOf(b, j)
    ensures SumOver(a, jobs) == SumOver(b, jobs)
    decreases jobs
  {
    if jobs != {} {
      var j :| j in jobs;
      SumSplit(a, jobs, j);
      SumSplit(b, jobs, j);
      SumSame(a, b, jobs - {j});
    }
  }

  /** Two tables that differ in one job. */
  lemma SumChanged(a: Coordinators, b: Coordinators, j: JobId)
    requires a.Keys - {j} == b.Keys - {j} && forall k :: k in a && k in b && k != j ==> b[k] == a[k]
    ensures Sum(a) - |WaitersOf(a, j)| == Sum(b) - |WaitersOf(b, j)|
  {
    SumWithout(a, j);
    SumWithout(b, j);
    SumSame(a, b, a.Keys - {j});
  }

  lemma SumWithout(a: Coordinators, j: JobId)
    ensures Sum(a) == |WaitersOf(a, j)| + SumOver(a, a.Keys - {j})
  {
    if j in a {
      SumSplit(a, a.Keys, j);
    } else {
      assert a.Keys - {j} == a.Keys;
    }
  }

  lemma OneLarger(waiters: map<nat, int>, w: nat, expires: int)
    requires w !in waiters
    ensures |waiters[w := expires]| == |waiters| + 1
  {
    assert waiters[w := expires].Keys == waiters.Keys + {w};
  }

  lemma Fewer<K, V>(m: map<K, V>, k: K)
    requires k in m
    ensures |m - {k}| == |m| - 1
  {
    assert (m - {k}).Keys == m.Keys - {k};
  }

  // ---------- The invariant ----------

  /** The earliest expiry; folded. */
  ghost predicate IsEarliest(waiters: map<nat, int>, due: int) {
    forall token: nat :: Unfold(token) && token == 6 ==>
      (exists w :: w in waiters && waiters[w] == due) && forall w :: w in waiters ==> due <= waiters[w]
  }

  /** The timer is set to the moment when the first waiter expires. */
  ghost predicate Armed(c: Coordinator) {
    c.timer.Some? && IsEarliest(c.waiters, c.timer.value)
  }

  ghost predicate CoordinatorOk(s: State, j: JobId)
    requires j in s.coordinators
  {
    var c := s.coordinators[j];
    && j in s.jobs && !s.jobs[j]
    && 1 <= |c.waiters| <= MAX_WAITERS_PER_JOB
    && Armed(c)
    && forall w :: w in c.waiters ==> w in s.home && s.home[w] == j
  }

  predicate AtHome(s: State, w: nat)
    requires w in s.home
  {
    1 <= w <= s.last && s.home[w] in s.coordinators && w in s.coordinators[s.home[w]].waiters
  }

  predicate WasSettled(settled: seq<Settlement>, w: nat) {
    exists i :: 0 <= i < |settled| && settled[i].waiter == w
  }

  predicate SettledOnce(settled: seq<Settlement>) {
    forall i, k :: 0 <= i < k < |settled| ==> settled[i].waiter != settled[k].waiter
  }

  /** A waiter waits or was settled once, never both. */
  predicate SettledOk(settled: seq<Settlement>, home: map<nat, JobId>, last: nat) {
    && SettledOnce(settled)
    && (forall i :: 0 <= i < |settled| ==> 1 <= settled[i].waiter <= last)
    && (forall w :: 1 <= w <= last ==> (w in home <==> !WasSettled(settled, w)))
  }

  // The four parts of the invariant, each folded on its own.

  ghost predicate CoordinatorsOk(s: State) {
    forall token: nat :: Unfold(token) && token == 1 ==> forall j :: j in s.coordinators ==> CoordinatorOk(s, j)
  }

  ghost predicate IsSum(coordinators: Coordinators, total: int) {
    forall token: nat :: Unfold(token) && token == 2 ==> total == Sum(coordinators)
  }

  ghost predicate Counted(s: State) {
    IsSum(s.coordinators, s.total) && s.total <= MAX_WAITERS_GLOBAL
  }

  ghost predicate HomesOk(s: State) {
    forall token: nat :: Unfold(token) && token == 3 ==> forall w :: w in s.home ==> AtHome(s, w)
  }

  ghost predicate AllSettledOk(s: State) {
    forall token: nat :: Unfold(token) && token == 4 ==> SettledOk(s.settled, s.home, s.last)
  }

  /**
   * The count is the sum over the jobs and within the limits; each coordinator has waiters and
   * a timer due when the first of them expires, and its job has not ended; each waiter waits in
   * one place until it is settled once.
   */
  ghost predicate Inv(s: State) {
    CoordinatorsOk(s) && Counted(s) && HomesOk(s) && AllSettledOk(s)
  }

  lemma CoordinatorIsOk(s: State, j: JobId)
    requires CoordinatorsOk(s) && j in s.coordinators
    ensures CoordinatorOk(s, j)
  {
    assert Unfold(1);
  }

  lemma WaiterIsHome(s: State, w: nat)
    requires HomesOk(s) && w in s.home
    ensures AtHome(s, w)
  {
    assert Unfold(3);
  }

  // ---------- One more waiter ----------

  function Registered(s: State, j: JobId, expires: int, due: int): State {
    var w := s.last + 1;
    var c := Coordinator(WaitersOf(s.coordinators, j)[w := expires], Some(due));
    s.(coordinators := s.coordinators[j := c], total := s.total + 1, last := w, home := s.home[w := j])
  }

  lemma SettledGrows(settled: seq<Settlement>, home: map<nat, JobId>, last: nat, j: JobId)
    requires SettledOk(settled, home, last)
    ensures SettledOk(settled, home[last + 1 := j], last + 1)
  {
    forall i | 0 <= i < |settled| ensures settled[i].waiter != last + 1 {
    }
  }

  lemma SumRegistered(coordinators: Coordinators, total: int, j: JobId, w: nat, expires: int, due: int)
    requires w !in WaitersOf(coordinators, j) && IsSum(coordinators, total)
    ensures IsSum(coordinators[j := Coordinator(WaitersOf(coordinators, j)[w := expires], Some(due))], total + 1)
  {
    var c := Coordinator(WaitersOf(coordinators, j)[w := expires], Some(due));
    OneLarger(WaitersOf(coordinators, j), w, expires);
    SumChanged(coordinators, coordinators[j := c], j);
    assert Unfold(2);
  }

  lemma NewWaiter(s: State, j: JobId)
    requires CoordinatorsOk(s) && HomesOk(s)
    ensures s.last + 1 !in s.home && s.last + 1 !in WaitersOf(s.coordinators, j)
  {
    if s.last + 1 in s.home {
      WaiterIsHome(s, s.last + 1);
    }
    if j in s.coordinators {
      CoordinatorIsOk(s, j);
    }
  }

  ghost predicate MayRegister(s: State, j: JobId, expires: int, due: int) {
    && j in s.jobs && !s.jobs[j]
    && |WaitersOf(s.coordinators, j)| < MAX_WAITERS_PER_JOB && s.total < MAX_WAITERS_GLOBAL
    && IsEarliest(WaitersOf(s.coordinators, j)[s.last + 1 := expires], due)
  }

  lemma RegisteredCoordinators(s: State, j: JobId, expires: int, due: int)
    requires CoordinatorsOk(s) && MayRegister(s, j, expires, due)
    requires s.last + 1 !in s.home && s.last + 1 !in WaitersOf(s.coordinators, j)
    ensures CoordinatorsOk(Registered(s, j, expires, due))
  {
    var t := Registered(s, j, expires, due);
    OneLarger(WaitersOf(s.coordinators, j), s.last + 1, expires);
    forall k | k in t.coordinators ensures CoordinatorOk(t, k) {
      if k in s.coordinators {
        CoordinatorIsOk(s, k);
      }
    }
  }

  lemma RegisteredCount(s: State, j: JobId, expires: int, due: int)
    requires Counted(s) && s.total < MAX_WAITERS_GLOBAL && s.last + 1 !in WaitersOf(s.coordinators, j)
    ensures Counted(Registered(s, j, expires, due))
  {
    var t := Registered(s, j, expires, due);
    SumRegistered(s.coordinators, s.total, j, s.last + 1, expires, due);
    assert IsSum(t.coordinators, t.total);
  }

  lemma RegisteredHomes(s: State, j: JobId, expires: int, due: int)
    requires HomesOk(s)
    ensures HomesOk(Registered(s, j, expires, due))
  {
    var t := Registered(s, j, expires, due);
    forall w | w in t.home ensures AtHome(t, w) {
      if w in s.home && w != s.last + 1 {
        WaiterIsHome(s, w);
      }
    }
  }

  lemma RegisteredKeeps(s: State, j: JobId, expires: int, due: int)
    requires Inv(s) && MayRegister(s, j, expires, due)
    ensures Inv(Registered(s, j, expires, due))
  {
    NewWaiter(s, j);
    RegisteredCoordinators(s, j, expires, due);
    RegisteredCount(s, j, expires, due);
    RegisteredHomes(s, j, expires, due);
    assert AllSettledOk(Registered(s, j, expires, due)) by {
      assert Unfold(4);
      SettledGrows(s.settled, s.home, s.last, j);
    }
  }

  // ---------- Waiters are settled ----------

  predicate AllTold(batch: seq<Settlement>, outcome: Outcome) {
    forall i :: 0 <= i < |batch| ==> batch[i].outcome == outcome
  }

  /** The messages tell exactly these waiters, each once, and all the same; folded. */
  ghost predicate Settles(batch: seq<Settlement>, gone: set<nat>, outcome: Outcome) {
    forall token: nat :: Unfold(token) && token == 5 ==>
      SettledOnce(batch) && AllTold(batch, outcome) && forall w :: WasSettled(batch, w) <==> w in gone
  }

  lemma ToldExactly(batch: seq<Settlement>, gone: set<nat>, outcome: Outcome)
    requires Settles(batch, gone, outcome)
    ensures SettledOnce(batch) && AllTold(batch, outcome) && forall w :: WasSettled(batch, w) <==> w in gone
  {
    assert Unfold(5);
  }

  lemma OneMore(batch: seq<Settlement>, gone: set<nat>, w: nat, outcome: Outcome)
    requires Settles(batch, gone, outcome) && w !in gone
    ensures Settles(batch + [Settlement(w, outcome)], gone + {w}, outcome)
  {
    ToldExactly(batch, gone, outcome);
    var longer := batch + [Settlement(w, outcome)];
    forall v ensures WasSettled(longer, v) <==> v in gone + {w} {
      SettledConcat(batch, [Settlement(w, outcome)], v);
      assert [Settlement(w, outcome)][0].waiter == w;
    }
    forall i | 0 <= i < |batch| ensures batch[i].waiter != w {
      assert WasSettled(batch, batch[i].waiter);
    }
  }

  /** The coordinator with fewer waiters; without any it is gone. */
  function Left(coordinators: Coordinators, j: JobId, rest: map<nat, int>, due: int): Coordinators {
    if rest == map[] then coordinators - {j} else coordinators[j := Coordinator(rest, Some(due))]
  }

  function Settled(s: State, j: JobId, gone: set<nat>, due: int, batch: seq<Settlement>): State {
    s.(coordinators := Left(s.coordinators, j, WaitersOf(s.coordinators, j) - gone, due),
       total := s.total - |gone|, home := s.home - gone, settled := s.settled + batch)
  }

  lemma SettledConcat(a: seq<Settlement>, b: seq<Settlement>, w: nat)
    ensures WasSettled(a + b, w) <==> WasSettled(a, w) || WasSettled(b, w)
  {
    if WasSettled(a, w) {
      var i :| 0 <= i < |a| && a[i].waiter == w;
      assert (a + b)[i].waiter == w;
    }
    if WasSettled(b, w) {
      var i :| 0 <= i < |b| && b[i].waiter == w;
      assert (a + b)[|a| + i].waiter == w;
    }
  }

  lemma BatchSettled(settled: seq<Settlement>, home: map<nat, JobId>, last: nat, gone: set<nat>, batch: seq<Settlement>)
    requires SettledOk(settled, home, last) && gone <= home.Keys
    requires SettledOnce(batch) && forall w :: WasSettled(batch, w) <==> w in gone
    requires forall w :: w in home ==> 1 <= w <= last
    ensures SettledOk(settled + batch, home - gone, last)
  {
    forall i, k | 0 <= i < |settled| && 0 <= k < |batch| ensures settled[i].waiter != batch[k].waiter {
      assert WasSettled(settled, settled[i].waiter);
      assert WasSettled(batch, batch[k].waiter);
    }
    forall k | 0 <= k < |batch| ensures 1 <= batch[k].waiter <= last {
      assert WasSettled(batch, batch[k].waiter);
    }
    forall w | 1 <= w <= last ensures w in home - gone <==> !WasSettled(settled + batch, w) {
      SettledConcat(settled, batch, w);
    }
  }

  lemma NothingLeftIff(waiters: map<nat, int>, gone: set<nat>)
    requires gone <= waiters.Keys
    ensures waiters - gone == map[] <==> gone == waiters.Keys
  {
    var rest := waiters - gone;
    assert rest.Keys == waiters.Keys - gone;
    if gone == waiters.Keys {
      assert rest.Keys == {};
      assert rest == map[];
    } else {
      var w :| w in waiters && w !in gone;
      assert w in rest;
    }
  }

  lemma SumLeft(coordinators: Coordinators, total: int, j: JobId, gone: set<nat>, due: int)
    requires j in coordinators && gone <= coordinators[j].waiters.Keys && IsSum(coordinators, total)
    ensures IsSum(Left(coordinators, j, coordinators[j].waiters - gone, due), total - |gone|)
  {
    var rest := coordinators[j].waiters - gone;
    assert rest.Keys == coordinators[j].waiters.Keys - gone;
    NothingLeftIff(coordinators[j].waiters, gone);
    SumChanged(coordinators, Left(coordinators, j, rest, due), j);
    assert Unfold(2);
  }

  ghost predicate MaySettle(s: State, j: JobId, gone: set<nat>, due: int) {
    && j in s.coordinators && gone <= s.coordinators[j].waiters.Keys
    && var rest := s.coordinators[j].waiters - gone; (rest != map[] ==> IsEarliest(rest, due))
  }

  lemma SettledCoordinators(s: State, j: JobId, gone: set<nat>, due: int, batch: seq<Settlement>)
    requires CoordinatorsOk(s) && MaySettle(s, j, gone, due)
    ensures CoordinatorsOk(Settled(s, j, gone, due, batch))
  {
    var t := Settled(s, j, gone, due, batch);
    assert (s.coordinators[j].waiters - gone).Keys == s.coordinators[j].waiters.Keys - gone;
    forall k | k in t.coordinators ensures CoordinatorOk(t, k) {
      StillOk(s, j, gone, due, batch, k);
    }
  }

  lemma StillOk(s: State, j: JobId, gone: set<nat>, due: int, batch: seq<Settlement>, k: JobId)
    requires CoordinatorsOk(s) && MaySettle(s, j, gone, due)
    requires k in Settled(s, j, gone, due, batch).coordinators
    ensures CoordinatorOk(Settled(s, j, gone, due, batch), k)
  {
    CoordinatorIsOk(s, k);
    CoordinatorIsOk(s, j);
    var rest := s.coordinators[j].waiters - gone;
    assert rest.Keys == s.coordinators[j].waiters.Keys - gone;
    if k == j {
      assert rest != map[];
      assert rest.Keys != {};
    } else {
      forall w | w in gone ensures w !in s.coordinators[k].waiters {
        assert w in s.coordinators[j].waiters;
      }
    }
  }

  lemma SettledCount(s: State, j: JobId, gone: set<nat>, due: int, batch: seq<Settlement>)
    requires Counted(s) && j in s.coordinators && gone <= s.coordinators[j].waiters.Keys
    ensures Counted(Settled(s, j, gone, due, batch))
  {
    SumLeft(s.coordinators, s.total, j, gone, due);
  }

  lemma SettledHomes(s: State, j: JobId, gone: set<nat>, due: int, batch: seq<Settlement>)
    requires HomesOk(s) && MaySettle(s, j, gone, due)
    ensures HomesOk(Settled(s, j, gone, due, batch))
  {
    var t := Settled(s, j, gone, due, batch);
    forall w | w in t.home ensures AtHome(t, w) {
      WaiterIsHome(s, w);
      if s.home[w] == j {
        assert w in s.coordinators[j].waiters - gone;
      }
    }
  }

  lemma SettledMessages(s: State, j: JobId, gone: set<nat>, due: int, batch: seq<Settlement>, outcome: Outcome)
    requires Inv(s) && MaySettle(s, j, gone, due) && Settles(batch, gone, outcome)
    ensures AllSettledOk(Settled(s, j, gone, due, batch))
  {
    CoordinatorIsOk(s, j);
    forall w | w in s.home ensures 1 <= w <= s.last {
      WaiterIsHome(s, w);
    }
    ToldExactly(batch, gone, outcome);
    assert Unfold(4);
    BatchSettled(s.settled, s.home, s.last, gone, batch);
  }

  lemma SettledKeeps(s: State, j: JobId, gone: set<nat>, due: int, batch: seq<Settlement>, outcome: Outcome)
    requires Inv(s) && MaySettle(s, j, gone, due) && Settles(batch, gone, outcome)
    ensures Inv(Settled(s, j, gone, due, batch))
  {
    SettledCoordinators(s, j, gone, due, batch);
    SettledCount(s, j, gone, due, batch);
    SettledHomes(s, j, gone, due, batch);
    SettledMessages(s, j, gone, due, batch, outcome);
  }

  /** A job ends or is forgotten only when nobody waits for it any more. */
  lemma JobsChangedKeeps(s: State, j: JobId, jobs: map<JobId, bool>)
    requires Inv(s) && j !in s.coordinators
    requires forall k :: k in s.jobs && k != j ==> k in jobs && jobs[k] == s.jobs[k]
    ensures Inv(s.(jobs := jobs))
  {
    var t := s.(jobs := jobs);
    forall k | k in t.coordinators ensures CoordinatorOk(t, k) {
      CoordinatorIsOk(s, k);
    }
    forall w | w in t.home ensures AtHome(t, w) {
      WaiterIsHome(s, w);
    }
    assert AllSettledOk(t) by {
      assert Unfold(4);
    }
  }

  // ---------- The manager ----------

  datatype WaitResult = Registration(waiter: nat) | Ended | Refused

  class Manager {
    var jobs: map<JobId, bool>
    var coordinators: Coordinators
    var totalWaiters: int
    var waiterSequence: nat
    var disposed: bool
    ghost var home: map<nat, JobId>
    ghost var settled: seq<Settlement>

    ghost function View(): State
      reads this
    {
      State(jobs, coordinators, totalWaiters, waiterSequence, home, settled)
    }

    ghost predicate Valid()
      reads this
    {
      Inv(View())
    }

    constructor (jobs: map<JobId, bool>)
      ensures Valid() && this.jobs == jobs && coordinators == map[] && settled == [] && !disposed
    {
      this.jobs, coordinators, totalWaiters, waiterSequence, disposed := jobs, map[], 0, 0, false;
      home, settled := map[], [];
    }

    static method NextExpiry(waiters: map<nat, int>) returns (due: int)
      requires waiters != map[]
      ensures IsEarliest(waiters, due)
    {
      var first :| first in waiters;
      due := waiters[first];
      var rest := waiters.Keys - {first};
      ghost var seen := {first};
      while rest != {}
        invariant seen + rest == waiters.Keys
        invariant (exists w :: w in waiters && waiters[w] == due) && forall w :: w in seen ==> due <= waiters[w]
        decreases |rest|
      {
        var w :| w in rest;
        if waiters[w] < due {
          due := waiters[w];
        }
        rest, seen := rest - {w}, seen + {w};
      }
    }

    /** `armWaitTimer`. */
    method Arm(j: JobId) returns (ghost at: int)
      requires j in coordinators
      modifies this`coordinators
      ensures coordinators == Left(old(coordinators), j, old(coordinators)[j].waiters, at)
      ensures old(coordinators)[j].waiters != map[] ==> IsEarliest(old(coordinators)[j].waiters, at)
    {
      var waiters := coordinators[j].waiters;
      if |waiters| == 0 {
        assert waiters == map[];
        coordinators := coordinators - {j};
        return 0;
      }
      assert waiters != map[];
      var due := NextExpiry(waiters);
      at := due;
      coordinators := coordinators[j := Coordinator(waiters, Some(due))];
    }

    predicate Full(j: JobId)
      reads this
    {
      |WaitersOf(coordinators, j)| >= MAX_WAITERS_PER_JOB || totalWaiters >= MAX_WAITERS_GLOBAL
    }

    /** `waitForTerminal`; a refused caller gets an exception. */
    method WaitForTerminal(j: JobId, timeoutMs: int, now: int) returns (result: WaitResult)
      requires Valid()
      modifies this
      ensures Valid() && settled == old(settled) && jobs == old(jobs)
      ensures result.Ended? <==> !disposed && j in jobs && jobs[j]
      ensures result.Refused? <==>
        disposed || j !in jobs || (!jobs[j] && (|WaitersOf(old(coordinators), j)| >= 8 || old(totalWaiters) >= 128))
      ensures result.Registration? ==>
        result.waiter == old(waiterSequence) + 1 && result.waiter in home && home == old(home)[result.waiter := j]
      // The waiter is added with a bounded expiry, and the timer is armed for the first to expire.
      ensures result.Registration? ==>
        && j in coordinators && coordinators - {j} == old(coordinators) - {j} && Armed(coordinators[j])
        && coordinators[j].waiters == WaitersOf(old(coordinators), j)[result.waiter :=
             now + if timeoutMs < 1 then 1 else if timeoutMs > 86400000 then 86400000 else timeoutMs]
      ensures !result.Registration? ==> View() == old(View())
      ensures disposed == old(disposed)
    {
      if disposed || j !in jobs {
        return Refused;
      }
      if jobs[j] {
        return Ended;
      }
      if Full(j) {
        return Refused;
      }
      var boundedTimeout := if timeoutMs > MAX_WAIT_MS then MAX_WAIT_MS else timeoutMs;
      boundedTimeout := if boundedTimeout < 1 then 1 else boundedTimeout;
      var w := Register(j, now + boundedTimeout);
      result := Registration(w);
    }

    method Register(j: JobId, expires: int) returns (w: nat)
      requires Valid() && j in jobs && !jobs[j] && !Full(j)
      modifies this`coordinators, this`totalWaiters, this`waiterSequence, this`home
      ensures Valid() && w == old(waiterSequence) + 1 == waiterSequence && home == old(home)[w := j]
      ensures j in coordinators && coordinators - {j} == old(coordinators) - {j} && Armed(coordinators[j])
      ensures coordinators[j].waiters == WaitersOf(old(coordinators), j)[w := expires]
    {
      w := waiterSequence + 1;
      var waiters := if j in coordinators then coordinators[j].waiters else map[];
      var more := waiters[w := expires];
      assert w in more;
      var due := NextExpiry(more);
      RegisteredKeeps(View(), j, expires, due);
      ghost var goal := Registered(View(), j, expires, due);
      waiterSequence := w;
      coordinators := coordinators[j := Coordinator(more, Some(due))];
      totalWaiters := totalWaiters + 1;
      home := home[w := j];
      assert View() == goal;
    }

    /** `removeWaiter` and the message, for each of these waiters. */
    method Tell(j: JobId, gone: set<nat>, outcome: Outcome) returns (ghost batch: seq<Settlement>)
      requires j in coordinators && gone <= coordinators[j].waiters.Keys
      modifies this`coordinators, this`totalWaiters, this`home, this`settled
      ensures settled == old(settled) + batch && Settles(batch, gone, outcome) && home == old(home) - gone
      ensures totalWaiters == old(totalWaiters) - |gone|
      ensures var c := old(coordinators)[j];
        coordinators == old(coordinators)[j := Coordinator(c.waiters - gone, c.timer)]
    {
      var left, timer := coordinators[j].waiters, coordinators[j].timer;
      var rest := gone;
      ghost var waiters, done: set<nat> := left, {};
      batch := [];
      NobodyTold(outcome);
      assert waiters - done == waiters;
      while rest != {}
        invariant done !! rest && done + rest == gone && Settles(batch, done, outcome)
        invariant left == waiters - done && coordinators == old(coordinators)[j := Coordinator(left, timer)]
        invariant totalWaiters == old(totalWaiters) - |done| && settled == old(settled) + batch
        invariant home == old(home)
        decreases |rest|
      {
        var w :| w in rest;
        OneGone(waiters, done, w);
        OneMore(batch, done, w, outcome);
        left := left - {w};
        coordinators := coordinators[j := Coordinator(left, timer)];
        totalWaiters := totalWaiters - 1;
        settled := settled + [Settlement(w, outcome)];
        batch, done, rest := batch + [Settlement(w, outcome)], done + {w}, rest - {w};
      }
      assert done == gone;
      home := home - gone;
    }

    /** Settles some of a job's waiters and arms the timer for the rest. */
    method SettleWaiters(j: JobId, gone: set<nat>, outcome: Outcome) returns (ghost batch: seq<Settlement>, ghost at: int)
      requires Valid() && j in coordinators && gone <= coordinators[j].waiters.Keys
      modifies this`coordinators, this`totalWaiters, this`home, this`settled
      ensures Valid() && View() == Settled(old(View()), j, gone, at, batch)
      ensures Settles(batch, gone, outcome) && MaySettle(old(View()), j, gone, at)
      ensures coordinators - {j} == old(coordinators) - {j} && settled == old(settled) + batch
      ensures j in coordinators ==>
        Armed(coordinators[j]) && coordinators[j].waiters == old(coordinators)[j].waiters - gone
    {
      ghost var start, timer := View(), coordinators[j].timer;
      batch := Tell(j, gone, outcome);
      ghost var partial := coordinators;
      at := Arm(j);
      LeftOfPartial(start.coordinators, partial, j, gone, timer, at);
      SettledKeeps(start, j, gone, at, batch, outcome);
    }

    /** The timer of a coordinator fires. */
    method ExpireWaiters(j: JobId, now: int) returns (ghost batch: seq<Settlement>)
      requires Valid() && j in coordinators
      modifies this`coordinators, this`totalWaiters, this`home, this`settled
      ensures Valid()
      // Exactly the expired waiters are told that they timed out.
      ensures settled == old(settled) + batch && AllTold(batch, TimedOut)
      ensures forall w :: WasSettled(batch, w) <==> w in old(coordinators)[j].waiters && old(coordinators)[j].waiters[w] <= now
      // A timer that fires when it is due settles somebody, so that it is not armed for the same moment again.
      ensures old(coordinators)[j].timer.Some? && (old(coordinators)[j].timer.value <= now ==> batch != [])
      // The others stay, with the timer armed for the first of them.
      ensures coordinators - {j} == old(coordinators) - {j}
      ensures j in coordinators ==>
        Armed(coordinators[j]) &&
        var were := old(coordinators)[j].waiters;
        coordinators[j].waiters == map w | w in were && were[w] > now :: were[w]
    {
      var waiters := coordinators[j].waiters;
      CoordinatorIsArmed(View(), j);
      var expired := set w | w in waiters && waiters[w] <= now;
      ghost var at;
      ghost var due := coordinators[j].timer.value;
      batch, at := SettleWaiters(j, expired, TimedOut);
      ToldExactly(batch, expired, TimedOut);
      if due <= now {
        ghost var w :| w in waiters && waiters[w] == due;
        assert WasSettled(batch, w);
      }
    }

    /** The abort listener of a waiter of this job; it does nothing once the waiter is settled. */
    method AbortWaiter(j: JobId, w: nat) returns (ghost batch: seq<Settlement>)
      requires Valid()
      modifies this`coordinators, this`totalWaiters, this`home, this`settled
      ensures Valid() && settled == old(settled) + batch && AllTold(batch, Aborted)
      ensures forall v :: WasSettled(batch, v) <==> v == w && w in WaitersOf(old(coordinators), j)
      ensures coordinators - {j} == old(coordinators) - {j}
      ensures j in coordinators ==> Armed(coordinators[j]) && coordinators[j].waiters == WaitersOf(old(coordinators), j) - {w}
    {
      batch := [];
      if j in coordinators && w in coordinators[j].waiters {
        ghost var at;
        batch, at := SettleWaiters(j, {w}, Aborted);
        ToldExactly(batch, {w}, Aborted);
      } else if j in coordinators {
        CoordinatorIsOk(View(), j);
        assert coordinators[j].waiters - {w} == coordinators[j].waiters;
      }
    }

    /** Everybody who waits for the job is told. */
    method SettleAll(j: JobId, outcome: Outcome) returns (ghost batch: seq<Settlement>)
      requires Valid()
      modifies this`coordinators, this`totalWaiters, this`home, this`settled
      ensures Valid() && coordinators == old(coordinators) - {j}
      ensures settled == old(settled) + batch && AllTold(batch, outcome)
      ensures forall w :: WasSettled(batch, w) <==> w in WaitersOf(old(coordinators), j)
    {
      batch := [];
      if j in coordinators {
        ghost var waiters, at := coordinators[j].waiters, 0;
        batch, at := SettleWaiters(j, coordinators[j].waiters.Keys, outcome);
        NothingLeftIff(waiters, waiters.Keys);
        ToldExactly(batch, waiters.Keys, outcome);
      }
    }

    /** A job is stored that has not ended. */
    method JobAdded(j: JobId)
      requires Valid() && j !in jobs
      modifies this`jobs
      ensures Valid() && jobs == old(jobs)[j := false]
    {
      if j in coordinators {
        CoordinatorIsOk(View(), j);
      }
      JobsChangedKeeps(View(), j, jobs[j := false]);
      jobs := jobs[j := false];
    }

    /** The job ends. */
    method JobEnds(j: JobId) returns (ghost batch: seq<Settlement>)
      requires Valid() && j in jobs
      modifies this
      ensures Valid() && jobs == old(jobs)[j := true] && disposed == old(disposed)
      ensures settled == old(settled) + batch && AllTold(batch, JobEnded)
      ensures forall w :: WasSettled(batch, w) <==> w in WaitersOf(old(coordinators), j)
    {
      batch := SettleAll(j, JobEnded);
      JobsChangedKeeps(View(), j, jobs[j := true]);
      jobs := jobs[j := true];
    }

    /** The job is pruned. */
    method JobPruned(j: JobId) returns (ghost batch: seq<Settlement>)
      requires Valid() && j in jobs
      modifies this
      ensures Valid() && jobs == old(jobs) - {j} && disposed == old(disposed)
      ensures settled == old(settled) + batch && AllTold(batch, JobUnknown)
      ensures forall w :: WasSettled(batch, w) <==> w in WaitersOf(old(coordinators), j)
    {
      batch := SettleAll(j, JobUnknown);
      JobsChangedKeeps(View(), j, jobs - {j});
      jobs := jobs - {j};
    }

    /** Whoever still waits is told; after this every waiter there ever was has been settled, once. */
    method Dispose() returns (ghost batch: seq<Settlement>)
      requires Valid()
      modifies this
      ensures settled == old(settled) + batch && AllTold(batch, Disposed) && (old(disposed) ==> batch == [])
      ensures Valid() && disposed && coordinators == (if old(disposed) then old(coordinators) else map[])
      ensures !old(disposed) ==> totalWaiters == 0 && waiterSequence == old(waiterSequence)
      ensures !old(disposed) ==> SettledOnce(settled) && forall w :: 1 <= w <= waiterSequence ==> WasSettled(settled, w)
    {
      batch := [];
      if disposed {
        return;
      }
      disposed := true;
      while coordinators != map[]
        invariant Valid() && disposed && waiterSequence == old(waiterSequence)
        invariant Telling(old(settled), settled, batch, Disposed)
        decreases |coordinators|
      {
        var j :| j in coordinators;
        Fewer(coordinators, j);
        ghost var before := settled;
        ghost var told := SettleAll(j, Disposed);
        TellingMore(old(settled), before, batch, told, Disposed);
        batch := batch + told;
      }
      NobodyWaits(View());
      ToldSoFar(old(settled), settled, batch, Disposed);
    }
  }

  /** The messages since `before`, all the same; folded. */
  ghost predicate Telling(before: seq<Settlement>, now: seq<Settlement>, batch: seq<Settlement>, outcome: Outcome) {
    forall token: nat :: Unfold(token) && token == 7 ==> now == before + batch && AllTold(batch, outcome)
  }

  lemma TellingMore(before: seq<Settlement>, now: seq<Settlement>, batch: seq<Settlement>,
                    told: seq<Settlement>, outcome: Outcome)
    requires Telling(before, now, batch, outcome) && AllTold(told, outcome)
    ensures Telling(before, now + told, batch + told, outcome)
  {
    assert Unfold(7);
    assert now + told == before + (batch + told);
  }

  lemma ToldSoFar(before: seq<Settlement>, now: seq<Settlement>, batch: seq<Settlement>, outcome: Outcome)
    requires Telling(before, now, batch, outcome)
    ensures now == before + batch && AllTold(batch, outcome)
  {
    assert Unfold(7);
  }

  lemma NobodyTold(outcome: Outcome)
    ensures Settles([], {}, outcome)
  {
  }

  lemma OneGone(waiters: map<nat, int>, done: set<nat>, w: nat)
    ensures waiters - done - {w} == waiters - (done + {w})
  {
  }

  lemma LeftOfPartial(coordinators: Coordinators, partial: Coordinators, j: JobId, gone: set<nat>, timer: Option<int>, due: int)
    requires j in coordinators
    requires partial == coordinators[j := Coordinator(coordinators[j].waiters - gone, timer)]
    ensures var rest := coordinators[j].waiters - gone; Left(coordinators, j, rest, due) == Left(partial, j, rest, due)
  {
    assert partial - {j} == coordinators - {j};
  }

  lemma NobodyWaits(s: State)
    requires Inv(s) && s.coordinators == map[]
    ensures s.total == 0 && SettledOnce(s.settled) && forall w :: 1 <= w <= s.last ==> WasSettled(s.settled, w)
  {
    forall w | w in s.home ensures false {
      WaiterIsHome(s, w);
    }
    assert Unfold(2) && Unfold(4);
  }

  /** The invariant, spelled out. */
  lemma WaitersAreAccountedFor(s: State, w: nat)
    requires Inv(s) && 1 <= w <= s.last
    ensures s.total == Sum(s.coordinators) <= 128
    ensures forall j :: j in s.coordinators ==> 1 <= |s.coordinators[j].waiters| <= 8
    ensures SettledOnce(s.settled)
    ensures WasSettled(s.settled, w) <==> !exists j :: j in s.coordinators && w in s.coordinators[j].waiters
    ensures forall j, k :: j in s.coordinators && k in s.coordinators ==>
      (w in s.coordinators[j].waiters && w in s.coordinators[k].waiters ==> j == k)
  {
    assert Unfold(2) && Unfold(4);
    forall j | j in s.coordinators ensures 1 <= |s.coordinators[j].waiters| <= 8 {
      CoordinatorIsOk(s, j);
    }
    forall j | j in s.coordinators && w in s.coordinators[j].waiters ensures w in s.home && s.home[w] == j {
      CoordinatorIsOk(s, j);
    }
    if w in s.home {
      WaiterIsHome(s, w);
    }
  }

  /** The same for one job: who waits, and for when the timer is armed. */
  lemma CoordinatorIsArmed(s: State, j: JobId)
    requires Inv(s) && j in s.coordinators
    ensures j in s.jobs && !s.jobs[j]
    ensures var c := s.coordinators[j];
      && 1 <= |c.waiters| <= MAX_WAITERS_PER_JOB && c.timer.Some?
      && (exists w :: w in c.waiters && c.waiters[w] == c.timer.value)
      && (forall w :: w in c.waiters ==> c.timer.value <= c.waiters[w])
  {
    CoordinatorIsOk(s, j);
    assert Unfold(6);
  }
}
