/**
 * Following a job's events: pages cut from its two event files (store.go `EventsAfter`), the
 * server's answer (server.go `watch`), and the coordinator's loop that asks again and again
 * (LifecycleManager.ts `watchRunnerJob`).
 */
module Watch {
  import opened Wrappers
  import opened EventLog
  import opened JobDirectory

  const PAGE: nat := 128

  // ---------- Lists of events ----------

  predicate Sorted(events: seq<Event>) {
    forall i, j :: 0 <= i < j < |events| ==> events[i].sequence <= events[j].sequence
  }

  predicate DistinctNumbers(events: seq<Event>) {
    forall i, j :: 0 <= i < j < |events| ==> events[i].sequence != events[j].sequence
  }

  predicate AllAbove(events: seq<Event>, after: nat) {
    forall i :: 0 <= i < |events| ==> events[i].sequence > after
  }

  function LastNumber(events: seq<Event>, after: nat): nat {
    if events == [] then after else events[|events| - 1].sequence
  }

  /** A number behind `after` and not behind the last one that no event has. */
  predicate Missing(events: seq<Event>, after: nat, number: nat) {
    after < number <= LastNumber(events, after) && !Has(events, number)
  }

  lemma {:induction false} EventIsAbove(events: seq<Event>, after: nat, e: Event)
    ensures e in EventsAbove(events, after) <==> e in events && e.sequence > after
  {
    if events != [] {
      InHeadOrRest(events, e);
      EventIsAbove(events[1..], after, e);
    }
  }

  lemma InHeadOrRest(events: seq<Event>, e: Event)
    requires events != []
    ensures e in events <==> e == events[0] || e in events[1..]
  {
    assert events == [events[0]] + events[1..];
  }

  lemma {:induction false} AboveStayDistinct(events: seq<Event>, after: nat)
    requires DistinctNumbers(events)
    ensures DistinctNumbers(EventsAbove(events, after))
  {
    if events != [] {
      var rest := EventsAbove(events[1..], after);
      AboveStayDistinct(events[1..], after);
      forall i | 0 <= i < |rest| ensures rest[i].sequence != events[0].sequence {
        EventIsAbove(events[1..], after, rest[i]);
        var k :| 0 <= k < |events[1..]| && events[1..][k] == rest[i];
        assert events[k + 1] == rest[i];
      }
    }
  }

  lemma EventsAboveAre(events: seq<Event>, after: nat)
    ensures AllAbove(EventsAbove(events, after), after)
    ensures forall e :: e in EventsAbove(events, after) <==> e in events && e.sequence > after
    ensures DistinctNumbers(events) ==> DistinctNumbers(EventsAbove(events, after))
  {
    forall e ensures e in EventsAbove(events, after) <==> e in events && e.sequence > after {
      EventIsAbove(events, after, e);
    }
    if DistinctNumbers(events) {
      AboveStayDistinct(events, after);
    }
  }

  // ---------- One page ----------

  /** What the server finds: the record it reconciled first, and later the two files. */
  datatype Situation = Situation(job: Record, state: seq<Event>, output: seq<Event>)

  function Found(s: Situation, after: nat): seq<Event> {
    EventsAbove(s.state, after) + EventsAbove(s.output, after)
  }

  predicate Numbered(s: Situation) {
    && DistinctNumbers(s.state) && DistinctNumbers(s.output)
    && forall i, j :: 0 <= i < |s.state| && 0 <= j < |s.output| ==> s.state[i].sequence != s.output[j].sequence
  }

  /** Output events have numbers of their own. */
  predicate DistinctOutputs(events: seq<Event>) {
    forall i, j :: 0 <= i < j < |events| && events[i].OutputEvent? && events[j].OutputEvent? ==>
      events[i].sequence != events[j].sequence
  }

  /** No output number is used twice in the output file; state events may share one. */
  predicate OutputsNumbered(s: Situation) {
    DistinctNumbers(s.output) && forall i :: 0 <= i < |s.state| ==> s.state[i].StateEvent?
  }

  lemma FoundOutputs(s: Situation, after: nat)
    requires OutputsNumbered(s)
    ensures DistinctOutputs(Found(s, after))
  {
    EventsAboveAre(s.state, after);
    EventsAboveAre(s.output, after);
    var a := EventsAbove(s.state, after);
    forall i | 0 <= i < |a| ensures a[i].StateEvent? {
      assert a[i] in s.state;
    }
  }

  lemma FoundAre(s: Situation, after: nat)
    ensures AllAbove(Found(s, after), after)
    ensures forall e :: e in Found(s, after) <==> (e in s.state || e in s.output) && e.sequence > after
    ensures Numbered(s) ==> DistinctNumbers(Found(s, after))
  {
    EventsAboveAre(s.state, after);
    EventsAboveAre(s.output, after);
    var a, b := EventsAbove(s.state, after), EventsAbove(s.output, after);
    if Numbered(s) {
      forall i, j | 0 <= i < |a| && 0 <= j < |b| ensures a[i].sequence != b[j].sequence {
        assert a[i] in s.state && b[j] in s.output;
      }
    }
  }

  method SortBySequence(events: seq<Event>) returns (sorted: seq<Event>)
    ensures Sorted(sorted) && multiset(sorted) == multiset(events)
    ensures DistinctNumbers(events) ==> DistinctNumbers(sorted)
    ensures DistinctOutputs(events) ==> DistinctOutputs(sorted)
  {
    sorted := [];
    for n := 0 to |events|
      invariant Sorted(sorted) && multiset(sorted) == multiset(events[..n])
      invariant DistinctNumbers(events) ==> DistinctNumbers(sorted)
      invariant DistinctOutputs(events) ==> DistinctOutputs(sorted)
    {
      var k := 0;
      while k < |sorted| && sorted[k].sequence <= events[n].sequence
        invariant 0 <= k <= |sorted|
        invariant forall i :: 0 <= i < k ==> sorted[i].sequence <= events[n].sequence
      {
        k := k + 1;
      }
      InsertedAt(events, n, sorted, k);
      InsertedOutput(events, n, sorted, k);
      sorted := sorted[..k] + [events[n]] + sorted[k..];
    }
    assert events[..|events|] == events;
  }

  lemma InsertedAt(events: seq<Event>, n: nat, sorted: seq<Event>, k: nat)
    requires n < |events| && k <= |sorted| && Sorted(sorted) && multiset(sorted) == multiset(events[..n])
    requires forall i :: 0 <= i < k ==> sorted[i].sequence <= events[n].sequence
    requires k < |sorted| ==> sorted[k].sequence > events[n].sequence
    ensures var longer := sorted[..k] + [events[n]] + sorted[k..];
      && Sorted(longer) && multiset(longer) == multiset(events[..n + 1])
      && (DistinctNumbers(events) && DistinctNumbers(sorted) ==> DistinctNumbers(longer))
  {
    InsertedInOrder(sorted, k, events[n]);
    InsertedBag(sorted, k, events[n]);
    PrefixBag(events, n);
    if DistinctNumbers(events) && DistinctNumbers(sorted) {
      forall i | 0 <= i < |sorted| ensures sorted[i].sequence != events[n].sequence {
        assert sorted[i] in multiset(events[..n]);
      }
      InsertedDistinct(sorted, k, events[n]);
    }
  }

  lemma InsertedOutput(events: seq<Event>, n: nat, sorted: seq<Event>, k: nat)
    requires n < |events| && k <= |sorted| && multiset(sorted) == multiset(events[..n])
    ensures DistinctOutputs(events) && DistinctOutputs(sorted) ==> DistinctOutputs(sorted[..k] + [events[n]] + sorted[k..])
  {
    var e, longer := events[n], sorted[..k] + [events[n]] + sorted[k..];
    if DistinctOutputs(events) && DistinctOutputs(sorted) {
      forall i | 0 <= i < |sorted| && sorted[i].OutputEvent? && e.OutputEvent? ensures sorted[i].sequence != e.sequence {
        assert sorted[i] in multiset(events[..n]);
        var m :| 0 <= m < n && events[..n][m] == sorted[i];
        assert events[m] == sorted[i];
      }
      forall i, j | 0 <= i < j < |longer| && longer[i].OutputEvent? && longer[j].OutputEvent?
        ensures longer[i].sequence != longer[j].sequence
      {
        assert longer[i] == if i < k then sorted[i] else if i == k then e else sorted[i - 1];
        assert longer[j] == if j < k then sorted[j] else if j == k then e else sorted[j - 1];
      }
    }
  }

  lemma InsertedBag<T>(s: seq<T>, k: nat, e: T)
    requires k <= |s|
    ensures multiset(s[..k] + [e] + s[k..]) == multiset(s) + multiset{e}
  {
    assert s == s[..k] + s[k..];
  }

  lemma PrefixBag<T>(s: seq<T>, n: nat)
    requires n < |s|
    ensures multiset(s[..n + 1]) == multiset(s[..n]) + multiset{s[n]}
  {
    assert s[..n + 1] == s[..n] + [s[n]];
  }

  lemma InsertedInOrder(sorted: seq<Event>, k: nat, e: Event)
    requires k <= |sorted| && Sorted(sorted)
    requires forall i :: 0 <= i < k ==> sorted[i].sequence <= e.sequence
    requires k < |sorted| ==> sorted[k].sequence > e.sequence
    ensures Sorted(sorted[..k] + [e] + sorted[k..])
  {
    var longer := sorted[..k] + [e] + sorted[k..];
    forall i, j | 0 <= i < j < |longer| ensures longer[i].sequence <= longer[j].sequence {
      assert longer[i] == if i < k then sorted[i] else if i == k then e else sorted[i - 1];
      assert longer[j] == if j < k then sorted[j] else if j == k then e else sorted[j - 1];
    }
  }

  lemma InsertedDistinct(sorted: seq<Event>, k: nat, e: Event)
    requires k <= |sorted| && DistinctNumbers(sorted)
    requires forall i :: 0 <= i < |sorted| ==> sorted[i].sequence != e.sequence
    ensures DistinctNumbers(sorted[..k] + [e] + sorted[k..])
  {
    var longer := sorted[..k] + [e] + sorted[k..];
    forall i, j | 0 <= i < j < |longer| ensures longer[i].sequence != longer[j].sequence {
      assert longer[i] == if i < k then sorted[i] else if i == k then e else sorted[i - 1];
      assert longer[j] == if j < k then sorted[j] else if j == k then e else sorted[j - 1];
    }
  }

  method HasGap(events: seq<Event>, after: nat) returns (gap: bool)
    requires Sorted(events) && AllAbove(events, after)
    ensures gap <==> exists number :: Missing(events, after, number)
  {
    gap := |events| > 0 && events[0].sequence > after + 1;
    if gap {
      assert Missing(events, after, after + 1);
      return;
    }
    var index := 1;
    while index < |events| && !gap
      invariant index >= 1 && (gap ==> exists number :: Missing(events, after, number))
      invariant !gap && 0 < |events| ==> index <= |events| && NoneMissing(events, after, index)
    {
      gap := events[index].sequence > events[index - 1].sequence + 1;
      if gap {
        GapAt(events, after, index);
      } else {
        NoGapAt(events, after, index);
      }
      index := index + 1;
    }
  }

  predicate NoneMissing(events: seq<Event>, after: nat, n: nat)
    requires 0 < n <= |events|
  {
    forall number :: after < number <= events[n - 1].sequence ==> Has(events, number)
  }

  lemma GapAt(events: seq<Event>, after: nat, i: nat)
    requires Sorted(events) && AllAbove(events, after) && 0 < i < |events|
    requires events[i].sequence > events[i - 1].sequence + 1
    ensures Missing(events, after, events[i - 1].sequence + 1)
  {
    forall k | 0 <= k < |events| ensures events[k].sequence != events[i - 1].sequence + 1 {
      if k < i {
        assert k == i - 1 || events[k].sequence <= events[i - 1].sequence;
      } else {
        assert k == i || events[i].sequence <= events[k].sequence;
      }
    }
  }

  lemma NoGapAt(events: seq<Event>, after: nat, i: nat)
    requires 0 < i < |events| && NoneMissing(events, after, i)
    requires events[i].sequence <= events[i - 1].sequence + 1
    ensures NoneMissing(events, after, i + 1)
  {
    assert Has(events, events[i].sequence);
  }

  /** The page of some sorted listing of what was found, and whether that listing has a gap. */
  ghost predicate IsPage(s: Situation, after: nat, page: seq<Event>, truncated: bool) {
    exists listed: seq<Event> ::
      Sorted(listed) && multiset(listed) == multiset(Found(s, after)) && PageOf(listed, after, page, truncated)
  }

  ghost predicate PageOf(listed: seq<Event>, after: nat, page: seq<Event>, truncated: bool) {
    && page == listed[..if |listed| > PAGE then PAGE else |listed|]
    && (truncated <==> exists number :: Missing(listed, after, number))
  }

  method EventsAfter(s: Situation, after: nat) returns (page: seq<Event>, truncated: bool, ghost listed: seq<Event>)
    ensures IsPage(s, after, page, truncated)
    ensures Sorted(listed) && multiset(listed) == multiset(Found(s, after))
    ensures Numbered(s) ==> DistinctNumbers(listed)
    ensures OutputsNumbered(s) ==> DistinctOutputs(listed)
    ensures truncated <==> exists number :: Missing(listed, after, number)
    ensures page == listed[..if |listed| > PAGE then PAGE else |listed|]
  {
    FoundAre(s, after);
    if OutputsNumbered(s) {
      FoundOutputs(s, after);
    }
    var events := SortBySequence(Found(s, after));
    listed := events;
    forall i | 0 <= i < |events| ensures events[i].sequence > after {
      assert events[i] in multiset(Found(s, after));
    }
    truncated := HasGap(events, after);
    if |events| > PAGE {
      events := events[..PAGE];
    }
    page := events;
    assert PageOf(listed, after, page, truncated);
  }

  // ---------- The server's answer ----------

  datatype Reply = Reply(job: Record, events: seq<Event>, truncated: bool, next: nat, timedOut: bool)

  predicate Present(s: Situation, e: Event) {
    e in s.state || e in s.output
  }

  /** A number that no present event has, although some event has a larger one. */
  ghost predicate Gap(s: Situation, after: nat, number: nat) {
    && after < number && (forall e :: Present(s, e) ==> e.sequence != number)
    && exists e :: Present(s, e) && e.sequence > number
  }

  /** An answer to `watch`, in terms of the situation it was made in. */
  ghost predicate Serves(s: Situation, after: nat, r: Reply) {
    && r.job == s.job && |r.events| <= 128 && r.next >= after
    && Sorted(r.events) && AllAbove(r.events, after)
    && (forall e :: e in r.events ==> Present(s, e) && e.sequence <= r.next)
    && (r.events != [] ==> r.next == LastNumber(r.events, after))
    && (r.events == [] ==>
          && (forall e :: Present(s, e) ==> e.sequence <= after)
          && (r.truncated <==> s.job.truncated && s.job.lastSequence > after)
          && r.next == if r.truncated then s.job.lastSequence else after)
    // An answer with events is marked truncated exactly if a number is missing among all that is there.
    && (r.events != [] ==> (r.truncated <==> exists number :: Gap(s, after, number)))
    // Nothing is passed over silently, by number.
    && (r.truncated || forall number :: after < number <= r.next ==> Has(r.events, number))
    // And nothing that is still there, event by event: below the last number, on a page that is
    // not full, or everywhere if no number is used twice.
    && (forall e :: Present(s, e) && after < e.sequence < r.next ==> e in r.events || r.events == [])
    && (|r.events| < 128 ==> forall e :: Present(s, e) && e.sequence > after ==> e in r.events)
    && (OutputsNumbered(s) ==> DistinctOutputs(r.events))
    && (Numbered(s) ==> DistinctNumbers(r.events) && forall e :: Present(s, e) && after < e.sequence <= r.next ==> e in r.events)
  }

  /** The page of a sorted list: every number up to its last is on it, or nowhere in the list. */
  lemma PageIsPrefix(listed: seq<Event>, after: nat, n: nat)
    requires Sorted(listed) && AllAbove(listed, after) && 0 < n <= |listed|
    ensures var page := listed[..n];
      && Sorted(page) && AllAbove(page, after) && LastNumber(page, after) <= LastNumber(listed, after)
      && (forall e :: e in page ==> e.sequence <= LastNumber(page, after))
      && (forall number :: after < number <= LastNumber(page, after) && Has(listed, number) ==> Has(page, number))
  {
    var page := listed[..n];
    forall number | after < number <= LastNumber(page, after) && Has(listed, number) ensures Has(page, number) {
      var k :| 0 <= k < |listed| && listed[k].sequence == number;
      assert page[if k < n then k else n - 1].sequence == number;
    }
  }

  /** Every event below the last number of the page is on it. */
  lemma PageHasLower(listed: seq<Event>, after: nat, n: nat)
    requires Sorted(listed) && 0 < n <= |listed|
    ensures forall e :: e in listed && e.sequence < LastNumber(listed[..n], after) ==> e in listed[..n]
  {
    var page := listed[..n];
    forall e | e in listed && e.sequence < LastNumber(page, after) ensures e in page {
      var k :| 0 <= k < |listed| && listed[k] == e;
      assert k < n;
      assert page[k] == e;
    }
  }

  /** If numbers are distinct, every event up to the last on the page is on it. */
  lemma PageIsComplete(listed: seq<Event>, after: nat, n: nat)
    requires Sorted(listed) && DistinctNumbers(listed) && 0 < n <= |listed|
    ensures DistinctNumbers(listed[..n])
    ensures forall e :: e in listed && e.sequence <= LastNumber(listed[..n], after) ==> e in listed[..n]
  {
    var page := listed[..n];
    forall e | e in listed && e.sequence <= LastNumber(page, after) ensures e in page {
      var k :| 0 <= k < |listed| && listed[k] == e;
      assert page[if k < n then k else n - 1] == e;
    }
  }

  /**
   * When a page leaves out an event that it passes over: exactly when it ends between two
   * events with one number. (The next request starts behind that number.)
   */
  lemma PageSplitsTieIff(listed: seq<Event>, after: nat, n: nat)
    requires Sorted(listed) && AllAbove(listed, after) && 0 < n <= |listed|
    ensures (exists k :: n <= k < |listed| && listed[k].sequence <= LastNumber(listed[..n], after)) <==>
      (n < |listed| && listed[n - 1].sequence == listed[n].sequence)
  {
    assert LastNumber(listed[..n], after) == listed[n - 1].sequence;
    if n < |listed| && listed[n - 1].sequence == listed[n].sequence {
      assert n <= n < |listed| && listed[n].sequence <= LastNumber(listed[..n], after);
    }
  }

  /** The list holds what is present above the number. */
  ghost predicate ListsPresent(s: Situation, after: nat, listed: seq<Event>) {
    && Sorted(listed) && AllAbove(listed, after)
    && (forall e :: e in listed ==> Present(s, e))
    && (forall e :: Present(s, e) && e.sequence > after ==> e in listed)
  }

  lemma ListingIsPresent(s: Situation, after: nat, listed: seq<Event>)
    requires Sorted(listed) && multiset(listed) == multiset(Found(s, after))
    ensures ListsPresent(s, after, listed)
  {
    FoundAre(s, after);
    forall e ensures e in listed <==> Present(s, e) && e.sequence > after {
      assert e in listed <==> e in multiset(listed);
      assert e in Found(s, after) <==> e in multiset(Found(s, after));
    }
  }

  lemma GapIsMissing(s: Situation, after: nat, listed: seq<Event>, number: nat)
    requires ListsPresent(s, after, listed)
    ensures Missing(listed, after, number) <==> Gap(s, after, number)
  {
    if Missing(listed, after, number) {
      if listed != [] {
        var e := listed[|listed| - 1];
        assert e in listed && e.sequence == LastNumber(listed, after);
        assert Has(listed, e.sequence);
      }
      forall e | Present(s, e) ensures e.sequence != number {
        if e.sequence > after {
          var k :| 0 <= k < |listed| && listed[k] == e;
        }
      }
    }
    if Gap(s, after, number) {
      var e :| Present(s, e) && e.sequence > number;
      var k :| 0 <= k < |listed| && listed[k] == e;
      forall k | 0 <= k < |listed| ensures listed[k].sequence != number {
        assert listed[k] in listed;
      }
    }
  }

  lemma PageServes(s: Situation, after: nat, listed: seq<Event>, gap: bool, r: Reply)
    requires ListsPresent(s, after, listed) && (Numbered(s) ==> DistinctNumbers(listed))
    requires OutputsNumbered(s) ==> DistinctOutputs(listed)
    requires gap <==> exists number :: Missing(listed, after, number)
    requires r.events == listed[..if |listed| > PAGE then PAGE else |listed|] && r.job == s.job
    requires r.truncated <==> gap || (r.events == [] && s.job.truncated && s.job.lastSequence > after)
    requires r.next == if r.events != [] then LastNumber(r.events, after)
                       else if r.truncated then s.job.lastSequence else after
    ensures Serves(s, after, r)
  {
    forall number ensures Missing(listed, after, number) <==> Gap(s, after, number) {
      GapIsMissing(s, after, listed, number);
    }
    if listed != [] {
      FullPage(s, after, listed, if |listed| > PAGE then PAGE else |listed|, r);
    } else {
      assert forall number :: !Missing(listed, after, number);
      EmptyPage(s, after, listed, r);
    }
  }

  lemma FullPage(s: Situation, after: nat, listed: seq<Event>, n: nat, r: Reply)
    requires ListsPresent(s, after, listed) && (Numbered(s) ==> DistinctNumbers(listed))
    requires OutputsNumbered(s) ==> DistinctOutputs(listed)
    requires 0 < n <= |listed| && n == (if |listed| > PAGE then PAGE else |listed|)
    requires r.events == listed[..n] && r.job == s.job
    requires r.truncated || forall number :: !Missing(listed, after, number)
    requires r.truncated <==> exists number :: Gap(s, after, number)
    requires r.next == LastNumber(r.events, after)
    ensures Serves(s, after, r)
  {
    PageIsPrefix(listed, after, n);
    PageHasLower(listed, after, n);
    if DistinctNumbers(listed) {
      PageIsComplete(listed, after, n);
    }
    if !r.truncated {
      forall number | after < number <= r.next ensures Has(r.events, number) {
        assert !Missing(listed, after, number);
      }
    }
  }

  lemma EmptyPage(s: Situation, after: nat, listed: seq<Event>, r: Reply)
    requires listed == [] && r.events == [] && r.job == s.job
    requires forall e :: Present(s, e) ==> e.sequence <= after
    requires r.next == (if r.truncated then s.job.lastSequence else after)
    requires r.truncated <==> s.job.truncated && s.job.lastSequence > after
    ensures Serves(s, after, r)
  {
  }

  /** The server polls; each poll reconciles the record and then may read the files. */
  method WatchJob(polls: seq<Situation>, after: nat) returns (r: Reply, at: nat)
    requires polls != []
    ensures at < |polls|
    // It answers at the first poll with anything due, and times out at the last one.
    ensures forall k :: 0 <= k < at ==> !Terminal(polls[k].job.state) && polls[k].job.lastSequence <= after
    ensures r.timedOut <==> !Terminal(polls[at].job.state) && polls[at].job.lastSequence <= after
    ensures r.timedOut ==> at == |polls| - 1
    ensures r.timedOut ==> r == Reply(polls[at].job, [], false, after, true)
    ensures r.timedOut ==> !Terminal(r.job.state) && r.job.lastSequence <= after
    ensures !r.timedOut ==> Serves(polls[at], after, r)
  {
    at := 0;
    while true
      invariant at < |polls|
      invariant forall k :: 0 <= k < at ==> !Terminal(polls[k].job.state) && polls[k].job.lastSequence <= after
      decreases |polls| - at
    {
      var s := polls[at];
      if s.job.lastSequence > after || Terminal(s.job.state) {
        var events, gap, listed := EventsAfter(s, after);
        var truncated := gap || (|events| == 0 && s.job.truncated && s.job.lastSequence > after);
        var next := HighestNumber(events, after);
        if |events| == 0 && truncated {
          next := s.job.lastSequence;
        }
        r := Reply(s.job, events, truncated, next, false);
        NumbersOfPage(s, after, listed, events);
        ListingIsPresent(s, after, listed);
        PageServes(s, after, listed, gap, r);
        return;
      }
      if at == |polls| - 1 {
        r := Reply(s.job, [], false, after, true);
        return;
      }
      at := at + 1;
    }
  }

  method HighestNumber(events: seq<Event>, after: nat) returns (next: nat)
    ensures Sorted(events) && AllAbove(events, after) ==> next == LastNumber(events, after)
  {
    next := after;
    for i := 0 to |events|
      invariant Sorted(events) && AllAbove(events, after) ==> next == LastNumber(events[..i], after)
    {
      if events[i].sequence > next {
        next := events[i].sequence;
      }
    }
    assert events[..|events|] == events;
  }

  lemma EmptyBag<T>(s: seq<T>)
    requires multiset(s) == multiset([])
    ensures s == []
  {
    assert |multiset(s)| == |s|;
  }

  lemma NumbersOfPage(s: Situation, after: nat, listed: seq<Event>, page: seq<Event>)
    requires Sorted(listed) && multiset(listed) == multiset(Found(s, after))
    requires page == listed[..if |listed| > PAGE then PAGE else |listed|]
    ensures Sorted(page) && AllAbove(page, after) && (page == [] <==> listed == [])
    ensures page == [] ==> forall e :: Present(s, e) ==> e.sequence <= after
  {
    FoundAre(s, after);
    forall i | 0 <= i < |listed| ensures listed[i].sequence > after {
      assert listed[i] in multiset(Found(s, after));
    }
    if page == [] {
      EmptyBag(Found(s, after));
    }
  }
}
