/**
 * The coordinator's loop over a Runner job (LifecycleManager.ts `watchRunnerJob`), against the
 * server of module Watch and a transport that may fail any call. And the server's `cancel`.
 */
module Coordinator {
  import opened Wrappers
  import opened EventLog
  import opened JobDirectory
  import opened Watch
  import Finality

  // ---------- What the Runner produces ----------

  /**
   * Everything a job ever logs, in the state file and as output, and the numbers under which the
   * server logged that it is lost.
   */
  datatype Log = Log(states: seq<Event>, outputs: seq<Event>, lost: seq<nat>)

  /** No output is empty, none shares its number with another, and with a Lost event at most. */
  predicate History(log: Log) {
    && DistinctNumbers(log.outputs)
    && (forall i :: 0 <= i < |log.states| ==> log.states[i].StateEvent?)
    && (forall i :: 0 <= i < |log.outputs| ==>
          log.outputs[i].OutputEvent? && log.outputs[i].sequence >= 1 && log.outputs[i].data != "")
    && (forall i, j :: 0 <= i < |log.states| && 0 <= j < |log.outputs| ==>
          log.states[i].sequence != log.outputs[j].sequence || log.outputs[j].sequence in log.lost)
  }

  /** The files hold some of it: not all is written yet, and some is no longer retained. */
  predicate Within(s: Situation, log: Log) {
    && DistinctNumbers(s.output)
    && (forall e :: e in s.state ==> e in log.states)
    && (forall e :: e in s.output ==> e in log.outputs)
  }

  // ---------- The transport ----------

  /** The answer to one call: the server's, over its polls, or an error, maybe past the deadline. */
  datatype Exchange = Answered(polls: seq<Situation>) | Broken(conflict: bool, expired: bool)

  predicate ExchangeOk(x: Exchange, log: Log) {
    x.Answered? ==> x.polls != [] && forall k :: 0 <= k < |x.polls| ==> Within(x.polls[k], log)
  }

  predicate Consistent(script: seq<Exchange>, log: Log) {
    forall i :: 0 <= i < |script| ==> ExchangeOk(script[i], log)
  }

  // ---------- What was delivered ----------

  function OutputsOf(events: seq<Event>): seq<Event> {
    if events == [] then []
    else
      var init, last := OutputsOf(events[..|events| - 1]), events[|events| - 1];
      if Delivers(last) then init + [last] else init
  }

  predicate StrictlyIncreasing(events: seq<Event>) {
    forall i, j :: 0 <= i < j < |events| ==> events[i].sequence < events[j].sequence
  }

  predicate Delivers(e: Event) {
    e.OutputEvent? && e.data != ""
  }

  lemma InInitOrLast(events: seq<Event>, e: Event)
    requires events != []
    ensures e in events <==> e in events[..|events| - 1] || e == events[|events| - 1]
  {
    assert events == events[..|events| - 1] + [events[|events| - 1]];
  }

  lemma {:induction false} OutputsOfMember(events: seq<Event>, e: Event)
    ensures e in OutputsOf(events) <==> e in events && Delivers(e)
  {
    if events != [] {
      InInitOrLast(events, e);
      OutputsOfMember(events[..|events| - 1], e);
    }
  }

  lemma {:induction false} OutputsOfIncrease(events: seq<Event>)
    requires Sorted(events) && DistinctOutputs(events)
    ensures StrictlyIncreasing(OutputsOf(events))
  {
    if events != [] {
      var init, last := events[..|events| - 1], events[|events| - 1];
      OutputsOfIncrease(init);
      forall i | 0 <= i < |OutputsOf(init)| && Delivers(last) ensures OutputsOf(init)[i].sequence < last.sequence {
        OutputsOfMember(init, OutputsOf(init)[i]);
        var k :| 0 <= k < |init| && init[k] == OutputsOf(init)[i];
      }
    }
  }

  lemma OutputsOfAre(events: seq<Event>)
    ensures forall e :: e in OutputsOf(events) <==> e in events && e.OutputEvent? && e.data != ""
    ensures Sorted(events) && DistinctOutputs(events) ==> StrictlyIncreasing(OutputsOf(events))
  {
    forall e ensures e in OutputsOf(events) <==> e in events && Delivers(e) {
      OutputsOfMember(events, e);
    }
    if Sorted(events) && DistinctOutputs(events) {
      OutputsOfIncrease(events);
    }
  }

  lemma OutputsStep(events: seq<Event>, n: nat)
    requires n < |events|
    ensures OutputsOf(events[..n + 1]) ==
      OutputsOf(events[..n]) + if Delivers(events[n]) then [events[n]] else []
  {
    assert events[..n + 1][..n] == events[..n];
  }

  /** A number that a truncated answer passed over. */
  predicate Excused(passed: seq<(nat, nat)>, number: nat) {
    exists k :: 0 <= k < |passed| && passed[k].0 < number <= passed[k].1
  }

  /**
   * Every output event so far is delivered once, in the order of its number, or was passed over
   * by an answer that said so, or shares its number with a Lost event; folded.
   */
  ghost predicate Delivered(log: Log, last: nat, received: seq<Event>, passed: seq<(nat, nat)>) {
    forall token: nat :: Unfold(token) ==>
      && StrictlyIncreasing(received)
      && (forall e :: e in received ==> e in log.outputs && e.sequence <= last)
      && (forall e :: e in log.outputs && e.sequence <= last ==>
            e in received || Excused(passed, e.sequence) || e.sequence in log.lost)
  }

  lemma DeliveredInOrder(log: Log, last: nat, received: seq<Event>, passed: seq<(nat, nat)>)
    requires Delivered(log, last, received, passed)
    ensures StrictlyIncreasing(received)
    ensures forall e :: e in received ==> e in log.outputs && e.sequence <= last
    ensures forall e :: e in log.outputs && e.sequence <= last ==>
      e in received || Excused(passed, e.sequence) || e.sequence in log.lost
  {
    assert Unfold(0);
  }

  ghost predicate Truncates(s: Situation, after: nat, r: Reply) {
    Serves(s, after, r) && r.truncated
  }

  /** Some poll of the script has a truncated answer that leads from the one number to the other. */
  ghost predicate Owed(script: seq<Exchange>, range: (nat, nat)) {
    exists i, k, r :: 0 <= i < |script| && script[i].Answered? && 0 <= k < |script[i].polls|
      && Truncates(script[i].polls[k], range.0, r) && r.next == range.1
  }

  function PassedAfter(passed: seq<(nat, nat)>, after: nat, r: Reply): seq<(nat, nat)> {
    if r.truncated then passed + [(after, r.next)] else passed
  }

  lemma ExcusedStays(passed: seq<(nat, nat)>, range: (nat, nat), number: nat)
    requires Excused(passed, number)
    ensures Excused(passed + [range], number)
  {
    var k :| 0 <= k < |passed| && passed[k].0 < number <= passed[k].1;
    assert (passed + [range])[k] == passed[k];
  }

  lemma SharedOnlyWithLost(log: Log, f: Event, e: Event)
    requires History(log) && f in log.states && e in log.outputs
    ensures f.StateEvent? && e.OutputEvent? && (f.sequence == e.sequence ==> e.sequence in log.lost)
  {
    var i :| 0 <= i < |log.states| && log.states[i] == f;
    var j :| 0 <= j < |log.outputs| && log.outputs[j] == e;
  }

  lemma OneOutputPerNumber(log: Log, e: Event, f: Event)
    requires History(log) && e in log.outputs && f in log.outputs && e.sequence == f.sequence
    ensures e == f
  {
    var i :| 0 <= i < |log.outputs| && log.outputs[i] == f;
    var j :| 0 <= j < |log.outputs| && log.outputs[j] == e;
    assert i == j;
  }

  /** An output event up to `next` is on the page, or shares its number, unless the answer is marked truncated. */
  lemma PageDelivers(s: Situation, log: Log, after: nat, r: Reply, e: Event)
    requires History(log) && Within(s, log) && Serves(s, after, r) && !r.truncated
    requires e in log.outputs && after < e.sequence <= r.next
    ensures e in r.events || e.sequence in log.lost
  {
    assert Has(r.events, e.sequence);
    var k :| 0 <= k < |r.events| && r.events[k].sequence == e.sequence;
    var f := r.events[k];
    assert f in r.events;
    assert Present(s, f);
    if f in s.state {
      SharedOnlyWithLost(log, f, e);
    } else {
      OneOutputPerNumber(log, e, f);
    }
  }

  lemma SituationOfHistory(s: Situation, log: Log)
    requires History(log) && Within(s, log)
    ensures OutputsNumbered(s)
  {
    forall i | 0 <= i < |s.state| ensures s.state[i].StateEvent? {
      assert s.state[i] in log.states;
    }
  }

  /** Outputs on the page come from the history. */
  lemma PageIsHistory(s: Situation, log: Log, after: nat, r: Reply)
    requires History(log) && Within(s, log) && Serves(s, after, r)
    ensures forall e :: e in OutputsOf(r.events) ==> e in log.outputs && after < e.sequence <= r.next
    ensures StrictlyIncreasing(OutputsOf(r.events))
  {
    SituationOfHistory(s, log);
    OutputsOfAre(r.events);
    forall e | e in log.states ensures e.StateEvent? {
      var i :| 0 <= i < |log.states| && log.states[i] == e;
    }
    forall e | e in OutputsOf(r.events) ensures e in log.outputs && after < e.sequence <= r.next {
      var k :| 0 <= k < |r.events| && r.events[k] == e;
      assert Present(s, e);
      assert e in s.state ==> e in log.states;
    }
  }

  lemma AppendedInOrder(a: seq<Event>, b: seq<Event>, last: nat)
    requires StrictlyIncreasing(a) && StrictlyIncreasing(b)
    requires (forall e :: e in a ==> e.sequence <= last) && (forall e :: e in b ==> e.sequence > last)
    ensures StrictlyIncreasing(a + b)
  {
    forall i, j | 0 <= i < j < |a + b| ensures (a + b)[i].sequence < (a + b)[j].sequence {
      if i < |a| <= j {
        assert a[i] in a && b[j - |a|] in b;
      }
    }
  }

  lemma ReplyDelivers(s: Situation, log: Log, after: nat, r: Reply, received: seq<Event>, passed: seq<(nat, nat)>)
    requires History(log) && Within(s, log) && Serves(s, after, r) && Delivered(log, after, received, passed)
    ensures Delivered(log, r.next, received + OutputsOf(r.events), PassedAfter(passed, after, r))
  {
    DeliveredInOrder(log, after, received, passed);
    PageIsHistory(s, log, after, r);
    OutputsOfAre(r.events);
    AppendedInOrder(received, OutputsOf(r.events), after);
    var passedNow := PassedAfter(passed, after, r);
    forall e | e in log.outputs && e.sequence <= r.next
      ensures e in received + OutputsOf(r.events) || Excused(passedNow, e.sequence) || e.sequence in log.lost
    {
      if e.sequence <= after {
        if e !in received && r.truncated && Excused(passed, e.sequence) {
          ExcusedStays(passed, (after, r.next), e.sequence);
        }
      } else if r.truncated {
        assert passedNow[|passed|].0 < e.sequence <= passedNow[|passed|].1;
      } else {
        PageDelivers(s, log, after, r, e);
        var j :| 0 <= j < |log.outputs| && log.outputs[j] == e;
        assert log.outputs[j].data != "";
      }
    }
  }

  lemma NothingDelivers(log: Log, last: nat, received: seq<Event>, passed: seq<(nat, nat)>)
    requires Delivered(log, last, received, passed)
    ensures Delivered(log, last, received + OutputsOf([]), passed)
  {
    assert received + [] == received;
  }

  // ---------- The loop ----------

  datatype Ending = Finished(job: Record) | Conflicting | StateLost | StillWatching

  /** What the coordinator has: its number, the output, the ranges passed over, and the remote job. */
  datatype Progress = Progress(last: nat, received: seq<Event>, passed: seq<(nat, nat)>, remote: Record)

  predicate Done(p: Progress) {
    Terminal(p.remote.state) && p.last >= p.remote.lastSequence
  }

  function Consumed(p: Progress, answer: Option<Reply>): Progress {
    if answer.None? then p
    else
      var r := answer.value;
      Progress(r.next, p.received + OutputsOf(r.events), PassedAfter(p.passed, p.last, r), r.job)
  }

  /** Where the answers lead; None is a call that failed. */
  function Followed(p: Progress, answers: seq<Option<Reply>>): Progress {
    if answers == [] then p else Consumed(Followed(p, answers[..|answers| - 1]), answers[|answers| - 1])
  }

  ghost predicate Answers(x: Exchange, after: nat, answer: Option<Reply>) {
    match x
    case Broken(conflict, expired) => answer.None? && !conflict && !expired
    case Answered(polls) =>
      answer.Some? && exists k :: 0 <= k < |polls| && AnswersPoll(polls[k], after, answer.value)
  }

  /** That nothing was due. */
  predicate TimesOut(s: Situation, after: nat, r: Reply) {
    r == Reply(s.job, [], false, after, true) && !Terminal(s.job.state) && s.job.lastSequence <= after
  }

  /** The server's answer to a poll; folded. */
  ghost predicate AnswersPoll(s: Situation, after: nat, r: Reply) {
    forall token: nat :: Unfold(token) ==> Serves(s, after, r) || TimesOut(s, after, r)
  }

  lemma AnsweredIs(s: Situation, after: nat, r: Reply)
    requires AnswersPoll(s, after, r)
    ensures Serves(s, after, r) || TimesOut(s, after, r)
  {
    assert Unfold(0);
  }

  /** Each entry answers its exchange, from where the earlier ones led, while the loop is not done. */
  ghost predicate Trail(script: seq<Exchange>, p: Progress, answers: seq<Option<Reply>>) {
    answers == [] ||
    (|answers| <= |script| &&
     var n := |answers| - 1;
     Trail(script, p, answers[..n]) && !Done(Followed(p, answers[..n]))
     && Answers(script[n], Followed(p, answers[..n]).last, answers[n]))
  }

  predicate EndsSo(script: seq<Exchange>, p: Progress, used: nat, ending: Ending)
    requires used <= |script|
  {
    match ending
    case Finished(job) => Done(p) && job == p.remote
    case StillWatching => !Done(p) && used == |script|
    case Conflicting => !Done(p) && used < |script| && script[used].Broken? && script[used].conflict
    case StateLost => !Done(p) && used < |script| && script[used].Broken? && !script[used].conflict && script[used].expired
  }

  /** The loop so far: the trail, where it led, and to what each range passed over is owed; folded. */
  ghost predicate Travelled(script: seq<Exchange>, p: Progress, answers: seq<Option<Reply>>, now: Progress) {
    forall token: nat :: Unfold(token) ==>
      && Trail(script, p, answers) && Followed(p, answers) == now
      && p.received <= now.received && p.last <= now.last && p.passed <= now.passed
      && forall k :: |p.passed| <= k < |now.passed| ==> Owed(script, now.passed[k])
  }

  lemma TravelBegins(script: seq<Exchange>, p: Progress)
    ensures Travelled(script, p, [], p)
  {
  }

  lemma TravelGoesOn(script: seq<Exchange>, p: Progress, answers: seq<Option<Reply>>, now: Progress,
                     answer: Option<Reply>, at: nat)
    requires Travelled(script, p, answers, now) && |answers| < |script| && !Done(now)
    requires match script[|answers|]
      case Broken(conflict, expired) => answer.None? && !conflict && !expired
      case Answered(polls) => answer.Some? && at < |polls| && AnswersPoll(polls[at], now.last, answer.value)
    ensures Travelled(script, p, answers + [answer], Consumed(now, answer))
  {
    assert Unfold(0);
    TrailGrows(script, p, answers, answer, at);
    var next := Consumed(now, answer);
    forall k | |p.passed| <= k < |next.passed| ensures Owed(script, next.passed[k]) {
      assert k < |now.passed| ==> next.passed[k] == now.passed[k];
    }
  }

  lemma TravelEnds(script: seq<Exchange>, p: Progress, answers: seq<Option<Reply>>, now: Progress)
    requires Travelled(script, p, answers, now)
    ensures Trail(script, p, answers) && Followed(p, answers) == now
    ensures p.received <= now.received && p.last <= now.last && p.passed <= now.passed
    ensures forall k :: |p.passed| <= k < |now.passed| ==> Owed(script, now.passed[k])
  {
    assert Unfold(0);
  }

  lemma TravelLeads(script: seq<Exchange>, p: Progress, answers: seq<Option<Reply>>, now: Progress)
    requires Travelled(script, p, answers, now)
    ensures Followed(p, answers) == now
  {
    assert Unfold(0);
  }

  lemma TrailGrows(script: seq<Exchange>, p: Progress, answers: seq<Option<Reply>>, answer: Option<Reply>, at: nat)
    requires Trail(script, p, answers) && |answers| < |script| && !Done(Followed(p, answers))
    requires match script[|answers|]
      case Broken(conflict, expired) => answer.None? && !conflict && !expired
      case Answered(polls) => answer.Some? && at < |polls| && AnswersPoll(polls[at], Followed(p, answers).last, answer.value)
    ensures Trail(script, p, answers + [answer])
    ensures Followed(p, answers + [answer]) == Consumed(Followed(p, answers), answer)
    ensures answer.Some? && answer.value.truncated ==> Owed(script, (Followed(p, answers).last, answer.value.next))
  {
    assert (answers + [answer])[..|answers|] == answers;
    if answer.Some? && answer.value.truncated {
      AnsweredIs(script[|answers|].polls[at], Followed(p, answers).last, answer.value);
      assert Truncates(script[|answers|].polls[at], Followed(p, answers).last, answer.value);
    }
  }

  class Watcher {
    /** `execution.lastEventSequence`, the output appended so far, and `outputTruncated`. */
    var last: nat
    var received: seq<Event>
    var outputTruncated: bool
    var reconnects: nat
    ghost var passed: seq<(nat, nat)>

    constructor ()
      ensures last == 0 && received == [] && !outputTruncated && passed == []
    {
      last, received, outputTruncated, reconnects, passed := 0, [], false, 0, [];
    }

    ghost predicate Valid(log: Log)
      reads this
    {
      Delivered(log, last, received, passed) && (passed != [] ==> outputTruncated)
    }

    /** One successful `watch`. */
    method Take(r: Reply, ghost s: Situation, ghost log: Log)
      requires Valid(log) && History(log) && Within(s, log)
      requires Serves(s, last, r) || TimesOut(s, last, r)
      modifies this
      ensures Valid(log)
      ensures last == r.next && received == old(received) + OutputsOf(r.events)
      ensures passed == PassedAfter(old(passed), old(last), r)
      ensures outputTruncated == (old(outputTruncated) || r.truncated) && reconnects == old(reconnects)
    {
      if r.timedOut && r.events == [] && !r.truncated {
        NothingDelivers(log, last, received, passed);
      }
      if Serves(s, last, r) {
        ReplyDelivers(s, log, last, r, received, passed);
      }
      ghost var before := passed;
      passed := PassedAfter(passed, last, r);
      if r.truncated {
        outputTruncated := true;
      }
      last, received := Consume(last, received, r.events);
      if r.truncated && |r.events| == 0 {
        last := Max(last, r.next);
      }
    }

    static method Consume(after: nat, before: seq<Event>, events: seq<Event>) returns (last: nat, received: seq<Event>)
      ensures received == before + OutputsOf(events)
      ensures Sorted(events) && AllAbove(events, after) ==> last == LastNumber(events, after)
    {
      last, received := after, before;
      assert before + [] == before;
      for i := 0 to |events|
        invariant received == before + OutputsOf(events[..i])
        invariant Sorted(events) && AllAbove(events, after) ==> last == LastNumber(events[..i], after)
      {
        OutputsStep(events, i);
        last := Max(last, events[i].sequence);
        if events[i].OutputEvent? && events[i].data != "" {
          received := received + [events[i]];
        }
      }
      assert events[..|events|] == events;
    }

    /** One call of `watch`, answered. */
    method Ask(polls: seq<Situation>, ghost log: Log)
      returns (r: Reply, ghost at: nat)
      requires Valid(log) && History(log) && ExchangeOk(Answered(polls), log)
      modifies this
      ensures Valid(log) && at < |polls| && AnswersPoll(polls[at], old(last), r)
      ensures last == r.next && received == old(received) + OutputsOf(r.events)
      ensures passed == PassedAfter(old(passed), old(last), r)
      ensures outputTruncated == (old(outputTruncated) || r.truncated) && reconnects == old(reconnects)
    {
      var reply, poll := WatchJob(polls, last);
      Take(reply, polls[poll], log);
      r, at := reply, poll;
    }

    /** The loop, for as long as the script of exchanges goes. `answers` has one entry for each exchange used. */
    method WatchRunnerJob(initial: Record, script: seq<Exchange>, ghost log: Log)
      returns (ending: Ending, ghost answers: seq<Option<Reply>>)
      requires Valid(log) && History(log) && Consistent(script, log)
      modifies this
      ensures Valid(log)
      // The loop went through the script until it was done, what it has is what the answers gave
      // it, and every range passed over is owed to an answer that was marked truncated.
      ensures var p := Progress(old(last), old(received), old(passed), initial); var now := Followed(p, answers);
        && Travelled(script, p, answers, now) && now == Progress(last, received, passed, now.remote)
        && |answers| <= |script| && EndsSo(script, now, |answers|, ending)
      ensures outputTruncated == (old(outputTruncated) || passed != old(passed))
    {
      var remote, used := initial, 0;
      ghost var start := Progress(last, received, passed, initial);
      answers := [];
      TravelBegins(script, start);
      while !Terminal(remote.state) || last < remote.lastSequence
        invariant used == |answers| <= |script| && Valid(log)
        invariant Travelled(script, start, answers, Progress(last, received, passed, remote))
        invariant old(passed) <= passed && outputTruncated == (old(outputTruncated) || passed != old(passed))
        decreases |script| - used
      {
        if used == |script| {
          TravelLeads(script, start, answers, Progress(last, received, passed, remote));
          return StillWatching, answers;
        }
        assert ExchangeOk(script[used], log);
        ghost var now := Progress(last, received, passed, remote);
        match script[used] {
          case Answered(polls) =>
            var r, at := Ask(polls, log);
            TravelGoesOn(script, start, answers, now, Some(r), at);
            remote, answers := r.job, answers + [Some(r)];
          case Broken(conflict, expired) =>
            if conflict || expired {
              TravelLeads(script, start, answers, now);
              return if conflict then Conflicting else StateLost, answers;
            }
            TravelGoesOn(script, start, answers, now, None, 0);
            reconnects, answers := reconnects + 1, answers + [None];
        }
        used := used + 1;
      }
      TravelLeads(script, start, answers, Progress(last, received, passed, remote));
      return Finished(remote), answers;
    }
  }

  // ---------- The loop ends ----------

  /** When an answer lets the loop advance. */
  lemma WatchAdvancesIff(s: Situation, after: nat, r: Reply)
    requires Serves(s, after, r)
    ensures r.next > after <==>
      (exists e :: Present(s, e) && e.sequence > after) || (s.job.truncated && s.job.lastSequence > after)
  {
    if r.events != [] {
      var e := r.events[|r.events| - 1];
      assert e in r.events && Present(s, e);
    }
  }

  /** Successive answers to a loop that is still behind a terminal record. */
  ghost predicate Drains(s: Situation, after: nat, answers: seq<Reply>)
    decreases |answers|
  {
    answers == [] ||
    (after < s.job.lastSequence && Serves(s, after, answers[0]) && Drains(s, answers[0].next, answers[1..]))
  }

  /**
   * Once the record is terminal and announced in the state file, each answer takes the loop
   * closer to its end, so there are at most as many as numbers are left.
   */
  lemma {:induction false} DrainEnds(s: Situation, after: nat, answers: seq<Reply>)
    requires Terminal(s.job.state) && Finality.EndsWith(s.state, s.job)
    requires Drains(s, after, answers) && after <= s.job.lastSequence
    ensures |answers| <= s.job.lastSequence - after
    decreases |answers|
  {
    if answers != [] {
      assert Present(s, s.state[|s.state| - 1]);
      WatchAdvancesIff(s, after, answers[0]);
      if answers[0].next <= s.job.lastSequence {
        DrainEnds(s, answers[0].next, answers[1..]);
      } else if answers[1..] != [] {
        assert false;
      }
    }
  }

  // ---------- cancel ----------

  datatype CancelError = NotFound | Unverified | CancelFailed

  predicate HasEnded(read: Option<Record>) {
    read.Some? && Terminal(read.value.state)
  }

  /** The first terminal record that is read. */
  function FirstEnd(polls: seq<Option<Record>>): (end: Option<Record>)
    ensures end.Some? ==> HasEnded(end) && end in polls
    ensures end.None? ==> forall k :: 0 <= k < |polls| ==> !HasEnded(polls[k])
  {
    if polls == [] then None else if HasEnded(polls[0]) then polls[0] else FirstEnd(polls[1..])
  }

  lemma {:induction false} FirstEndOf(a: seq<Option<Record>>, b: seq<Option<Record>>)
    ensures FirstEnd(a + b) == if FirstEnd(a).Some? then FirstEnd(a) else FirstEnd(b)
  {
    if a == [] {
      assert a + b == b;
    } else {
      assert (a + b)[1..] == a[1..] + b;
      FirstEndOf(a[1..], b);
    }
  }

  method FirstTerminal(polls: seq<Option<Record>>) returns (found: Option<Record>)
    ensures found == FirstEnd(polls)
  {
    for i := 0 to |polls|
      invariant FirstEnd(polls) == FirstEnd(polls[i..])
    {
      if polls[i].Some? && Terminal(polls[i].value.state) {
        return polls[i];
      }
    }
    return None;
  }

  /** The process group is not known yet, and the job has not ended. */
  predicate StillStarting(read: Option<Record>) {
    read.Some? && !read.value.grouped && !Terminal(read.value.state)
  }

  /** The read with which the wait for the process group is over: it fails, or need not wait, or is the last. */
  predicate WaitOver(shown: seq<Option<Record>>, k: nat) {
    k < |shown| && (k == |shown| - 1 || !StillStarting(shown[k])) && forall i :: 0 <= i < k ==> StillStarting(shown[i])
  }

  function Verdict(job: Record): Result<Record, CancelError> {
    if job.state == Cancelled && job.verified then Ok(job) else Err(Unverified)
  }

  /**
   * The RPC `cancel`, with what the record looks like each time it is read: at once, while the
   * process group is awaited, after SIGTERM and after SIGKILL. None is a read that fails. `last` is
   * the read with which the wait for the group is over.
   */
  method Cancel(first: Option<Record>, marked: bool, starting: seq<Option<Record>>, signalled: bool,
                terminating: seq<Option<Record>>, killed: seq<Option<Record>>)
    returns (result: Result<Record, CancelError>, ghost last: nat)
    ensures first.None? ==> result == Err(NotFound)
    // A job that had ended is reported as it is, unless its cancellation was not verified.
    ensures HasEnded(first) ==>
      result == if first.value.state == Cancelled && !first.value.verified then Err(Unverified) else Ok(first.value)
    ensures first.Some? && !HasEnded(first) && !marked ==> result == Err(CancelFailed)
    // An active one is reported cancelled exactly if the first terminal record that is read says so
    // and is verified: it ended before it had a group, or after the group got its signal.
    ensures first.Some? && !HasEnded(first) && marked ==>
      && WaitOver([first] + starting, last)
      && var read := ([first] + starting)[last];
         var signals := read.Some? && !HasEnded(read) && read.value.grouped && signalled;
         var end := if HasEnded(read) then read else if signals then FirstEnd(terminating + killed) else None;
         && (result.Ok? <==> end.Some? && end.value.state == Cancelled && end.value.verified)
         && (result.Ok? ==> Some(result.value) == end)
         && (result == Err(CancelFailed) <==> read.None? || (!HasEnded(read) && read.value.grouped && !signalled))
    ensures result.Err? && result.error == NotFound ==> first.None?
  {
    last := 0;
    if first.None? {
      return Err(NotFound), last;
    }
    var job := first.value;
    if Terminal(job.state) {
      return if job.state == Cancelled && !job.verified then Err(Unverified) else Ok(job), last;
    }
    if !marked {
      return Err(CancelFailed), last;
    }
    ghost var shown := [first] + starting;
    var i := 0;
    while !job.grouped && !Terminal(job.state) && i < |starting|
      invariant 0 <= i <= |starting| && shown[i] == Some(job) && last == i
      invariant forall k :: 0 <= k < i ==> StillStarting(shown[k])
    {
      last := i + 1;
      if starting[i].None? {
        return Err(CancelFailed), last;
      }
      job := starting[i].value;
      i := i + 1;
    }
    if Terminal(job.state) {
      return Verdict(job), last;
    }
    if !job.grouped {
      return Err(Unverified), last;
    }
    if !signalled {
      return Err(CancelFailed), last;
    }
    FirstEndOf(terminating, killed);
    var ended := FirstTerminal(terminating);
    if ended.None? {
      ended := FirstTerminal(killed);
    }
    return if ended.Some? then Verdict(ended.value) else Err(Unverified), last;
  }
}
