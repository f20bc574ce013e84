/** The hash-chained audit log (AuditLog.ts). */
module AuditLog {
  import opened Wrappers

  type Hash = string

  const ZERO_HASH: Hash := "0000000000000000000000000000000000000000000000000000000000000000"

  /** What a caller supplies; the optional fields are absent when empty. */
  datatype Body = Body(timestamp: string, action: string, outcome: string, jobId: string,
                       target: string, risk: string, commandDigest: string)

  datatype Payload = Payload(sequence: int, body: Body, previousHash: Hash)

  datatype AuditEvent = AuditEvent(payload: Payload, hash: Hash)

  /** One line of the file, as `JSON.parse` sees it. */
  datatype Line = Blank | Malformed | Parsed(event: AuditEvent)

  /** The whole file. `tail` is what stands behind the last newline, blank if there is nothing. */
  datatype Text = Text(lines: seq<Line>, tail: Line) {
    /** The lines a reader gets. */
    function Readable(): seq<Line> {
      lines + [tail]
    }

    /** A record and its newline, written behind the tail: two records in one line do not parse. */
    function Append(event: AuditEvent): Text {
      Text(lines + [if tail.Blank? then Parsed(event) else Malformed], Blank)
    }
  }

  function Bounded(value: string, limit: nat): string {
    var clean := seq(|value|, i requires 0 <= i < |value| =>
      if value[i] in {'\r', '\n', '\0'} then ' ' else value[i]);
    if |clean| <= limit then clean else clean[..limit]
  }

  predicate IsHex(c: char) {
    '0' <= c <= '9' || 'a' <= c <= 'f' || 'A' <= c <= 'F'
  }

  /** The form of a SHA-256 digest, in any case. */
  predicate IsDigest(value: string) {
    && |value| == 71
    && value[0] in "sS" && value[1] in "hH" && value[2] in "aA" && value[3..7] == "256:"
    && forall i :: 7 <= i < 71 ==> IsHex(value[i])
  }

  function NormalizeDigest(value: string): string {
    if IsDigest(value) then value else ""
  }

  function BoundedBody(b: Body): Body {
    Body(b.timestamp, Bounded(b.action, 80), Bounded(b.outcome, 80), Bounded(b.jobId, 128),
         Bounded(b.target, 256), Bounded(b.risk, 32), NormalizeDigest(b.commandDigest))
  }

  /** The recorded text is as long as the given one, up to the limit, with blanks for line ends and NUL. */
  predicate Keeps(given: string, recorded: string, limit: nat) {
    && |recorded| == (if |given| < limit then |given| else limit)
    && forall i :: 0 <= i < |recorded| ==>
         if given[i] == '\r' || given[i] == '\n' || given[i] == '\0' then recorded[i] == ' ' else recorded[i] == given[i]
  }

  /** What a record says of what its caller said, field by field; a digest that has not the form of one is left out. */
  predicate Records(given: Body, recorded: Body) {
    && recorded.timestamp == given.timestamp
    && Keeps(given.action, recorded.action, 80) && Keeps(given.outcome, recorded.outcome, 80)
    && Keeps(given.jobId, recorded.jobId, 128) && Keeps(given.target, recorded.target, 256)
    && Keeps(given.risk, recorded.risk, 32)
    && (if IsDigest(given.commandDigest) then recorded.commandDigest == given.commandDigest else recorded.commandDigest == "")
  }

  lemma BodyIsRecorded(b: Body)
    ensures Records(b, BoundedBody(b))
  {
  }

  /** A digest as the coordinator writes it is kept; what has another length never is. */
  lemma DigestIsKept(hex: string, other: string)
    requires |hex| == 64 && forall i :: 0 <= i < 64 ==> '0' <= hex[i] <= '9' || 'a' <= hex[i] <= 'f'
    ensures NormalizeDigest("sha256:" + hex) == "sha256:" + hex
    ensures |other| != 71 ==> NormalizeDigest(other) == ""
  {
    var value := "sha256:" + hex;
    assert value[3..7] == "256:";
    forall i | 7 <= i < 71 ensures IsHex(value[i]) {
      assert value[i] == hex[i - 7];
    }
  }

  ghost predicate Injective(digest: Payload -> Hash) {
    forall p, q :: digest(p) == digest(q) ==> p == q
  }

  function HeadHash(events: seq<AuditEvent>): Hash {
    if events == [] then ZERO_HASH else events[|events| - 1].hash
  }

  /** Record `i` is numbered by its place, names the hash before it, and hashes itself. */
  predicate Linked(digest: Payload -> Hash, events: seq<AuditEvent>, i: nat)
    requires i < |events|
  {
    && events[i].payload.sequence == i + 1
    && events[i].payload.previousHash == (if i == 0 then ZERO_HASH else events[i - 1].hash)
    && events[i].hash == digest(events[i].payload)
  }

  ghost predicate Chained(digest: Payload -> Hash, events: seq<AuditEvent>) {
    forall i :: 0 <= i < |events| ==> Linked(digest, events, i)
  }

  function Events(lines: seq<Line>): seq<AuditEvent> {
    if lines == [] then []
    else
      var init := Events(lines[..|lines| - 1]);
      if lines[|lines| - 1].Parsed? then init + [lines[|lines| - 1].event] else init
  }

  function EventsIn(text: Text): seq<AuditEvent> {
    Events(text.Readable())
  }

  ghost predicate Verifies(digest: Payload -> Hash, text: Text) {
    Malformed !in text.Readable() && Chained(digest, EventsIn(text))
  }

  // ---------- What the chain guarantees ----------

  lemma SameHashSameRecord(
    digest: Payload -> Hash, a: seq<AuditEvent>, i: nat, b: seq<AuditEvent>, j: nat)
    requires Injective(digest) && Chained(digest, a) && Chained(digest, b)
    requires i < |a| && j < |b| && a[i].hash == b[j].hash
    ensures i == j && a[i] == b[j]
    ensures i > 0 ==> a[i - 1].hash == b[i - 1].hash
  {
    assert Linked(digest, a, i) && Linked(digest, b, j);
    assert digest(a[i].payload) == digest(b[j].payload);
  }

  /**
   * A record determines everything before it: if two chained logs hold records with the
   * same hash anywhere, these stand at the same place and the histories up to it coincide.
   */
  lemma {:induction false} RecordDeterminesHistory(
    digest: Payload -> Hash, a: seq<AuditEvent>, i: nat, b: seq<AuditEvent>, j: nat)
    requires Injective(digest) && Chained(digest, a) && Chained(digest, b)
    requires i < |a| && j < |b| && a[i].hash == b[j].hash
    ensures i == j && a[..i + 1] == b[..j + 1]
  {
    SameHashSameRecord(digest, a, i, b, j);
    if i > 0 {
      RecordDeterminesHistory(digest, a, i - 1, b, i - 1);
      assert a[..i + 1] == a[..i - 1 + 1] + [a[i]];
      assert b[..i + 1] == b[..i - 1 + 1] + [b[i]];
    } else {
      assert a[..1] == [a[0]] && b[..1] == [b[0]];
    }
  }

  /**
   * Tamper evidence and its limit in one statement. Against a chained log `a`, another
   * chained log `b` carries a head hash that occurs in `a` exactly when `b` is a prefix of
   * `a`: no edit, removal or reordering before the head can verify, removal of a tail can.
   */
  lemma HeadHashIdentifiesPrefix(digest: Payload -> Hash, a: seq<AuditEvent>, b: seq<AuditEvent>)
    requires Injective(digest) && Chained(digest, a) && Chained(digest, b) && b != []
    ensures (exists i :: 0 <= i < |a| && a[i].hash == HeadHash(b)) <==> b <= a
  {
    if i :| 0 <= i < |a| && a[i].hash == HeadHash(b) {
      RecordDeterminesHistory(digest, a, i, b, |b| - 1);
      assert b[..|b| - 1 + 1] == b;
    }
    if b <= a {
      assert a[|b| - 1] == b[|b| - 1];
    }
  }

  /** Two verified logs that end in the same record are equal throughout. */
  lemma SameHeadSameLog(digest: Payload -> Hash, a: seq<AuditEvent>, b: seq<AuditEvent>)
    requires Injective(digest) && Chained(digest, a) && Chained(digest, b)
    requires a != [] && b != [] && HeadHash(a) == HeadHash(b)
    ensures a == b
  {
    RecordDeterminesHistory(digest, a, |a| - 1, b, |b| - 1);
    assert a[..|a| - 1 + 1] == a && b[..|b| - 1 + 1] == b;
  }

  /** The one change the chain cannot see: cutting off its end. */
  lemma TruncationVerifies(digest: Payload -> Hash, a: seq<AuditEvent>, k: nat)
    requires Chained(digest, a) && k <= |a|
    ensures Chained(digest, a[..k])
  {
    forall i | 0 <= i < k
      ensures Linked(digest, a[..k], i)
    {
      assert Linked(digest, a, i);
    }
  }

  /** The record `append` writes behind a chain. */
  function NextEvent(digest: Payload -> Hash, events: seq<AuditEvent>, body: Body): AuditEvent {
    var payload := Payload(|events| + 1, BoundedBody(body), HeadHash(events));
    AuditEvent(payload, digest(payload))
  }

  lemma ChainGrows(digest: Payload -> Hash, events: seq<AuditEvent>, event: AuditEvent)
    requires Chained(digest, events)
    requires event.payload.sequence == |events| + 1 && event.payload.previousHash == HeadHash(events)
    requires event.hash == digest(event.payload)
    ensures Chained(digest, events + [event])
  {
    var longer := events + [event];
    forall i | 0 <= i < |longer|
      ensures Linked(digest, longer, i)
    {
      assert i < |events| ==> Linked(digest, events, i);
    }
  }

  /** The log that a sequence of appends builds from nothing. */
  function Built(digest: Payload -> Hash, bodies: seq<Body>): seq<AuditEvent> {
    if bodies == [] then []
    else
      var events := Built(digest, bodies[..|bodies| - 1]);
      events + [NextEvent(digest, events, bodies[|bodies| - 1])]
  }

  /** Every log built by `append` verifies and holds one record per call, in call order. */
  lemma {:induction false} BuiltLogVerifies(digest: Payload -> Hash, bodies: seq<Body>)
    ensures Chained(digest, Built(digest, bodies)) && |Built(digest, bodies)| == |bodies|
    ensures forall i :: 0 <= i < |bodies| ==> Records(bodies[i], Built(digest, bodies)[i].payload.body)
  {
    if bodies != [] {
      var init := bodies[..|bodies| - 1];
      BuiltLogVerifies(digest, init);
      var events := Built(digest, init);
      ChainGrows(digest, events, NextEvent(digest, events, bodies[|bodies| - 1]));
      BodyIsRecorded(bodies[|bodies| - 1]);
    }
  }

  lemma EventsOfLine(lines: seq<Line>, line: Line)
    ensures Events(lines + [line]) == Events(lines) + if line.Parsed? then [line.event] else []
  {
    assert (lines + [line])[..|lines|] == lines;
  }

  /** What is in a file behind which a record was appended. */
  lemma EventsOfAppend(text: Text, event: AuditEvent)
    ensures text.tail.Blank? ==> EventsIn(text.Append(event)) == EventsIn(text) + [event]
    ensures !text.tail.Blank? ==> Malformed in text.Append(event).Readable()
  {
    EventsOfLine(text.lines, text.tail);
    EventsOfLine(text.lines, Parsed(event));
    EventsOfLine(text.Append(event).lines, Blank);
    assert text.Append(event).Readable()[|text.lines|] == if text.tail.Blank? then Parsed(event) else Malformed;
  }

  // ---------- Appending behind a record that lacks its newline ----------

  /** The append leaves a log that verifies exactly if no record stood there without its newline. */
  lemma AppendedVerifiesIff(digest: Payload -> Hash, text: Text, body: Body)
    requires Verifies(digest, text)
    ensures Verifies(digest, text.Append(NextEvent(digest, EventsIn(text), body))) <==> !text.tail.Parsed?
  {
    var event := NextEvent(digest, EventsIn(text), body);
    EventsOfAppend(text, event);
    assert text.tail in text.Readable();
    if !text.tail.Parsed? {
      ChainGrows(digest, EventsIn(text), event);
      forall line | line in text.Append(event).Readable() ensures line != Malformed {
        assert line in text.lines ==> line in text.Readable();
      }
    }
  }

  /** A file as `append` writes it. */
  function Written(events: seq<AuditEvent>): Text {
    Text(seq(|events|, i requires 0 <= i < |events| => Parsed(events[i])), Blank)
  }

  lemma {:induction false} WrittenHolds(events: seq<AuditEvent>)
    ensures Events(Written(events).lines) == events && EventsIn(Written(events)) == events
    ensures Malformed !in Written(events).Readable()
  {
    if events != [] {
      var init, last := events[..|events| - 1], events[|events| - 1];
      WrittenHolds(init);
      assert Written(events).lines == Written(init).lines + [Parsed(last)];
      EventsOfLine(Written(init).lines, Parsed(last));
    }
    EventsOfLine(Written(events).lines, Blank);
  }

  /** A file that only `append` wrote holds what was built, and the next append keeps it so. */
  lemma WrittenFileVerifies(digest: Payload -> Hash, bodies: seq<Body>, body: Body)
    ensures Verifies(digest, Written(Built(digest, bodies)))
    ensures Written(Built(digest, bodies + [body])) ==
      Written(Built(digest, bodies)).Append(NextEvent(digest, Built(digest, bodies), body))
  {
    WrittenHolds(Built(digest, bodies));
    BuiltLogVerifies(digest, bodies);
    assert (bodies + [body])[..|bodies|] == bodies;
  }

  /** The same file, but for its very last newline. */
  function WithoutNewline(text: Text): Text
    requires text.lines != []
  {
    Text(text.lines[..|text.lines| - 1], text.lines[|text.lines| - 1])
  }

  /**
   * Any log of at least one record, when a crash or an editor takes its last newline: it still
   * verifies with all its records, the next append succeeds, and nothing verifies any more.
   */
  lemma LostNewlineBreaksNextAppend(digest: Payload -> Hash, bodies: seq<Body>, body: Body)
    requires bodies != []
    ensures var events := Built(digest, bodies);
      events != [] &&
      var text := WithoutNewline(Written(events));
      && Verifies(digest, text) && EventsIn(text) == events
      && !Verifies(digest, text.Append(NextEvent(digest, events, body)))
  {
    var events := Built(digest, bodies);
    BuiltLogVerifies(digest, bodies);
    WrittenHolds(events);
    var text := WithoutNewline(Written(events));
    assert text.Readable() == Written(events).lines;
    forall line | line in text.Readable() ensures line != Malformed {
      assert line in Written(events).Readable();
    }
    AppendedVerifiesIff(digest, text, body);
  }

  // ---------- The log ----------

  /** The file, which other writers (and editors) can reach too. */
  class LogFile {
    var text: Text

    constructor ()
      ensures text == Text([], Blank)
    {
      text := Text([], Blank);
    }
  }

  class AuditLog {
    const file: LogFile
    const digest: Payload -> Hash
    var sequence: int
    var previousHash: Hash

    constructor (file: LogFile, digest: Payload -> Hash)
      ensures this.file == file && this.digest == digest && sequence == 0 && previousHash == ZERO_HASH
    {
      this.file, this.digest, sequence, previousHash := file, digest, 0, ZERO_HASH;
    }

    /** Opening a log that does not verify throws. */
    static method Open(file: LogFile, digest: Payload -> Hash) returns (log: Option<AuditLog>)
      ensures log.Some? <==> Verifies(digest, file.text)
      ensures log.Some? ==>
        && log.value.file == file && log.value.digest == digest
        && log.value.sequence == |EventsIn(file.text)|
        && log.value.previousHash == HeadHash(EventsIn(file.text))
    {
      var fresh_ := new AuditLog(file, digest);
      var verified := fresh_.ReadVerified();
      if verified.None? {
        return None;
      }
      if verified.value != [] {
        var last := verified.value[|verified.value| - 1];
        assert Linked(digest, verified.value, |verified.value| - 1);
        fresh_.sequence := last.payload.sequence;
        fresh_.previousHash := last.hash;
      }
      return Some(fresh_);
    }

    /** None stands for the thrown AuditIntegrityError. */
    method ReadVerified() returns (verified: Option<seq<AuditEvent>>)
      ensures verified.Some? <==> Verifies(digest, file.text)
      ensures verified.Some? ==> verified.value == EventsIn(file.text)
    {
      var previous := ZERO_HASH;
      var expected := 1;
      var events := [];
      var lines := file.text.Readable();
      for n := 0 to |lines|
        invariant Malformed !in lines[..n]
        invariant events == Events(lines[..n]) && Chained(digest, events)
        invariant expected == |events| + 1 && previous == HeadHash(events)
      {
        assert lines[..n + 1][..n] == lines[..n];
        match lines[n]
        case Blank =>
        case Malformed =>
          assert lines[n] in lines;
          return None;
        case Parsed(event) =>
          if event.payload.sequence != expected || event.payload.previousHash != previous
             || event.hash != digest(event.payload) {
            BrokenLink(digest, lines, n);
            return None;
          }
          ChainGrows(digest, events, event);
          events := events + [event];
          previous := event.hash;
          expected := expected + 1;
      }
      assert lines[..|lines|] == lines;
      return Some(events);
    }

    /**
     * A refused append changes neither the file nor the fields. One that succeeds leaves a log
     * that verifies, unless a record stood at the end of the file without its newline.
     */
    method Append(body: Body) returns (event: Option<AuditEvent>)
      modifies this, file
      ensures event.Some? <==> old(Verifies(digest, file.text))
      ensures event.None? ==> file.text == old(file.text) && sequence == old(sequence)
                              && previousHash == old(previousHash)
      ensures event.Some? ==>
        && event.value == NextEvent(digest, old(EventsIn(file.text)), body)
        && event.value.payload.sequence == |old(EventsIn(file.text))| + 1
        && event.value.payload.previousHash == HeadHash(old(EventsIn(file.text)))
        && event.value.hash == digest(event.value.payload) && Records(body, event.value.payload.body)
        && file.text == old(file.text).Append(event.value)
        && (Verifies(digest, file.text) <==> !old(file.text).tail.Parsed?)
        && sequence == |old(EventsIn(file.text))| + 1 && previousHash == event.value.hash
      ensures event.Some? && old(EventsIn(file.text)) == [] ==> |event.value.payload.previousHash| == 64
      ensures event.Some? && !old(file.text).tail.Parsed? ==>
        EventsIn(file.text) == old(EventsIn(file.text)) + [event.value]
    {
      var verified := ReadVerified();
      if verified.None? {
        return None;
      }
      var events := verified.value;
      assert events != [] ==> Linked(digest, events, |events| - 1);
      sequence := if events == [] then 0 else events[|events| - 1].payload.sequence;
      previousHash := if events == [] then ZERO_HASH else events[|events| - 1].hash;
      var payload := Payload(sequence + 1, BoundedBody(body), previousHash);
      var record := AuditEvent(payload, digest(payload));
      assert record == NextEvent(digest, events, body);
      BodyIsRecorded(body);
      AppendedVerifiesIff(digest, file.text, body);
      EventsOfAppend(file.text, record);
      assert file.text.tail in file.text.Readable();
      file.text := file.text.Append(record);
      sequence := record.payload.sequence;
      previousHash := record.hash;
      return Some(record);
    }
  }

  /** Later lines only add records, so a broken link stays broken. */
  lemma {:induction false} EventsPrefix(lines: seq<Line>, n: nat)
    requires n <= |lines|
    ensures Events(lines[..n]) <= Events(lines)
    decreases |lines|
  {
    if n < |lines| {
      EventsPrefix(lines[..|lines| - 1], n);
      assert lines[..|lines| - 1][..n] == lines[..n];
    } else {
      assert lines[..n] == lines;
    }
  }

  lemma BrokenLink(digest: Payload -> Hash, lines: seq<Line>, n: nat)
    requires n < |lines| && lines[n].Parsed?
    requires var events, event := Events(lines[..n]), lines[n].event;
      || event.payload.sequence != |events| + 1
      || event.payload.previousHash != HeadHash(events)
      || event.hash != digest(event.payload)
    ensures !Chained(digest, Events(lines))
  {
    var events := Events(lines[..n]);
    assert lines[..n + 1][..n] == lines[..n];
    EventsPrefix(lines, n + 1);
    assert Events(lines[..n + 1]) == events + [lines[n].event];
    assert Events(lines)[|events|] == lines[n].event;
    assert |events| > 0 ==> Events(lines)[|events| - 1] == events[|events| - 1];
    assert !Linked(digest, Events(lines), |events|);
  }
}
