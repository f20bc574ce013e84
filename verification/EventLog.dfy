/**
 * Reading the Runner's event files (store.go `readEvents`): newline-terminated records, read
 * through a cursor that remembers how far the last read of the same file got.
 */
module EventLog {
  import opened Wrappers
  import opened Utf8

  const NEWLINE: byte := 10
  const READ_BUFFER: nat := 2 * 1024 * 1024

  datatype Stream = Stdout | Stderr

  datatype Status = Queued | Running | Succeeded | Failed | Cancelled | TimedOut | Lost

  predicate Terminal(state: Status) {
    state != Queued && state != Running
  }

  datatype Event =
    | StateEvent(sequence: nat, status: Status)
    | OutputEvent(sequence: nat, stream: Stream, data: string)

  /** How `json.Unmarshal` reads a line; None is a line it rejects. */
  type Decoder = seq<byte> -> Option<Event>

  predicate Has(events: seq<Event>, number: nat) {
    exists k :: 0 <= k < |events| && events[k].sequence == number
  }

  // ---------- The plain scan ----------

  /** Position of the first newline at or after `p`, or the length when there is none. */
  function LineEnd(s: seq<byte>, p: nat): (e: nat)
    requires p <= |s|
    ensures p <= e <= |s| && (e < |s| ==> s[e] == NEWLINE)
    decreases |s| - p
  {
    if p < |s| && s[p] != NEWLINE then LineEnd(s, p + 1) else p
  }

  function EventAt(decode: Decoder, s: seq<byte>, p: nat): Option<Event>
    requires p <= |s|
  {
    decode(s[p..LineEnd(s, p)])
  }

  function Above(event: Option<Event>, after: nat): seq<Event> {
    if event.Some? && event.value.sequence > after then [event.value] else []
  }

  /**
   * The events above `after` in the complete lines from `p` on; None when some line, or the
   * unfinished text at the end, does not fit into the read buffer.
   */
  function Scan(decode: Decoder, s: seq<byte>, p: nat, after: nat): Option<seq<Event>>
    requires p <= |s|
    decreases |s| - p
  {
    var e := LineEnd(s, p);
    if e == |s| then
      if e - p >= READ_BUFFER then None else Some([])
    else if e + 1 - p > READ_BUFFER then None
    else
      var rest := Scan(decode, s, e + 1, after);
      if rest.None? then None else Some(Above(EventAt(decode, s, p), after) + rest.value)
  }

  lemma {:induction false} NoNewlineBefore(bytes: seq<byte>, start: nat)
    requires start <= |bytes|
    ensures forall i :: start <= i < LineEnd(bytes, start) ==> bytes[i] != NEWLINE
    decreases |bytes| - start
  {
    if start < |bytes| && bytes[start] != NEWLINE {
      NoNewlineBefore(bytes, start + 1);
    }
  }

  predicate NewlineWithin(s: seq<byte>, k: nat, length: nat) {
    exists j :: k <= j < k + length && j < |s| && s[j] == NEWLINE
  }

  /** A scan fails exactly if 2 MiB without a newline are in its way. */
  lemma {:induction false} ScanReadsIff(decode: Decoder, s: seq<byte>, p: nat, after: nat)
    requires p <= |s|
    ensures Scan(decode, s, p, after).Some? <==>
      forall k :: p <= k && k + 2097152 <= |s| ==> NewlineWithin(s, k, 2097152)
    decreases |s| - p
  {
    var e := LineEnd(s, p);
    NoNewlineBefore(s, p);
    if e - p >= 2097152 {
      assert !NewlineWithin(s, p, 2097152);
    } else if e < |s| {
      ScanReadsIff(decode, s, e + 1, after);
      forall k | p <= k <= e ensures NewlineWithin(s, k, 2097152) {
        assert s[e] == NEWLINE;
      }
    }
  }

  // ---------- What a cursor may skip ----------

  function SequenceOf(event: Option<Event>): nat {
    if event.Some? then event.value.sequence else 0
  }

  /** From `p`, complete lines that fit lead exactly to `o`, and hold no event above `last`. */
  predicate Skippable(decode: Decoder, s: seq<byte>, p: nat, o: nat, last: nat)
    requires p <= |s|
    decreases |s| - p
  {
    p == o ||
    (var e := LineEnd(s, p);
     && e < |s| && e + 1 - p <= READ_BUFFER && SequenceOf(EventAt(decode, s, p)) <= last
     && Skippable(decode, s, e + 1, o, last))
  }

  lemma {:induction false} SkippableEnd(decode: Decoder, s: seq<byte>, p: nat, o: nat, last: nat)
    requires p <= |s| && Skippable(decode, s, p, o, last)
    ensures p <= o <= |s|
    decreases |s| - p
  {
    if p != o {
      SkippableEnd(decode, s, LineEnd(s, p) + 1, o, last);
    }
  }

  /** Skipped lines contribute nothing to a scan above `last`. */
  lemma {:induction false} SkippedLinesAreSilent(decode: Decoder, s: seq<byte>, p: nat, o: nat, last: nat, after: nat)
    requires p <= o <= |s| && Skippable(decode, s, p, o, last) && last <= after
    ensures Scan(decode, s, p, after) == Scan(decode, s, o, after)
    decreases |s| - p
  {
    if p != o {
      var e := LineEnd(s, p);
      SkippableEnd(decode, s, e + 1, o, last);
      SkippedLinesAreSilent(decode, s, e + 1, o, last, after);
      var scan := Scan(decode, s, e + 1, after);
      assert scan.Some? ==> [] + scan.value == scan.value;
    }
  }

  lemma {:induction false} SkipOneMore(decode: Decoder, s: seq<byte>, p: nat, o: nat, last: nat, newLast: nat)
    requires p <= o < |s| && Skippable(decode, s, p, o, last)
    requires LineEnd(s, o) < |s| && LineEnd(s, o) + 1 - o <= READ_BUFFER
    requires last <= newLast && SequenceOf(EventAt(decode, s, o)) <= newLast
    ensures Skippable(decode, s, p, LineEnd(s, o) + 1, newLast)
    decreases |s| - p
  {
    if p != o {
      var e := LineEnd(s, p);
      SkippableEnd(decode, s, e + 1, o, last);
      SkipOneMore(decode, s, e + 1, o, last, newLast);
    }
  }

  lemma {:induction false} LineEndOfAppend(s: seq<byte>, t: seq<byte>, p: nat)
    requires p <= |s| && LineEnd(s, p) < |s|
    ensures LineEnd(s + t, p) == LineEnd(s, p)
    decreases |s| - p
  {
    if s[p] != NEWLINE {
      LineEndOfAppend(s, t, p + 1);
    }
  }

  /** Appending to the file, in the middle of a line or not, keeps the skipped part skippable. */
  lemma {:induction false} SkippableOfAppend(decode: Decoder, s: seq<byte>, t: seq<byte>, p: nat, o: nat, last: nat)
    requires p <= |s| && Skippable(decode, s, p, o, last)
    ensures Skippable(decode, s + t, p, o, last)
    decreases |s| - p
  {
    if p != o {
      var e := LineEnd(s, p);
      LineEndOfAppend(s, t, p);
      assert (s + t)[p..e] == s[p..e];
      SkippableOfAppend(decode, s, t, e + 1, o, last);
    }
  }

  // ---------- Files that hold whole records ----------

  function EventsAbove(events: seq<Event>, after: nat): seq<Event> {
    if events == [] then []
    else Above(Some(events[0]), after) + EventsAbove(events[1..], after)
  }

  function Written(encode: Event -> seq<byte>, events: seq<Event>): seq<byte> {
    if events == [] then [] else encode(events[0]) + [NEWLINE] + Written(encode, events[1..])
  }

  predicate Encodes(encode: Event -> seq<byte>, decode: Decoder, event: Event) {
    NEWLINE !in encode(event) && |encode(event)| < READ_BUFFER && decode(encode(event)) == Some(event)
  }

  lemma {:induction false} LineEndAt(s: seq<byte>, p: nat, e: nat)
    requires p <= e < |s| && s[e] == NEWLINE && forall i :: p <= i < e ==> s[i] != NEWLINE
    ensures LineEnd(s, p) == e
    decreases e - p
  {
    if p < e {
      LineEndAt(s, p + 1, e);
    }
  }

  lemma Middle<T>(a: seq<T>, b: seq<T>, c: seq<T>)
    ensures var s := a + b + c; s[|a|..|a| + |b|] == b
  {
  }

  lemma FirstLine(before: seq<byte>, line: seq<byte>, rest: seq<byte>)
    requires NEWLINE !in line
    ensures LineEnd(before + line + [NEWLINE] + rest, |before|) == |before| + |line|
  {
    var s := before + line + [NEWLINE] + rest;
    forall i | |before| <= i < |before| + |line| ensures s[i] != NEWLINE {
      assert s[i] == line[i - |before|];
    }
    LineEndAt(s, |before|, |before| + |line|);
  }

  lemma FirstLineText(before: seq<byte>, line: seq<byte>, rest: seq<byte>)
    ensures (before + line + [NEWLINE] + rest)[|before|..|before| + |line|] == line
  {
    assert before + line + [NEWLINE] + rest == before + line + ([NEWLINE] + rest);
    Middle(before, line, [NEWLINE] + rest);
  }

  lemma ScanLine(decode: Decoder, s: seq<byte>, p: nat, e: nat, after: nat)
    requires p <= e < |s| && LineEnd(s, p) == e && e - p < READ_BUFFER
    ensures var tail := Scan(decode, s, e + 1, after);
      Scan(decode, s, p, after) == if tail.None? then None else Some(Above(decode(s[p..e]), after) + tail.value)
  {
  }

  /** Reading a file of whole records gives back the records above `after`, in file order. */
  lemma {:induction false} ScanOfWritten(encode: Event -> seq<byte>, decode: Decoder, before: seq<byte>,
                                         events: seq<Event>, after: nat)
    requires forall i :: 0 <= i < |events| ==> Encodes(encode, decode, events[i])
    ensures Scan(decode, before + Written(encode, events), |before|, after) == Some(EventsAbove(events, after))
    decreases |events|
  {
    if events == [] {
      assert before + Written(encode, events) == before;
    } else {
      var line, rest := encode(events[0]), Written(encode, events[1..]);
      var next := before + line + [NEWLINE];
      assert Encodes(encode, decode, events[0]);
      var s := next + rest;
      Regroup(before, line, rest);
      FirstLine(before, line, rest);
      FirstLineText(before, line, rest);
      ScanLine(decode, s, |before|, |before| + |line|, after);
      ScanOfWritten(encode, decode, next, events[1..], after);
    }
  }

  lemma Regroup(before: seq<byte>, line: seq<byte>, rest: seq<byte>)
    ensures before + (line + [NEWLINE] + rest) == before + line + [NEWLINE] + rest
  {
  }

  // ---------- The store ----------

  type Path = string

  /** A file and the identity `os.SameFile` compares. */
  datatype File = File(identity: nat, bytes: seq<byte>)

  datatype Cursor = Cursor(identity: nat, offset: nat, lastSequence: nat)

  class EventStore {
    const decode: Decoder
    var files: map<Path, File>
    var cursors: map<Path, Cursor>
    /** The file system's next identity; none is given out twice. */
    var nextIdentity: nat

    ghost predicate CursorSound(path: Path)
      reads this
      requires path in files && path in cursors
    {
      files[path].identity == cursors[path].identity ==>
        Skippable(decode, files[path].bytes, 0, cursors[path].offset, cursors[path].lastSequence)
    }

    ghost predicate Valid()
      reads this
    {
      && (forall path :: path in files ==> files[path].identity < nextIdentity)
      && (forall path :: path in cursors ==> cursors[path].identity < nextIdentity)
      && (forall path :: path in files && path in cursors ==> CursorSound(path))
    }

    constructor (decode: Decoder)
      ensures Valid() && this.decode == decode && files == map[] && cursors == map[]
    {
      this.decode, files, cursors, nextIdentity := decode, map[], map[], 0;
    }

    /** A write in append mode, of a whole record or of a part that a later write completes. */
    method AppendBytes(path: Path, data: seq<byte>)
      requires Valid()
      modifies this
      ensures Valid() && cursors == old(cursors)
      ensures path in files && files.Keys == old(files.Keys) + {path}
      ensures files[path].bytes == (if path in old(files) then old(files)[path].bytes else []) + data
      ensures forall other :: other in files && other != path ==> files[other] == old(files)[other]
    {
      if path in files {
        var file := files[path];
        if path in cursors && file.identity == cursors[path].identity {
          SkippableOfAppend(decode, file.bytes, data, 0, cursors[path].offset, cursors[path].lastSequence);
        }
        files := files[path := file.(bytes := file.bytes + data)];
      } else {
        Replace(path, [] + data);
      }
    }

    /** Renaming a newly written file over `path`, as compaction does. */
    method Replace(path: Path, data: seq<byte>)
      requires Valid()
      modifies this
      ensures Valid() && cursors == old(cursors)
      ensures path in files && files[path].bytes == data && files[path].identity == old(nextIdentity)
      ensures files == old(files)[path := files[path]]
    {
      files := files[path := File(nextIdentity, data)];
      nextIdentity := nextIdentity + 1;
    }

    /** Pruning removes the file; whether the cursor is forgotten too does not matter. */
    method Remove(path: Path, forget: bool)
      requires Valid()
      modifies this
      ensures Valid() && files == old(files) - {path}
      ensures cursors == if forget then old(cursors) - {path} else old(cursors)
    {
      files := files - {path};
      if forget {
        cursors := cursors - {path};
      }
    }

    static method ReadSlice(bytes: seq<byte>, from: nat) returns (end: nat)
      requires from <= |bytes|
      ensures end == LineEnd(bytes, from)
    {
      end := from;
      while end < |bytes| && bytes[end] != NEWLINE
        invariant from <= end <= |bytes|
        invariant LineEnd(bytes, from) == LineEnd(bytes, end)
      {
        end := end + 1;
      }
    }

    static method TakeLine(event: Option<Event>, after: nat, before: seq<Event>, last: nat)
      returns (found: seq<Event>, lastSequence: nat)
      ensures found == Found(event, after, before) && lastSequence == Max(last, SequenceOf(event))
    {
      found, lastSequence := before, last;
      if event.Some? {
        if event.value.sequence > lastSequence {
          lastSequence := event.value.sequence;
        }
        if event.value.sequence > after {
          found := found + [event.value];
        }
      }
    }

    /** The read loop, from a line boundary `start` on. */
    static method ReadLines(decode: Decoder, bytes: seq<byte>, start: nat, skipped: nat, after: nat)
      returns (events: Option<seq<Event>>, completeOffset: nat, lastSequence: nat)
      requires start <= |bytes| && Skippable(decode, bytes, 0, start, skipped)
      ensures events == Scan(decode, bytes, start, after)
      ensures events.Some? ==> Skippable(decode, bytes, 0, completeOffset, lastSequence)
    {
      var found: seq<Event> := [];
      completeOffset, lastSequence := start, skipped;
      ReadStarts(decode, bytes, start, skipped, after);
      var end := ReadSlice(bytes, completeOffset);
      while end < |bytes| && end + 1 - completeOffset <= READ_BUFFER
        invariant completeOffset <= |bytes| && end == LineEnd(bytes, completeOffset)
        invariant ReadUpTo(decode, bytes, start, after, completeOffset, lastSequence, found)
        decreases |bytes| - completeOffset
      {
        LineRead(decode, bytes, start, after, completeOffset, lastSequence, found);
        found, lastSequence := TakeLine(decode(bytes[completeOffset..end]), after, found, lastSequence);
        completeOffset := end + 1;
        end := ReadSlice(bytes, completeOffset);
      }
      ReadEnds(decode, bytes, start, after, completeOffset, lastSequence, found);
      events := if end < |bytes| || end - completeOffset >= READ_BUFFER then None else Some(found);
    }

    /**
     * The cached reader returns what a scan of the whole file returns, in every history of
     * the other operations and of earlier reads. None is the "record exceeds 2 MiB" error.
     */
    method ReadEvents(path: Path, after: nat) returns (events: Option<seq<Event>>)
      requires Valid()
      modifies this`cursors
      ensures Valid()
      ensures events == if path in files then Scan(decode, files[path].bytes, 0, after) else Some([])
      ensures cursors - {path} == old(cursors) - {path}
      ensures events.None? ==> cursors == old(cursors)
    {
      if path !in files {
        cursors := cursors - {path};
        return Some([]);
      }
      var info := files[path];
      var start, lastSequence := 0, 0;
      if path in cursors && cursors[path].identity == info.identity
         && after >= cursors[path].lastSequence && cursors[path].offset <= |info.bytes| {
        start, lastSequence := cursors[path].offset, cursors[path].lastSequence;
        SkippedLinesAreSilent(decode, info.bytes, 0, start, lastSequence, after);
      }
      var completeOffset;
      events, completeOffset, lastSequence := ReadLines(decode, info.bytes, start, lastSequence, after);
      if events.Some? {
        cursors := cursors[path := Cursor(info.identity, completeOffset, lastSequence)];
      }
    }
  }

  function Joined(found: seq<Event>, rest: Option<seq<Event>>): Option<seq<Event>> {
    if rest.None? then None else Some(found + rest.value)
  }

  function Found(event: Option<Event>, after: nat, found: seq<Event>): seq<Event> {
    if event.Some? && event.value.sequence > after then found + [event.value] else found
  }

  function Max(a: nat, b: nat): nat {
    if a < b then b else a
  }

  /** The read loop has come to `o` and found these events: what is left to scan completes the result. */
  ghost predicate ReadUpTo(decode: Decoder, s: seq<byte>, start: nat, after: nat, o: nat, last: nat, found: seq<Event>)
    requires start <= |s| && o <= |s|
  {
    forall token: nat :: Unfold(token) ==>
      && Skippable(decode, s, 0, o, last)
      && Scan(decode, s, start, after) == Joined(found, Scan(decode, s, o, after))
  }

  lemma ReadStarts(decode: Decoder, s: seq<byte>, start: nat, last: nat, after: nat)
    requires start <= |s| && Skippable(decode, s, 0, start, last)
    ensures ReadUpTo(decode, s, start, after, start, last, [])
  {
    var scan := Scan(decode, s, start, after);
    assert scan.Some? ==> [] + scan.value == scan.value;
  }

  /** One line of the scan moves its event from the rest to the events found so far. */
  lemma ScanStep(decode: Decoder, s: seq<byte>, p: nat, after: nat, found: seq<Event>)
    requires p <= |s| && LineEnd(s, p) < |s| && LineEnd(s, p) + 1 - p <= READ_BUFFER
    ensures Joined(found, Scan(decode, s, p, after)) ==
      Joined(Found(EventAt(decode, s, p), after, found), Scan(decode, s, LineEnd(s, p) + 1, after))
  {
    var rest := Scan(decode, s, LineEnd(s, p) + 1, after);
    if rest.Some? {
      var line := Above(EventAt(decode, s, p), after);
      assert [] + rest.value == rest.value;
      assert found + (line + rest.value) == (found + line) + rest.value;
    }
  }

  lemma LineRead(decode: Decoder, s: seq<byte>, start: nat, after: nat, o: nat, last: nat, found: seq<Event>)
    requires start <= |s| && o < |s| && ReadUpTo(decode, s, start, after, o, last, found)
    requires LineEnd(s, o) < |s| && LineEnd(s, o) + 1 - o <= READ_BUFFER
    ensures var event := EventAt(decode, s, o);
      ReadUpTo(decode, s, start, after, LineEnd(s, o) + 1, Max(last, SequenceOf(event)), Found(event, after, found))
  {
    assert Unfold(0);
    ScanStep(decode, s, o, after, found);
    SkipOneMore(decode, s, 0, o, last, Max(last, SequenceOf(EventAt(decode, s, o))));
  }

  /** Where the scan stops: a line that does not fit, or the unfinished text at the end. */
  lemma ReadEnds(decode: Decoder, s: seq<byte>, start: nat, after: nat, o: nat, last: nat, found: seq<Event>)
    requires start <= |s| && o <= |s| && ReadUpTo(decode, s, start, after, o, last, found)
    requires LineEnd(s, o) == |s| || LineEnd(s, o) + 1 - o > READ_BUFFER
    ensures Skippable(decode, s, 0, o, last)
    ensures Scan(decode, s, start, after) ==
      if LineEnd(s, o) < |s| || LineEnd(s, o) - o >= READ_BUFFER then None else Some(found)
  {
    assert Unfold(0);
    assert found + [] == found;
  }
}
