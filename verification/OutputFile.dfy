/** Bounded retention of a job's output on the Runner (store.go `appendOutput`, `compactTailFile`). */
module OutputFile {
  import opened Utf8
  import opened EventLog

  datatype Mode = Full | Nothing | Tail | Unknown(name: string)

  datatype Policy = Policy(mode: Mode, maxBytes: int, retentionHours: int)

  const DEFAULT_MAX_OUTPUT := 64 * 1024 * 1024
  const DEFAULT_RETENTION := 7 * 24
  const MAXIMUM_OUTPUT_SIZE := 1024 * 1024 * 1024

  predicate Normal(policy: Policy) {
    && !policy.mode.Unknown?
    && 64 * 1024 <= policy.maxBytes <= MAXIMUM_OUTPUT_SIZE
    && 1 <= policy.retentionHours <= 90 * 24
  }

  function NormalizeOutputPolicy(policy: Policy): (normal: Policy)
    ensures Normal(normal) && (Normal(policy) ==> normal == policy)
    ensures normal.mode == if policy.mode.Unknown? then Tail else policy.mode
    ensures if policy.maxBytes < 65536 then normal.maxBytes == 67108864
            else if policy.maxBytes > 1073741824 then normal.maxBytes == 1073741824
            else normal.maxBytes == policy.maxBytes
    ensures if policy.retentionHours < 1 then normal.retentionHours == 168
            else if policy.retentionHours > 2160 then normal.retentionHours == 2160
            else normal.retentionHours == policy.retentionHours
  {
    var mode := if policy.mode.Unknown? then Tail else policy.mode;
    var raised := if policy.maxBytes < 64 * 1024 then DEFAULT_MAX_OUTPUT else policy.maxBytes;
    var maxBytes := if raised > MAXIMUM_OUTPUT_SIZE then MAXIMUM_OUTPUT_SIZE else raised;
    var hours := if policy.retentionHours < 1 then DEFAULT_RETENTION else policy.retentionHours;
    Policy(mode, maxBytes, if hours > 90 * 24 then 90 * 24 else hours)
  }

  /** An encoded record: one line with its newline. */
  predicate IsRecord(record: seq<byte>) {
    && |record| > 0 && record[|record| - 1] == NEWLINE
    && forall i :: 0 <= i < |record| - 1 ==> record[i] != NEWLINE
  }

  predicate Records(records: seq<seq<byte>>) {
    forall i :: 0 <= i < |records| ==> IsRecord(records[i])
  }

  function Concat(records: seq<seq<byte>>): seq<byte> {
    if records == [] then [] else records[0] + Concat(records[1..])
  }

  // ---------- Compaction ----------

  function TargetBytes(maxBytes: int): int {
    var target := maxBytes - maxBytes / 4;
    if target < 48 * 1024 then 48 * 1024 else target
  }

  /** Position behind the first newline at or after `start`, or the end of the file. */
  function BehindLine(bytes: seq<byte>, start: nat): nat
    requires start <= |bytes|
  {
    var e := LineEnd(bytes, start);
    if e < |bytes| then e + 1 else e
  }

  /** The records that begin behind byte `start`; the one that holds this byte is dropped whole. */
  function Surviving(records: seq<seq<byte>>, start: nat): seq<seq<byte>> {
    if records == [] then []
    else if start < |records[0]| then records[1..]
    else Surviving(records[1..], start - |records[0]|)
  }

  lemma {:induction false} ConcatAppend(records: seq<seq<byte>>, record: seq<byte>)
    ensures Concat(records + [record]) == Concat(records) + record
  {
    if records == [] {
      assert [record][1..] == [];
      assert record + [] == record;
    } else {
      ConcatAppend(records[1..], record);
      assert (records + [record])[1..] == records[1..] + [record];
    }
  }

  lemma {:induction false} LineEndInRecord(record: seq<byte>, rest: seq<byte>, start: nat)
    requires IsRecord(record) && start < |record|
    ensures LineEnd(record + rest, start) == |record| - 1
    decreases |record| - start
  {
    if start < |record| - 1 {
      LineEndInRecord(record, rest, start + 1);
    }
  }

  lemma {:induction false} LineEndBehind(a: seq<byte>, b: seq<byte>, p: nat)
    requires p <= |b|
    ensures LineEnd(a + b, |a| + p) == |a| + LineEnd(b, p)
    decreases |b| - p
  {
    if p < |b| && b[p] != NEWLINE {
      LineEndBehind(a, b, p + 1);
    }
  }

  lemma CutInFirst(first: seq<byte>, rest: seq<byte>, start: nat)
    requires IsRecord(first) && start < |first|
    ensures (first + rest)[BehindLine(first + rest, start)..] == rest
  {
    LineEndInRecord(first, rest, start);
    DropAll(first, rest);
  }

  lemma CutBehindFirst(first: seq<byte>, rest: seq<byte>, start: nat)
    requires start <= |rest|
    ensures (first + rest)[BehindLine(first + rest, |first| + start)..] == rest[BehindLine(rest, start)..]
  {
    LineEndBehind(first, rest, start);
    DropBehind(first, rest, BehindLine(rest, start));
  }

  /** Cutting the bytes behind a line is dropping whole records. */
  lemma {:induction false} CutsBetweenRecords(records: seq<seq<byte>>, start: nat)
    requires Records(records) && start < |Concat(records)|
    ensures Concat(records)[BehindLine(Concat(records), start)..] == Concat(Surviving(records, start))
    decreases |records|
  {
    var first, others := records[0], records[1..];
    assert IsRecord(first);
    if start < |first| {
      CutInFirst(first, Concat(others), start);
    } else {
      assert Surviving(records, start) == Surviving(others, start - |first|);
      CutsBetweenRecords(others, start - |first|);
      CutBehindFirst(first, Concat(others), start - |first|);
    }
  }

  lemma DropBehind<T>(a: seq<T>, b: seq<T>, k: nat)
    requires k <= |b|
    ensures (a + b)[|a| + k..] == b[k..]
  {
  }

  /** How many records the cut at `start` drops. */
  function Dropped(records: seq<seq<byte>>, start: nat): (count: nat)
    ensures count <= |records|
  {
    if records == [] then 0
    else if start < |records[0]| then 1
    else 1 + Dropped(records[1..], start - |records[0]|)
  }

  /**
   * The survivors are a suffix of the records with fewer bytes than the cut leaves, and the
   * longest such suffix.
   */
  lemma {:induction false} SurvivorsAreLongestSuffix(records: seq<seq<byte>>, start: nat)
    requires Records(records) && start < |Concat(records)|
    ensures var k := Dropped(records, start);
      && k > 0 && Surviving(records, start) == records[k..]
      && |Concat(records[k..])| < |Concat(records)| - start <= |Concat(records[k - 1..])|
  {
    var first, rest := records[0], records[1..];
    assert IsRecord(first);
    if start < |first| {
      assert records[0..] == records;
    } else {
      SurvivorsAreLongestSuffix(rest, start - |first|);
      var k := Dropped(rest, start - |first|);
      DropDrop(records, 1, k);
      DropDrop(records, 1, k - 1);
    }
  }

  /** In full mode a record is kept exactly when it still fits behind those kept before it. */
  function Fitting(records: seq<seq<byte>>, maxBytes: int): seq<seq<byte>> {
    if records == [] then []
    else
      var init, last := Fitting(records[..|records| - 1], maxBytes), records[|records| - 1];
      if |Concat(init)| + |last| > maxBytes then init else init + [last]
  }

  lemma FittingStep(records: seq<seq<byte>>, record: seq<byte>, maxBytes: int)
    ensures Fitting(records + [record], maxBytes) ==
      var init := Fitting(records, maxBytes);
      if |Concat(init)| + |record| > maxBytes then init else init + [record]
    ensures |Fitting(records, maxBytes)| <= |records|
  {
    assert (records + [record])[..|records|] == records;
    FittingIsShorter(records, maxBytes);
  }

  lemma {:induction false} FittingIsShorter(records: seq<seq<byte>>, maxBytes: int)
    ensures |Fitting(records, maxBytes)| <= |records|
  {
    if records != [] {
      FittingIsShorter(records[..|records| - 1], maxBytes);
    }
  }

  predicate IsSuffix<T(==)>(part: seq<T>, all: seq<T>) {
    |part| <= |all| && part == all[|all| - |part|..]
  }

  lemma SuffixOfSuffix<T>(all: seq<T>, part: seq<T>, k: nat)
    requires IsSuffix(part, all) && k <= |part|
    ensures IsSuffix(part[k..], all)
  {
  }

  lemma SuffixGrows<T>(all: seq<T>, part: seq<T>, last: T)
    requires IsSuffix(part, all)
    ensures IsSuffix(part + [last], all + [last])
  {
  }

  /**
   * One compaction drops at least one record, and keeps a suffix of the history: less than three
   * quarters of the limit, and with the last dropped record it would be as much or more.
   */
  lemma CompactionKeepsSuffix(history: seq<seq<byte>>, all: seq<seq<byte>>, maxBytes: int)
    requires Records(all) && |Concat(all)| > maxBytes >= 64 * 1024
    requires IsSuffix(all, history)
    ensures var start := |Concat(all)| - TargetBytes(maxBytes);
      var left := Surviving(all, start);
      && Records(left) && |left| < |all| && IsSuffix(left, history)
      && Concat(left) == Concat(all)[BehindLine(Concat(all), start)..]
      && 4 * |Concat(left)| < 3 * maxBytes <= 4 * |Concat(all[|all| - |left| - 1..])|
  {
    var start := |Concat(all)| - TargetBytes(maxBytes);
    CutsBetweenRecords(all, start);
    SurvivorsAreLongestSuffix(all, start);
    SuffixOfSuffix(history, all, Dropped(all, start));
  }

  // ---------- The output file of a job ----------

  /**
   * What holds of a job's output at any time: `history` is every record produced, `kept` the
   * ones in the file. The size is counted right and bounded; tail mode keeps a suffix, full
   * mode whatever still fitted; and the flag tells whether a record is missing.
   */
  ghost predicate Sound(policy: Policy, bytes: seq<byte>, outputBytes: int, outputTruncated: bool,
                        history: seq<seq<byte>>, kept: seq<seq<byte>>) {
    && Normal(policy) && Records(kept)
    && bytes == Concat(kept) && outputBytes == |bytes| <= policy.maxBytes
    && (policy.mode.Tail? ==> IsSuffix(kept, history))
    && (policy.mode.Full? ==> kept == Fitting(history, policy.maxBytes))
    && (!policy.mode.Nothing? ==> |kept| <= |history| && outputTruncated == (|kept| < |history|))
  }

  /** The records in the file after one more is produced. */
  function KeptAfter(policy: Policy, kept: seq<seq<byte>>, record: seq<byte>): seq<seq<byte>> {
    var all := kept + [record];
    var size := |Concat(kept)| + |record|;
    if policy.mode.Nothing? || (policy.mode.Full? && size > policy.maxBytes) then kept
    else if policy.mode.Tail? && size > policy.maxBytes then Surviving(all, SubtractToZero(size, TargetBytes(policy.maxBytes)))
    else all
  }

  function SubtractToZero(a: int, b: int): nat {
    if a < b then 0 else a - b
  }

  lemma RecordSkipped(policy: Policy, bytes: seq<byte>, truncated: bool,
                      history: seq<seq<byte>>, kept: seq<seq<byte>>, record: seq<byte>)
    requires Sound(policy, bytes, |bytes|, truncated, history, kept)
    requires policy.mode.Full? && |bytes| + |record| > policy.maxBytes
    ensures Sound(policy, bytes, |bytes|, true, history + [record], kept)
    ensures KeptAfter(policy, kept, record) == kept
  {
    FittingStep(history, record, policy.maxBytes);
  }

  lemma AppendedIsSound(policy: Policy, bytes: seq<byte>, truncated: bool,
                        history: seq<seq<byte>>, kept: seq<seq<byte>>, record: seq<byte>)
    requires Sound(policy, bytes, |bytes|, truncated, history, kept) && IsRecord(record)
    requires !policy.mode.Nothing? && |bytes| + |record| <= policy.maxBytes
    ensures Sound(policy, bytes + record, |bytes| + |record|, truncated, history + [record], kept + [record])
  {
    ConcatAppend(kept, record);
    if policy.mode.Tail? {
      SuffixGrows(history, kept, record);
    } else {
      FittingStep(history, record, policy.maxBytes);
    }
  }

  lemma RecordAppended(policy: Policy, bytes: seq<byte>, truncated: bool,
                       history: seq<seq<byte>>, kept: seq<seq<byte>>, record: seq<byte>)
    requires Sound(policy, bytes, |bytes|, truncated, history, kept) && IsRecord(record)
    requires !policy.mode.Nothing? && |bytes| + |record| <= policy.maxBytes
    ensures Sound(policy, bytes + record, |bytes| + |record|, truncated, history + [record], KeptAfter(policy, kept, record))
  {
    assert KeptAfter(policy, kept, record) == kept + [record];
    AppendedIsSound(policy, bytes, truncated, history, kept, record);
  }

  lemma CompactedIsSound(policy: Policy, all: seq<seq<byte>>, history: seq<seq<byte>>)
    requires Normal(policy) && policy.mode.Tail?
    requires Records(all) && IsSuffix(all, history) && |Concat(all)| > policy.maxBytes
    ensures var whole := Concat(all);
      var start := |whole| - TargetBytes(policy.maxBytes);
      var retained := whole[BehindLine(whole, start)..];
      Sound(policy, retained, |retained|, true, history, Surviving(all, start))
  {
    CompactionKeepsSuffix(history, all, policy.maxBytes);
  }

  lemma OneMoreRecord(history: seq<seq<byte>>, kept: seq<seq<byte>>, record: seq<byte>)
    requires Records(kept) && IsSuffix(kept, history) && IsRecord(record)
    ensures Records(kept + [record]) && IsSuffix(kept + [record], history + [record])
    ensures Concat(kept + [record]) == Concat(kept) + record
  {
    ConcatAppend(kept, record);
    SuffixGrows(history, kept, record);
  }

  lemma RecordCompacted(policy: Policy, bytes: seq<byte>, truncated: bool,
                        history: seq<seq<byte>>, kept: seq<seq<byte>>, record: seq<byte>)
    requires Sound(policy, bytes, |bytes|, truncated, history, kept) && IsRecord(record)
    requires policy.mode.Tail? && |bytes| + |record| > policy.maxBytes
    ensures var whole := bytes + record;
      var retained := whole[BehindLine(whole, |whole| - TargetBytes(policy.maxBytes))..];
      Sound(policy, retained, |retained|, true, history + [record], KeptAfter(policy, kept, record))
  {
    OneMoreRecord(history, kept, record);
    CompactedIsSound(policy, kept + [record], history + [record]);
  }

  /** The file and the flag after one more record. */
  function Stored(policy: Policy, bytes: seq<byte>, truncated: bool, record: seq<byte>): (seq<byte>, bool)
    requires Normal(policy) && |bytes| <= policy.maxBytes
  {
    var whole := bytes + record;
    if policy.mode.Nothing? then (bytes, truncated)
    else if |whole| <= policy.maxBytes then (whole, truncated)
    else if policy.mode.Full? then (bytes, true)
    else (whole[BehindLine(whole, |whole| - TargetBytes(policy.maxBytes))..], true)
  }

  lemma StoredIsSound(policy: Policy, bytes: seq<byte>, truncated: bool,
                      history: seq<seq<byte>>, kept: seq<seq<byte>>, record: seq<byte>)
    requires Sound(policy, bytes, |bytes|, truncated, history, kept) && IsRecord(record)
    ensures var stored := Stored(policy, bytes, truncated, record);
      Sound(policy, stored.0, |stored.0|, stored.1, history + [record], KeptAfter(policy, kept, record))
  {
    if policy.mode.Nothing? {
    } else if |bytes| + |record| <= policy.maxBytes {
      RecordAppended(policy, bytes, truncated, history, kept, record);
    } else if policy.mode.Full? {
      RecordSkipped(policy, bytes, truncated, history, kept, record);
    } else {
      RecordCompacted(policy, bytes, truncated, history, kept, record);
    }
  }

  /**
   * What happens to a record is one of three things: it is kept; it is dropped, in full mode or
   * with output off; or, in tail mode, the oldest records go until three quarters of the limit
   * hold the rest.
   */
  lemma RecordIsRetained(policy: Policy, kept: seq<seq<byte>>, record: seq<byte>)
    requires Normal(policy) && Records(kept) && IsRecord(record) && |Concat(kept)| <= policy.maxBytes
    ensures var after := KeptAfter(policy, kept, record); var all := kept + [record];
      if policy.mode.Nothing? then after == kept
      else if |Concat(kept)| + |record| <= policy.maxBytes then after == all
      else if policy.mode.Full? then after == kept
      else
        exists drop ::
          && 1 <= drop <= |all| && after == all[drop..]
          && 4 * |Concat(all[drop..])| < 3 * policy.maxBytes <= 4 * |Concat(all[drop - 1..])|
  {
    ConcatAppend(kept, record);
    var all := kept + [record];
    if policy.mode.Tail? && |Concat(all)| > policy.maxBytes {
      assert Records(all);
      CompactionKeepsSuffix(all, all, policy.maxBytes);
      var left := Surviving(all, |Concat(all)| - TargetBytes(policy.maxBytes));
      assert KeptAfter(policy, kept, record) == left;
      assert left == all[|all| - |left|..];
    }
  }

  class JobOutput {
    const policy: Policy
    var bytes: seq<byte>
    var outputBytes: int
    var outputTruncated: bool
    /** Every record handed to `AppendOutput`, and the ones that are in the file. */
    ghost var history: seq<seq<byte>>
    ghost var kept: seq<seq<byte>>

    ghost predicate Valid()
      reads this
    {
      Sound(policy, bytes, outputBytes, outputTruncated, history, kept)
    }

    constructor (requested: Policy)
      ensures Valid() && policy == NormalizeOutputPolicy(requested)
      ensures history == [] && bytes == [] && !outputTruncated
    {
      policy := NormalizeOutputPolicy(requested);
      bytes, outputBytes, outputTruncated, history, kept := [], 0, false, [], [];
    }

    method AppendOutput(encoded: seq<byte>)
      requires Valid() && IsRecord(encoded)
      modifies this
      ensures Valid()
      ensures history == old(history) + [encoded] && kept == KeptAfter(policy, old(kept), encoded)
      ensures policy.mode.Nothing? ==> bytes == old(bytes) && outputTruncated == old(outputTruncated)
    {
      StoredIsSound(policy, bytes, outputTruncated, history, kept, encoded);
      bytes, outputBytes, outputTruncated := Store(policy, bytes, outputBytes, outputTruncated, encoded);
      history, kept := history + [encoded], KeptAfter(policy, kept, encoded);
    }

    static method Store(policy: Policy, file: seq<byte>, size: int, truncated: bool, encoded: seq<byte>)
      returns (bytes: seq<byte>, outputBytes: int, outputTruncated: bool)
      requires Normal(policy) && size == |file| <= policy.maxBytes
      ensures (bytes, outputTruncated) == Stored(policy, file, truncated, encoded) && outputBytes == |bytes|
    {
      bytes, outputBytes, outputTruncated := file, size, truncated;
      if policy.mode.Nothing? {
        return;
      }
      if policy.mode.Full? && outputBytes + |encoded| > policy.maxBytes {
        outputTruncated := true;
        return;
      }
      bytes := bytes + encoded;
      outputBytes := outputBytes + |encoded|;
      if policy.mode.Tail? && outputBytes > policy.maxBytes {
        bytes := CompactTailFile(bytes, policy.maxBytes);
        outputBytes := |bytes|;
        outputTruncated := true;
      }
    }

    static method CompactTailFile(bytes: seq<byte>, maxBytes: int) returns (retained: seq<byte>)
      requires |bytes| > maxBytes >= 64 * 1024
      ensures retained == bytes[BehindLine(bytes, |bytes| - TargetBytes(maxBytes))..]
      // What follows the first newline within the last three quarters of the limit.
      ensures IsSuffix(retained, bytes) && 4 * |retained| < 3 * maxBytes
      ensures var cut := |bytes| - |retained|;
        && (cut < |bytes| ==> bytes[cut - 1] == NEWLINE)
        && forall i :: 0 <= i < cut - 1 && 4 * (|bytes| - i) < 3 * maxBytes + 4 ==> bytes[i] != NEWLINE
    {
      var targetBytes := maxBytes - maxBytes / 4;
      if targetBytes < 48 * 1024 {
        targetBytes := 48 * 1024;
      }
      var start := |bytes| - targetBytes;
      if start < 0 {
        start := 0;
      }
      if start > 0 {
        var end := EventStore.ReadSlice(bytes, start);
        NoNewlineBefore(bytes, start);
        start := if end < |bytes| then end + 1 else end;
      }
      retained := bytes[start..];
    }
  }
}
