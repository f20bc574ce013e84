/** The coordinator's in-memory output buffer of a job (LifecycleManager `append`). */
module OutputRing {
  import opened Wrappers
  import opened Utf8

  datatype Chunk = Chunk(sequence: nat, data: seq<byte>)

  function Flatten(output: seq<Chunk>): seq<byte> {
    if output == [] then [] else output[0].data + Flatten(output[1..])
  }

  /**
   * The specification of both `boundOutputChunk` and `trimOutputBuffer`: the longest
   * suffix of at most `max` bytes that begins where a character begins.
   */
  function Tail(s: seq<byte>, max: nat): seq<byte> {
    s[CutPoint(s, max)..]
  }

  function CutPoint(s: seq<byte>, max: nat): (cut: nat)
    ensures cut <= |s| && |s| - cut <= max
  {
    if |s| <= max then 0 else NextBoundary(s, |s| - max)
  }

  /** What `append` leaves in the buffer. */
  function Pushed(buffer: seq<byte>, data: seq<byte>, max: nat): seq<byte> {
    Tail(buffer + Tail(data, max), max)
  }

  function Concat(pieces: seq<seq<byte>>): seq<byte> {
    if pieces == [] then [] else Concat(pieces[..|pieces| - 1]) + pieces[|pieces| - 1]
  }

  /** The buffer after appending all the pieces in order to an empty one. */
  function Buffered(pieces: seq<seq<byte>>, max: nat): seq<byte> {
    if pieces == [] then []
    else Pushed(Buffered(pieces[..|pieces| - 1], max), pieces[|pieces| - 1], max)
  }

  // ---------- Properties of the specification ----------

  /** Nothing longer would do: every valid cut that keeps more bytes keeps more than `max`. */
  lemma TailIsLongest(s: seq<byte>, max: nat, k: nat)
    requires ValidUtf8(s) && k <= |s| && AtBoundary(s, k)
    ensures ValidUtf8(Tail(s, max)) && |Tail(s, max)| <= max
    ensures |s| > max ==> |Tail(s, max)| + 3 >= max
    ensures |s| - k <= max ==> |s| - k <= |Tail(s, max)|
  {
    if |s| > max {
      var b := NextBoundary(s, |s| - max);
      BoundarySplits(s, b);
      BoundaryIsNear(s, |s| - max);
      if k >= |s| - max {
        NextBoundarySkips(s, |s| - max, k);
      }
    }
  }

  lemma CutPointOfDrop(s: seq<byte>, i: nat, max: nat)
    requires i <= CutPoint(s, max) && AtBoundary(s, i)
    ensures i + CutPoint(s[i..], max) == CutPoint(s, max)
  {
    if i == 0 {
      assert s[i..] == s;
    } else if i < |s| - max {
      NextBoundaryDrop(s, i, |s| - max - i);
    } else {
      NextBoundarySkips(s, |s| - max, i);
    }
  }

  /** Dropping a prefix that the tail excludes anyway does not change the tail. */
  lemma TailOfDrop(s: seq<byte>, i: nat, max: nat)
    requires i <= CutPoint(s, max) && AtBoundary(s, i)
    ensures Tail(s[i..], max) == Tail(s, max)
  {
    CutPointOfDrop(s, i, max);
    DropDrop(s, i, CutPoint(s[i..], max));
  }

  /** Trimming early loses nothing that trimming once at the end would keep. */
  lemma TailOfTail(a: seq<byte>, b: seq<byte>, max: nat)
    requires AtBoundary(b, 0)
    ensures Tail(Tail(a, max) + b, max) == Tail(a + b, max)
  {
    if |a| > max {
      var i := CutPoint(a, max);
      CutPointOfConcat(a, b, max);
      TailOfDrop(a + b, i, max);
      DropOfConcat(a, b, i);
    } else {
      assert a[0..] == a;
    }
  }

  lemma CutPointOfConcat(a: seq<byte>, b: seq<byte>, max: nat)
    requires |a| > max && AtBoundary(b, 0)
    ensures AtBoundary(a + b, CutPoint(a, max)) && CutPoint(a, max) <= CutPoint(a + b, max)
  {
    NextBoundaryOfConcat(a, b, |a| - max);
    NextBoundaryGrows(a + b, |a| - max, |a + b| - max);
  }

  lemma NextBoundaryOfConcat(a: seq<byte>, b: seq<byte>, k: nat)
    requires k <= |a| && AtBoundary(b, 0)
    ensures NextBoundary(a + b, k) == NextBoundary(a, k)
  {
    var s := a + b;
    assert s[..|a|] == a && (b != [] ==> s[|a|] == b[0]);
    NextBoundaryTake(s, |a|, k);
  }

  lemma NextBoundaryGrows(s: seq<byte>, j: nat, k: nat)
    requires j <= k <= |s|
    ensures NextBoundary(s, j) <= NextBoundary(s, k)
  {
    NextBoundarySkips(s, j, k);
  }

  /**
   * While no single piece exceeds the maximum, the buffer is exactly the longest
   * bounded suffix of everything ever appended.
   */
  lemma {:induction false} BufferIsTailOfHistory(pieces: seq<seq<byte>>, max: nat)
    requires forall i :: 0 <= i < |pieces| ==> ValidUtf8(pieces[i]) && |pieces[i]| <= max
    ensures Buffered(pieces, max) == Tail(Concat(pieces), max)
  {
    if pieces != [] {
      var last := pieces[|pieces| - 1];
      BufferIsTailOfHistory(pieces[..|pieces| - 1], max);
      ValidBeginsAtBoundary(last);
      TailOfTail(Concat(pieces[..|pieces| - 1]), last, max);
    }
  }

  // ---------- Pieces that exceed the maximum ----------

  predicate IsSuffix(part: seq<byte>, whole: seq<byte>) {
    |part| <= |whole| && part == whole[|whole| - |part|..]
  }

  /** What was cut off in front of `kept` to align it: continuation bytes, as far back as `max` reaches. */
  predicate Aligned(whole: seq<byte>, kept: seq<byte>, max: nat) {
    IsSuffix(kept, whole) && forall p :: |whole| - max <= p < |whole| - |kept| && 0 <= p ==> Continuation(whole[p])
  }

  lemma TailIsAligned(s: seq<byte>, max: nat)
    ensures Aligned(s, Tail(s, max), max)
  {
    if |s| > max {
      forall p | |s| - max <= p < CutPoint(s, max) ensures Continuation(s[p]) {
        NextBoundarySkips(s, |s| - max, p);
      }
    }
  }

  lemma AlignedBehind(front: seq<byte>, whole: seq<byte>, kept: seq<byte>, more: seq<byte>, max: nat)
    requires Aligned(whole, kept, max) && (|whole| >= max || front == [])
    ensures Aligned(front + whole + more, kept + more, max)
  {
    var longer := front + whole + more;
    forall p | |longer| - max <= p < |longer| - |kept + more| && 0 <= p ensures Continuation(longer[p]) {
      assert longer[p] == whole[p - |front|];
    }
    assert longer[|longer| - |kept + more|..] == kept + more;
  }

  /** Of the older text only a part that begins at a character can be kept, and no suffix of the whole begins so. */
  lemma SuffixIff(older: seq<byte>, kept: seq<byte>, whole: seq<byte>, max: nat)
    requires ValidUtf8(older) && ValidUtf8(kept) && Aligned(whole, kept, max)
    ensures IsSuffix(Tail(older + kept, max), whole) <==> |kept| > max || NothingFits(older, max - |kept|)
  {
    var text := older + kept;
    var buffer := Tail(text, max);
    ValidConcat(older, kept);
    ValidBeginsAtBoundary(kept);
    assert AtBoundary(text, |older|) by {
      assert kept != [] ==> text[|older|] == kept[0];
    }
    TailIsLongest(text, max, |older|);
    if |buffer| > |kept| {
      ValidBeginsAtBoundary(buffer);
      KeptMoreIsNoSuffix(buffer, kept, whole, max);
      PushedBehind(older, kept, max);
    } else {
      ShorterSuffix(buffer, kept, text, whole);
      if |kept| <= max {
        assert buffer == kept;
        PushedBehind(older, kept, max);
      }
    }
  }

  lemma KeptMoreIsNoSuffix(buffer: seq<byte>, kept: seq<byte>, whole: seq<byte>, max: nat)
    requires Aligned(whole, kept, max) && |kept| < |buffer| <= max && AtBoundary(buffer, 0)
    ensures !IsSuffix(buffer, whole)
  {
    if |buffer| <= |whole| {
      var p := |whole| - |buffer|;
      assert Continuation(whole[p]);
      assert whole[p..][0] == whole[p];
    }
  }

  lemma ShorterSuffix(part: seq<byte>, kept: seq<byte>, text: seq<byte>, whole: seq<byte>)
    requires IsSuffix(part, text) && IsSuffix(kept, text) && IsSuffix(kept, whole) && |part| <= |kept|
    ensures IsSuffix(part, whole) && (|part| == |kept| ==> part == kept)
  {
    DropDrop(text, |text| - |kept|, |kept| - |part|);
    DropDrop(whole, |whole| - |kept|, |kept| - |part|);
  }

  /**
   * An oversized piece loses its own beginning. The buffer then is still a suffix of
   * what was appended if and only if the last older character does not fit into the
   * bytes that alignment left free, so that nothing older survives.
   */
  lemma OversizedPieceBreaksContiguity(old_: seq<byte>, data: seq<byte>, max: nat)
    requires ValidUtf8(data) && ValidUtf8(old_) && |data| > max
    ensures IsSuffix(Pushed(old_, data, max), old_ + data) <==> NothingFits(old_, max - |Tail(data, max)|)
  {
    TailIsLongest(data, max, |data|);
    TailIsAligned(data, max);
    AlignedBehind(old_, data, Tail(data, max), [], max);
    assert old_ + data + [] == old_ + data && Tail(data, max) + [] == Tail(data, max);
    SuffixIff(old_, Tail(data, max), old_ + data, max);
  }

  /** The text since the last piece that exceeded the maximum, with what was kept of that piece. */
  function SinceOversized(pieces: seq<seq<byte>>, max: nat): seq<byte> {
    if pieces == [] then []
    else
      var init, last := pieces[..|pieces| - 1], pieces[|pieces| - 1];
      if |last| > max then Tail(last, max) else SinceOversized(init, max) + last
  }

  /** The buffer as that piece found it; empty if there was none. */
  function BeforeOversized(pieces: seq<seq<byte>>, max: nat): seq<byte> {
    if pieces == [] then []
    else
      var init, last := pieces[..|pieces| - 1], pieces[|pieces| - 1];
      if |last| > max then Buffered(init, max) else BeforeOversized(init, max)
  }

  predicate AllValid(pieces: seq<seq<byte>>) {
    forall i :: 0 <= i < |pieces| ==> ValidUtf8(pieces[i])
  }

  /** Valid text, folded. */
  ghost predicate IsText(s: seq<byte>) {
    forall token: nat :: Unfold(token) ==> ValidUtf8(s)
  }

  lemma TextConcat(a: seq<byte>, b: seq<byte>)
    requires IsText(a) && IsText(b)
    ensures IsText(a + b)
  {
    assert Unfold(0);
    ValidConcat(a, b);
  }

  lemma TextTail(s: seq<byte>, max: nat)
    requires IsText(s)
    ensures IsText(Tail(s, max)) && AtBoundary(s, 0)
  {
    assert Unfold(0);
    TailIsLongest(s, max, |s|);
    ValidBeginsAtBoundary(s);
  }

  lemma {:induction false} PartsAreTexts(pieces: seq<seq<byte>>, max: nat)
    requires AllValid(pieces)
    ensures IsText(Buffered(pieces, max)) && IsText(BeforeOversized(pieces, max)) && IsText(SinceOversized(pieces, max))
  {
    if pieces == [] {
      assert IsText([]);
    } else {
      var init, last := pieces[..|pieces| - 1], pieces[|pieces| - 1];
      PartsAreTexts(init, max);
      assert IsText(last);
      TextTail(last, max);
      TextConcat(Buffered(init, max), Tail(last, max));
      TextTail(Buffered(init, max) + Tail(last, max), max);
      TextConcat(SinceOversized(init, max), last);
    }
  }

  lemma {:induction false} SinceIsAligned(pieces: seq<seq<byte>>, max: nat)
    ensures Aligned(Concat(pieces), SinceOversized(pieces, max), max)
  {
    if pieces != [] {
      var init, last := pieces[..|pieces| - 1], pieces[|pieces| - 1];
      if |last| > max {
        TailIsAligned(last, max);
        AlignedBehind(Concat(init), last, Tail(last, max), [], max);
        assert Concat(init) + last + [] == Concat(pieces) && Tail(last, max) + [] == Tail(last, max);
      } else {
        SinceIsAligned(init, max);
        AlignedBehind([], Concat(init), SinceOversized(init, max), last, max);
        assert [] + Concat(init) + last == Concat(pieces);
      }
    }
  }

  lemma TailSinceStep(older: seq<byte>, since: seq<byte>, last: seq<byte>, max: nat)
    requires |last| <= max && AtBoundary(last, 0)
    ensures Pushed(Tail(older + since, max), last, max) == Tail(older + (since + last), max)
  {
    TailOfTail(older + since, last, max);
    assert older + since + last == older + (since + last) && last[0..] == last;
  }

  lemma {:induction false} BufferIsTailSince(pieces: seq<seq<byte>>, max: nat)
    requires AllValid(pieces)
    ensures Buffered(pieces, max) == Tail(BeforeOversized(pieces, max) + SinceOversized(pieces, max), max)
  {
    if pieces != [] {
      var init, last := pieces[..|pieces| - 1], pieces[|pieces| - 1];
      if |last| <= max {
        BufferIsTailSince(init, max);
        assert IsText(last);
        TextTail(last, max);
        TailSinceStep(BeforeOversized(init, max), SinceOversized(init, max), last, max);
      }
    }
  }

  lemma TextSuffixIff(buffer: seq<byte>, older: seq<byte>, kept: seq<byte>, whole: seq<byte>, max: nat)
    requires IsText(older) && IsText(kept) && Aligned(whole, kept, max) && buffer == Tail(older + kept, max)
    ensures IsSuffix(buffer, whole) <==> |kept| > max || NothingFits(older, max - |kept|)
  {
    assert Unfold(0);
    SuffixIff(older, kept, whole, max);
  }

  /**
   * Whatever the pieces: the buffer is a suffix of everything appended if and only if nothing is
   * left in it from before the last piece that exceeded the maximum, either because the text since
   * then fills it, or because no older character fits in front of that text.
   */
  lemma BufferIsSuffixIff(pieces: seq<seq<byte>>, max: nat)
    requires AllValid(pieces)
    ensures IsSuffix(Buffered(pieces, max), Concat(pieces)) <==>
      var since := SinceOversized(pieces, max);
      |since| > max || NothingFits(BeforeOversized(pieces, max), max - |since|)
  {
    PartsAreTexts(pieces, max);
    SinceIsAligned(pieces, max);
    BufferIsTailSince(pieces, max);
    TextSuffixIff(Buffered(pieces, max), BeforeOversized(pieces, max), SinceOversized(pieces, max), Concat(pieces), max);
  }

  lemma PushedBehind(old_: seq<byte>, t: seq<byte>, max: nat)
    requires ValidUtf8(old_) && |t| <= max && AtBoundary(t, 0)
    ensures Tail(old_ + t, max) == t <==> NothingFits(old_, max - |t|)
  {
    if old_ == [] {
      assert old_ + t == t && t[0..] == t;
    } else if |old_| > max - |t| {
      NoBoundaryFits(old_, max - |t|);
      PushedOver(old_, t, max);
    } else {
      ValidBeginsAtBoundary(old_);
    }
  }

  lemma PushedOver(old_: seq<byte>, t: seq<byte>, max: nat)
    requires |t| <= max < |old_| + |t| && AtBoundary(t, 0)
    ensures Tail(old_ + t, max) == t <==> NextBoundary(old_, |old_| - (max - |t|)) == |old_|
  {
    var b := NextBoundary(old_, |old_| - (max - |t|));
    NextBoundaryOfConcat(old_, t, |old_| - (max - |t|));
    DropOfConcat(old_, t, b);
    assert |old_[b..] + t| == |old_| - b + |t|;
  }

  /** No suffix of `s` that begins at a character has at most `free` bytes. */
  ghost predicate NothingFits(s: seq<byte>, free: nat) {
    forall k :: 0 <= k < |s| && AtBoundary(s, k) ==> |s| - k > free
  }

  lemma NoBoundaryFits(s: seq<byte>, free: nat)
    requires |s| > free
    ensures NextBoundary(s, |s| - free) == |s| <==> NothingFits(s, free)
  {
    forall k | 0 <= k < |s| && AtBoundary(s, k) && |s| - k <= free
      ensures NextBoundary(s, |s| - free) <= k
    {
      NextBoundarySkips(s, |s| - free, k);
    }
  }

  /** A concrete loss of contiguity: "a" stays, the "b" and a character behind it are lost. */
  lemma OversizedPieceExample()
    ensures var data := [0x62, 0xC3, 0xA9, 0xC3, 0xA9];
      ValidUtf8(data) && Pushed([0x61], data, 3) == [0x61, 0xC3, 0xA9] && !IsSuffix(Pushed([0x61], data, 3), [0x61] + data)
  {
    var data: seq<byte> := [0x62, 0xC3, 0xA9, 0xC3, 0xA9];
    assert data[1..][2..] == [0xC3, 0xA9] && data[1..] == [0xC3, 0xA9, 0xC3, 0xA9];
    assert ValidUtf8([0xC3, 0xA9]);
    assert ValidUtf8(data[1..]);
    assert NextBoundary(data, 2) == 3;
    assert data[3..] == [0xC3, 0xA9];
    assert ([0x61] + data)[3..][0] == 0xA9;
  }

  lemma {:induction false} FlattenConcat(a: seq<Chunk>, b: seq<Chunk>)
    ensures Flatten(a + b) == Flatten(a) + Flatten(b)
  {
    if a == [] {
      assert a + b == b;
    } else if b == [] {
      assert a + b == a;
    } else {
      FlattenConcat(a[1..], b);
      assert (a + b)[1..] == a[1..] + b;
    }
  }

  predicate Texts(output: seq<Chunk>) {
    forall i :: 0 <= i < |output| ==> output[i].data != [] && ValidUtf8(output[i].data)
  }

  lemma TextsBeginAtBoundary(output: seq<Chunk>)
    requires Texts(output)
    ensures AtBoundary(Flatten(output), 0)
  {
    if output != [] {
      ValidBeginsAtBoundary(output[0].data);
      assert Flatten(output)[0] == output[0].data[0];
    }
  }

  /** Dropping a whole leading chunk that fits into the overflow does not change the target. */
  lemma DropChunk(output: seq<Chunk>, max: nat)
    requires Texts(output) && |output| > 0
    requires |output[0].data| + max <= |Flatten(output)|
    ensures Texts(output[1..]) && |Flatten(output[1..])| == |Flatten(output)| - |output[0].data|
    ensures Tail(Flatten(output[1..]), max) == Tail(Flatten(output), max)
  {
    TextsBeginAtBoundary(output[1..]);
    DropFirst(output[0].data, Flatten(output[1..]), max);
  }

  lemma DropFirst(first: seq<byte>, rest: seq<byte>, max: nat)
    requires |rest| >= max && AtBoundary(rest, 0)
    ensures Tail(rest, max) == Tail(first + rest, max)
  {
    var flat, i := first + rest, |first|;
    assert flat[i..] == rest && (rest != [] ==> flat[i] == rest[0]);
    TailOfDrop(flat, i, max);
  }

  lemma CutFirst(first: seq<byte>, rest: seq<byte>, max: nat)
    requires AtBoundary(rest, 0)
    requires max < |first| + |rest| <= max + |first|
    ensures var start := NextBoundary(first, |first| + |rest| - max);
      Tail(first + rest, max) == (if start == |first| then rest else first[start..] + rest)
  {
    var k := |first| + |rest| - max;
    NextBoundaryOfConcat(first, rest, k);
    if NextBoundary(first, k) == |first| {
      DropAll(first, rest);
    } else {
      DropOfConcat(first, rest, NextBoundary(first, k));
    }
  }

  /** The chunks after the leading one is cut at `start`. */
  function CutAt(output: seq<Chunk>, start: nat): seq<Chunk>
    requires |output| > 0 && start <= |output[0].data|
  {
    var first, rest := output[0], output[1..];
    if start == |first.data| then rest else [first.(data := first.data[start..])] + rest
  }

  /** Cutting inside the leading chunk reaches the target. */
  lemma CutChunk(output: seq<Chunk>, start: nat, max: nat)
    requires Texts(output) && |output| > 0
    requires max < |Flatten(output)| <= max + |output[0].data|
    requires start == NextBoundary(output[0].data, |Flatten(output)| - max)
    ensures Texts(CutAt(output, start)) && Flatten(CutAt(output, start)) == Tail(Flatten(output), max)
    ensures |Flatten(CutAt(output, start))| == |Flatten(output)| - start <= max
  {
    var first, rest := output[0], output[1..];
    TextsBeginAtBoundary(rest);
    CutFirst(first.data, Flatten(rest), max);
    BoundarySplits(first.data, start);
    if start < |first.data| {
      FlattenCons(first.(data := first.data[start..]), rest);
    }
  }

  lemma FlattenCons(chunk: Chunk, rest: seq<Chunk>)
    requires Texts(rest) && chunk.data != [] && ValidUtf8(chunk.data)
    ensures Texts([chunk] + rest) && Flatten([chunk] + rest) == chunk.data + Flatten(rest)
  {
    assert ([chunk] + rest)[1..] == rest;
  }

  lemma SingleChunk(output: seq<Chunk>)
    requires |output| > 0
    ensures |output| == 1 ==> Flatten(output) == output[0].data
    ensures |output[0].data| <= |Flatten(output)|
  {
  }

  /** The trimming loop: the chunks, their size, and the target they still contain; folded. */
  ghost predicate Trimming(output: seq<Chunk>, size: int, target: seq<byte>, max: nat) {
    forall token: nat :: Unfold(token) ==>
      Texts(output) && size == |Flatten(output)| && Tail(Flatten(output), max) == target
  }

  lemma TrimBegins(output: seq<Chunk>, max: nat)
    requires Texts(output)
    ensures Trimming(output, |Flatten(output)|, Tail(Flatten(output), max), max)
  {
  }

  lemma TrimGoesOn(output: seq<Chunk>, size: int, target: seq<byte>, max: nat)
    requires Trimming(output, size, target, max) && size > max && |output| > 0
    ensures |output[0].data| > 0 && (|output| == 1 ==> size == |output[0].data|) && |output[0].data| <= size
    ensures |output[0].data| <= size - max ==> Trimming(output[1..], size - |output[0].data|, target, max)
  {
    assert Unfold(0);
    SingleChunk(output);
    if |output[0].data| <= size - max {
      DropChunk(output, max);
    }
  }

  lemma TrimCuts(output: seq<Chunk>, size: int, target: seq<byte>, max: nat, start: nat)
    requires Trimming(output, size, target, max) && |output| > 0
    requires max < size <= max + |output[0].data| && start == NextBoundary(output[0].data, size - max)
    ensures Trimming(CutAt(output, start), size - start, target, max) && size - start <= max
  {
    assert Unfold(0);
    CutChunk(output, start, max);
    assert Tail(target, max) == target by {
      assert target[0..] == target;
    }
  }

  lemma TrimEnds(output: seq<Chunk>, size: int, target: seq<byte>, max: nat)
    requires Trimming(output, size, target, max) && (size <= max || output == [])
    ensures Texts(output) && size == |Flatten(output)| <= max && Flatten(output) == target
  {
    assert Unfold(0);
    assert Flatten(output)[0..] == Flatten(output);
  }

  lemma PushChunk(output: seq<Chunk>, chunk: Chunk)
    requires Texts(output) && chunk.data != [] && ValidUtf8(chunk.data)
    ensures Texts(output + [chunk]) && Flatten(output + [chunk]) == Flatten(output) + chunk.data
  {
    FlattenConcat(output, [chunk]);
    assert Flatten([chunk]) == chunk.data + [];
  }

  // ---------- The buffer ----------

  /** The chunks are numbered upwards, up to the last number given; folded. */
  ghost predicate InSequence(output: seq<Chunk>, sequence: nat) {
    forall token: nat :: Unfold(token) ==>
      && (forall i, j :: 0 <= i < j < |output| ==> output[i].sequence < output[j].sequence)
      && forall i :: 0 <= i < |output| ==> 1 <= output[i].sequence <= sequence
  }

  /** The chunks left are the last ones, under their numbers; folded. */
  ghost predicate LastOf(output: seq<Chunk>, was: seq<Chunk>) {
    forall token: nat :: Unfold(token) ==>
      |output| <= |was| && forall i :: 0 <= i < |output| ==> output[i].sequence == was[|was| - |output| + i].sequence
  }

  lemma LastInSequence(output: seq<Chunk>, was: seq<Chunk>, sequence: nat)
    requires LastOf(output, was) && InSequence(was, sequence)
    ensures InSequence(output, sequence)
  {
    assert Unfold(0);
    forall i, j | 0 <= i < j < |output| ensures output[i].sequence < output[j].sequence {
      var k := |was| - |output|;
      assert was[k + i].sequence < was[k + j].sequence;
    }
  }

  lemma LastOfLast(a: seq<Chunk>, b: seq<Chunk>, c: seq<Chunk>)
    requires LastOf(a, b) && LastOf(b, c)
    ensures LastOf(a, c)
  {
    assert Unfold(0);
  }

  lemma CutIsLast(output: seq<Chunk>, start: nat)
    requires |output| > 0 && start <= |output[0].data|
    ensures LastOf(CutAt(output, start), output) && LastOf(output[1..], output) && LastOf(output, output)
  {
  }

  lemma OneMoreInSequence(output: seq<Chunk>, sequence: nat, data: seq<byte>)
    requires InSequence(output, sequence)
    ensures InSequence(output + [Chunk(sequence + 1, data)], sequence + 1)
  {
    assert Unfold(0);
  }

  lemma LastOfSameNumbers(output: seq<Chunk>, was: seq<Chunk>, sequence: nat, bounded: seq<byte>, data: seq<byte>)
    requires LastOf(output, was + [Chunk(sequence, bounded)])
    ensures LastOf(output, was + [Chunk(sequence, data)])
  {
    assert Unfold(0);
    assert forall k :: 0 <= k <= |was| ==>
      (was + [Chunk(sequence, bounded)])[k].sequence == (was + [Chunk(sequence, data)])[k].sequence;
  }

  class OutputBuffer {
    const maxOutputBytes: nat
    var output: seq<Chunk>
    var outputBytes: int
    var outputTruncated: bool
    var sequence: nat

    /** The chunks are non-empty valid texts and the byte counter is their total size. */
    ghost predicate Counted()
      reads this
    {
      Texts(output) && outputBytes == |Flatten(output)|
    }

    ghost predicate Valid()
      reads this
    {
      Counted() && outputBytes <= maxOutputBytes && maxOutputBytes >= 64 * 1024 && InSequence(output, sequence)
    }

    constructor (maxOutputBytes: nat)
      ensures Valid() && output == [] && !outputTruncated && sequence == 0
      ensures this.maxOutputBytes == (if maxOutputBytes < 64 * 1024 then 64 * 1024 else maxOutputBytes)
    {
      this.maxOutputBytes := if maxOutputBytes < 64 * 1024 then 64 * 1024 else maxOutputBytes;
      output, outputBytes, outputTruncated, sequence := [], 0, false, 0;
    }

    static method SkipContinuation(encoded: seq<byte>, from: nat) returns (start: nat)
      requires from <= |encoded|
      ensures start == NextBoundary(encoded, from)
    {
      start := from;
      while start < |encoded| && Continuation(encoded[start])
        invariant from <= start <= |encoded|
        invariant NextBoundary(encoded, from) == NextBoundary(encoded, start)
      {
        start := start + 1;
      }
    }

    method BoundOutputChunk(data: seq<byte>) returns (bounded: seq<byte>, truncated: bool)
      ensures bounded == Tail(data, maxOutputBytes)
      ensures truncated == (|data| > maxOutputBytes)
    {
      if |data| <= maxOutputBytes {
        return data, false;
      }
      var start := SkipContinuation(data, |data| - maxOutputBytes);
      return data[start..], true;
    }

    static method CutLeading(output: seq<Chunk>, start: nat) returns (cut: seq<Chunk>)
      requires |output| > 0 && start <= |output[0].data|
      ensures cut == CutAt(output, start)
    {
      cut := output[1..];
      if start < |output[0].data| {
        cut := [output[0].(data := output[0].data[start..])] + cut;
      }
    }

    method TrimOutputBuffer()
      requires Counted() && maxOutputBytes >= 64 * 1024 && InSequence(output, sequence)
      modifies this
      ensures Valid() && sequence == old(sequence) && LastOf(output, old(output))
      ensures Flatten(output) == Tail(old(Flatten(output)), maxOutputBytes)
      ensures outputTruncated == (old(outputTruncated) || old(outputBytes) > maxOutputBytes)
    {
      ghost var target := Tail(Flatten(output), maxOutputBytes);
      TrimBegins(output, maxOutputBytes);
      while outputBytes > maxOutputBytes && |output| > 0
        invariant Trimming(output, outputBytes, target, maxOutputBytes) && sequence == old(sequence)
        invariant outputTruncated == (old(outputTruncated) || outputBytes < old(outputBytes))
        invariant outputBytes <= old(outputBytes) && LastOf(output, old(output))
        decreases outputBytes
      {
        TrimGoesOn(output, outputBytes, target, maxOutputBytes);
        var overflow := outputBytes - maxOutputBytes;
        var first := output[0];
        ghost var before := output;
        CutIsLast(output, 0);
        if |first.data| <= overflow && |output| > 1 {
          output := output[1..];
          outputBytes := outputBytes - |first.data|;
        } else {
          var start := SkipContinuation(first.data, overflow);
          TrimCuts(output, outputBytes, target, maxOutputBytes, start);
          CutIsLast(output, start);
          output := CutLeading(output, start);
          outputBytes := outputBytes - start;
        }
        outputTruncated := true;
        LastOfLast(output, before, old(output));
      }
      TrimEnds(output, outputBytes, target, maxOutputBytes);
      LastInSequence(output, old(output), sequence);
    }

    method Append(data: seq<byte>)
      requires Valid() && ValidUtf8(data)
      modifies this
      ensures Valid()
      ensures Flatten(output) == Pushed(old(Flatten(output)), data, maxOutputBytes)
      ensures outputTruncated == (old(outputTruncated) || old(outputBytes) + |data| > maxOutputBytes)
      ensures sequence == old(sequence) + if data == [] then 0 else 1
      // What is left of the new piece has the new number, the others keep theirs.
      ensures data != [] ==> LastOf(output, old(output) + [Chunk(sequence, data)])
    {
      if data == [] {
        assert Flatten(output) + [] == Flatten(output);
        return;
      }
      var bounded, truncated := BoundOutputChunk(data);
      if truncated {
        outputTruncated := true;
      }
      TailIsLongest(data, maxOutputBytes, 0);
      OneMoreInSequence(output, sequence, bounded);
      sequence := sequence + 1;
      PushChunk(output, Chunk(sequence, bounded));
      output := output + [Chunk(sequence, bounded)];
      outputBytes := outputBytes + |bounded|;
      TrimOutputBuffer();
      LastOfSameNumbers(output, old(output), sequence, bounded, data);
    }
  }
}
