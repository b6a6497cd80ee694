/** Splitting a text into fragments, and the PNG image size (src/wire.rs). */
module Chunking {
  import opened Basics
  import opened Utf8

  /** Consecutive pieces of the text from `start` on, cut between characters, within the limit. */
  ghost predicate IsSplit(bytes: seq<Byte>, start: nat, pieces: seq<seq<Byte>>, limit: nat)
    decreases |pieces|
  {
    if pieces == [] then start == |bytes|
    else
      var end := start + |pieces[0]|;
      && |pieces[0]| <= limit
      && end <= |bytes|
      && pieces[0] == bytes[start..end]
      && IsBoundary(bytes, end)
      && IsSplit(bytes, end, pieces[1..], limit)
  }

  /** The last boundary in `start..end`. */
  function LastBoundary(bytes: seq<Byte>, start: nat, end: nat): (b: nat)
    requires start <= end <= |bytes| && IsBoundary(bytes, start)
    ensures start <= b <= end && IsBoundary(bytes, b)
    ensures forall i :: b < i <= end ==> !IsBoundary(bytes, i)
    decreases end
  {
    if IsBoundary(bytes, end) then end else LastBoundary(bytes, start, end - 1)
  }

  function Reach(bytes: seq<Byte>, start: nat, limit: nat): nat {
    if start + limit < |bytes| then start + limit else |bytes|
  }

  /** Greedy chunking from a boundary; `None` when a character does not fit. */
  function Chunks(bytes: seq<Byte>, start: nat, limit: nat): Option<seq<seq<Byte>>>
    requires start <= |bytes| && IsBoundary(bytes, start)
    decreases |bytes| - start
  {
    if start == |bytes| then Some([])
    else
      var end := LastBoundary(bytes, start, Reach(bytes, start, limit));
      if end == start then None
      else
        match Chunks(bytes, end, limit)
        case None => None
        case Some(rest) => Some([bytes[start..end]] + rest)
  }

  function Join(pieces: seq<seq<Byte>>): seq<Byte> {
    if pieces == [] then [] else pieces[0] + Join(pieces[1..])
  }

  ghost predicate Fits(text: seq<Scalar>, limit: nat) {
    forall k :: 0 <= k < |text| ==> |Encode(text[k])| <= limit
  }

  /** The chunks already cut, then those still to come. */
  function Followed(parts: seq<seq<Byte>>, rest: Option<seq<seq<Byte>>>): Option<seq<seq<Byte>>> {
    if rest.None? then None else Some(parts + rest.value)
  }

  lemma FollowedByOne(parts: seq<seq<Byte>>, piece: seq<Byte>, rest: Option<seq<seq<Byte>>>)
    ensures Followed(parts + [piece], rest) == Followed(parts, if rest.None? then None
      else Some([piece] + rest.value))
    ensures Followed([], rest) == rest
  {
    if rest.Some? {
      assert (parts + [piece]) + rest.value == parts + ([piece] + rest.value);
      assert [] + rest.value == rest.value;
    }
  }

  /** The chunk loop of `encode`. */
  method Split(bytes: seq<Byte>, limit: nat) returns (chunks: Option<seq<seq<Byte>>>)
    requires 0 < limit < |bytes|
    ensures chunks == Chunks(bytes, 0, limit)
  {
    var start := 0;
    var parts: seq<seq<Byte>> := [];
    FollowedByOne([], [], Chunks(bytes, 0, limit));
    while start < |bytes|
      invariant start <= |bytes| && IsBoundary(bytes, start)
      invariant Chunks(bytes, 0, limit) == Followed(parts, Chunks(bytes, start, limit))
    {
      var end := Reach(bytes, start, limit);
      while !IsBoundary(bytes, end)
        invariant start <= end <= |bytes|
        invariant LastBoundary(bytes, start, end) == LastBoundary(bytes, start, Reach(bytes, start, limit))
        decreases end
      {
        end := end - 1;
      }
      if end <= start {
        return None;
      }
      FollowedByOne(parts, bytes[start..end], Chunks(bytes, end, limit));
      parts := parts + [bytes[start..end]];
      start := end;
    }
    assert parts + [] == parts;
    return Some(parts);
  }

  lemma {:induction false} SplitJoins(bytes: seq<Byte>, start: nat, pieces: seq<seq<Byte>>, limit: nat)
    requires IsSplit(bytes, start, pieces, limit) && start <= |bytes|
    ensures Join(pieces) == bytes[start..]
    decreases |pieces|
  {
    if pieces != [] {
      var end := start + |pieces[0]|;
      SplitJoins(bytes, end, pieces[1..], limit);
      assert bytes[start..] == bytes[start..end] + bytes[end..];
    }
  }

  /** The chunks are a split into non-empty pieces that join to the text. */
  lemma {:induction false} ChunksAreASplit(bytes: seq<Byte>, start: nat, limit: nat)
    requires start <= |bytes| && IsBoundary(bytes, start) && Chunks(bytes, start, limit).Some?
    ensures var chunks := Chunks(bytes, start, limit).value;
      && IsSplit(bytes, start, chunks, limit)
      && Join(chunks) == bytes[start..]
      && forall i :: 0 <= i < |chunks| ==> 0 < |chunks[i]|
    decreases |bytes| - start
  {
    var chunks := Chunks(bytes, start, limit).value;
    if start < |bytes| {
      var end := LastBoundary(bytes, start, Reach(bytes, start, limit));
      ChunksAreASplit(bytes, end, limit);
      assert chunks[0] == bytes[start..end];
      assert chunks[1..] == Chunks(bytes, end, limit).value;
      assert forall i :: 1 <= i < |chunks| ==> chunks[i] == chunks[1..][i - 1];
    }
    SplitJoins(bytes, start, chunks, limit);
  }

  /** Every piece of a split is valid UTF-8 by itself. */
  lemma {:induction false} PiecesAreTexts(text: seq<Scalar>, start: nat, pieces: seq<seq<Byte>>, limit: nat, i: nat)
    returns (characters: seq<Scalar>)
    requires IsSplit(EncodeAll(text), start, pieces, limit) && start <= |EncodeAll(text)|
    requires IsBoundary(EncodeAll(text), start) && i < |pieces|
    ensures pieces[i] == EncodeAll(characters)
    decreases i
  {
    var end := start + |pieces[0]|;
    if i > 0 {
      characters := PiecesAreTexts(text, end, pieces[1..], limit, i - 1);
    } else {
      BoundaryIsOffset(text, start);
      BoundaryIsOffset(text, end);
      var from: nat :| from <= |text| && Offset(text, from) == start;
      var to: nat :| to <= |text| && Offset(text, to) == end;
      if to < from { OffsetMonotone(text, to, from); }
      characters := text[if from <= to then from else to..to];
      SliceIsEncoding(text, if from <= to then from else to, to);
    }
  }

  /** Splitting succeeds exactly when no character is wider than the limit. */
  lemma ChunkingSucceedsIff(text: seq<Scalar>, limit: nat)
    ensures Chunks(EncodeAll(text), 0, limit).Some? <==> Fits(text, limit)
  {
    var bytes := EncodeAll(text);
    OffsetEnds(text);
    if Chunks(bytes, 0, limit).Some? {
      ChunksAreASplit(bytes, 0, limit);
      forall k | 0 <= k < |text|
        ensures |Encode(text[k])| <= limit
      {
        SplitCharacterFits(text, 0, Chunks(bytes, 0, limit).value, limit, k);
      }
    } else {
      StuckOnWideCharacter(text, 0, limit);
    }
  }

  lemma {:induction false} SplitCharacterFits(text: seq<Scalar>, start: nat, pieces: seq<seq<Byte>>, limit: nat,
                                              k: nat)
    requires IsSplit(EncodeAll(text), start, pieces, limit)
    requires k < |text| && start <= Offset(text, k)
    ensures |Encode(text[k])| <= limit
    decreases |pieces|
  {
    hide EncodeAll, Encode, Offset, IsBoundary;
    OffsetStep(text, k);
    OffsetMonotone(text, k + 1, |text|);
    OffsetEnds(text);
    var end := start + |pieces[0]|;
    if end <= Offset(text, k) {
      SplitCharacterFits(text, end, pieces[1..], limit, k);
    } else {
      BoundaryIsOffset(text, end);
      var m: nat :| m <= |text| && Offset(text, m) == end;
      if m <= k { OffsetMonotone(text, m, k); }
      OffsetMonotone(text, k + 1, m);
    }
  }

  lemma {:induction false} StuckOnWideCharacter(text: seq<Scalar>, start: nat, limit: nat)
    requires start <= |EncodeAll(text)| && IsBoundary(EncodeAll(text), start)
    requires Chunks(EncodeAll(text), start, limit).None?
    ensures !Fits(text, limit)
    decreases |EncodeAll(text)| - start
  {
    var bytes := EncodeAll(text);
    var end := LastBoundary(bytes, start, Reach(bytes, start, limit));
    if end > start {
      StuckOnWideCharacter(text, end, limit);
    } else {
      BoundaryIsOffset(text, start);
      var k: nat :| k <= |text| && Offset(text, k) == start;
      OffsetEnds(text);
      OffsetStep(text, k);
      OffsetMonotone(text, k + 1, |text|);
      BoundaryIsOffset(text, Offset(text, k + 1));
      assert |Encode(text[k])| > limit;
    }
  }

  /** Greedy is optimal: from any position not behind, no split needs fewer pieces. */
  lemma {:induction false} GreedyIsMinimal(bytes: seq<Byte>, start: nat, other: nat, split: seq<seq<Byte>>,
                                           limit: nat)
    requires other <= start <= |bytes| && IsBoundary(bytes, start)
    requires Chunks(bytes, start, limit).Some?
    requires IsSplit(bytes, other, split, limit)
    ensures |Chunks(bytes, start, limit).value| <= |split|
    decreases |split|
  {
    if start < |bytes| {
      var end := LastBoundary(bytes, start, Reach(bytes, start, limit));
      GreedyIsMinimal(bytes, end, other + |split[0]|, split[1..], limit);
    }
  }

  // ------------------------------------------------------------------- PNG size

  function SquareRoot(n: nat): (r: nat)
    ensures r * r <= n < (r + 1) * (r + 1)
  {
    SquareRootFrom(n, 0)
  }

  function SquareRootFrom(n: nat, r: nat): (root: nat)
    requires r * r <= n
    ensures root * root <= n < (root + 1) * (root + 1)
    decreases n - r * r
  {
    if n < (r + 1) * (r + 1) then r else SquareRootFrom(n, r + 1)
  }

  function Width(length: nat): nat {
    var root := SquareRoot(length / 3);
    if root == 0 then 1 else root
  }

  function CeilingDivide(n: nat, d: nat): (q: nat)
    requires d > 0
    ensures n <= q * d < n + d
  {
    if n % d == 0 then n / d else n / d + 1
  }

  function Height(length: nat): nat {
    CeilingDivide(length, 3 * Width(length))
  }

  lemma WidthBounds(length: nat)
    requires length >= 1
    ensures var w := Width(length);
      && w >= 1
      && (w > 1 ==> 3 * (w * w) <= length)
      && length < 3 * (w * w) + 6 * w + 3
  {
    var w := Width(length);
    assert (w + 1) * (w + 1) == w * w + 2 * w + 1;
  }

  /** The image holds the text, wastes less than one row, and is nearly square. */
  lemma PngFits(length: nat)
    requires length >= 1
    ensures var w, h := Width(length), Height(length);
      && w >= 1
      && length <= h * (3 * w) < length + 3 * w
      && w <= h <= w + 3
  {
    WidthBounds(length);
    NearlySquare(length, Width(length), Height(length));
  }

  lemma NearlySquare(length: nat, w: nat, h: nat)
    requires w >= 1 && length >= 1
    requires w > 1 ==> 3 * (w * w) <= length
    requires length < 3 * (w * w) + 6 * w + 3
    requires length <= h * (3 * w) < length + 3 * w
    ensures w <= h <= w + 3
  {
    if h < w {
      Multiples(h + 1, w, 3 * w);
      Distribute(h, 1, 3 * w);
      Regroup(w);
    }
    if h > w + 3 {
      Multiples(w + 4, h, 3 * w);
      Distribute(w, 4, 3 * w);
      Regroup(w);
    }
  }

  lemma Distribute(a: nat, b: nat, m: nat)
    ensures (a + b) * m == a * m + b * m
  {
  }

  lemma Regroup(w: nat)
    ensures w * (3 * w) == 3 * (w * w)
  {
  }

  lemma Multiples(a: nat, b: nat, m: nat)
    requires a <= b
    ensures a * m <= b * m
  {
  }
}
