/**
 Sizing the pieces of an audio file that is too large to upload whole.

 Bitrate is taken to be uniform, so bytes are proportional to seconds; probing and
 cutting are the tools' business. Sizes are bytes, durations seconds.
 */
module AudioSplit {
  import opened RealFacts

  function Ceil(x: real): (n: int)
    ensures x <= n as real < x + 1.0
  {
    var below := x.Floor;
    if below as real == x then below else below + 1
  }

  lemma CeilIsLeast(x: real, n: int)
    ensures Ceil(x) <= n <==> x <= n as real
  {
  }

  function PartsNeeded(size: nat, maxBytes: nat): (n: int)
    requires 0 < maxBytes
  {
    Ceil(size as real / maxBytes as real)
  }

  /** An even share of the duration. */
  function Share(size: nat, maxBytes: nat, duration: real): real
    requires 0 < maxBytes < size
  {
    EnoughParts(size, maxBytes);
    duration / PartsNeeded(size, maxBytes) as real
  }

  /** Nothing to split when the file fits; else the length handed to the segmenter, in
      whole seconds: 95% of an even share, at least one second, rounded up. */
  function SegmentSeconds(size: nat, maxBytes: nat, duration: real): (seconds: nat)
    requires 0 < maxBytes < size
    ensures seconds >= 1
  {
    EnoughParts(size, maxBytes);
    var target := Share(size, maxBytes, duration) * 0.95;
    Ceil(if target < 1.0 then 1.0 else target)
  }

  /** A file over the limit needs two parts or more, and they suffice. */
  lemma EnoughParts(size: nat, maxBytes: nat)
    requires 0 < maxBytes < size
    ensures PartsNeeded(size, maxBytes) >= 2
    ensures (PartsNeeded(size, maxBytes) - 1) * maxBytes < size <= PartsNeeded(size, maxBytes) * maxBytes
  {
    var share := size as real / maxBytes as real;
    QuotientTimes(size as real, maxBytes as real);
    Scale(1.0, share, maxBytes as real);
    QuotientBetween(size, maxBytes, PartsNeeded(size, maxBytes), share);
  }

  lemma QuotientBetween(size: nat, maxBytes: nat, n: nat, share: real)
    requires 0 < maxBytes && 0 < n && share * maxBytes as real == size as real && share <= n as real < share + 1.0
    ensures (n - 1) * maxBytes < size <= n * maxBytes
  {
    CastProduct(n, maxBytes);
    CastProduct(n - 1, maxBytes);
    AtMost(size, maxBytes as real, n as real, share, n * maxBytes);
    MoreThan(size, maxBytes as real, (n - 1) as real, share, (n - 1) * maxBytes);
  }

  lemma AtMost(size: nat, unit: real, n: real, share: real, bytes: nat)
    requires 0.0 < unit && share * unit == size as real && share <= n && bytes as real == n * unit
    ensures size <= bytes
  {
    Scale(share, n, unit);
  }

  lemma MoreThan(size: nat, unit: real, n: real, share: real, bytes: nat)
    requires 0.0 < unit && share * unit == size as real && n < share && bytes as real == n * unit
    ensures bytes < size
  {
    Scale(n, share, unit);
  }

  /** How many pieces a segmenter makes of `duration` seconds. */
  function PieceCount(duration: real, seconds: nat): int
    requires 0 < seconds
  {
    Ceil(duration / seconds as real)
  }

  /** The length of piece `k`: the last one takes what is left. */
  function PieceLength(duration: real, seconds: nat, k: nat): real
    requires 0 < seconds
  {
    if k < PieceCount(duration, seconds) - 1 then seconds as real
    else duration - (PieceCount(duration, seconds) - 1) as real * seconds as real
  }

  function PieceBytes(size: nat, duration: real, length: real): real
    requires 0.0 < duration
  {
    size as real * length / duration
  }

  function SumOfLengths(duration: real, seconds: nat, k: nat): real
    requires 0 < seconds
  {
    if k == 0 then 0.0 else SumOfLengths(duration, seconds, k - 1) + PieceLength(duration, seconds, k - 1)
  }

  /** No piece is empty or longer than the segment length. */
  lemma PiecesAreShort(duration: real, seconds: nat, k: nat)
    requires 0 < seconds && 0.0 < duration && k < PieceCount(duration, seconds)
    ensures 0.0 < PieceLength(duration, seconds, k) <= seconds as real
  {
    var n := PieceCount(duration, seconds);
    QuotientTimes(duration, seconds as real);
    BetweenMultiples(duration, seconds as real, duration / seconds as real, (n - 1) as real, n as real);
    Successor((n - 1) as real, seconds as real);
    assert n as real == (n - 1) as real + 1.0;
  }

  lemma BetweenMultiples(duration: real, unit: real, ratio: real, below: real, above: real)
    requires 0.0 < unit && ratio * unit == duration && below < ratio <= above
    ensures below * unit < duration <= above * unit
  {
    Scale(below, ratio, unit);
    Scale(ratio, above, unit);
  }

  lemma {:induction false} FullPiecesAddUp(duration: real, seconds: nat, k: nat)
    requires 0 < seconds && k < PieceCount(duration, seconds)
    ensures SumOfLengths(duration, seconds, k) == k as real * seconds as real
  {
    if k > 0 {
      FullPiecesAddUp(duration, seconds, k - 1);
      Successor((k - 1) as real, seconds as real);
      assert k as real == (k - 1) as real + 1.0;
    }
  }

  /** The pieces make up the whole file. */
  lemma PiecesAddUp(duration: real, seconds: nat)
    requires 0 < seconds && 0.0 < duration
    ensures PieceCount(duration, seconds) >= 1
    ensures SumOfLengths(duration, seconds, PieceCount(duration, seconds)) == duration
  {
    var n := PieceCount(duration, seconds);
    QuotientTimes(duration, seconds as real);
    Scale(0.0, duration / seconds as real, seconds as real);
    FullPiecesAddUp(duration, seconds, n - 1);
  }

  predicate EveryPieceFits(size: nat, maxBytes: nat, duration: real, seconds: nat)
    requires 0 < seconds && 0.0 < duration
  {
    forall k: nat | k < PieceCount(duration, seconds) ::
      PieceBytes(size, duration, PieceLength(duration, seconds, k)) <= maxBytes as real
  }

  lemma BytesFitIff(size: nat, maxBytes: nat, duration: real, length: real)
    requires 0.0 < duration
    ensures PieceBytes(size, duration, length) <= maxBytes as real <==>
        size as real * length <= maxBytes as real * duration
  {
    var bytes := PieceBytes(size, duration, length);
    QuotientTimes(size as real * length, duration);
    Scale(bytes, maxBytes as real, duration);
  }

  /** Every piece fits exactly when a piece of full length would: shorter last pieces never
      save a length that is too long. */
  lemma FitsIffFullPieceFits(size: nat, maxBytes: nat, duration: real, seconds: nat)
    requires 0 < maxBytes < size && 0 < seconds && 0.0 < duration
    ensures EveryPieceFits(size, maxBytes, duration, seconds) <==>
              size as real * seconds as real <= maxBytes as real * duration
  {
    var n := PieceCount(duration, seconds);
    PiecesAddUp(duration, seconds);
    if size as real * seconds as real <= maxBytes as real * duration {
      forall k: nat | k < n
        ensures PieceBytes(size, duration, PieceLength(duration, seconds, k)) <= maxBytes as real
      {
        var length := PieceLength(duration, seconds, k);
        PiecesAreShort(duration, seconds, k);
        Larger(size as real, length, seconds as real);
        BytesFitIff(size, maxBytes, duration, length);
      }
    } else if n >= 2 {
      BytesFitIff(size, maxBytes, duration, seconds as real);
      assert PieceLength(duration, seconds, 0) == seconds as real;
      assert !(PieceBytes(size, duration, PieceLength(duration, seconds, 0)) <= maxBytes as real);
    } else {
      BytesFitIff(size, maxBytes, duration, duration);
      assert PieceLength(duration, seconds, 0) == duration;
      Scale(maxBytes as real, size as real, duration);
      assert !(PieceBytes(size, duration, PieceLength(duration, seconds, 0)) <= maxBytes as real);
    }
  }

  /** With at least 20 seconds to a share, rounding the 95% target up to whole seconds
      still leaves it within the share. */
  lemma LongSharesAbsorbRounding(share: real)
    requires share >= 20.0
    ensures Ceil(share * 0.95) as real <= share
  {
  }

  lemma SharesAddUp(size: nat, maxBytes: nat, duration: real)
    requires 0 < maxBytes < size
    ensures Share(size, maxBytes, duration) * PartsNeeded(size, maxBytes) as real == duration
    ensures 0.0 < duration <==> 0.0 < Share(size, maxBytes, duration)
  {
    EnoughParts(size, maxBytes);
    Scale(0.0, Share(size, maxBytes, duration), PartsNeeded(size, maxBytes) as real);
  }

  /** Whatever the duration, the 5% margin costs at most so many more pieces. */
  lemma NotTooManyPieces(size: nat, maxBytes: nat, duration: real)
    requires 0 < maxBytes < size && 0.0 < duration
    ensures var seconds := SegmentSeconds(size, maxBytes, duration);
      PieceCount(duration, seconds) <= Ceil(PartsNeeded(size, maxBytes) as real / 0.95)
  {
    var parts, share := PartsNeeded(size, maxBytes) as real, Share(size, maxBytes, duration);
    var seconds := SegmentSeconds(size, maxBytes, duration);
    SharesAddUp(size, maxBytes, duration);
    EnoughParts(size, maxBytes);
    Larger(parts / 0.95, share * 0.95, seconds as real);
    assert parts / 0.95 * (share * 0.95) == share * parts;
    PiecesAtMost(duration, seconds, parts / 0.95);
  }

  lemma PiecesAtMost(duration: real, seconds: nat, bound: real)
    requires 0 < seconds && duration <= bound * seconds as real
    ensures PieceCount(duration, seconds) <= Ceil(bound)
  {
    QuotientTimes(duration, seconds as real);
    RatioAtMost(duration, seconds as real, duration / seconds as real, bound);
    CeilIsLeast(duration / seconds as real, Ceil(bound));
  }

  lemma RatioAtMost(duration: real, unit: real, ratio: real, bound: real)
    requires 0.0 < unit && ratio * unit == duration && duration <= bound * unit
    ensures ratio <= bound
  {
    Scale(ratio, bound, unit);
  }

  lemma RatioAtLeast(duration: real, unit: real, ratio: real, bound: real)
    requires 0.0 < unit && ratio * unit == duration && bound * unit <= duration
    ensures bound <= ratio
  {
    Scale(bound, ratio, unit);
  }

  lemma PiecesAtLeast(duration: real, seconds: nat, bound: int)
    requires 0 < seconds && bound as real * seconds as real <= duration
    ensures bound <= PieceCount(duration, seconds)
  {
    QuotientTimes(duration, seconds as real);
    RatioAtLeast(duration, seconds as real, duration / seconds as real, bound as real);
  }

  /** With at least 20 seconds to a share every piece fits, and there are at least as many
      pieces as parts needed. */
  lemma LongFilesSplitWell(size: nat, maxBytes: nat, duration: real)
    requires 0 < maxBytes < size && Share(size, maxBytes, duration) >= 20.0
    ensures var seconds := SegmentSeconds(size, maxBytes, duration);
      && 0.0 < duration
      && EveryPieceFits(size, maxBytes, duration, seconds)
      && PartsNeeded(size, maxBytes) <= PieceCount(duration, seconds)
  {
    var share, seconds := Share(size, maxBytes, duration), SegmentSeconds(size, maxBytes, duration);
    SharesAddUp(size, maxBytes, duration);
    EnoughParts(size, maxBytes);
    LongSharesAbsorbRounding(share);
    Larger(PartsNeeded(size, maxBytes) as real, seconds as real, share);
    ShareIsEnough(size, maxBytes, duration, seconds);
    FitsIffFullPieceFits(size, maxBytes, duration, seconds);
    PiecesAtLeast(duration, seconds, PartsNeeded(size, maxBytes));
  }

  lemma ShareIsEnough(size: nat, maxBytes: nat, duration: real, seconds: nat)
    requires 0 < maxBytes < size && 0.0 < duration
    requires PartsNeeded(size, maxBytes) as real * seconds as real <= duration
    ensures size as real * seconds as real <= maxBytes as real * duration
  {
    var parts := PartsNeeded(size, maxBytes) as real;
    EnoughParts(size, maxBytes);
    Larger(seconds as real, size as real, parts * maxBytes as real);
    Larger(maxBytes as real, parts * seconds as real, duration);
    assert (parts * maxBytes as real) * seconds as real == maxBytes as real * (parts * seconds as real);
  }

  /** Short shares can fail: twenty bytes in 19 seconds, at most ten to a piece, come out
      as a ten-second piece of more than ten bytes. */
  lemma ShortSharesCanOverflow()
    ensures SegmentSeconds(20, 10, 19.0) == 10 && !EveryPieceFits(20, 10, 19.0, 10)
  {
    assert PartsNeeded(20, 10) == 2;
    FitsIffFullPieceFits(20, 10, 19.0, 10);
  }
}
