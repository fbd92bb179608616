/** Byte ranges of a part, and the arithmetic of cutting one into pieces. */
module Ranges {
  import opened Products

  type Byte = b: int | 0 <= b < 256

  /** The bytes `[start, end)` of a part, of which `[start, next)` arrived already. */
  datatype Span = Span(start: nat, end: nat, next: nat)

  datatype Limits = Limits(
    splitWays: int,
    smallestRangeBytes: int,
    mostRangesPerPart: int,
    attempts: int)

  /** A range of no bytes cannot be divided by, so the smallest one holds at least one byte. */
  ghost predicate ValidLimits(limits: Limits) {
    limits.smallestRangeBytes >= 1
  }

  function Min(a: int, b: int): int {
    if a <= b then a else b
  }

  /** How many ranges the limits let the rest of a range become, the range itself included. */
  function WaysAllowed(limits: Limits, left: nat, ranges: int): int
    requires ValidLimits(limits)
  {
    Min(Min(limits.splitWays, left / limits.smallestRangeBytes), limits.mostRangesPerPart - ranges + 1)
  }

  /** Where piece `index` of `ways` starts; the last bound is the range's own end. */
  function Bound(span: Span, ways: nat, index: nat): int
    requires ways >= 1
  {
    if index == ways then span.end else span.next + (span.end - span.next) / ways * index
  }

  /** The pieces split off, in order; the range itself keeps the bytes before the first of them. */
  ghost function Pieces(span: Span, ways: nat): (pieces: seq<Span>)
    requires span.next <= span.end && ways >= 1
  {
    seq(ways - 1, index requires 0 <= index < ways - 1 =>
      Piece(span, ways, index + 1))
  }

  function Piece(span: Span, ways: nat, index: nat): Span
    requires span.next <= span.end && ways >= 1 && index < ways
  {
    BoundsGrow(span, ways, index);
    Span(Bound(span, ways, index), Bound(span, ways, index + 1), Bound(span, ways, index))
  }

  /** Consecutive bounds are at least one step apart, and none passes the range's end. */
  lemma BoundsGrow(span: Span, ways: nat, index: nat)
    requires span.next <= span.end && ways >= 1 && index < ways
    ensures span.next <= Bound(span, ways, index)
    ensures Bound(span, ways, index) + (span.end - span.next) / ways <= Bound(span, ways, index + 1) <= span.end
  {
    var left := span.end - span.next;
    var step := left / ways;
    assert step * ways <= left;
    assert 0 <= step * index by { MulMonotone(step, 0, index); }
    assert step * (index + 1) <= step * ways by { MulMonotone(step, index + 1, ways); }
    assert step * (index + 1) == step * index + step;
  }

  lemma FirstBound(span: Span, ways: nat)
    requires span.next <= span.end && ways >= 2
    ensures Bound(span, ways, 1) == span.next + (span.end - span.next) / ways
    ensures Bound(span, ways, ways) == span.end
  {
  }

  /** When the limits allow `ways` ranges, each holds at least the smallest range. */
  lemma StepIsLargeEnough(limits: Limits, left: nat, ways: nat)
    requires ValidLimits(limits)
    requires 1 <= ways <= left / limits.smallestRangeBytes
    ensures left / ways >= limits.smallestRangeBytes
  {
    var s := limits.smallestRangeBytes;
    var q := left / s;
    assert s * q <= left;
    assert s * ways <= s * q by { MulMonotone(s, ways, q); }
    var step := left / ways;
    assert left < ways * (step + 1);
    if step < s {
      MulMonotone(ways, step + 1, s);
    }
  }

  /** Ranges not started yet, each starting where the one before it ends. */
  ghost predicate Chain(pieces: seq<Span>) {
    && (forall j :: 0 <= j < |pieces| ==> pieces[j].start == pieces[j].next <= pieces[j].end)
    && forall j :: 0 < j < |pieces| ==> pieces[j - 1].end == pieces[j].start
  }

  /** The pieces split off are consecutive and end where the range ended; the range keeps `left / ways` bytes, and
      no piece has fewer. */
  lemma PiecesTile(span: Span, ways: nat)
    requires span.start <= span.next <= span.end && ways >= 2
    ensures |Pieces(span, ways)| == ways - 1 && Chain(Pieces(span, ways))
    ensures Pieces(span, ways)[ways - 2].end == span.end
    ensures span.next + (span.end - span.next) / ways == Pieces(span, ways)[0].start
    ensures forall j :: 0 <= j < ways - 1 ==>
      Pieces(span, ways)[j].end - Pieces(span, ways)[j].start >= (span.end - span.next) / ways
    ensures forall j :: 0 <= j < ways - 1 ==>
            span.next <= Pieces(span, ways)[j].start && Pieces(span, ways)[j].end <= span.end
  {
    FirstBound(span, ways);
    hide Bound;
    forall j | 0 <= j < ways - 1
      ensures var piece := Pieces(span, ways)[j];
        && piece.start == piece.next == Bound(span, ways, j + 1) && piece.end == Bound(span, ways, j + 2)
        && piece.end - piece.start >= (span.end - span.next) / ways && span.next <= piece.start && piece.end <= span.end
    {
      BoundsGrow(span, ways, j + 1);
    }
  }

  /** Each piece but the last has as many bytes as the range keeps. */
  lemma PiecesAreEqual(span: Span, ways: nat, j: nat)
    requires span.next <= span.end && j + 2 < ways
    ensures |Pieces(span, ways)| == ways - 1
    ensures Pieces(span, ways)[j].end - Pieces(span, ways)[j].start == (span.end - span.next) / ways
  {
    var step := (span.end - span.next) / ways;
    assert step * (j + 2) == step * (j + 1) + step;
  }
}
