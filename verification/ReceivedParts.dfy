/**
 The objects a part's threads share, as the code updates them: ranges, spare requests, and the part as
 its ranges arrive. Their methods do what the actions of the state machine say.
 */
module ReceivedParts {
  import opened Ranges
  import opened Transfer
  import opened Options

  class Range {
    var start: nat
    var end: nat
    var next: nat

    constructor (span: Span)
      ensures View() == span
    {
      start, end, next := span.start, span.end, span.next;
    }

    function View(): Span
      reads this
    {
      Span(start, end, next)
    }
  }

  /** A count of free requests, which ranges take and give back. */
  class SpareRequests {
    var free: nat

    constructor (count: nat)
      ensures free == count
    {
      free := count;
    }

    /** Take up to `wanted` requests. What is free and what was taken is what was free before. */
    method Take(wanted: nat) returns (taken: nat)
      modifies this
      ensures free + taken == old(free)
      ensures taken <= wanted && (taken < wanted ==> free == 0)
    {
      taken := Min(wanted, free);
      free := free - taken;
    }

    method GivenBack()
      modifies this
      ensures free == old(free) + 1
    {
      free := free + 1;
    }
  }

  class ReceivedPart {
    const length: nat
    var digest: seq<Byte>
    var file: seq<Byte>
    var ranges: int
    var honored: bool
    var pieces: seq<Range>
    var held: nat

    constructor (length: nat)
      ensures this.length == length && digest == [] && file == [] && ranges == 0 && !honored && pieces == [] &&
              held == 0
    {
      this.length := length;
      digest, file, ranges, honored, pieces, held := [], [], 0, false, [], 0;
    }

    /** One more live range, over all the part's bytes and none of them received. */
    method Whole() returns (range: Range)
      modifies this`ranges
      ensures fresh(range) && range.View() == Span(0, length, 0) && ranges == old(ranges) + 1
    {
      ranges := ranges + 1;
      range := new Range(Span(0, length, 0));
    }

    method RangeDone()
      modifies this`ranges
      ensures ranges == old(ranges) - 1
    {
      ranges := ranges - 1;
    }

    /** Nothing of the part is left: no byte of its file or digest, no split-off range, none held. */
    method Restart()
      modifies this`file, this`digest, this`pieces, this`held
      ensures file == [] && digest == [] && pieces == [] && held == 0
    {
      file := [];
      digest := [];
      pieces := [];
      held := 0;
    }

    /** Whether an answer is taken: as the range where it is one, as the whole part only where the range is
        the whole part, which then starts over, and never with another declared length than asked for. */
    method Accept(range: Range, ranged: bool, declared: Option<nat>) returns (accepted: bool)
      requires range.next <= range.end
      modifies this`honored, this`file, this`digest, this`pieces, this`held, range`next
      ensures honored == ranged
      ensures ranged ==> unchanged(this`file, this`digest, this`pieces, this`held, range)
      ensures var whole := ranges == 1 && range.start == 0 && range.end == length;
        && (!ranged && whole ==> range.next == 0 && file == [] && digest == [] && pieces == [] && held == 0)
        && (!ranged && !whole ==> !accepted && unchanged(this`file, this`digest, this`pieces, this`held, range))
        && (accepted <==> (ranged || whole) && (declared == None || declared == Some(range.end - range.next)))
    {
      honored := ranged;
      var wanted := range.end - range.next;
      if !ranged {
        var whole := ranges == 1 && range.start == 0 && range.end == length;
        if !whole {
          return false;
        }
        Restart();
        range.next := 0;
        wanted := length;
      }
      accepted := declared == None || declared == Some(wanted);
    }

    /** The block counts as received, and as hashed if it continues the digest, before any of it is in the
        file: a write that fails after `fails` of its bytes leaves the others out of the file alone. */
    method Write(range: Range, block: seq<Byte>, fails: Option<nat>) returns (raised: bool)
      modifies this`digest, this`file, range`next
      ensures range.next == old(range.next) + |block|
      ensures digest == if old(range.next) == |old(digest)| then old(digest) + block else old(digest)
      ensures raised <==> fails.Some? && fails.value < |block|
      ensures file == WriteAll(old(file), old(range.next), if raised then block[..fails.value] else block)
    {
      var offset := range.next;
      range.next := range.next + |block|;
      if offset == |digest| {
        digest := digest + block;
      }
      file, raised := WriteOut(file, offset, block, fails);
    }

    /** `made` are the pieces cut off, on requests taken for them: as many as the limits and the free
        requests allow, or none, which leaves the range as it was. */
    method Split(range: Range, limits: Limits, spare: SpareRequests) returns (made: seq<Range>)
      requires ValidLimits(limits) && range.next <= range.end
      modifies this`ranges, this`pieces, range`end, spare
      ensures |made| == Taken(limits, old(range.View()), old(ranges), honored, old(spare.free))
      ensures spare.free == old(spare.free) - |made| && ranges == old(ranges) + |made| && pieces == old(pieces) + made
      ensures made == [] ==> range.View() == old(range.View())
      ensures made != [] ==> range.View() == old(range.View()).(end := made[0].start)
      ensures made != [] ==> Views(made) == Pieces(old(range.View()), |made| + 1)
    {
      hide Views, Pieces;
      var left := range.end - range.next;
      var ways := WaysAllowed(limits, left, ranges);
      if ways < 2 || !honored {
        return [];
      }
      var taken := spare.Take(ways - 1);
      if taken == 0 {
        return [];
      }
      made := Cut(range.View(), taken + 1);
      range.end := made[0].start;
      ranges := ranges + taken;
      pieces := pieces + made;
    }

    /** The digest is completed from the file, a block at a time, and compared with the entry only if it
        reaches the part's length. */
    method Verified(entry: Entry, blockBytes: nat) returns (matches: bool)
      requires entry.length == length && blockBytes > 0
      modifies this`digest
      ensures digest == Hashable(old(digest), file, length)
      ensures matches <==> |digest| >= length && entry.hash(digest) == entry.sha256
    {
      while |digest| < length
        invariant |old(digest)| <= |digest|
        invariant |digest| > |old(digest)| ==> |digest| <= |file| && |digest| <= length
        invariant |digest| > |old(digest)| ==> digest == old(digest) + file[|old(digest)|..|digest|]
        invariant |digest| == |old(digest)| ==> digest == old(digest)
        decreases length - |digest|
      {
        var block := Pread(file, |digest|, Min(blockBytes, length - |digest|));
        if block == [] {
          return false;
        }
        digest := digest + block;
      }
      matches := entry.hash(digest) == entry.sha256;
    }
  }

  ghost function Views(ranges: seq<Range>): (spans: seq<Span>)
    reads ranges
    ensures |spans| == |ranges| && forall i :: 0 <= i < |ranges| ==> spans[i] == ranges[i].View()
  {
    if ranges == [] then [] else Views(ranges[..|ranges| - 1]) + [ranges[|ranges| - 1].View()]
  }

  /** The ranges split off a slow one. */
  method Cut(span: Span, ways: nat) returns (made: seq<Range>)
    requires span.next <= span.end && ways >= 1
    ensures fresh(made) && |made| == ways - 1 && Views(made) == Pieces(span, ways)
  {
    made := [];
    var index := 1;
    while index < ways
      invariant 1 <= index <= ways && |made| == index - 1 && fresh(made)
      invariant forall i :: 0 <= i < |made| ==> made[i].View() == Piece(span, ways, i + 1)
    {
      var piece := new Range(Piece(span, ways, index));
      made := made + [piece];
      index := index + 1;
    }
  }

  /** A whole block written at its place. */
  ghost function WriteAll(file: seq<Byte>, offset: nat, block: seq<Byte>): seq<Byte> {
    if block == [] then file else WriteAt(file, offset, block)
  }

  lemma WriteMore(file: seq<Byte>, offset: nat, block: seq<Byte>, done: nat, written: nat)
    requires written > 0 && done + written <= |block|
    ensures WriteAt(WriteAll(file, offset, block[..done]), offset + done, block[done..done + written])
         == WriteAll(file, offset, block[..done + written])
  {
    hide WriteAll, WriteAt;
    WritesJoin(file, offset, block[..done], block[done..done + written]);
    assert block[..done] + block[done..done + written] == block[..done + written];
  }

  /** A write may take only some of what it is given, or fail; the file ends as if one write had taken what
      was written of the block. */
  method WriteOut(before: seq<Byte>, offset: nat, block: seq<Byte>, fails: Option<nat>)
    returns (file: seq<Byte>, raised: bool)
    ensures raised <==> fails.Some? && fails.value < |block|
    ensures file == WriteAll(before, offset, if raised then block[..fails.value] else block)
  {
    assert WriteAll(before, offset, block[..0]) == before;
    hide WriteAll, WriteAt;
    file, raised := before, false;
    var done := 0;
    while done < |block|
      invariant 0 <= done <= |block| && file == WriteAll(before, offset, block[..done])
      invariant fails.Some? && fails.value < |block| ==> done <= fails.value
    {
      if fails == Some(done) {
        return file, true;
      }
      var most := if fails.Some? && fails.value < |block| then fails.value - done else |block| - done;
      var written: nat :| 0 < written <= most;
      WriteMore(before, offset, block, done, written);
      file := WriteAt(file, offset + done, block[done..done + written]);
      done := done + written;
    }
    assert block[..|block|] == block;
  }

  /** The bytes a positional read of `count` gives: fewer at the file's end, and none past it. */
  function Pread(file: seq<Byte>, offset: nat, count: nat): (block: seq<Byte>)
    ensures block == [] <==> count == 0 || offset >= |file|
  {
    if offset >= |file| then [] else if offset + count <= |file| then file[offset..offset + count] else file[offset..]
  }

  /** Two writes that follow one another are one. */
  lemma WritesJoin(file: seq<Byte>, offset: nat, a: seq<Byte>, b: seq<Byte>)
    requires b != []
    ensures WriteAt(WriteAll(file, offset, a), offset + |a|, b) == WriteAll(file, offset, a + b)
  {
    assert a == [] ==> a + b == b;
  }
}
