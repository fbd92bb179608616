/** Each action keeps the invariant of its part. */
module TransferSteps {
  import opened Ranges
  import opened Transfer
  import opened TransferInvariant

  // ----- Actions that touch no bytes -----

  /** The same places are held, received and being written. */
  ghost predicate SamePlaces(ws: seq<Worker>, ws': seq<Worker>) {
    && Tally(ws', Width) == Tally(ws, Width)
    && (forall i :: Tally(ws', Held(i)) == Tally(ws, Held(i)))
    && (forall i :: Tally(ws', Got(i)) == Tally(ws, Got(i)))
    && (forall i :: Tally(ws', Flying(i)) == Tally(ws, Flying(i)))
  }

  lemma SamePlacesKeep(length: nat, ws: seq<Worker>, ws': seq<Worker>, b: Bytes)
    requires SamePlaces(ws, ws') && BytesShaped(length, b) && ws != [] && ws' != []
    requires Tiled(length, ws) && Accounted(length, ws, b) && Hashed(length, ws, b)
    ensures Tiled(length, ws') && Accounted(length, ws', b) && Hashed(length, ws', b)
  {
  }

  /** One range's thread moved on: it holds and writes the same bytes. */
  ghost predicate Moved(w: Worker, w': Worker) {
    && w'.main == w.main && w'.span == w.span
    && !w.pc.Done? && !w.pc.Writing? && !w'.pc.Writing?
    && (w'.pc == Leaving(Fine) || w'.pc == Done(Fine) ==> w'.span.next == w'.span.end)
  }

  /** While a range has not ended, the part's thread waits for its ranges, and stays as it is. */
  lemma StillFetching(t: Thread, ws: seq<Worker>, k: nat, w': Worker)
    requires Roles(t, ws) && k < |ws| && !ws[k].pc.Done? && w'.main == ws[k].main
    ensures Streaming(t) && !Received(t) && !Completed(t) && Roles(t, ws[k := w'])
  {
  }

  /** An action of a range leaves the part's thread, its passes and its mismatches as they are. */
  lemma WorkerLeavesThread(limits: Limits, entry: Entry, l: Local, a: Action)
    requires ValidLimits(limits) && Shaped(entry.length, l.part) && WorkerEnabled(l.part.workers, a)
    ensures var q := Do(limits, entry, l, a);
      q.thread == l.part.thread && q.mismatches == l.part.mismatches && q.earlier == l.part.earlier
  {
    hide NextWorker, Taken, SplitUp, Arrived, Written;
  }

  /** So it finds the thread waiting for the part's ranges, and leaves it so. */
  lemma WorkerFetches(limits: Limits, entry: Entry, l: Local, a: Action)
    requires Inv(limits, entry, l.part) && WorkerEnabled(l.part.workers, a)
    ensures var t := Do(limits, entry, l, a).thread;
      t == l.part.thread && (t == Fetching || t.StopOthers? || t.Joining?)
  {
    hide Tally, Tiled, Accounted, Hashed, Stored, Carried, Ranged, Filled, Checked, Do;
    WorkerLeavesThread(limits, entry, l, a);
    StillFetching(l.part.thread, l.part.workers, a.k, l.part.workers[a.k]);
  }

  /** What one range's change has to keep of itself. */
  lemma OneChanges(limits: Limits, length: nat, t: Thread, ws: seq<Worker>, ranges: int, k: nat, w': Worker)
    requires Roles(t, ws) && WorkersShaped(length, ws) && Filled(ws) && Ranged(limits, ws, ranges)
    requires k < |ws| && !ws[k].pc.Done? && w'.main == ws[k].main
    requires WorkerShaped(length, w') && w'.span.start == ws[k].span.start && w'.span.end == ws[k].span.end
    requires w'.pc == Leaving(Fine) || w'.pc == Done(Fine) ==> w'.span.next == w'.span.end
    requires Weight(w', Live) <= Weight(ws[k], Live)
    ensures Roles(t, ws[k := w']) && WorkersShaped(length, ws[k := w']) && Filled(ws[k := w'])
    ensures Ranged(limits, ws[k := w'], ranges + Weight(w', Live) - Weight(ws[k], Live))
    ensures Streaming(t) && !Received(t) && !Completed(t)
  {
    StillFetching(t, ws, k, w');
    TallyUpdate(ws, k, w', Live);
  }

  lemma OneCarries(ws: seq<Worker>, data: seq<Byte>, k: nat, w': Worker)
    requires Carried(ws, data) && k < |ws| && Carries(w', data)
    ensures Carried(ws[k := w'], data)
  {
  }

  lemma MovedKeeps(limits: Limits, entry: Entry, p: Part, k: nat, w': Worker, p': Part)
    requires Inv(limits, entry, p) && k < |p.workers| && Moved(p.workers[k], w')
    requires p'.thread == p.thread && p'.workers == p.workers[k := w'] && p'.bytes == p.bytes
    requires p'.ranges == p.ranges + Weight(w', Live) - Weight(p.workers[k], Live) <= p.ranges
    ensures Inv(limits, entry, p')
  {
    hide Tally;
    MovedPlaces(p.workers, k, w');
    assert WorkerShaped(entry.length, p.workers[k]);
    OneChanges(limits, entry.length, p.thread, p.workers, p.ranges, k, w');
    OneCarries(p.workers, p.bytes.data, k, w');
    SamePlacesKeep(entry.length, p.workers, p'.workers, p.bytes);
  }

  lemma MovedPlaces(ws: seq<Worker>, k: nat, w': Worker)
    requires k < |ws| && Moved(ws[k], w')
    ensures SamePlaces(ws, ws[k := w'])
  {
    Replaced(ws, k, w');
  }

  lemma QuietMoves(limits: Limits, p: Part, stopping: bool, a: Action)
    requires Quiet(a) && WorkerEnabled(p.workers, a)
    requires var w := p.workers[a.k]; w.span.next <= w.span.end && (w.pc == Leaving(Fine) ==> w.span.next == w.span.end)
    ensures Moved(p.workers[a.k], NextWorker(limits, p, stopping, a))
  {
  }

  lemma QuietLives(limits: Limits, p: Part, stopping: bool, a: Action)
    requires Quiet(a) && WorkerEnabled(p.workers, a)
    ensures Weight(NextWorker(limits, p, stopping, a), Live) - Weight(p.workers[a.k], Live)
         == if a.Leave? then -1 else 0
  {
  }

  lemma QuietKeeps(limits: Limits, entry: Entry, p: Part, stopping: bool, a: Action)
    requires Inv(limits, entry, p) && Quiet(a) && WorkerEnabled(p.workers, a)
    ensures Inv(limits, entry, DoQuiet(limits, p, stopping, a))
  {
    hide Tally, Weight, NextWorker, Tiled, Accounted, Hashed, Stored, Carried, Ranged, Checked, Roles;
    assert WorkerShaped(entry.length, p.workers[a.k]);
    QuietMoves(limits, p, stopping, a);
    QuietLives(limits, p, stopping, a);
    hide Inv;
    MovedKeeps(limits, entry, p, a.k, NextWorker(limits, p, stopping, a), DoQuiet(limits, p, stopping, a));
  }

  // ----- A block arrives -----

  ghost predicate Fits(length: nat, ws: seq<Worker>, k: nat, block: seq<Byte>) {
    && WorkersShaped(length, ws) && Tiled(length, ws) && At(ws, k, Receiving)
    && 0 < |block| <= ws[k].span.end - ws[k].span.next
  }

  /** Only the range holding a place it has not received yet could have received it. */
  lemma NotYetGot(length: nat, ws: seq<Worker>, k: nat, i: int)
    requires WorkersShaped(length, ws) && Tiled(length, ws) && k < |ws|
    requires ws[k].span.next <= i < ws[k].span.end
    ensures Tally(ws, Got(i)) == 0
  {
    forall j | 0 <= j < |ws| ensures Weight(ws[j], Got(i)) == 0 {
      if j != k {
        TallyTwice(ws, if j < k then j else k, if j < k then k else j, Held(i));
      }
    }
    NoneWeigh(ws, Got(i));
  }

  lemma BlockAccounted(length: nat, ws: seq<Worker>, k: nat, b: Bytes, block: seq<Byte>)
    requires Fits(length, ws, k, block) && BytesShaped(length, b) && Accounted(length, ws, b)
    ensures Tiled(length, ws[k := Took(ws[k], block)])
    ensures Accounted(length, ws[k := Took(ws[k], block)], Arrived(b, ws[k].span.next, block))
  {
    Replaced(ws, k, Took(ws[k], block));
  }

  lemma BlockStored(length: nat, ws: seq<Worker>, k: nat, b: Bytes, block: seq<Byte>)
    requires Fits(length, ws, k, block) && BytesShaped(length, b) && Accounted(length, ws, b) && Stored(length, b)
    ensures Stored(length, Arrived(b, ws[k].span.next, block))
  {
    var b' := Arrived(b, ws[k].span.next, block);
    forall i | 0 <= i < length && b.writes[i] > 0
      ensures b'.data[i] == b.data[i]
    {
      if ws[k].span.next <= i < ws[k].span.end {
        NotYetGot(length, ws, k, i);
        TallyBounds(ws, Flying(i));
        assert false;
      }
    }
  }

  lemma BlockCarried(length: nat, ws: seq<Worker>, k: nat, b: Bytes, block: seq<Byte>)
    requires Fits(length, ws, k, block) && BytesShaped(length, b) && Carried(ws, b.data)
    ensures Carried(ws[k := Took(ws[k], block)], Arrived(b, ws[k].span.next, block).data)
  {
    var data' := Overlay(b.data, ws[k].span.next, block);
    assert data'[ws[k].span.next..ws[k].span.next + |block|] == block;
    forall j | 0 <= j < |ws| && j != k ensures Carries(ws[j], data') {
      Apart(length, ws, k, j, b.data, block);
    }
  }

  /** A block lands on no place another range is still writing. */
  lemma Apart(length: nat, ws: seq<Worker>, k: nat, j: nat, data: seq<Byte>, block: seq<Byte>)
    requires Fits(length, ws, k, block) && j < |ws| && j != k && |data| == length
    requires Carries(ws[j], data)
    ensures Carries(ws[j], Overlay(data, ws[k].span.next, block))
  {
    var w, v := ws[k], ws[j];
    var data' := Overlay(data, w.span.next, block);
    if v.pc.Writing? {
      var from := v.span.next - |v.pc.rest|;
      forall i | from <= i < v.span.next ensures data'[i] == data[i] {
        if w.span.next <= i < w.span.end {
          TallyTwice(ws, if j < k then j else k, if j < k then k else j, Held(i));
        }
      }
      assert data'[from..v.span.next] == data[from..v.span.next];
    }
  }

  lemma BlockHashed(length: nat, ws: seq<Worker>, k: nat, b: Bytes, block: seq<Byte>)
    requires Fits(length, ws, k, block) && BytesShaped(length, b) && Hashed(length, ws, b)
    ensures Hashed(length, ws[k := Took(ws[k], block)], Arrived(b, ws[k].span.next, block))
  {
    var ws', b' := ws[k := Took(ws[k], block)], Arrived(b, ws[k].span.next, block);
    var offset := ws[k].span.next;
    Replaced(ws, k, ws'[k]);
    forall i | 0 <= i < |b'.digest|
      ensures b'.digest[i] == b'.data[i] && Tally(ws', Got(i)) == 1
    {
      if offset <= i < offset + |block| {
        NotYetGot(length, ws, k, i);
      }
    }
  }

  lemma BlockKeeps(limits: Limits, entry: Entry, p: Part, k: nat, block: seq<Byte>)
    requires Inv(limits, entry, p) && WorkerEnabled(p.workers, Block(k, block))
    ensures Inv(limits, entry, AfterBlock(p, k, block))
  {
    hide Tally;
    var ws, w' := p.workers, Took(p.workers[k], block);
    assert AfterBlock(p, k, block).workers == ws[k := w'];
    OneChanges(limits, entry.length, p.thread, ws, p.ranges, k, w');
    BlockAccounted(entry.length, ws, k, p.bytes, block);
    BlockStored(entry.length, ws, k, p.bytes, block);
    BlockCarried(entry.length, ws, k, p.bytes, block);
    BlockHashed(entry.length, ws, k, p.bytes, block);
  }

  // ----- A block is written, or is not -----

  /** The places still being written are those before, without the ones in `[from, to)`. */
  ghost predicate Shrinks(ws: seq<Worker>, ws': seq<Worker>, from: int, to: int) {
    && Tally(ws', Width) == Tally(ws, Width)
    && (forall i :: Tally(ws', Held(i)) == Tally(ws, Held(i)))
    && (forall i :: Tally(ws', Got(i)) == Tally(ws, Got(i)))
    && forall i :: Tally(ws', Flying(i)) == Tally(ws, Flying(i)) - if from <= i < to then 1 else 0
  }

  lemma WritingShrinks(ws: seq<Worker>, k: nat, w': Worker, from: int, to: int)
    requires k < |ws| && ws[k].pc.Writing? && w'.span == ws[k].span && from == ws[k].span.next - |ws[k].pc.rest| <= to
    requires if w'.pc.Writing? then |w'.pc.rest| == ws[k].span.next - to else to == ws[k].span.next
    ensures Shrinks(ws, ws[k := w'], from, to)
  {
    Replaced(ws, k, w');
  }

  lemma ShrinksKeep(length: nat, ws: seq<Worker>, ws': seq<Worker>, b: Bytes, b': Bytes, from: int, to: int)
    requires Shrinks(ws, ws', from, to) && ws != [] && ws' != [] && BytesShaped(length, b)
    requires Tiled(length, ws) && Accounted(length, ws, b) && Hashed(length, ws, b)
    requires b'.digest == b.digest && b'.data == b.data
    requires (b'.writes == Bump(b.writes, from, to) && b'.lost == b.lost) ||
             (b'.lost == Bump(b.lost, from, to) && b'.writes == b.writes)
    ensures BytesShaped(length, b') && Tiled(length, ws') && Accounted(length, ws', b') && Hashed(length, ws', b')
  {
  }

  lemma PwriteStored(length: nat, w: Worker, b: Bytes, written: nat)
    requires BytesShaped(length, b) && WorkerShaped(length, w) && w.pc.Writing? && 0 < written <= |w.pc.rest|
    requires Stored(length, b) && Carries(w, b.data)
    ensures BytesShaped(length, Written(b, w, written)) && Stored(length, Written(b, w, written))
    ensures Carries(Wrote(w, written), b.data) && Written(b, w, written).data == b.data
  {
    var offset := w.span.next - |w.pc.rest|;
    forall i | offset <= i < w.span.next ensures w.pc.rest[i - offset] == b.data[i] {
      assert w.pc.rest[i - offset] == b.data[offset..w.span.next][i - offset];
    }
    assert b.data[offset + written..w.span.next] == w.pc.rest[written..];
  }

  lemma PwriteAccounted(length: nat, ws: seq<Worker>, k: nat, b: Bytes, written: nat)
    requires WorkersShaped(length, ws) && WorkerEnabled(ws, Pwrite(k, written)) && BytesShaped(length, b)
    requires Tiled(length, ws) && Accounted(length, ws, b) && Hashed(length, ws, b)
    ensures Tiled(length, ws[k := Wrote(ws[k], written)])
    ensures BytesShaped(length, Written(b, ws[k], written))
    ensures Accounted(length, ws[k := Wrote(ws[k], written)], Written(b, ws[k], written))
    ensures Hashed(length, ws[k := Wrote(ws[k], written)], Written(b, ws[k], written))
  {
    hide Shrinks, Tiled, Accounted, Hashed, Tally, WriteAt;
    var w := ws[k];
    assert WorkerShaped(length, w);
    var offset := w.span.next - |w.pc.rest|;
    WritingShrinks(ws, k, Wrote(w, written), offset, offset + written);
    ShrinksKeep(length, ws, ws[k := Wrote(w, written)], b, Written(b, w, written), offset, offset + written);
  }

  lemma PwriteKeeps(limits: Limits, entry: Entry, p: Part, k: nat, written: nat)
    requires Inv(limits, entry, p) && WorkerEnabled(p.workers, Pwrite(k, written))
    ensures Inv(limits, entry, AfterPwrite(p, k, written))
  {
    hide Tally, Tiled, Accounted, Hashed, Stored, Written;
    var w := p.workers[k];
    assert WorkerShaped(entry.length, w) && Carries(w, p.bytes.data);
    OneChanges(limits, entry.length, p.thread, p.workers, p.ranges, k, Wrote(w, written));
    PwriteAccounted(entry.length, p.workers, k, p.bytes, written);
    PwriteStored(entry.length, w, p.bytes, written);
    OneCarries(p.workers, p.bytes.data, k, Wrote(w, written));
  }

  lemma PwriteFailsKeeps(limits: Limits, entry: Entry, p: Part, k: nat)
    requires Inv(limits, entry, p) && WorkerEnabled(p.workers, PwriteFails(k))
    ensures Inv(limits, entry, AfterPwriteFails(p, k))
  {
    hide Tally;
    var w, w', p' := p.workers[k], p.workers[k].(pc := Failing), AfterPwriteFails(p, k);
    assert WorkerShaped(entry.length, w);
    OneChanges(limits, entry.length, p.thread, p.workers, p.ranges, k, w');
    WritingShrinks(p.workers, k, w', w.span.next - |w.pc.rest|, w.span.next);
    ShrinksKeep(entry.length, p.workers, p'.workers, p.bytes, p'.bytes, w.span.next - |w.pc.rest|, w.span.next);
    OneCarries(p.workers, p.bytes.data, k, w');
  }

  // ----- The part starts again, or as one range -----

  /** An answer with the whole part is taken only for a part that is one range: no piece is live, and
      none that failed, stopped or finished is forgotten. */
  lemma WholeIsAlone(limits: Limits, length: nat, ws: seq<Worker>, ranges: int, k: nat)
    requires ValidLimits(limits) && WorkersShaped(length, ws) && Tiled(length, ws) && Ranged(limits, ws, ranges)
    requires k < |ws| && ws[k].span.start == 0 && ws[k].span.end == length
    ensures k == 0 && |ws| == 1
  {
    if |ws| >= 2 {
      var j := if k == 0 then 1 else 0;
      TallyTwice(ws, if j < k then j else k, if j < k then k else j, Held(ws[j].span.start));
      assert false;
    }
  }

  /** A part is taken whole exactly when it is one range. */
  lemma AloneIsWhole(limits: Limits, entry: Entry, p: Part, k: nat)
    requires Inv(limits, entry, p) && k < |p.workers| && p.workers[k].pc.Unranged?
    ensures p.ranges == 1 && p.workers[k].span.start == 0 && p.workers[k].span.end == entry.length <==> |p.workers| == 1
  {
    if |p.workers| == 1 {
      Single(p.workers[0]);
      assert p.workers == [p.workers[0]];
      assert Tally(p.workers, Live) == 1 && Tally(p.workers, Width) == entry.length;
      assert WorkerShaped(entry.length, p.workers[0]);
    } else if p.workers[k].span.start == 0 && p.workers[k].span.end == entry.length {
      WholeIsAlone(limits, entry.length, p.workers, p.ranges, k);
    }
  }

  lemma TakeWholeKeeps(limits: Limits, entry: Entry, p: Part, k: nat)
    requires Inv(limits, entry, p) && WorkerEnabled(p.workers, TakeWhole(k))
    ensures Inv(limits, entry, AfterTakeWhole(p, k, entry.length))
  {
    hide Tally;
    var w, p' := p.workers[k], AfterTakeWhole(p, k, entry.length);
    if p.ranges == 1 && w.span.start == 0 && w.span.end == entry.length {
      WholeIsAlone(limits, entry.length, p.workers, p.ranges, k);
      StillFetching(p.thread, p.workers, k, p'.workers[0]);
      assert p'.workers == p.workers[0 := p'.workers[0]];
      Single(p'.workers[0]);
    } else {
      MovedKeeps(limits, entry, p, k, p'.workers[k], p');
    }
  }

  lemma WholeKeeps(limits: Limits, entry: Entry, p: Part, stopping: bool)
    requires Inv(limits, entry, p) && p.thread == Beginning
    ensures Inv(limits, entry, DoThread(limits, entry, p, stopping, Whole))
  {
    Single(NewWorker(true, Span(0, entry.length, 0)));
  }

  lemma RestartKeeps(limits: Limits, entry: Entry, p: Part, stopping: bool)
    requires Inv(limits, entry, p) && p.thread == Restarting
    ensures Inv(limits, entry, DoThread(limits, entry, p, stopping, Restart))
  {
    NoneWeigh(p.workers, Live);
  }

  // ----- A slow range is split -----

  ghost function Kept(w: Worker, end: nat): Worker {
    w.(span := w.span.(end := end), pc := Top)
  }

  ghost function Cut(ws: seq<Worker>, k: nat, pieces: seq<Span>): seq<Worker>
    requires k < |ws| && pieces != []
  {
    ws[k := Kept(ws[k], pieces[0].start)] + NewWorkers(pieces)
  }

  lemma CutCount(ws: seq<Worker>, k: nat, kept: Worker, pieces: seq<Span>, q: Query)
    requires k < |ws| && Chain(pieces)
    ensures Tally(ws[k := kept] + NewWorkers(pieces), q)
         == Tally(ws, q) - Weight(ws[k], q) + Weight(kept, q) + Tally(NewWorkers(pieces), q)
    ensures q.Got? || q.Flying? || q.Failed? || q.Halted? ==> Tally(NewWorkers(pieces), q) == 0
    ensures q.Live? || q.Running? ==> Tally(NewWorkers(pieces), q) == |pieces|
  {
    TallyUpdate(ws, k, kept, q);
    TallyAppend(ws[k := kept], NewWorkers(pieces), q);
    FreshWeigh(pieces, q);
  }

  ghost predicate Splits(limits: Limits, length: nat, ws: seq<Worker>, ranges: int, k: nat, taken: nat) {
    && ValidLimits(limits) && WorkersShaped(length, ws) && At(ws, k, Deciding)
    && 1 <= taken < WaysAllowed(limits, ws[k].span.end - ws[k].span.next, ranges)
  }

  /** A split cuts the range and its pieces at the bounds, each at least the smallest range. */
  lemma SplitShapes(limits: Limits, length: nat, ws: seq<Worker>, ranges: int, k: nat, taken: nat)
    requires Splits(limits, length, ws, ranges, k, taken)
    ensures WorkersShaped(length, SplitUp(ws, k, taken)) && |SplitUp(ws, k, taken)| == |ws| + taken
    ensures forall j :: 0 <= j < |SplitUp(ws, k, taken)| && (j == k || j >= |ws|) ==>
      && SplitUp(ws, k, taken)[j].span.end - SplitUp(ws, k, taken)[j].span.next >= limits.smallestRangeBytes
      && SplitUp(ws, k, taken)[j].pc == Top
      && SplitUp(ws, k, taken)[j].main == (j == k && ws[k].main)
    ensures forall j :: 0 <= j < |ws| && j != k ==> SplitUp(ws, k, taken)[j] == ws[j]
  {
    PiecesTile(ws[k].span, taken + 1);
    StepIsLargeEnough(limits, ws[k].span.end - ws[k].span.next, taken + 1);
  }

  lemma SplitPlaces(limits: Limits, length: nat, ws: seq<Worker>, ranges: int, k: nat, taken: nat)
    requires Splits(limits, length, ws, ranges, k, taken)
    ensures SamePlaces(ws, SplitUp(ws, k, taken))
    ensures Tally(SplitUp(ws, k, taken), Live) == Tally(ws, Live) + taken
    ensures Tally(SplitUp(ws, k, taken), Running) == Tally(ws, Running) + taken
    ensures Tally(SplitUp(ws, k, taken), Failed) == Tally(ws, Failed)
    ensures Tally(SplitUp(ws, k, taken), Halted) == Tally(ws, Halted)
  {
    var span := ws[k].span;
    var pieces := Pieces(span, taken + 1);
    PiecesTile(span, taken + 1);
    CutPlaces(ws, k, pieces);
  }

  /** Cutting a range into consecutive ranges changes no count of places. */
  lemma CutPlaces(ws: seq<Worker>, k: nat, pieces: seq<Span>)
    requires k < |ws| && ws[k].pc == Deciding && pieces != [] && Chain(pieces) &&
             pieces[|pieces| - 1].end == ws[k].span.end
    requires ws[k].span.start <= ws[k].span.next <= pieces[0].start
    ensures SamePlaces(ws, Cut(ws, k, pieces))
    ensures Tally(Cut(ws, k, pieces), Live) == Tally(ws, Live) + |pieces|
    ensures Tally(Cut(ws, k, pieces), Running) == Tally(ws, Running) + |pieces|
    ensures Tally(Cut(ws, k, pieces), Failed) == Tally(ws, Failed)
    ensures Tally(Cut(ws, k, pieces), Halted) == Tally(ws, Halted)
  {
    hide Tally;
    var kept := Kept(ws[k], pieces[0].start);
    forall i: int ensures Tally(Cut(ws, k, pieces), Held(i)) == Tally(ws, Held(i)) {
      CutCount(ws, k, kept, pieces, Held(i));
      ChainHolds(pieces, i);
    }
    forall i: int ensures Tally(Cut(ws, k, pieces), Got(i)) == Tally(ws, Got(i)) {
      CutCount(ws, k, kept, pieces, Got(i));
    }
    forall i: int ensures Tally(Cut(ws, k, pieces), Flying(i)) == Tally(ws, Flying(i)) {
      CutCount(ws, k, kept, pieces, Flying(i));
    }
    ChainHolds(pieces, 0);
    CutCount(ws, k, kept, pieces, Width);
    CutCount(ws, k, kept, pieces, Live);
    CutCount(ws, k, kept, pieces, Running);
    CutCount(ws, k, kept, pieces, Failed);
    CutCount(ws, k, kept, pieces, Halted);
  }

  lemma SplitKeeps(limits: Limits, entry: Entry, p: Part, k: nat, taken: nat)
    requires Inv(limits, entry, p) && Splits(limits, entry.length, p.workers, p.ranges, k, taken)
    ensures Inv(limits, entry, AfterSplit(p, k, taken))
  {
    hide Tally;
    var ws' := SplitUp(p.workers, k, taken);
    StillFetching(p.thread, p.workers, k, p.workers[k]);
    SplitShapes(limits, entry.length, p.workers, p.ranges, k, taken);
    SplitPlaces(limits, entry.length, p.workers, p.ranges, k, taken);
    SamePlacesKeep(entry.length, p.workers, ws', p.bytes);
    assert Roles(p.thread, ws') && Ranged(limits, ws', p.ranges + taken) && Carried(ws', p.bytes.data);
  }

  // ----- The part's own thread -----

  lemma VerifyKeeps(limits: Limits, entry: Entry, p: Part)
    requires Inv(limits, entry, p) && p.thread == Verifying
    ensures Inv(limits, entry, AfterVerify(limits, entry, p))
  {
    hide Tally;
    var bytes := Hashable(p.bytes.digest, p.bytes.file, entry.length);
    forall i | 0 <= i < |bytes| && i < entry.length && p.bytes.writes[i] > 0
      ensures bytes[i] == p.bytes.file[i]
    {
    }
  }

  lemma JoinRoles(t: Thread, ws: seq<Worker>)
    requires Roles(t, ws) && t.Joining? && forall k :: 0 <= k < |ws| ==> ws[k].pc.Done?
    ensures var o := Raised(t.failure, Problem(ws)); Roles(if o == Fine then Verifying else Raising(o), ws)
  {
    if Raised(t.failure, Problem(ws)) == Fine {
      forall k | 0 <= k < |ws| ensures ws[k].pc == Done(Fine) {
        assert k > 0 ==> ws[k].pc != Done(Error) && ws[k].pc != Done(Stopped);
      }
    }
  }

  /** The part's thread moved on, and touched nothing its ranges know. */
  lemma ThreadMoves(limits: Limits, entry: Entry, p: Part, p': Part)
    requires Inv(limits, entry, p) && p'.workers == p.workers && p'.bytes == p.bytes && p'.ranges == p.ranges
    requires Roles(p'.thread, p.workers)
    requires Streaming(p'.thread) ==> Streaming(p.thread)
    requires Completed(p'.thread) ==> Completed(p.thread)
    requires Unstarted(p'.thread) ==> p'.held == p.held
    ensures Inv(limits, entry, p')
  {
  }

  lemma ThreadKeeps(limits: Limits, entry: Entry, p: Part, stopping: bool, a: Action)
    requires Inv(limits, entry, p) && ThreadEnabled(p, a)
    ensures Inv(limits, entry, DoThread(limits, entry, p, stopping, a))
  {
    hide Tally;
    if a.Whole? {
      WholeKeeps(limits, entry, p, stopping);
    } else if a.Restart? {
      RestartKeeps(limits, entry, p, stopping);
    } else if a.Verify? {
      VerifyKeeps(limits, entry, p);
    } else {
      if a.Join? {
        JoinRoles(p.thread, p.workers);
      }
      ThreadMoves(limits, entry, p, DoThread(limits, entry, p, stopping, a));
    }
  }

  lemma DoIsThread(limits: Limits, entry: Entry, l: Local, a: Action)
    requires Inv(limits, entry, l.part) && ThreadEnabled(l.part, a)
    ensures Do(limits, entry, l, a) == DoThread(limits, entry, l.part, l.shared.stopping, a)
  {
  }

  lemma LeftKeeps(limits: Limits, entry: Entry, p: Part, k: nat)
    requires Inv(limits, entry, p) && At(p.workers, k, Deciding)
    ensures Inv(limits, entry, AfterSplit(p, k, 0))
  {
    MovedKeeps(limits, entry, p, k, p.workers[k].(pc := GivingUp), AfterSplit(p, k, 0));
  }

  /** Every action keeps the invariant, under every state of the stop and the spare requests. */
  lemma ActionKeeps(limits: Limits, entry: Entry, l: Local, a: Action)
    requires Inv(limits, entry, l.part) && Enabled(l.part, a)
    ensures Inv(limits, entry, Do(limits, entry, l, a))
  {
    hide Tally, Weight, Tiled, Accounted, Hashed, Stored, Carried, Ranged, Filled, Checked, Roles;
    var p := l.part;
    if Quiet(a) {
      QuietKeeps(limits, entry, p, l.shared.stopping, a);
    } else if a.TakeWhole? {
      TakeWholeKeeps(limits, entry, p, a.k);
    } else if a.Block? {
      BlockKeeps(limits, entry, p, a.k, a.block);
    } else if a.Pwrite? {
      PwriteKeeps(limits, entry, p, a.k, a.written);
    } else if a.PwriteFails? {
      PwriteFailsKeeps(limits, entry, p, a.k);
    } else if a.Split? {
      var taken := Taken(limits, p.workers[a.k].span, p.ranges, p.honored, l.shared.free);
      if taken == 0 {
        LeftKeeps(limits, entry, p, a.k);
      } else {
        SplitKeeps(limits, entry, p, a.k, taken);
      }
    } else {
      ThreadKeeps(limits, entry, p, l.shared.stopping, a);
    }
  }
}
