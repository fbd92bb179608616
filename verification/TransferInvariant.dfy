/** What every action of a part keeps, whatever the other parts do to the stop and the spare requests. */
module TransferInvariant {
  import opened Ranges
  import opened Transfer

  // ----- Counting over the ranges of a part -----

  /** What to count over ranges: those holding, having received, wanting or writing place `i`, those not
      left yet, those that failed or stopped, split-off ones not ended, those past their look at the
      stop and about to open an attempt, bytes held, received and not counted yet, and attempts left. */
  datatype Query =
    | Held(i: int)
    | Got(i: int)
    | Wanted(i: int)
    | Flying(i: int)
    | Live
    | Failed
    | Halted
    | Running
    | Ready
    | Width
    | Size
    | Pending
    | Fuel(length: nat, attempts: nat, held: nat)

  ghost function Weight(w: Worker, q: Query): int {
    match q
    case Held(i) => if w.span.start <= i < w.span.end then 1 else 0
    case Got(i) => if w.span.start <= i < w.span.next then 1 else 0
    case Wanted(i) => if w.span.next <= i < w.span.end then 1 else 0
    case Flying(i) => if w.pc.Writing? && w.span.next - |w.pc.rest| <= i < w.span.next then 1 else 0
    case Live => if w.pc.Done? || w.pc.StoppingAll? then 0 else 1
    case Failed => if w.pc == Leaving(Error) || w.pc == StoppingAll || w.pc == Done(Error) then 1 else 0
    case Halted => if w.pc == Leaving(Stopped) || w.pc == Done(Stopped) then 1 else 0
    case Running => if w.main || w.pc.Done? then 0 else 1
    case Ready => if w.pc == Opening then 1 else 0
    case Width => w.span.end - w.span.start
    case Size => w.span.next - w.span.start
    case Pending => if w.pc.Writing? || w.pc.Counting? then w.pc.size else 0
    case Fuel(length, attempts, held) => FuelOf(w, length, attempts, held)
  }

  /** What a part of `length` bytes can still hold beyond `held`, `attempts` for each byte. */
  ghost function Room(length: nat, attempts: nat, held: nat): nat {
    if held <= length then (length - held) * attempts else 0
  }

  ghost function Spared(attempts: nat, failures: nat): nat {
    if failures < attempts then attempts - failures else 0
  }

  /** How many more attempts a range's thread can open without splitting its range. */
  ghost function FuelOf(w: Worker, length: nat, attempts: nat, held: nat): nat {
    match w.pc
    case Top | Opening | Waiting => 1 + Room(length, attempts, held) + Spared(attempts, w.failures + 1)
    case Asking | Unranged(_) | Receiving | Writing(_, _) | Counting(_) | Failing | Judging =>
      Room(length, attempts, w.before) + Spared(attempts, w.failures + 1)
    case Deciding | GivingUp => Room(length, attempts, held) + Spared(attempts, w.failures)
    case _ => 0
  }

  ghost function Tally(ws: seq<Worker>, q: Query): int {
    if ws == [] then 0 else Tally(ws[..|ws| - 1], q) + Weight(ws[|ws| - 1], q)
  }

  lemma {:induction false} TallyAppend(a: seq<Worker>, b: seq<Worker>, q: Query)
    ensures Tally(a + b, q) == Tally(a, q) + Tally(b, q)
  {
    if b == [] {
      assert a + b == a;
    } else {
      TallyAppend(a, b[..|b| - 1], q);
      assert (a + b)[..|a + b| - 1] == a + b[..|b| - 1];
    }
  }

  lemma {:induction false} TallyUpdate(ws: seq<Worker>, k: nat, w: Worker, q: Query)
    requires k < |ws|
    ensures Tally(ws[k := w], q) == Tally(ws, q) - Weight(ws[k], q) + Weight(w, q)
  {
    var last := |ws| - 1;
    if k == last {
      assert ws[k := w][..last] == ws[..last];
    } else {
      TallyUpdate(ws[..last], k, w, q);
      assert ws[k := w][..last] == ws[..last][k := w];
    }
  }

  /** Replacing one range changes every count by that range alone. */
  lemma Replaced(ws: seq<Worker>, k: nat, w: Worker)
    requires k < |ws|
    ensures forall q :: Tally(ws[k := w], q) == Tally(ws, q) - Weight(ws[k], q) + Weight(w, q)
  {
    forall q {
      TallyUpdate(ws, k, w, q);
    }
  }

  lemma Single(w: Worker)
    ensures forall q :: Tally([w], q) == Weight(w, q)
  {
    forall q ensures Tally([w], q) == Weight(w, q) {
      assert [w][..0] == [];
      assert Tally([w][..0], q) == 0;
    }
  }

  ghost predicate Ordered(ws: seq<Worker>) {
    forall k :: 0 <= k < |ws| ==> ws[k].span.start <= ws[k].span.next <= ws[k].span.end
  }

  lemma {:induction false} TallyBounds(ws: seq<Worker>, q: Query)
    requires Ordered(ws)
    ensures Tally(ws, q) >= 0
    ensures forall k :: 0 <= k < |ws| ==> Weight(ws[k], q) <= Tally(ws, q)
    ensures Tally(ws, q) == 0 ==> forall k :: 0 <= k < |ws| ==> Weight(ws[k], q) == 0
  {
    if ws != [] {
      var init := ws[..|ws| - 1];
      TallyBounds(init, q);
      assert forall k :: 0 <= k < |init| ==> ws[k] == init[k];
    }
  }

  /** Two ranges that hold the same place count twice. */
  lemma {:induction false} TallyTwice(ws: seq<Worker>, j: nat, k: nat, q: Query)
    requires Ordered(ws) && j < k < |ws|
    ensures Weight(ws[j], q) + Weight(ws[k], q) <= Tally(ws, q)
  {
    var init := ws[..|ws| - 1];
    TallyBounds(init, q);
    if k == |ws| - 1 {
      assert init[j] == ws[j];
    } else {
      TallyTwice(init, j, k, q);
    }
  }

  /** A place is received or wanted by the ranges that hold it. */
  lemma {:induction false} HeldSplits(ws: seq<Worker>, i: int)
    requires Ordered(ws)
    ensures Tally(ws, Held(i)) == Tally(ws, Got(i)) + Tally(ws, Wanted(i))
  {
    if ws != [] {
      HeldSplits(ws[..|ws| - 1], i);
    }
  }

  /** What no range weighs in on counts zero. */
  lemma {:induction false} NoneWeigh(ws: seq<Worker>, q: Query)
    requires forall k :: 0 <= k < |ws| ==> Weight(ws[k], q) == 0
    ensures Tally(ws, q) == 0
  {
    if ws != [] {
      NoneWeigh(ws[..|ws| - 1], q);
    }
  }

  // ----- Pieces -----

  /** Ranges that follow one another hold each place between their ends once. */
  lemma {:induction false} ChainHolds(pieces: seq<Span>, i: int)
    requires Chain(pieces) && pieces != []
    ensures pieces[0].start <= pieces[|pieces| - 1].end
    ensures Tally(NewWorkers(pieces), Held(i)) == if pieces[0].start <= i < pieces[|pieces| - 1].end then 1 else 0
    ensures Tally(NewWorkers(pieces), Width) == pieces[|pieces| - 1].end - pieces[0].start
  {
    var init := pieces[..|pieces| - 1];
    assert NewWorkers(pieces)[..|pieces| - 1] == NewWorkers(init);
    if init != [] {
      ChainHolds(init, i);
    }
  }

  lemma {:induction false} FreshWeigh(pieces: seq<Span>, q: Query)
    requires forall j :: 0 <= j < |pieces| ==> pieces[j].start == pieces[j].next
    ensures q.Got? || q.Flying? || q.Failed? || q.Halted? ==> Tally(NewWorkers(pieces), q) == 0
    ensures q.Live? || q.Running? ==> Tally(NewWorkers(pieces), q) == |pieces|
  {
    if pieces != [] {
      var init := pieces[..|pieces| - 1];
      FreshWeigh(init, q);
      assert NewWorkers(pieces)[..|pieces| - 1] == NewWorkers(init);
    }
  }

  // ----- The invariant -----

  ghost predicate Unstarted(t: Thread) {
    t == Queued || t == Beginning || t == Cancelled
  }

  /** The part's own digest is still that of bytes as they arrived. */
  ghost predicate Streaming(t: Thread) {
    Unstarted(t) || t == Fetching || t.StopOthers? || t.Joining? || t == Verifying
  }

  /** Its ranges ended, and without failure or stop. */
  ghost predicate Received(t: Thread) {
    t == Verifying || t == Pausing || t == Restarting || t == Completing || t == Ended(Fine)
  }

  ghost predicate Roles(t: Thread, ws: seq<Worker>) {
    && (Unstarted(t) <==> ws == [])
    && (forall k :: 0 <= k < |ws| ==> (ws[k].main <==> k == 0))
    && (t.StopOthers? ==> ws[0].pc == Done(t.failure) && t.failure != Fine)
    && (t.Joining? ==> ws[0].pc == Done(t.failure))
    && (t.Raising? ==> t.outcome != Fine)
    && (Received(t) ==> forall k :: 0 <= k < |ws| ==> ws[k].pc == Done(Fine))
    && (!Streaming(t) ==> forall k :: 0 <= k < |ws| ==> ws[k].pc.Done?)
  }

  /** Received bytes and bytes still wanted tile the part: each place is held by one range. */
  ghost predicate Tiled(length: nat, ws: seq<Worker>) {
    ws != [] ==>
      && Tally(ws, Width) == length
      && forall i :: 0 <= i < length ==> Tally(ws, Held(i)) == 1
  }

  /** Each byte received was written once, is being written, or was given up on. */
  ghost predicate Accounted(length: nat, ws: seq<Worker>, b: Bytes)
    requires BytesShaped(length, b)
  {
    forall i :: 0 <= i < length ==> b.writes[i] + b.lost[i] + Tally(ws, Flying(i)) == Tally(ws, Got(i))
  }

  /** The file holds what was written. */
  ghost predicate Stored(length: nat, b: Bytes)
    requires BytesShaped(length, b)
  {
    && |b.file| <= length
    && forall i :: 0 <= i < length && b.writes[i] > 0 ==> i < |b.file| && b.file[i] == b.data[i]
  }

  /** What is being written is what arrived. */
  ghost predicate Carried(ws: seq<Worker>, data: seq<Byte>) {
    forall k :: 0 <= k < |ws| ==> Carries(ws[k], data)
  }

  ghost predicate Carries(w: Worker, data: seq<Byte>) {
    w.pc.Writing? && |w.pc.rest| <= w.span.next <= |data| ==> data[w.span.next - |w.pc.rest|..w.span.next] == w.pc.rest
  }

  /** The running digest is that of the bytes delivered for `[0, hashed)`. */
  ghost predicate Hashed(length: nat, ws: seq<Worker>, b: Bytes)
    requires BytesShaped(length, b)
  {
    && |b.digest| <= length
    && forall i :: 0 <= i < |b.digest| ==> b.digest[i] == b.data[i] && Tally(ws, Got(i)) == 1
  }

  /** Live ranges are counted, few enough, and none is smaller than the limits allow. */
  ghost predicate Ranged(limits: Limits, ws: seq<Worker>, ranges: int) {
    && ranges == Tally(ws, Live)
    && (ranges <= 1 || ranges <= limits.mostRangesPerPart)
    && (|ws| >= 2 ==> forall k :: 0 <= k < |ws| ==> ws[k].span.end - ws[k].span.start >= limits.smallestRangeBytes)
  }

  /** A range that ended without an exception received all its bytes. */
  ghost predicate Filled(ws: seq<Worker>) {
    forall k :: 0 <= k < |ws| && (ws[k].pc == Leaving(Fine) || ws[k].pc == Done(Fine)) ==>
        ws[k].span.next == ws[k].span.end
  }

  /** A part that completes hashed to its entry, over the bytes its file holds wherever it was written. */
  ghost predicate Checked(entry: Entry, b: Bytes)
    requires BytesShaped(entry.length, b)
  {
    && |b.digest| == entry.length
    && entry.hash(b.digest) == entry.sha256
    && forall i :: 0 <= i < entry.length && b.writes[i] > 0 ==> i < |b.file| && b.file[i] == b.digest[i]
  }

  ghost predicate Completed(t: Thread) {
    t == Completing || t == Ended(Fine)
  }

  ghost predicate Inv(limits: Limits, entry: Entry, p: Part) {
    && ValidLimits(limits)
    && BytesShaped(entry.length, p.bytes)
    && WorkersShaped(entry.length, p.workers)
    && Roles(p.thread, p.workers)
    && Tiled(entry.length, p.workers)
    && Accounted(entry.length, p.workers, p.bytes)
    && Stored(entry.length, p.bytes)
    && Carried(p.workers, p.bytes.data)
    && Ranged(limits, p.workers, p.ranges)
    && Filled(p.workers)
    && (Unstarted(p.thread) ==> p.held == 0)
    && (Streaming(p.thread) ==> Hashed(entry.length, p.workers, p.bytes))
    && (Completed(p.thread) ==> Checked(entry, p.bytes))
  }

  ghost function Fresh(entry: Entry): Part {
    Part(Queued, [], NoBytes(entry.length), 0, false, 0, 0, 0, 0, 0)
  }

  lemma FreshInv(limits: Limits, entry: Entry)
    requires ValidLimits(limits)
    ensures Inv(limits, entry, Fresh(entry))
  {
  }
}
