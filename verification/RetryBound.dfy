/**
 Retrying ends. Against a store that answers ranges as such, one pass over a part opens at most a fixed
 number of attempts: each failed attempt kept a byte of the part, split its range, or came closer to the
 failures in a row that give up.
 */
module RetryBound {
  import opened Ranges
  import opened Transfer
  import opened TransferInvariant
  import opened TransferSteps
  import opened PartRuns
  import opened Products

  /** The failures in a row that give up: one at least. */
  ghost function Patience(limits: Limits): nat {
    if limits.attempts < 1 then 1 else limits.attempts
  }

  /** The most ranges a pass can split a part into. */
  ghost function MostPieces(limits: Limits, length: nat): nat
    requires ValidLimits(limits)
  {
    if length / limits.smallestRangeBytes < 1 then 1 else length / limits.smallestRangeBytes
  }

  /** The attempts one range can open before its first split. */
  ghost function Each(limits: Limits, length: nat): nat {
    (length + 1) * Patience(limits)
  }

  ghost function AttemptBound(limits: Limits, length: nat): nat
    requires ValidLimits(limits)
  {
    2 * Each(limits, length) * MostPieces(limits, length)
  }

  /** The actions of a pass over a part, from its first request until its ranges are joined, against a
      store that answers every range as such. */
  ghost predicate PassAction(a: Action) {
    match a
    case Answer(_, ranged, _) => ranged
    case TakeWhole(_) => false
    case Start | Whole | Verify | Resume | Restart | Complete | Raise | Guard => false
    case _ => true
  }

  ghost predicate InAttempt(pc: Pc) {
    pc.Asking? || pc.Receiving? || pc.Writing? || pc.Counting? || pc.Failing? || pc.Judging?
  }

  /** Bytes are counted as held at most once, and no attempt remembers more than are held. */
  ghost predicate Metered(ws: seq<Worker>, held: nat) {
    && held + Tally(ws, Pending) <= Tally(ws, Size)
    && forall k :: 0 <= k < |ws| ==> !ws[k].pc.Unranged? && (InAttempt(ws[k].pc) ==> ws[k].before <= held)
  }

  /** Attempts opened, and those every range can still open, splits included. */
  ghost function Spent(limits: Limits, length: nat, p: Part): int
    requires ValidLimits(limits)
  {
    p.tries + Tally(p.workers, Fuel(length, Patience(limits), p.held))
      + 2 * Each(limits, length) * (MostPieces(limits, length) - |p.workers|)
  }

  // ----- Bounds -----

  lemma RoomFalls(length: nat, attempts: nat, held: nat, more: nat)
    requires held <= more
    ensures Room(length, attempts, more) <= Room(length, attempts, held) <= length * attempts
    ensures held < more <= length ==> Room(length, attempts, more) + attempts <= Room(length, attempts, held)
  {
    if held <= length {
      MulMonotone(attempts, length - held, length);
      if more <= length {
        MulMonotone(attempts, length - more, length - held);
        if held < more {
          MulMonotone(attempts, length - more + 1, length - held);
          assert (length - more + 1) * attempts == (length - more) * attempts + attempts;
        }
      }
    }
  }

  lemma FuelFalls(w: Worker, length: nat, attempts: nat, held: nat, more: nat)
    requires held <= more
    ensures FuelOf(w, length, attempts, more) <= FuelOf(w, length, attempts, held)
  {
    RoomFalls(length, attempts, held, more);
  }

  lemma {:induction false} TotalFuelFalls(ws: seq<Worker>, length: nat, attempts: nat, held: nat, more: nat)
    requires held <= more
    ensures Tally(ws, Fuel(length, attempts, more)) <= Tally(ws, Fuel(length, attempts, held))
  {
    if ws != [] {
      TotalFuelFalls(ws[..|ws| - 1], length, attempts, held, more);
      FuelFalls(ws[|ws| - 1], length, attempts, held, more);
    }
  }

  /** A range about to ask has at most its own share of attempts. */
  lemma FuelAtTop(limits: Limits, length: nat, w: Worker, held: nat)
    requires w.pc == Top
    ensures FuelOf(w, length, Patience(limits), held) <= Each(limits, length)
  {
    RoomFalls(length, Patience(limits), 0, held);
    assert (length + 1) * Patience(limits) == length * Patience(limits) + Patience(limits);
  }

  lemma {:induction false} FreshFuel(limits: Limits, length: nat, pieces: seq<Span>, held: nat)
    ensures Tally(NewWorkers(pieces), Fuel(length, Patience(limits), held)) <= |pieces| * Each(limits, length)
  {
    hide FuelOf, Each, Patience;
    if pieces != [] {
      var init := pieces[..|pieces| - 1];
      FreshFuel(limits, length, init, held);
      assert NewWorkers(pieces)[..|pieces| - 1] == NewWorkers(init);
      FuelAtTop(limits, length, NewWorker(false, pieces[|pieces| - 1]), held);
      assert |pieces| * Each(limits, length) == |init| * Each(limits, length) + Each(limits, length);
    }
  }

  lemma {:induction false} WidthsAdd(ws: seq<Worker>, least: nat)
    requires forall k :: 0 <= k < |ws| ==> ws[k].span.end - ws[k].span.start >= least
    ensures Tally(ws, Width) >= |ws| * least
  {
    if ws != [] {
      WidthsAdd(ws[..|ws| - 1], least);
      assert |ws| * least == (|ws| - 1) * least + least;
    }
  }

  lemma {:induction false} SizeWithinWidth(ws: seq<Worker>)
    requires Ordered(ws)
    ensures Tally(ws, Size) <= Tally(ws, Width)
  {
    if ws != [] {
      SizeWithinWidth(ws[..|ws| - 1]);
    }
  }

  /** A part's ranges are at most as many as smallest ranges fit into it. */
  lemma PiecesFew(limits: Limits, entry: Entry, p: Part)
    requires Inv(limits, entry, p) && p.workers != []
    ensures |p.workers| <= MostPieces(limits, entry.length)
  {
    if |p.workers| >= 2 {
      WidthsAdd(p.workers, limits.smallestRangeBytes);
      DivideBound(|p.workers|, limits.smallestRangeBytes, entry.length);
    }
  }

  /** No more bytes are held than the part has. */
  lemma HeldFits(limits: Limits, entry: Entry, p: Part)
    requires Inv(limits, entry, p) && p.workers != [] && Metered(p.workers, p.held)
    requires Tally(p.workers, Pending) >= 0
    ensures p.held <= entry.length
  {
    SizeWithinWidth(p.workers);
  }

  // ----- One action of a pass -----

  /** The pass goes on: bytes are metered, and the attempts spent stay within the bound. */
  ghost predicate Bounded(limits: Limits, length: nat, p: Part)
    requires ValidLimits(limits)
  {
    p.workers != [] && Metered(p.workers, p.held) && Spent(limits, length, p) <= AttemptBound(limits, length)
  }

  /** An action that moves a range's thread on without touching bytes spends no more than it opens. */
  lemma QuietFuel(limits: Limits, length: nat, p: Part, stopping: bool, a: Action)
    requires Quiet(a) && PassAction(a) && WorkerEnabled(p.workers, a)
    requires var w := p.workers[a.k]; !w.pc.Unranged? && (InAttempt(w.pc) ==> w.before <= p.held)
    requires p.held <= length
    ensures FuelOf(NextWorker(limits, p, stopping, a), length, Patience(limits), p.held) + (if a.Open? then 1 else 0)
         <= FuelOf(p.workers[a.k], length, Patience(limits), p.held)
  {
    hide Room;
    if a.Judge? {
      RoomFalls(length, Patience(limits), p.workers[a.k].before, p.held);
    }
  }

  lemma QuietMeters(limits: Limits, p: Part, stopping: bool, a: Action)
    requires Quiet(a) && PassAction(a) && WorkerEnabled(p.workers, a) && Metered(p.workers, p.held)
    ensures Metered(DoQuiet(limits, p, stopping, a).workers, DoQuiet(limits, p, stopping, a).held)
    ensures DoQuiet(limits, p, stopping, a).held >= p.held
  {
    hide Tally, NextWorker, Weight, InAttempt;
    var w' := NextWorker(limits, p, stopping, a);
    QuietMeter(limits, p, stopping, a);
    TallyUpdate(p.workers, a.k, w', Pending);
    TallyUpdate(p.workers, a.k, w', Size);
  }

  lemma QuietMeter(limits: Limits, p: Part, stopping: bool, a: Action)
    requires Quiet(a) && PassAction(a) && WorkerEnabled(p.workers, a)
    requires InAttempt(p.workers[a.k].pc) ==> p.workers[a.k].before <= p.held
    ensures var w, w' := p.workers[a.k], NextWorker(limits, p, stopping, a);
            && !w'.pc.Unranged? && (InAttempt(w'.pc) ==> w'.before <= p.held) && Weight(w', Size) == Weight(w, Size)
            && Weight(w', Pending) == if a.Count? then Weight(w, Pending) - w.pc.size else Weight(w, Pending)
  {
  }

  lemma QuietBounded(limits: Limits, entry: Entry, p: Part, stopping: bool, a: Action)
    requires Inv(limits, entry, p) && Bounded(limits, entry.length, p)
    requires Quiet(a) && PassAction(a) && WorkerEnabled(p.workers, a)
    ensures Bounded(limits, entry.length, DoQuiet(limits, p, stopping, a))
  {
    hide Tally, Inv, FuelOf, NextWorker, Each, MostPieces, AttemptBound;
    var p', length, patience := DoQuiet(limits, p, stopping, a), entry.length, Patience(limits);
    Metering(limits, entry, p);
    QuietFuel(limits, length, p, stopping, a);
    QuietMeters(limits, p, stopping, a);
    TallyUpdate(p.workers, a.k, p'.workers[a.k], Fuel(length, patience, p.held));
    TotalFuelFalls(p'.workers, length, patience, p.held, p'.held);
  }

  lemma Metering(limits: Limits, entry: Entry, p: Part)
    requires Inv(limits, entry, p) && p.workers != [] && Metered(p.workers, p.held)
    ensures p.held <= entry.length
  {
    TallyPending(p.workers);
    HeldFits(limits, entry, p);
  }

  lemma {:induction false} TallyPending(ws: seq<Worker>)
    ensures Tally(ws, Pending) >= 0
  {
    if ws != [] {
      TallyPending(ws[..|ws| - 1]);
    }
  }

  /** A change of one range that keeps its attempts, and moves as many bytes to be counted as received. */
  lemma BytesBounded(limits: Limits, length: nat, p: Part, k: nat, w': Worker, p': Part)
    requires ValidLimits(limits) && Bounded(limits, length, p) && k < |p.workers|
    requires p'.workers == p.workers[k := w'] && p'.held == p.held && p'.tries == p.tries
    requires InAttempt(p.workers[k].pc) && InAttempt(w'.pc) && w'.before == p.workers[k].before &&
             w'.failures == p.workers[k].failures
    requires Weight(w', Pending) - Weight(p.workers[k], Pending) <= Weight(w', Size) - Weight(p.workers[k], Size)
    ensures Bounded(limits, length, p')
  {
    hide Tally, Room, Spared, Each, MostPieces, AttemptBound;
    TallyUpdate(p.workers, k, w', Pending);
    TallyUpdate(p.workers, k, w', Size);
    TallyUpdate(p.workers, k, w', Fuel(length, Patience(limits), p.held));
  }

  lemma SplitBounded(limits: Limits, entry: Entry, p: Part, k: nat, taken: nat)
    requires Inv(limits, entry, p) && Bounded(limits, entry.length, p)
    requires Splits(limits, entry.length, p.workers, p.ranges, k, taken)
    ensures Bounded(limits, entry.length, AfterSplit(p, k, taken))
  {
    hide Tally, FuelOf, Each, MostPieces, AttemptBound, Inv;
    var ws, p' := p.workers, AfterSplit(p, k, taken);
    var each, length, patience := Each(limits, entry.length), entry.length, Patience(limits);
    var pieces := Pieces(ws[k].span, taken + 1);
    var kept := Kept(ws[k], pieces[0].start);
    PiecesTile(ws[k].span, taken + 1);
    assert p'.workers == Cut(ws, k, pieces);
    CutCount(ws, k, kept, pieces, Fuel(length, patience, p.held));
    CutCount(ws, k, kept, pieces, Pending);
    CutCount(ws, k, kept, pieces, Size);
    FreshFuel(limits, length, pieces, p.held);
    FreshMeters(pieces);
    FuelAtTop(limits, length, kept, p.held);
    var fuel := Fuel(length, patience, p.held);
    SplitSpends(each, MostPieces(limits, length), |ws|, taken, Weight(kept, fuel), Tally(NewWorkers(pieces), fuel));
  }

  lemma SplitSpends(each: nat, most: nat, ranges: nat, taken: nat, kept: int, added: int)
    requires taken >= 1 && kept <= each && added <= taken * each
    ensures kept + added + 2 * each * (most - (ranges + taken)) <= 2 * each * (most - ranges)
  {
    assert 2 * each * (most - ranges - taken) == 2 * each * (most - ranges) - 2 * (taken * each);
    assert each <= taken * each by { MulMonotone(each, 1, taken); }
  }

  lemma {:induction false} FreshMeters(pieces: seq<Span>)
    requires Chain(pieces)
    ensures Tally(NewWorkers(pieces), Pending) == 0 && Tally(NewWorkers(pieces), Size) == 0
  {
    if pieces != [] {
      var init := pieces[..|pieces| - 1];
      FreshMeters(init);
      assert NewWorkers(pieces)[..|pieces| - 1] == NewWorkers(init);
    }
  }

  lemma BlockBounded(limits: Limits, entry: Entry, p: Part, k: nat, block: seq<Byte>)
    requires Inv(limits, entry, p) && Bounded(limits, entry.length, p) && WorkerEnabled(p.workers, Block(k, block))
    ensures Bounded(limits, entry.length, AfterBlock(p, k, block))
  {
    hide Tally, Bounded, Tiled, Accounted, Hashed, Stored, Carried, Ranged, Filled, Checked, Roles;
    BytesBounded(limits, entry.length, p, k, Took(p.workers[k], block), AfterBlock(p, k, block));
  }

  lemma PwriteBounded(limits: Limits, entry: Entry, p: Part, k: nat, written: nat)
    requires Inv(limits, entry, p) && Bounded(limits, entry.length, p) && WorkerEnabled(p.workers, Pwrite(k, written))
    ensures Bounded(limits, entry.length, AfterPwrite(p, k, written))
  {
    hide Tally, Bounded, Tiled, Accounted, Hashed, Stored, Carried, Ranged, Filled, Checked, Roles;
    BytesBounded(limits, entry.length, p, k, Wrote(p.workers[k], written), AfterPwrite(p, k, written));
  }

  lemma PwriteFailsBounded(limits: Limits, entry: Entry, p: Part, k: nat)
    requires Inv(limits, entry, p) && Bounded(limits, entry.length, p) && WorkerEnabled(p.workers, PwriteFails(k))
    ensures Bounded(limits, entry.length, AfterPwriteFails(p, k))
  {
    hide Tally, Bounded, Tiled, Accounted, Hashed, Stored, Carried, Ranged, Filled, Checked, Roles;
    BytesBounded(limits, entry.length, p, k, p.workers[k].(pc := Failing), AfterPwriteFails(p, k));
  }

  lemma AnySplitBounded(limits: Limits, entry: Entry, l: Local, k: nat)
    requires Inv(limits, entry, l.part) && Bounded(limits, entry.length, l.part) &&
             WorkerEnabled(l.part.workers, Split(k))
    ensures Bounded(limits, entry.length, Do(limits, entry, l, Split(k)))
  {
    hide Tally, Bounded, Tiled, Accounted, Hashed, Stored, Carried, Ranged, Filled, Checked;
    hide AfterSplit, Roles;
    var p := l.part;
    var taken := Taken(limits, p.workers[k].span, p.ranges, p.honored, l.shared.free);
    if taken == 0 {
      NoSplitBounded(limits, entry, p, k);
    } else {
      SplitBounded(limits, entry, p, k, taken);
    }
  }

  lemma ActionBounded(limits: Limits, entry: Entry, l: Local, a: Action)
    requires Inv(limits, entry, l.part) && Bounded(limits, entry.length, l.part)
    requires Enabled(l.part, a) && PassAction(a)
    ensures Bounded(limits, entry.length, Do(limits, entry, l, a))
  {
    hide Tally, Bounded, Tiled, Accounted, Hashed, Stored, Carried, Ranged, Filled, Checked, Roles;
    hide DoQuiet, AfterBlock, AfterPwrite, AfterPwriteFails, AfterSplit;
    var p := l.part;
    if Quiet(a) {
      QuietBounded(limits, entry, p, l.shared.stopping, a);
    } else if a.Block? {
      BlockBounded(limits, entry, p, a.k, a.block);
    } else if a.Pwrite? {
      PwriteBounded(limits, entry, p, a.k, a.written);
    } else if a.PwriteFails? {
      PwriteFailsBounded(limits, entry, p, a.k);
    } else if a.Split? {
      AnySplitBounded(limits, entry, l, a.k);
    } else {
      SameBounded(limits, entry.length, p, Do(limits, entry, l, a));
    }
  }

  lemma NoSplitBounded(limits: Limits, entry: Entry, p: Part, k: nat)
    requires Inv(limits, entry, p) && Bounded(limits, entry.length, p) && At(p.workers, k, Deciding)
    ensures Bounded(limits, entry.length, AfterSplit(p, k, 0))
  {
    QuietBounded(limits, entry, p, false, NoSplit(k));
    assert AfterSplit(p, k, 0) == DoQuiet(limits, p, false, NoSplit(k));
  }

  lemma SameBounded(limits: Limits, length: nat, p: Part, p': Part)
    requires ValidLimits(limits) && Bounded(limits, length, p)
    requires p'.workers == p.workers && p'.held == p.held && p'.tries == p.tries
    ensures Bounded(limits, length, p')
  {
  }

  lemma FirstSpends(each: nat, most: nat)
    ensures each + 2 * each * (most - 1) <= 2 * each * most
  {
    assert 2 * each * (most - 1) == 2 * each * most - 2 * each;
  }

  lemma WholeBounded(limits: Limits, entry: Entry, p: Part, stopping: bool)
    requires Inv(limits, entry, p) && p.thread == Beginning
    ensures Bounded(limits, entry.length, DoThread(limits, entry, p, stopping, Whole))
  {
    hide Tally, FuelOf, Each, MostPieces, Tiled, Accounted, Hashed, Stored, Carried, Ranged, Filled, Checked;
    var w := NewWorker(true, Span(0, entry.length, 0));
    Single(w);
    FuelAtTop(limits, entry.length, w, 0);
    FirstSpends(Each(limits, entry.length), MostPieces(limits, entry.length));
  }

  lemma {:induction false} PassBounded(limits: Limits, entry: Entry, p: Part, steps: seq<Step>, q: Part)
    requires Inv(limits, entry, p) && Bounded(limits, entry.length, p) && Reaches(limits, entry, p, steps, q)
    requires forall i :: 0 <= i < |steps| ==> PassAction(steps[i].action)
    ensures Inv(limits, entry, q) && Bounded(limits, entry.length, q)
    decreases |steps|
  {
    hide Tally, Bounded;
    if steps != [] {
      var l := Local(p, steps[0].shared);
      ActionKeeps(limits, entry, l, steps[0].action);
      ActionBounded(limits, entry, l, steps[0].action);
      PassBounded(limits, entry, Do(limits, entry, l, steps[0].action), steps[1..], q);
    }
  }

  /** Retry termination: one pass over a part, against a store that answers ranges as such and under any
      stops, failures, splits and arrival orders, opens at most AttemptBound attempts. */
  lemma AttemptsBounded(limits: Limits, entry: Entry, before: seq<Step>, p: Part, shared: Shared, steps: seq<Step>,
                  q: Part)
    requires Reachable(limits, entry, before, p) && p.thread == Beginning
    requires Reaches(limits, entry, p, [Step(shared, Whole)] + steps, q)
    requires forall i :: 0 <= i < |steps| ==> PassAction(steps[i].action)
    ensures q.tries <= AttemptBound(limits, entry.length)
  {
    hide Tally, Bounded, Inv, AttemptBound;
    ReachableInv(limits, entry, before, p);
    var started := DoThread(limits, entry, p, shared.stopping, Whole);
    Begun(limits, entry, p, shared, steps, q);
    WholeBounded(limits, entry, p, shared.stopping);
    PassBounded(limits, entry, started, steps, q);
    SpentWithin(limits, entry, q);
  }

  lemma Begun(limits: Limits, entry: Entry, p: Part, shared: Shared, steps: seq<Step>, q: Part)
    requires Inv(limits, entry, p) && p.thread == Beginning
    requires Reaches(limits, entry, p, [Step(shared, Whole)] + steps, q)
    ensures Inv(limits, entry, DoThread(limits, entry, p, shared.stopping, Whole))
    ensures Reaches(limits, entry, DoThread(limits, entry, p, shared.stopping, Whole), steps, q)
  {
    hide Inv;
    assert ([Step(shared, Whole)] + steps)[1..] == steps;
    WholeKeeps(limits, entry, p, shared.stopping);
  }

  lemma SpentWithin(limits: Limits, entry: Entry, p: Part)
    requires Inv(limits, entry, p) && Bounded(limits, entry.length, p)
    ensures p.tries <= AttemptBound(limits, entry.length)
  {
    hide Tally, Each, MostPieces, AttemptBound;
    PiecesFew(limits, entry, p);
    FuelLeft(limits, entry, p);
    MulMonotone(2 * Each(limits, entry.length), 0, MostPieces(limits, entry.length) - |p.workers|);
  }

  lemma FuelLeft(limits: Limits, entry: Entry, p: Part)
    requires Inv(limits, entry, p)
    ensures Tally(p.workers, Fuel(entry.length, Patience(limits), p.held)) >= 0
  {
    TallyBounds(p.workers, Fuel(entry.length, Patience(limits), p.held));
  }
}
