/**
 How often a range failed in a row, told from the run alone: which attempts of it failed, and what the part held
 when each began and when it failed. That number decides whether the range gives up.
 */
module Retries {
  import opened Ranges
  import opened Transfer
  import opened TransferInvariant
  import opened TransferSteps
  import opened PartRuns

  // ----- Runs, step by step -----

  ghost predicate Possible(limits: Limits, entry: Entry, p: Part, step: Step) {
    ValidLimits(limits) && Shaped(entry.length, p) && Enabled(p, step.action)
  }

  /** The part after the steps, those that are not possible left out. */
  ghost function Replay(limits: Limits, entry: Entry, steps: seq<Step>): Part {
    if steps == [] then Fresh(entry)
    else
      var p, last := Replay(limits, entry, steps[..|steps| - 1]), steps[|steps| - 1];
      if Possible(limits, entry, p, last) then Do(limits, entry, Local(p, last.shared), last.action) else p
  }

  lemma ReplayNothing(limits: Limits, entry: Entry)
    ensures Replay(limits, entry, []) == Fresh(entry)
  {
  }

  /** Every step is possible where it is taken. */
  ghost predicate Runs(limits: Limits, entry: Entry, steps: seq<Step>) {
    ValidLimits(limits) &&
    forall i :: 0 <= i < |steps| ==> Possible(limits, entry, Replay(limits, entry, steps[..i]), steps[i])
  }

  lemma Snoc(limits: Limits, entry: Entry, steps: seq<Step>, step: Step)
    requires Runs(limits, entry, steps) && Possible(limits, entry, Replay(limits, entry, steps), step)
    ensures Runs(limits, entry, steps + [step])
    ensures Replay(limits, entry, steps + [step]) ==
            Do(limits, entry, Local(Replay(limits, entry, steps), step.shared), step.action)
  {
    var more := steps + [step];
    assert more[..|steps|] == steps;
    forall i | 0 <= i < |more| ensures Possible(limits, entry, Replay(limits, entry, more[..i]), more[i]) {
      if i < |steps| {
        assert more[..i] == steps[..i];
      }
    }
  }

  lemma Shorter(limits: Limits, entry: Entry, steps: seq<Step>, step: Step)
    requires Runs(limits, entry, steps + [step])
    ensures Runs(limits, entry, steps) && Possible(limits, entry, Replay(limits, entry, steps), step)
    ensures Replay(limits, entry, steps + [step]) ==
            Do(limits, entry, Local(Replay(limits, entry, steps), step.shared), step.action)
  {
    var more := steps + [step];
    assert more[..|steps|] == steps && more[|steps|] == step;
    forall i | 0 <= i < |steps| ensures Possible(limits, entry, Replay(limits, entry, steps[..i]), steps[i]) {
      assert more[..i] == steps[..i] && more[i] == steps[i];
    }
  }

  lemma {:induction false} RunsOn(limits: Limits, entry: Entry, done: seq<Step>, p: Part, steps: seq<Step>, q: Part)
    requires Runs(limits, entry, done) && p == Replay(limits, entry, done) && Reaches(limits, entry, p, steps, q)
    ensures Runs(limits, entry, done + steps) && q == Replay(limits, entry, done + steps)
    decreases |steps|
  {
    hide Replay, Runs, Shaped;
    if steps == [] {
      assert done + steps == done;
    } else {
      Snoc(limits, entry, done, steps[0]);
      var next := Do(limits, entry, Local(p, steps[0].shared), steps[0].action);
      RunsOn(limits, entry, done + [steps[0]], next, steps[1..], q);
      assert done + [steps[0]] + steps[1..] == done + steps;
    }
  }

  lemma ReachableRuns(limits: Limits, entry: Entry, steps: seq<Step>, p: Part)
    requires Reachable(limits, entry, steps, p)
    ensures Runs(limits, entry, steps) && p == Replay(limits, entry, steps)
  {
    RunsOn(limits, entry, [], Fresh(entry), steps, p);
    assert [] + steps == steps;
  }

  lemma {:induction false} ReplayInv(limits: Limits, entry: Entry, steps: seq<Step>)
    requires ValidLimits(limits)
    ensures Inv(limits, entry, Replay(limits, entry, steps))
  {
    hide Inv;
    if steps == [] {
      FreshInv(limits, entry);
    } else {
      ReplayInv(limits, entry, steps[..|steps| - 1]);
      var p, last := Replay(limits, entry, steps[..|steps| - 1]), steps[|steps| - 1];
      if Possible(limits, entry, p, last) {
        ActionKeeps(limits, entry, Local(p, last.shared), last.action);
      }
    }
  }

  // ----- What the steps tell -----

  /** The size of the block a range received last. */
  ghost function LastBlock(steps: seq<Step>, k: nat): nat {
    if steps == [] then 0
    else
      var init, a := steps[..|steps| - 1], steps[|steps| - 1].action;
      if a.Block? && a.k == k then |a.block| else LastBlock(init, k)
  }

  /** The bytes counted since the part last started over: for another pass, or with a whole answer while it
      was one range. */
  ghost function Counted(limits: Limits, entry: Entry, steps: seq<Step>): nat {
    if steps == [] then 0
    else
      var init, a := steps[..|steps| - 1], steps[|steps| - 1].action;
      var before := Counted(limits, entry, init);
      if a.Count? then before + LastBlock(init, a.k)
      else if a.Restart? || (a.TakeWhole? && |Replay(limits, entry, init).workers| == 1) then 0
      else before
  }

  /** What was counted when the range last began an attempt. */
  ghost function CountedAtOpen(limits: Limits, entry: Entry, steps: seq<Step>, k: nat): nat {
    if steps == [] then 0
    else
      var init := steps[..|steps| - 1];
      if steps[|steps| - 1].action == Open(k) then Counted(limits, entry, init)
      else CountedAtOpen(limits, entry, init, k)
  }

  /** The part holds more than when the range last began an attempt. */
  ghost predicate Grew(limits: Limits, entry: Entry, steps: seq<Step>, k: nat) {
    Counted(limits, entry, steps) > CountedAtOpen(limits, entry, steps, k)
  }

  /** An attempt of the range failed at the step. */
  ghost predicate FailsAt(steps: seq<Step>, k: nat, i: nat) {
    i < |steps| && steps[i].action == Judge(k)
  }

  /** At the step a count of failures ends: a pass begins, or the range fails in an attempt the part grew in. */
  ghost predicate Breaks(limits: Limits, entry: Entry, steps: seq<Step>, k: nat, i: nat) {
    i < |steps| && (steps[i].action == Whole || (FailsAt(steps, k, i) && Grew(limits, entry, steps[..i], k)))
  }

  /** An attempt of the range failed at the step, and no later step ends that count. */
  ghost predicate StillCounts(limits: Limits, entry: Entry, steps: seq<Step>, k: nat, i: nat) {
    FailsAt(steps, k, i) && forall j: nat :: i < j ==> !Breaks(limits, entry, steps, k, j)
  }

  /** The attempts of the range that failed in a row. */
  ghost function InARow(limits: Limits, entry: Entry, steps: seq<Step>, k: nat): set<nat> {
    set i: nat | i < |steps| && StillCounts(limits, entry, steps, k, i)
  }

  lemma OneMore(limits: Limits, entry: Entry, steps: seq<Step>, step: Step, k: nat)
    ensures InARow(limits, entry, steps + [step], k) ==
            (if step.action == Whole then {}
             else if step.action != Judge(k) then InARow(limits, entry, steps, k)
             else {|steps|} + if Grew(limits, entry, steps, k) then {} else InARow(limits, entry, steps, k))
    ensures |steps| !in InARow(limits, entry, steps, k)
  {
    var more, last := steps + [step], |steps|;
    forall i: nat | i < last
      ensures FailsAt(more, k, i) == FailsAt(steps, k, i)
      ensures Breaks(limits, entry, more, k, i) == Breaks(limits, entry, steps, k, i)
    {
      assert more[..i] == steps[..i];
    }
    assert more[..last] == steps;
    assert Breaks(limits, entry, more, k, last) <==>
           step.action == Whole || (step.action == Judge(k) && Grew(limits, entry, steps, k));
    hide Grew;
    forall i: nat
      ensures StillCounts(limits, entry, more, k, i) <==>
              if i == last then step.action == Judge(k)
              else StillCounts(limits, entry, steps, k, i) && !Breaks(limits, entry, more, k, last)
    {
      assert i > last ==> !FailsAt(more, k, i) && !FailsAt(steps, k, i);
      assert forall j: nat :: j > last ==> !Breaks(limits, entry, more, k, j);
      assert forall j: nat :: j >= last ==> !Breaks(limits, entry, steps, k, j);
    }
  }

  // ----- The machine keeps that count -----

  ghost predicate InAttempt(pc: Pc) {
    pc.Asking? || pc.Unranged? || pc.Receiving? || pc.Writing? || pc.Counting? || pc.Failing? || pc.Judging?
  }

  /** A range's failures, the block it counts next, and what was held when its attempt began. */
  ghost predicate Knows(w: Worker, failures: nat, block: nat, held: nat) {
    && w.failures == failures
    && (w.pc.Writing? || w.pc.Counting? ==> w.pc.size == block)
    && (InAttempt(w.pc) ==> w.before == held)
  }

  ghost predicate TrackedRange(limits: Limits, entry: Entry, steps: seq<Step>, k: nat, w: Worker) {
    Knows(w, |InARow(limits, entry, steps, k)|, LastBlock(steps, k), CountedAtOpen(limits, entry, steps, k))
  }

  ghost predicate TrackedRanges(limits: Limits, entry: Entry, steps: seq<Step>, ws: seq<Worker>) {
    && (forall k :: 0 <= k < |ws| ==> TrackedRange(limits, entry, steps, k, ws[k]))
    && (ws != [] ==> forall k: nat :: |ws| <= k ==> InARow(limits, entry, steps, k) == {})
  }

  ghost predicate Tracked(limits: Limits, entry: Entry, steps: seq<Step>, p: Part) {
    && p.held == (if p.thread == Ended(Fine) then entry.length else Counted(limits, entry, steps))
    && TrackedRanges(limits, entry, steps, p.workers)
  }

  lemma Told(limits: Limits, entry: Entry, steps: seq<Step>, step: Step)
    ensures var more, a := steps + [step], step.action;
      && Counted(limits, entry, more) ==
           (if a.Count? then Counted(limits, entry, steps) + LastBlock(steps, a.k)
            else if a.Restart? || (a.TakeWhole? && |Replay(limits, entry, steps).workers| == 1) then 0
            else Counted(limits, entry, steps))
      && forall k: nat ::
           && LastBlock(more, k) == (if a.Block? && a.k == k then |a.block| else LastBlock(steps, k))
           && CountedAtOpen(limits, entry, more, k) ==
                if a == Open(k) then Counted(limits, entry, steps) else CountedAtOpen(limits, entry, steps, k)
  {
    assert (steps + [step])[..|steps|] == steps;
  }

  lemma RangeStays(limits: Limits, entry: Entry, steps: seq<Step>, step: Step, k: nat, w: Worker)
    requires TrackedRange(limits, entry, steps, k, w)
    requires var a := step.action; a != Open(k) && a != Judge(k) && a != Whole && !(a.Block? && a.k == k)
    ensures TrackedRange(limits, entry, steps + [step], k, w)
  {
    Told(limits, entry, steps, step);
    OneMore(limits, entry, steps, step, k);
    hide InARow, Counted, CountedAtOpen, LastBlock;
  }

  /** Only range `k` moved. */
  lemma OneRangeTracks(limits: Limits, entry: Entry, steps: seq<Step>, step: Step, ws: seq<Worker>, k: nat, w': Worker)
    requires TrackedRanges(limits, entry, steps, ws) && WorkerEnabled(ws, step.action) && step.action.k == k
    requires TrackedRange(limits, entry, steps + [step], k, w')
    ensures TrackedRanges(limits, entry, steps + [step], ws[k := w'])
  {
    hide TrackedRange, InARow;
    forall j: nat | j < |ws| && j != k ensures TrackedRange(limits, entry, steps + [step], j, ws[j]) {
      RangeStays(limits, entry, steps, step, j, ws[j]);
    }
    forall j: nat | |ws| <= j ensures InARow(limits, entry, steps + [step], j) == {} {
      OneMore(limits, entry, steps, step, j);
    }
  }

  lemma QuietKnows(limits: Limits, p: Part, stopping: bool, a: Action, failures: nat, block: nat, held: nat)
    requires Quiet(a) && WorkerEnabled(p.workers, a) && Knows(p.workers[a.k], failures, block, held)
    ensures Knows(NextWorker(limits, p, stopping, a),
                  if !a.Judge? then failures else if p.held > held then 1 else failures + 1,
                  block, if a.Open? then p.held else held)
    ensures DoQuiet(limits, p, stopping, a).held == if a.Count? then p.held + block else p.held
  {
  }

  lemma RowGrows(limits: Limits, entry: Entry, steps: seq<Step>, step: Step, k: nat)
    requires step.action != Whole
    ensures |InARow(limits, entry, steps + [step], k)| ==
            (if step.action != Judge(k) then |InARow(limits, entry, steps, k)|
             else if Grew(limits, entry, steps, k) then 1 else |InARow(limits, entry, steps, k)| + 1)
  {
    OneMore(limits, entry, steps, step, k);
    hide InARow, Grew;
  }

  lemma QuietRange(limits: Limits, entry: Entry, steps: seq<Step>, p: Part, step: Step)
    requires Tracked(limits, entry, steps, p) && Quiet(step.action) && WorkerEnabled(p.workers, step.action)
    requires p.thread != Ended(Fine)
    ensures TrackedRange(limits, entry, steps + [step], step.action.k,
                         NextWorker(limits, p, step.shared.stopping, step.action))
    ensures DoQuiet(limits, p, step.shared.stopping, step.action).held == Counted(limits, entry, steps + [step])
  {
    var a, k := step.action, step.action.k;
    hide InARow, Counted, CountedAtOpen, LastBlock, Replay, NextWorker, DoQuiet;
    assert TrackedRange(limits, entry, steps, k, p.workers[k]);
    Told(limits, entry, steps, step);
    RowGrows(limits, entry, steps, step, k);
    QuietKnows(limits, p, step.shared.stopping, a,
               |InARow(limits, entry, steps, k)|, LastBlock(steps, k), CountedAtOpen(limits, entry, steps, k));
    hide Knows;
  }

  lemma WorkerTracks(limits: Limits, entry: Entry, steps: seq<Step>, p: Part, step: Step)
    requires Inv(limits, entry, p) && Tracked(limits, entry, steps, p) && WorkerEnabled(p.workers, step.action)
    requires p == Replay(limits, entry, steps) && !step.action.TakeWhole? && !step.action.Split?
    ensures Tracked(limits, entry, steps + [step], Do(limits, entry, Local(p, step.shared), step.action))
  {
    WorkerFetches(limits, entry, Local(p, step.shared), step.action);
    if Quiet(step.action) {
      QuietTracks(limits, entry, steps, p, step);
    } else {
      BytesTrack(limits, entry, steps, p, step);
    }
  }

  lemma QuietTracks(limits: Limits, entry: Entry, steps: seq<Step>, p: Part, step: Step)
    requires ValidLimits(limits) && Shaped(entry.length, p) && Tracked(limits, entry, steps, p)
    requires Quiet(step.action) && WorkerEnabled(p.workers, step.action) && p.thread != Ended(Fine)
    ensures Tracked(limits, entry, steps + [step], Do(limits, entry, Local(p, step.shared), step.action))
  {
    var a := step.action;
    hide NextWorker, TrackedRange, TrackedRanges, Counted;
    QuietRange(limits, entry, steps, p, step);
    OneRangeTracks(limits, entry, steps, step, p.workers, a.k, NextWorker(limits, p, step.shared.stopping, a));
  }

  lemma BytesTrack(limits: Limits, entry: Entry, steps: seq<Step>, p: Part, step: Step)
    requires ValidLimits(limits) && Shaped(entry.length, p) && Tracked(limits, entry, steps, p)
    requires WorkerEnabled(p.workers, step.action) && p.thread != Ended(Fine)
    requires step.action.Block? || step.action.Pwrite? || step.action.PwriteFails?
    ensures Tracked(limits, entry, steps + [step], Do(limits, entry, Local(p, step.shared), step.action))
  {
    var a, p' := step.action, Do(limits, entry, Local(p, step.shared), step.action);
    hide InARow, Counted, CountedAtOpen, LastBlock, Arrived, Written, Replay, TrackedRanges;
    WasTracked(limits, entry, steps, p.workers, a.k);
    Told(limits, entry, steps, step);
    RowGrows(limits, entry, steps, step, a.k);
    OneRangeTracks(limits, entry, steps, step, p.workers, a.k, p'.workers[a.k]);
  }

  lemma TakenRange(w: Worker, w': Worker, failures: nat, block: nat, held: nat)
    requires w.pc.Unranged? && Knows(w, failures, block, held)
    requires w'.failures == w.failures && w'.before == w.before && (w'.pc == Receiving || w'.pc == Failing)
    ensures Knows(w', failures, block, held)
  {
  }

  lemma TakeWholeTracks(limits: Limits, entry: Entry, steps: seq<Step>, p: Part, step: Step)
    requires Inv(limits, entry, p) && Tracked(limits, entry, steps, p) && WorkerEnabled(p.workers, step.action)
    requires p == Replay(limits, entry, steps) && step.action.TakeWhole?
    ensures Tracked(limits, entry, steps + [step], Do(limits, entry, Local(p, step.shared), step.action))
  {
    var k, p' := step.action.k, AfterTakeWhole(p, step.action.k, entry.length);
    AloneIsWhole(limits, entry, p, k);
    StillFetching(p.thread, p.workers, k, p.workers[k]);
    hide Inv, Replay, InARow, Counted, CountedAtOpen, LastBlock, Knows, TrackedRanges;
    Told(limits, entry, steps, step);
    RowGrows(limits, entry, steps, step, k);
    WasTracked(limits, entry, steps, p.workers, k);
    TakenRange(p.workers[k], p'.workers[k], |InARow(limits, entry, steps, k)|,
               LastBlock(steps, k), CountedAtOpen(limits, entry, steps, k));
    OneRangeTracks(limits, entry, steps, step, p.workers, k, p'.workers[k]);
    assert p'.workers == p.workers[k := p'.workers[k]];
  }

  lemma WasTracked(limits: Limits, entry: Entry, steps: seq<Step>, ws: seq<Worker>, k: nat)
    requires TrackedRanges(limits, entry, steps, ws) && k < |ws|
    ensures TrackedRange(limits, entry, steps, k, ws[k])
  {
  }

  /** No range begins or fails an attempt, or receives a block. */
  lemma RangesStay(limits: Limits, entry: Entry, steps: seq<Step>, step: Step, ws: seq<Worker>)
    requires TrackedRanges(limits, entry, steps, ws)
    requires var a := step.action; !a.Open? && !a.Judge? && !a.Whole? && !a.Block?
    ensures TrackedRanges(limits, entry, steps + [step], ws)
  {
    hide InARow, TrackedRange;
    forall j: nat | j < |ws| ensures TrackedRange(limits, entry, steps + [step], j, ws[j]) {
      RangeStays(limits, entry, steps, step, j, ws[j]);
    }
    forall j: nat | |ws| <= j ensures InARow(limits, entry, steps + [step], j) == InARow(limits, entry, steps, j) {
      OneMore(limits, entry, steps, step, j);
    }
  }

  /** A split keeps the failures of the range it cuts, and its pieces have none. */
  lemma SplitRanges(limits: Limits, entry: Entry, steps: seq<Step>, ws: seq<Worker>, k: nat, taken: nat)
    requires TrackedRanges(limits, entry, steps, ws) && At(ws, k, Deciding) && ws[k].span.next <= ws[k].span.end
    requires taken >= 1
    ensures TrackedRanges(limits, entry, steps, SplitUp(ws, k, taken))
  {
    hide InARow, LastBlock, CountedAtOpen;
    var ws' := SplitUp(ws, k, taken);
    assert TrackedRange(limits, entry, steps, k, ws[k]);
    forall j: nat | j < |ws'| ensures TrackedRange(limits, entry, steps, j, ws'[j]) {
    }
  }

  lemma SplitTracks(limits: Limits, entry: Entry, steps: seq<Step>, p: Part, step: Step)
    requires Inv(limits, entry, p) && Tracked(limits, entry, steps, p) && WorkerEnabled(p.workers, step.action)
    requires step.action.Split?
    ensures Tracked(limits, entry, steps + [step], Do(limits, entry, Local(p, step.shared), step.action))
  {
    var k, ws := step.action.k, p.workers;
    var taken := Taken(limits, ws[k].span, p.ranges, p.honored, step.shared.free);
    hide Counted, TrackedRanges, SplitUp, Taken;
    Told(limits, entry, steps, step);
    if taken == 0 {
      LeftRanges(limits, entry, steps, ws, k);
      RangesStay(limits, entry, steps, step, SetPc(ws, k, GivingUp));
    } else {
      SplitRanges(limits, entry, steps, ws, k, taken);
      RangesStay(limits, entry, steps, step, SplitUp(ws, k, taken));
    }
  }

  lemma LeftRanges(limits: Limits, entry: Entry, steps: seq<Step>, ws: seq<Worker>, k: nat)
    requires TrackedRanges(limits, entry, steps, ws) && At(ws, k, Deciding)
    ensures TrackedRanges(limits, entry, steps, SetPc(ws, k, GivingUp))
  {
    hide InARow, LastBlock, CountedAtOpen;
    assert TrackedRange(limits, entry, steps, k, ws[k]);
  }

  lemma WholeTracks(limits: Limits, entry: Entry, steps: seq<Step>, step: Step)
    requires step.action == Whole
    ensures TrackedRanges(limits, entry, steps + [step], [NewWorker(true, Span(0, entry.length, 0))])
  {
    hide InARow;
    forall j: nat ensures InARow(limits, entry, steps + [step], j) == {} {
      OneMore(limits, entry, steps, step, j);
    }
  }

  lemma ThreadTracks(limits: Limits, entry: Entry, steps: seq<Step>, p: Part, step: Step)
    requires Inv(limits, entry, p) && Tracked(limits, entry, steps, p) && ThreadEnabled(p, step.action)
    ensures Tracked(limits, entry, steps + [step], Do(limits, entry, Local(p, step.shared), step.action))
  {
    hide Tally, Tiled, Accounted, Hashed, Stored, Carried, Ranged, Filled, Checked, Roles, Counted, TrackedRanges;
    Told(limits, entry, steps, step);
    if step.action == Whole {
      WholeTracks(limits, entry, steps, step);
    } else {
      RangesStay(limits, entry, steps, step, p.workers);
      NoneTracked(limits, entry, steps + [step]);
    }
  }

  lemma NoneTracked(limits: Limits, entry: Entry, steps: seq<Step>)
    ensures TrackedRanges(limits, entry, steps, [])
  {
  }

  lemma StepTracks(limits: Limits, entry: Entry, steps: seq<Step>, p: Part, step: Step)
    requires Inv(limits, entry, p) && Tracked(limits, entry, steps, p) && Enabled(p, step.action)
    requires p == Replay(limits, entry, steps)
    ensures Tracked(limits, entry, steps + [step], Do(limits, entry, Local(p, step.shared), step.action))
  {
    hide Tracked, Inv, Do, Replay;
    if step.action.TakeWhole? {
      TakeWholeTracks(limits, entry, steps, p, step);
    } else if step.action.Split? {
      SplitTracks(limits, entry, steps, p, step);
    } else if WorkerEnabled(p.workers, step.action) {
      WorkerTracks(limits, entry, steps, p, step);
    } else {
      ThreadTracks(limits, entry, steps, p, step);
    }
  }

  lemma NothingTracked(limits: Limits, entry: Entry)
    ensures Tracked(limits, entry, [], Fresh(entry))
  {
  }

  lemma {:induction false} RunTracks(limits: Limits, entry: Entry, steps: seq<Step>)
    requires Runs(limits, entry, steps)
    ensures Tracked(limits, entry, steps, Replay(limits, entry, steps))
  {
    hide Tracked, Inv, Do, Replay, Runs, Shaped, Enabled;
    if steps == [] {
      ReplayNothing(limits, entry);
      NothingTracked(limits, entry);
    } else {
      var init, last := steps[..|steps| - 1], steps[|steps| - 1];
      assert steps == init + [last];
      Shorter(limits, entry, init, last);
      RunTracks(limits, entry, init);
      ReplayInv(limits, entry, init);
      StepTracks(limits, entry, init, Replay(limits, entry, init), last);
    }
  }

  /** In every run a range's count of failures is that of its attempts that failed in a row, since the part last
      grew during one of them; and a part holds the bytes counted since it last started over, or all of them once it
      is complete. */
  lemma FailuresCounted(limits: Limits, entry: Entry, steps: seq<Step>, p: Part)
    requires Reachable(limits, entry, steps, p)
    ensures forall k :: 0 <= k < |p.workers| ==> p.workers[k].failures == |InARow(limits, entry, steps, k)|
    ensures p.held == if p.thread == Ended(Fine) then entry.length else Counted(limits, entry, steps)
  {
    ReachableRuns(limits, entry, steps, p);
    RunTracks(limits, entry, steps);
    hide InARow, Counted, Replay;
    forall k | 0 <= k < |p.workers| ensures p.workers[k].failures == |InARow(limits, entry, steps, k)| {
      assert TrackedRange(limits, entry, steps, k, p.workers[k]);
    }
  }

  /** A range is given up as failed exactly when the store refuses it in a way no retry changes, or when it failed
      as often in a row as the limits allow and was not split. */
  lemma GivesUpExactly(limits: Limits, entry: Entry, steps: seq<Step>, p: Part, step: Step, k: nat)
    requires Reachable(limits, entry, steps, p) && Possible(limits, entry, p, step)
    requires k < |p.workers| && p.workers[k].pc != Leaving(Error)
    ensures var a, p' := step.action, Do(limits, entry, Local(p, step.shared), step.action);
      k < |p'.workers| && p'.workers[k].pc == Leaving(Error) <==>
        || a == Refuse(k, false)
        || a == BodyFails(k, false)
        || (a == Decide(k) && |InARow(limits, entry, steps, k)| >= limits.attempts)
  {
    FailuresCounted(limits, entry, steps, p);
    hide InARow, Reachable, Shaped, Do;
    if Quiet(step.action) {
      QuietMovesOne(limits, entry, Local(p, step.shared), step.action);
      QuietGivesUp(limits, p, step.shared.stopping, step.action);
    } else {
      OthersGiveUpNone(limits, entry, Local(p, step.shared), step.action, k);
    }
    hide Enabled, Quiet, NextWorker;
  }

  /** A range ends fine exactly when it has all its bytes and its body ended or there was none left to ask for; and an
      attempt fails exactly on an answer or a body that the next attempt may not meet again, on a body that ended
      early, on a failed write, or on a whole answer that is not taken. */
  lemma AttemptEndsExactly(limits: Limits, entry: Entry, steps: seq<Step>, p: Part, step: Step, k: nat)
    requires Reachable(limits, entry, steps, p) && Possible(limits, entry, p, step) && k < |p.workers|
    requires !p.workers[k].pc.Leaving? && p.workers[k].pc != Failing
    ensures var a, w, ws := step.action, p.workers[k], Do(limits, entry, Local(p, step.shared), step.action).workers;
      && (k < |ws| && ws[k].pc == Leaving(Fine) <==>
            (a == NothingLeft(k) || a == BodyEnds(k)) && w.span.next == w.span.end)
      && (k < |ws| && ws[k].pc == Failing <==>
            || a == Refuse(k, true) || a == Answer(k, true, false) || a == BodyFails(k, true) || a == PwriteFails(k)
            || (a == BodyEnds(k) && w.span.next < w.span.end)
            || (a == TakeWhole(k) && !(|p.workers| == 1 && w.pc.lengthFits)))
  {
    ReachableInv(limits, entry, steps, p);
    assert WorkerShaped(entry.length, p.workers[k]);
    if Quiet(step.action) {
      QuietMovesOne(limits, entry, Local(p, step.shared), step.action);
      hide Inv, Reachable, Shaped, Do, Enabled;
      QuietEnds(limits, p, step.shared.stopping, step.action);
    } else {
      OthersEnd(limits, entry, Local(p, step.shared), step.action, k);
      hide Inv, Reachable, Shaped, Do;
    }
  }

  lemma QuietEnds(limits: Limits, p: Part, stopping: bool, a: Action)
    requires Quiet(a) && WorkerEnabled(p.workers, a) && p.workers[a.k].span.next <= p.workers[a.k].span.end
    ensures var w, pc := p.workers[a.k], NextWorker(limits, p, stopping, a).pc;
      && (pc == Leaving(Fine) <==> (a.NothingLeft? || a.BodyEnds?) && w.span.next == w.span.end)
      && (pc == Failing <==>
            || a == Refuse(a.k, true) || a == Answer(a.k, true, false) || a == BodyFails(a.k, true)
            || (a.BodyEnds? && w.span.next < w.span.end))
  {
  }

  lemma OthersEnd(limits: Limits, entry: Entry, l: Local, a: Action, k: nat)
    requires Inv(limits, entry, l.part) && !Quiet(a) && Enabled(l.part, a) && k < |l.part.workers|
    requires !l.part.workers[k].pc.Leaving? && l.part.workers[k].pc != Failing
    ensures var w, ws := l.part.workers[k], Do(limits, entry, l, a).workers;
      && (k < |ws| ==> ws[k].pc != Leaving(Fine))
      && (k < |ws| && ws[k].pc == Failing <==>
            a == PwriteFails(k) || (a == TakeWhole(k) && !(|l.part.workers| == 1 && w.pc.lengthFits)))
  {
    if a.TakeWhole? {
      TakeWholeEnds(limits, entry, l.part, a.k, k);
      hide Inv, AfterTakeWhole;
    } else if WorkerEnabled(l.part.workers, a) {
      BytesEnd(limits, entry, l, a, k);
      hide Inv, Do;
    } else {
      DoIsThread(limits, entry, l, a);
      hide Inv, Do, WorkerEnabled, AfterVerify;
      VerifyKeepsRanges(limits, entry, l.part);
    }
  }

  lemma VerifyKeepsRanges(limits: Limits, entry: Entry, p: Part)
    ensures AfterVerify(limits, entry, p).workers == p.workers
  {
    hide Matches;
  }

  lemma TakeWholeEnds(limits: Limits, entry: Entry, p: Part, j: nat, k: nat)
    requires Inv(limits, entry, p) && WorkerEnabled(p.workers, TakeWhole(j)) && k < |p.workers|
    requires !p.workers[k].pc.Leaving? && p.workers[k].pc != Failing
    ensures var ws := AfterTakeWhole(p, j, entry.length).workers;
      && (k < |ws| ==> ws[k].pc != Leaving(Fine))
      && (k < |ws| && ws[k].pc == Failing <==> j == k && !(|p.workers| == 1 && p.workers[k].pc.lengthFits))
  {
    AloneIsWhole(limits, entry, p, j);
    hide Inv;
  }

  lemma BytesEnd(limits: Limits, entry: Entry, l: Local, a: Action, k: nat)
    requires ValidLimits(limits) && Shaped(entry.length, l.part) && WorkerEnabled(l.part.workers, a)
    requires a.Block? || a.Pwrite? || a.PwriteFails? || a.Split?
    requires k < |l.part.workers| && !l.part.workers[k].pc.Leaving? && l.part.workers[k].pc != Failing
    ensures var ws := Do(limits, entry, l, a).workers;
      k < |ws| && ws[k].pc != Leaving(Fine) && (ws[k].pc == Failing <==> a == PwriteFails(k))
  {
    hide Taken, SplitUp, Arrived, Written;
    var p := l.part;
    if a.Split? {
      var taken := Taken(limits, p.workers[a.k].span, p.ranges, p.honored, l.shared.free);
      if taken >= 1 {
        SplitFailsNone(p.workers, a.k, taken, k);
      }
    }
  }

  lemma QuietMovesOne(limits: Limits, entry: Entry, l: Local, a: Action)
    requires ValidLimits(limits) && Shaped(entry.length, l.part) && Quiet(a) && Enabled(l.part, a)
    ensures WorkerEnabled(l.part.workers, a)
    ensures Do(limits, entry, l, a).workers ==
            l.part.workers[a.k := NextWorker(limits, l.part, l.shared.stopping, a)]
  {
  }

  lemma OthersGiveUpNone(limits: Limits, entry: Entry, l: Local, a: Action, k: nat)
    requires ValidLimits(limits) && Shaped(entry.length, l.part) && !Quiet(a) && Enabled(l.part, a)
    requires k < |l.part.workers| && l.part.workers[k].pc != Leaving(Error)
    ensures var ws := Do(limits, entry, l, a).workers; k < |ws| ==> ws[k].pc != Leaving(Error)
  {
    hide Taken, SplitUp;
    var p := l.part;
    if a.Split? {
      var taken := Taken(limits, p.workers[a.k].span, p.ranges, p.honored, l.shared.free);
      if taken >= 1 {
        SplitFailsNone(p.workers, a.k, taken, k);
      }
    }
  }

  lemma QuietGivesUp(limits: Limits, p: Part, stopping: bool, a: Action)
    requires Quiet(a) && WorkerEnabled(p.workers, a)
    ensures NextPc(limits, p, stopping, a) == Leaving(Error) <==>
      || a == Refuse(a.k, false)
      || a == BodyFails(a.k, false)
      || (a.Decide? && p.workers[a.k].failures >= limits.attempts)
    ensures NextWorker(limits, p, stopping, a).pc == NextPc(limits, p, stopping, a)
  {
  }

  lemma SplitFailsNone(ws: seq<Worker>, k: nat, taken: nat, j: nat)
    requires k < |ws| && j < |ws| && taken >= 1 && ws[k].span.next <= ws[k].span.end
    ensures j < |SplitUp(ws, k, taken)| && SplitUp(ws, k, taken)[j].pc == if j == k then Top else ws[j].pc
  {
  }

  // ----- Passes -----

  /** The checks of the part against its entry. */
  ghost function Checks(steps: seq<Step>): set<nat> {
    set i: nat | i < |steps| && steps[i].action == Verify
  }

  lemma OneMoreCheck(steps: seq<Step>, step: Step)
    ensures |Checks(steps + [step])| == |Checks(steps)| + if step.action == Verify then 1 else 0
  {
    var more := steps + [step];
    assert forall i: nat :: i < |steps| ==> more[i] == steps[i];
    assert Checks(more) == Checks(steps) + if step.action == Verify then {|steps|} else {};
  }

  ghost function Mismatched(p: Part): nat {
    p.mismatches + if Completed(p.thread) then 1 else 0
  }

  lemma CheckCounts(limits: Limits, entry: Entry, l: Local, a: Action)
    requires Inv(limits, entry, l.part) && Enabled(l.part, a)
    ensures Mismatched(Do(limits, entry, l, a)) == Mismatched(l.part) + if a == Verify then 1 else 0
  {
    if WorkerEnabled(l.part.workers, a) {
      WorkerLeavesThread(limits, entry, l, a);
      hide Inv, Do;
    } else {
      hide Inv, WorkerEnabled, Matches;
    }
  }

  lemma {:induction false} ReplayChecks(limits: Limits, entry: Entry, steps: seq<Step>)
    requires Runs(limits, entry, steps)
    ensures Mismatched(Replay(limits, entry, steps)) == |Checks(steps)|
  {
    hide Mismatched, Checks, Inv, Do, Replay, Runs, Shaped, Enabled;
    if steps == [] {
      ReplayNothing(limits, entry);
      NoChecks(entry);
    } else {
      var init, last := steps[..|steps| - 1], steps[|steps| - 1];
      assert steps == init + [last];
      Shorter(limits, entry, init, last);
      ReplayChecks(limits, entry, init);
      ReplayInv(limits, entry, init);
      CheckCounts(limits, entry, Local(Replay(limits, entry, init), last.shared), last.action);
      OneMoreCheck(init, last);
    }
  }

  lemma NoChecks(entry: Entry)
    ensures Mismatched(Fresh(entry)) == 0 == |Checks([])|
  {
  }

  /** A part whose every byte reached its file completes exactly if the bytes received hash to its entry; otherwise
      it starts over, unless as many of its passes ended so as the limits allow. */
  lemma VerifyDecides(limits: Limits, entry: Entry, steps: seq<Step>, p: Part, shared: Shared)
    requires Reachable(limits, entry, steps, p) && p.thread == Verifying && Shaped(entry.length, p)
    requires ValidLimits(limits) && forall i :: 0 <= i < |p.bytes.lost| ==> p.bytes.lost[i] == 0
    ensures Do(limits, entry, Local(p, shared), Verify).thread ==
            if entry.hash(p.bytes.data) == entry.sha256 then Completing
            else if |Checks(steps)| + 1 >= limits.attempts then Raising(Error)
            else Pausing
  {
    hide Checks, Reachable, Reaches, Replay, Runs, Matches;
    ReachableRuns(limits, entry, steps, p);
    ReplayChecks(limits, entry, steps);
    VerifiesExactly(limits, entry, steps, p);
    VerifyGoesOn(limits, entry, p, shared);
    hide Do;
  }

  lemma VerifyGoesOn(limits: Limits, entry: Entry, p: Part, shared: Shared)
    requires ValidLimits(limits) && Shaped(entry.length, p) && p.thread == Verifying
    ensures Do(limits, entry, Local(p, shared), Verify).thread ==
            if Matches(entry, p.bytes) then Completing
            else if p.mismatches + 1 >= limits.attempts then Raising(Error) else Pausing
  {
    hide Matches;
  }
}
