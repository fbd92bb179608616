/**
 A whole download: its parts, the thread that waits for them, and what they share. A failure anywhere
 stops everything, and is never swallowed; and spare requests are neither lost nor made.
 */
module Download {
  import opened Ranges
  import opened Transfer
  import opened TransferInvariant
  import opened TransferSteps

  /** Where the thread that started the parts stands. */
  datatype Main =
    | Watching   // waiting for parts, and watching their pace
    | Alarmed    // a part's failure or an interrupt was raised, and is about to stop the parts
    | Aborted
    | Returned

  datatype State = State(parts: seq<Part>, shared: Shared, main: Main, seen: set<nat>)

  datatype Event =
    | Moves(i: nat, action: Action)
    | Observe          // the futures that ended so far are looked at
    | Interrupt
    | StopParts
    | Cancel(i: nat)   // a part not started yet is dropped

  ghost function Initial(entries: seq<Entry>, spare: nat): State {
    State(seq(|entries|, i requires 0 <= i < |entries| => Fresh(entries[i])), Shared(false, spare), Watching, {})
  }

  /** What makes every event well defined. */
  ghost predicate Formed(limits: Limits, entries: seq<Entry>, s: State) {
    && ValidLimits(limits) && |s.parts| == |entries|
    && forall i :: 0 <= i < |s.parts| ==> Shaped(entries[i].length, s.parts[i])
  }

  ghost predicate WellFormed(limits: Limits, entries: seq<Entry>, s: State) {
    Formed(limits, entries, s) && forall i :: 0 <= i < |s.parts| ==> Inv(limits, entries[i], s.parts[i])
  }

  /** The futures that ended and were not looked at yet. */
  ghost function Finished(s: State): set<nat> {
    set i | 0 <= i < |s.parts| && i !in s.seen && s.parts[i].thread.Ended?
  }

  ghost predicate Can(s: State, e: Event) {
    match e
    case Moves(i, action) => i < |s.parts| && Enabled(s.parts[i], action)
    case Observe => s.main == Watching
    case Interrupt => s.main == Watching
    case StopParts => s.main == Alarmed
    case Cancel(i) => s.main == Aborted && i < |s.parts| && s.parts[i].thread == Queued
  }

  ghost function After(limits: Limits, entries: seq<Entry>, s: State, e: Event): State
    requires Formed(limits, entries, s) && Can(s, e)
  {
    match e
    case Moves(i, action) =>
      var l := Local(s.parts[i], s.shared);
      s.(parts := s.parts[i := Do(limits, entries[i], l, action)], shared := DoShared(limits, entries[i], l, action))
    case Observe =>
      var finished := Finished(s);
      if exists i :: i in finished && s.parts[i].thread == Ended(Error) then s.(main := Alarmed)
      else
        s.(seen := s.seen + finished,
           main := if forall i :: 0 <= i < |s.parts| ==> i in s.seen + finished then Returned else Watching)
    case Interrupt => s.(main := Alarmed)
    case StopParts => s.(main := Aborted, shared := s.shared.(stopping := true))
    case Cancel(i) => s.(parts := s.parts[i := s.parts[i].(thread := Cancelled)])
  }

  ghost predicate Reaches(limits: Limits, entries: seq<Entry>, s: State, events: seq<Event>, t: State)
    decreases |events|
  {
    if events == [] then s == t
    else
      && Formed(limits, entries, s) && Can(s, events[0])
      && Reaches(limits, entries, After(limits, entries, s, events[0]), events[1..], t)
  }

  // ----- Failures and stops of one part -----

  ghost predicate InFlight(t: Thread) {
    t == Fetching || t.StopOthers? || t.Joining?
  }

  /** The part failed, and will raise that failure. */
  ghost predicate Doomed(p: Part) {
    (InFlight(p.thread) && Tally(p.workers, Failed) > 0) || p.thread == Raising(Error) || p.thread == GuardStop ||
        p.thread == Ended(Error)
  }

  /** The part, or a range of it, ended because the transfer stopped. */
  ghost predicate Halts(p: Part) {
    Tally(p.workers, Halted) > 0 || p.thread == Raising(Stopped) || p.thread == Ended(Stopped)
  }

  ghost function Borrowed(p: Part): int {
    Tally(p.workers, Running) + p.owed
  }

  /** What an action changes of its part's failures, stops and requests. */
  ghost predicate Faithful(p: Part, shared: Shared, p': Part, shared': Shared) {
    && (Doomed(p) ==> Doomed(p'))
    && (Halts(p') ==> Halts(p) || shared.stopping)
    && (shared'.stopping ==> shared.stopping || Doomed(p') || Halts(p))
    && (shared.stopping ==> shared'.stopping)
    && shared'.free + Borrowed(p') == shared.free + Borrowed(p)
  }

  lemma QuietWeights(limits: Limits, p: Part, stopping: bool, a: Action)
    requires Quiet(a) && WorkerEnabled(p.workers, a)
    ensures var w, w' := p.workers[a.k], NextWorker(limits, p, stopping, a);
      && Weight(w, Failed) <= Weight(w', Failed)
      && (Weight(w', Halted) > Weight(w, Halted) ==> stopping)
      && Weight(w', Running) + DoQuiet(limits, p, stopping, a).owed == Weight(w, Running) + p.owed
      && (a.StopAll? ==> Weight(w, Failed) == 1)
      && w'.main == w.main
  {
  }

  lemma QuietFaithful(limits: Limits, entry: Entry, l: Local, a: Action)
    requires Inv(limits, entry, l.part) && Quiet(a) && WorkerEnabled(l.part.workers, a)
    ensures Faithful(l.part, l.shared, DoQuiet(limits, l.part, l.shared.stopping, a), DoShared(limits, entry, l, a))
  {
    hide Tally, Weight, NextWorker, Tiled, Accounted, Hashed, Stored, Carried, Ranged, Filled, Checked;
    var p := l.part;
    var w' := NextWorker(limits, p, l.shared.stopping, a);
    QuietWeights(limits, p, l.shared.stopping, a);
    StillFetching(p.thread, p.workers, a.k, w');
    TallyUpdate(p.workers, a.k, w', Failed);
    TallyUpdate(p.workers, a.k, w', Halted);
    TallyUpdate(p.workers, a.k, w', Running);
    TallyBounds(p.workers, Failed);
  }

  /** A change of one range that leaves failures, stops and requests as they are. */
  lemma NeutralFaithful(p: Part, k: nat, w': Worker, p': Part, shared: Shared)
    requires k < |p.workers| && p'.thread == p.thread && p'.owed == p.owed && p'.workers == p.workers[k := w']
    requires Weight(w', Failed) == Weight(p.workers[k], Failed) && Weight(w', Halted) == Weight(p.workers[k], Halted)
    requires Weight(w', Running) == Weight(p.workers[k], Running)
    ensures Faithful(p, shared, p', shared)
  {
    hide Tally;
    TallyUpdate(p.workers, k, w', Failed);
    TallyUpdate(p.workers, k, w', Halted);
    TallyUpdate(p.workers, k, w', Running);
  }

  lemma SplitFaithful(limits: Limits, entry: Entry, l: Local, k: nat)
    requires Inv(limits, entry, l.part) && WorkerEnabled(l.part.workers, Split(k))
    ensures Faithful(l.part, l.shared, Do(limits, entry, l, Split(k)), DoShared(limits, entry, l, Split(k)))
  {
    hide Tally, Hashed, Stored, Carried, Filled, Checked, Accounted;
    var p := l.part;
    var taken := Taken(limits, p.workers[k].span, p.ranges, p.honored, l.shared.free);
    if taken == 0 {
      NeutralFaithful(p, k, p.workers[k].(pc := GivingUp), AfterSplit(p, k, 0), l.shared);
    } else {
      SplitPlaces(limits, entry.length, p.workers, p.ranges, k, taken);
    }
  }

  /** Taking the whole answer forgets no range that failed or stopped, and no request. */
  lemma TakeWholeFaithful(limits: Limits, entry: Entry, l: Local, k: nat)
    requires Inv(limits, entry, l.part) && WorkerEnabled(l.part.workers, TakeWhole(k))
    ensures Faithful(l.part, l.shared, AfterTakeWhole(l.part, k, entry.length), l.shared)
  {
    hide Tally;
    var p, p' := l.part, AfterTakeWhole(l.part, k, entry.length);
    var w := p.workers[k];
    if p.ranges == 1 && w.span.start == 0 && w.span.end == entry.length {
      WholeIsAlone(limits, entry.length, p.workers, p.ranges, k);
      assert p'.workers == p.workers[0 := p'.workers[0]];
    }
    NeutralFaithful(p, k, p'.workers[k], p', l.shared);
  }

  lemma ThreadFaithful(limits: Limits, entry: Entry, l: Local, a: Action)
    requires Inv(limits, entry, l.part) && ThreadEnabled(l.part, a)
    ensures Faithful(l.part, l.shared, DoThread(limits, entry, l.part, l.shared.stopping, a),
            DoShared(limits, entry, l, a))
  {
    hide Tally, Weight, Tiled, Accounted, Hashed, Stored, Carried, Ranged, Filled, Checked, Problem, Raised, Matches,
        Hashable;
    var p := l.part;
    TallyBounds(p.workers, Failed);
    TallyBounds(p.workers, Halted);
    if a.StopRanges? {
      StopOthersWeighs(p);
    } else if a.Join? {
      JoinFaithful(p);
    } else if a.Restart? || a.Verify? {
      CleanWeighs(p);
    } else if a.Whole? {
      FirstWeighs(entry.length);
    }
  }

  lemma StopOthersWeighs(p: Part)
    requires Roles(p.thread, p.workers) && p.thread.StopOthers? && Ordered(p.workers)
    ensures Tally(p.workers, Failed) > 0 || Tally(p.workers, Halted) > 0
  {
    TallyBounds(p.workers, Failed);
    TallyBounds(p.workers, Halted);
  }

  lemma CleanWeighs(p: Part)
    requires Roles(p.thread, p.workers) && Received(p.thread)
    ensures Tally(p.workers, Failed) == Tally(p.workers, Halted) == Tally(p.workers, Running) == 0
    ensures Tally([], Failed) == Tally([], Halted) == Tally([], Running) == 0
  {
    NoneWeigh(p.workers, Failed);
    NoneWeigh(p.workers, Halted);
    NoneWeigh(p.workers, Running);
  }

  lemma FirstWeighs(length: nat)
    ensures var ws := [NewWorker(true, Span(0, length, 0))];
      Tally(ws, Failed) == Tally(ws, Halted) == Tally(ws, Running) == 0
    ensures Tally([], Failed) == Tally([], Halted) == Tally([], Running) == 0
  {
    Single(NewWorker(true, Span(0, length, 0)));
  }

  /** Joining raises a failure if a range failed, and a stop only if one stopped. */
  lemma JoinFaithful(p: Part)
    requires Roles(p.thread, p.workers) && ThreadEnabled(p, Join) && Ordered(p.workers)
    ensures Tally(p.workers, Failed) > 0 ==> Raised(p.thread.failure, Problem(p.workers)) == Error
    ensures Raised(p.thread.failure, Problem(p.workers)) == Error ==> Tally(p.workers, Failed) > 0
    ensures Raised(p.thread.failure, Problem(p.workers)) == Stopped ==> Tally(p.workers, Halted) > 0
  {
    var ws := p.workers;
    TallyBounds(ws, Failed);
    TallyBounds(ws, Halted);
    if Tally(ws, Failed) > 0 {
      if forall k :: 0 <= k < |ws| ==> Weight(ws[k], Failed) == 0 {
        NoneWeigh(ws, Failed);
      }
    }
  }

  lemma BlockFaithful(limits: Limits, entry: Entry, l: Local, k: nat, block: seq<Byte>)
    requires Inv(limits, entry, l.part) && WorkerEnabled(l.part.workers, Block(k, block))
    ensures Faithful(l.part, l.shared, AfterBlock(l.part, k, block), l.shared)
  {
    hide Tally, Faithful, Roles, Tiled, Accounted, Hashed, Stored, Carried, Ranged, Filled, Checked;
    NeutralFaithful(l.part, k, Took(l.part.workers[k], block), AfterBlock(l.part, k, block), l.shared);
  }

  lemma PwriteFaithful(limits: Limits, entry: Entry, l: Local, k: nat, written: nat)
    requires Inv(limits, entry, l.part) && WorkerEnabled(l.part.workers, Pwrite(k, written))
    ensures Faithful(l.part, l.shared, AfterPwrite(l.part, k, written), l.shared)
  {
    hide Tally, Faithful, Roles, Tiled, Accounted, Hashed, Stored, Carried, Ranged, Filled, Checked;
    NeutralFaithful(l.part, k, Wrote(l.part.workers[k], written), AfterPwrite(l.part, k, written), l.shared);
  }

  lemma PwriteFailsFaithful(limits: Limits, entry: Entry, l: Local, k: nat)
    requires Inv(limits, entry, l.part) && WorkerEnabled(l.part.workers, PwriteFails(k))
    ensures Faithful(l.part, l.shared, AfterPwriteFails(l.part, k), l.shared)
  {
    hide Tally, Faithful, Roles, Tiled, Accounted, Hashed, Stored, Carried, Ranged, Filled, Checked;
    NeutralFaithful(l.part, k, l.part.workers[k].(pc := Pc.Failing), AfterPwriteFails(l.part, k), l.shared);
  }

  /** Every action is faithful: failures last, stops have a cause, and requests are conserved. */
  lemma ActionFaithful(limits: Limits, entry: Entry, l: Local, a: Action)
    requires Inv(limits, entry, l.part) && Enabled(l.part, a)
    ensures Faithful(l.part, l.shared, Do(limits, entry, l, a), DoShared(limits, entry, l, a))
  {
    hide Tally, Faithful, Inv, DoQuiet, AfterTakeWhole, AfterBlock, AfterPwrite, AfterPwriteFails, DoThread;
    if Quiet(a) {
      QuietFaithful(limits, entry, l, a);
    } else if a.TakeWhole? {
      TakeWholeFaithful(limits, entry, l, a.k);
    } else if a.Block? {
      BlockFaithful(limits, entry, l, a.k, a.block);
    } else if a.Pwrite? {
      PwriteFaithful(limits, entry, l, a.k, a.written);
    } else if a.PwriteFails? {
      PwriteFailsFaithful(limits, entry, l, a.k);
    } else if a.Split? {
      SplitFaithful(limits, entry, l, a.k);
    } else {
      ThreadFaithful(limits, entry, l, a);
    }
  }

  // ----- The whole download -----

  ghost function Lent(parts: seq<Part>): int {
    if parts == [] then 0 else Lent(parts[..|parts| - 1]) + Borrowed(parts[|parts| - 1])
  }

  lemma {:induction false} LentUpdate(parts: seq<Part>, i: nat, p: Part)
    requires i < |parts|
    ensures Lent(parts[i := p]) == Lent(parts) - Borrowed(parts[i]) + Borrowed(p)
  {
    var last := |parts| - 1;
    if i == last {
      assert parts[i := p][..last] == parts[..last];
    } else {
      LentUpdate(parts[..last], i, p);
      assert parts[i := p][..last] == parts[..last][i := p];
    }
  }

  ghost predicate Caused(s: State) {
    s.main == Alarmed || s.main == Aborted || exists i :: 0 <= i < |s.parts| && Doomed(s.parts[i])
  }

  ghost predicate Honest(s: State, spare: nat) {
    && (s.shared.stopping ==> Caused(s))
    && (forall i :: 0 <= i < |s.parts| && Halts(s.parts[i]) ==> s.shared.stopping)
    && (forall i :: i in s.seen ==>
       i < |s.parts| && (s.parts[i].thread == Ended(Fine) || s.parts[i].thread == Ended(Stopped)))
    && (s.main == Returned ==> forall i :: 0 <= i < |s.parts| ==> i in s.seen)
    && s.shared.free + Lent(s.parts) == spare
  }

  lemma MovesHonest(limits: Limits, entries: seq<Entry>, s: State, i: nat, a: Action, spare: nat)
    requires WellFormed(limits, entries, s) && Honest(s, spare) && Can(s, Moves(i, a))
    ensures Honest(After(limits, entries, s, Moves(i, a)), spare)
  {
    hide Tally, Lent, Doomed, Halts, Do, DoShared, Inv;
    var t := After(limits, entries, s, Moves(i, a));
    ActionFaithful(limits, entries[i], Local(s.parts[i], s.shared), a);
    LentUpdate(s.parts, i, t.parts[i]);
    EndedStays(limits, entries[i], Local(s.parts[i], s.shared), a);
    if t.shared.stopping && !(t.main == Alarmed || t.main == Aborted) {
      if s.shared.stopping || Halts(s.parts[i]) {
        var j :| 0 <= j < |s.parts| && Doomed(s.parts[j]);
        assert Doomed(t.parts[j]);
      } else {
        assert Doomed(t.parts[i]);
      }
    }
  }

  /** A part whose future holds its result keeps it. */
  lemma EndedStays(limits: Limits, entry: Entry, l: Local, a: Action)
    requires Inv(limits, entry, l.part) && Enabled(l.part, a)
    ensures l.part.thread.Ended? ==> Do(limits, entry, l, a).thread == l.part.thread
  {
    if WorkerEnabled(l.part.workers, a) {
      WorkerFetches(limits, entry, l, a);
      hide Inv, Do;
    } else {
      hide Inv, WorkerEnabled, Matches;
    }
  }

  lemma EventHonest(limits: Limits, entries: seq<Entry>, s: State, e: Event, spare: nat)
    requires WellFormed(limits, entries, s) && Honest(s, spare) && Can(s, e)
    ensures WellFormed(limits, entries, After(limits, entries, s, e)) && Honest(After(limits, entries, s, e), spare)
  {
    hide Tally, Lent, Doomed, Halts, Do, DoShared;
    if e.Moves? {
      MovesHonest(limits, entries, s, e.i, e.action, spare);
      ActionKeeps(limits, entries[e.i], Local(s.parts[e.i], s.shared), e.action);
    } else if e.Cancel? {
      CancelHonest(limits, entries, s, e.i, spare);
    } else if e.Observe? {
      ObserveHonest(limits, entries, s, spare);
    }
  }

  lemma ObserveHonest(limits: Limits, entries: seq<Entry>, s: State, spare: nat)
    requires WellFormed(limits, entries, s) && Honest(s, spare) && s.main == Watching
    ensures Honest(After(limits, entries, s, Observe), spare)
  {
    hide Tally, Lent, Doomed, Halts, Inv;
    var t := After(limits, entries, s, Observe);
    forall i | i in t.seen && t.main != Alarmed
      ensures i < |t.parts| && (t.parts[i].thread == Ended(Fine) || t.parts[i].thread == Ended(Stopped))
    {
      if i !in s.seen {
        assert i in Finished(s) && s.parts[i].thread != Ended(Error);
        assert s.parts[i].thread.outcome == Fine || s.parts[i].thread.outcome == Stopped;
      }
    }
  }

  lemma CancelHonest(limits: Limits, entries: seq<Entry>, s: State, i: nat, spare: nat)
    requires WellFormed(limits, entries, s) && Honest(s, spare) && Can(s, Cancel(i))
    ensures WellFormed(limits, entries, After(limits, entries, s, Cancel(i))) &&
            Honest(After(limits, entries, s, Cancel(i)), spare)
  {
    hide Tally, Lent, Inv;
    var p := s.parts[i].(thread := Cancelled);
    CancelKeeps(limits, entries[i], s.parts[i]);
    LentUpdate(s.parts, i, p);
  }

  lemma CancelKeeps(limits: Limits, entry: Entry, p: Part)
    requires Inv(limits, entry, p) && p.thread == Queued
    ensures Inv(limits, entry, p.(thread := Cancelled)) && Shaped(entry.length, p.(thread := Cancelled))
  {
    hide Tally;
    ThreadMoves(limits, entry, p, p.(thread := Cancelled));
  }

  lemma {:induction false} RunHonest(limits: Limits, entries: seq<Entry>, s: State, events: seq<Event>, t: State,
                  spare: nat)
    requires WellFormed(limits, entries, s) && Honest(s, spare) && Reaches(limits, entries, s, events, t)
    ensures WellFormed(limits, entries, t) && Honest(t, spare)
    decreases |events|
  {
    hide Honest, WellFormed;
    if events != [] {
      EventHonest(limits, entries, s, events[0], spare);
      RunHonest(limits, entries, After(limits, entries, s, events[0]), events[1..], t, spare);
    }
  }

  lemma {:induction false} NothingLent(parts: seq<Part>)
    requires forall i :: 0 <= i < |parts| ==> parts[i].workers == [] && parts[i].owed == 0
    ensures Lent(parts) == 0
  {
    if parts != [] {
      NothingLent(parts[..|parts| - 1]);
    }
  }

  ghost predicate Reachable(limits: Limits, entries: seq<Entry>, spare: nat, events: seq<Event>, s: State) {
    ValidLimits(limits) && Reaches(limits, entries, Initial(entries, spare), events, s)
  }

  lemma ReachableHonest(limits: Limits, entries: seq<Entry>, spare: nat, events: seq<Event>, s: State)
    requires Reachable(limits, entries, spare, events, s)
    ensures WellFormed(limits, entries, s) && Honest(s, spare)
  {
    var start := Initial(entries, spare);
    forall i | 0 <= i < |entries| ensures Inv(limits, entries[i], start.parts[i]) {
      FreshInv(limits, entries[i]);
    }
    NothingLent(start.parts);
    RunHonest(limits, entries, start, events, s, spare);
  }

  // ----- A failure stops everything -----

  /** A range split off ended in a failure, the part joins its ranges after one, or it ended in one. */
  ghost predicate Failing(p: Part) {
    || p.thread == Ended(Error)
    || (p.thread.Joining? && p.thread.failure != Fine)
    || exists k :: 0 <= k < |p.workers| && p.workers[k].pc == Done(Error) && !p.workers[k].main
  }

  lemma SplitFails(ws: seq<Worker>, k: nat, taken: nat, j: nat)
    requires k < |ws| && taken >= 1 && ws[k].span.next <= ws[k].span.end && j < |SplitUp(ws, k, taken)|
    requires SplitUp(ws, k, taken)[j].pc.Done?
    ensures j < |ws| && SplitUp(ws, k, taken)[j] == ws[j]
  {
  }

  /** A range split off that an action ends in a failure ends with a stop set. */
  lemma RangeFailureStops(limits: Limits, entry: Entry, l: Local, a: Action, j: nat)
    requires ValidLimits(limits) && Enabled(l.part, a) && Shaped(entry.length, l.part)
    requires var ws := Do(limits, entry, l, a).workers; j < |ws| && ws[j].pc == Done(Error) && !ws[j].main
    ensures Failing(l.part) || DoShared(limits, entry, l, a).stopping
  {
    var p := l.part;
    if Quiet(a) {
      hide DoShared;
      QuietFailureStops(limits, entry, l, a, j);
    } else if a.Split? {
      var taken := Taken(limits, p.workers[a.k].span, p.ranges, p.honored, l.shared.free);
      hide Taken, SplitUp, DoShared;
      if taken >= 1 {
        SplitFails(p.workers, a.k, taken, j);
      }
      assert p.workers[j].pc == Done(Error) && !p.workers[j].main;
    } else {
      hide Taken, SplitUp, Arrived, Written, DoShared;
      assert j < |p.workers| && p.workers[j].pc == Done(Error) && !p.workers[j].main;
    }
  }

  lemma QuietFailureStops(limits: Limits, entry: Entry, l: Local, a: Action, j: nat)
    requires ValidLimits(limits) && Quiet(a) && WorkerEnabled(l.part.workers, a) && Shaped(entry.length, l.part)
    requires j < |l.part.workers|
    requires var w := DoQuiet(limits, l.part, l.shared.stopping, a).workers[j]; w.pc == Done(Error) && !w.main
    ensures Failing(l.part) || DoShared(limits, entry, l, a).stopping
  {
    assert !a.StopAll? ==> l.part.workers[j].pc == Done(Error) && !l.part.workers[j].main;
  }

  lemma FailureStops(limits: Limits, entry: Entry, l: Local, a: Action)
    requires ValidLimits(limits) && Enabled(l.part, a) && Shaped(entry.length, l.part)
    requires Failing(Do(limits, entry, l, a))
    ensures Failing(l.part) || DoShared(limits, entry, l, a).stopping
  {
    var p' := Do(limits, entry, l, a);
    if j :| 0 <= j < |p'.workers| && p'.workers[j].pc == Done(Error) && !p'.workers[j].main {
      RangeFailureStops(limits, entry, l, a, j);
    } else {
      hide NextWorker, SplitUp, Taken, Arrived, Written;
      assert p'.thread == l.part.thread || a.StopRanges? || a.Guard? || a.Fetched?;
    }
  }

  /** Every failure that is out, and the waiting thread's own, set the stop. */
  ghost predicate Heeded(s: State) {
    (s.main == Aborted ==> s.shared.stopping) &&
    forall i :: 0 <= i < |s.parts| && Failing(s.parts[i]) ==> s.shared.stopping
  }

  lemma EventHeeded(limits: Limits, entries: seq<Entry>, s: State, e: Event)
    requires Formed(limits, entries, s) && Can(s, e) && Heeded(s)
    ensures Heeded(After(limits, entries, s, e))
  {
    hide Do, DoShared;
    if e.Moves? {
      var l := Local(s.parts[e.i], s.shared);
      StopStays(limits, entries[e.i], l, e.action);
      if Failing(Do(limits, entries[e.i], l, e.action)) {
        FailureStops(limits, entries[e.i], l, e.action);
      }
    }
  }

  lemma StopStays(limits: Limits, entry: Entry, l: Local, a: Action)
    requires ValidLimits(limits) && Enabled(l.part, a) && Shaped(entry.length, l.part)
    ensures l.shared.stopping ==> DoShared(limits, entry, l, a).stopping
  {
  }

  lemma {:induction false} RunHeeded(limits: Limits, entries: seq<Entry>, s: State, events: seq<Event>, t: State)
    requires Heeded(s) && Reaches(limits, entries, s, events, t)
    ensures Heeded(t)
    decreases |events|
  {
    hide Heeded, After;
    if events != [] {
      EventHeeded(limits, entries, s, events[0]);
      RunHeeded(limits, entries, After(limits, entries, s, events[0]), events[1..], t);
    }
  }

  /** A failure stops everything: once a range split off ended in one, or a part went on to join its ranges after
      one or ended in one, or the waiting thread raised one, the stop is set. */
  lemma FailureIsHeeded(limits: Limits, entries: seq<Entry>, spare: nat, events: seq<Event>, s: State)
    requires Reachable(limits, entries, spare, events, s)
    ensures forall i :: 0 <= i < |s.parts| && s.parts[i].thread == Ended(Error) ==> s.shared.stopping
    ensures forall i :: 0 <= i < |s.parts| && s.parts[i].thread.Joining? && s.parts[i].thread.failure != Fine ==>
              s.shared.stopping
    ensures forall i, k ::
      0 <= i < |s.parts| && 1 <= k < |s.parts[i].workers| && s.parts[i].workers[k].pc == Done(Error) ==>
        s.shared.stopping
    ensures s.main == Aborted ==> s.shared.stopping
  {
    ReachableHonest(limits, entries, spare, events, s);
    RunHeeded(limits, entries, Initial(entries, spare), events, s);
    hide Reachable, Honest, Tally;
    forall i, k | 0 <= i < |s.parts| && 1 <= k < |s.parts[i].workers| && s.parts[i].workers[k].pc == Done(Error)
      ensures Failing(s.parts[i])
    {
      assert Roles(s.parts[i].thread, s.parts[i].workers);
    }
  }

  /** No silent success: in every interleaving of parts and split-off ranges, a download that returns
      was never stopped, and every one of its parts finished its own move, matching its manifest entry. */
  lemma NoSilentSuccess(limits: Limits, entries: seq<Entry>, spare: nat, events: seq<Event>, s: State)
    requires Reachable(limits, entries, spare, events, s) && s.main == Returned
    ensures !s.shared.stopping && |s.parts| == |entries|
    ensures forall i :: 0 <= i < |entries| ==>
      && s.parts[i].thread == Ended(Fine)
      && |s.parts[i].bytes.digest| == entries[i].length
      && entries[i].hash(s.parts[i].bytes.digest) == entries[i].sha256
  {
    hide Tally, Tiled, Accounted, Hashed, Stored, Carried, Ranged, Filled, Lent;
    ReachableHonest(limits, entries, spare, events, s);
  }

  /** What the waiting thread makes of the parts: it raises exactly if one ended in a failure, and returns exactly if
      each ended otherwise. */
  lemma ObserveDecides(limits: Limits, entries: seq<Entry>, spare: nat, events: seq<Event>, s: State)
    requires Reachable(limits, entries, spare, events, s) && s.main == Watching && Formed(limits, entries, s)
    ensures After(limits, entries, s, Observe).main ==
            if exists i :: 0 <= i < |s.parts| && s.parts[i].thread == Ended(Error) then Alarmed
            else if forall i :: 0 <= i < |s.parts| ==> s.parts[i].thread.Ended? then Returned
            else Watching
  {
    SeenEndedWell(limits, entries, spare, events, s);
    hide Reachable, Formed;
    if i :| 0 <= i < |s.parts| && s.parts[i].thread == Ended(Error) {
      assert i in Finished(s);
    }
  }

  lemma SeenEndedWell(limits: Limits, entries: seq<Entry>, spare: nat, events: seq<Event>, s: State)
    requires Reachable(limits, entries, spare, events, s)
    ensures forall i :: i in s.seen ==>
      i < |s.parts| && (s.parts[i].thread == Ended(Fine) || s.parts[i].thread == Ended(Stopped))
  {
    ReachableHonest(limits, entries, spare, events, s);
    hide Reachable, WellFormed, Lent, Halts, Doomed;
  }

  /** Once the transfer stopped, it cannot return: some part is bound to raise, or the waiting thread does. */
  lemma StopIsRaised(limits: Limits, entries: seq<Entry>, spare: nat, events: seq<Event>, s: State)
    requires Reachable(limits, entries, spare, events, s) && s.shared.stopping
    ensures s.main != Returned
    ensures s.main == Watching ==> exists i :: 0 <= i < |s.parts| && Doomed(s.parts[i])
  {
    hide Reachable, Lent, Halts, Tally;
    ReachableHonest(limits, entries, spare, events, s);
  }

  /** Request conservation: free spare requests and those taken, by ranges not ended or not given back
      yet, are the initial count in every state, even when fewer are granted than wanted. */
  lemma RequestsConserved(limits: Limits, entries: seq<Entry>, spare: nat, events: seq<Event>, s: State)
    requires Reachable(limits, entries, spare, events, s)
    ensures s.shared.free + Lent(s.parts) == spare
  {
    ReachableHonest(limits, entries, spare, events, s);
  }
}
