/**
 After a stop no range begins another attempt: only those already past their look at the stop open the one
 they were about to.
 */
module StopBound {
  import opened Ranges
  import opened Transfer
  import opened TransferInvariant
  import opened TransferSteps
  import opened Download

  /** The attempts of all of a part's passes. */
  ghost function Attempts(p: Part): nat {
    p.earlier + p.tries
  }

  /** Those, and the attempts that ranges are about to open. */
  ghost function Committed(p: Part): int {
    Attempts(p) + Tally(p.workers, Ready)
  }

  lemma {:induction false} ReadyCounts(ws: seq<Worker>)
    ensures 0 <= Tally(ws, Ready)
  {
    if ws != [] {
      ReadyCounts(ws[..|ws| - 1]);
    }
  }

  lemma {:induction false} NewAreNotReady(pieces: seq<Span>)
    ensures Tally(NewWorkers(pieces), Ready) == 0
  {
    if pieces != [] {
      var init := pieces[..|pieces| - 1];
      NewAreNotReady(init);
      assert NewWorkers(pieces)[..|pieces| - 1] == NewWorkers(init);
    }
  }

  lemma OneIsNotReady(p: Part, k: nat, w': Worker, p': Part)
    requires k < |p.workers| && p'.workers == p.workers[k := w']
    requires Attempts(p') + Weight(w', Ready) <= Attempts(p) + Weight(p.workers[k], Ready)
    ensures Committed(p') <= Committed(p)
  {
    hide Tally;
    TallyUpdate(p.workers, k, w', Ready);
  }

  lemma SplitCommits(p: Part, k: nat, taken: nat)
    requires At(p.workers, k, Deciding) && p.workers[k].span.next <= p.workers[k].span.end
    ensures Committed(AfterSplit(p, k, taken)) <= Committed(p)
  {
    hide Tally;
    if taken == 0 {
      OneIsNotReady(p, k, p.workers[k].(pc := GivingUp), AfterSplit(p, k, 0));
    } else {
      var pieces := Pieces(p.workers[k].span, taken + 1);
      var kept := p.workers[k].(span := p.workers[k].span.(end := pieces[0].start), pc := Top);
      TallyUpdate(p.workers, k, kept, Ready);
      TallyAppend(p.workers[k := kept], NewWorkers(pieces), Ready);
      NewAreNotReady(pieces);
    }
  }

  lemma WholeCommits(p: Part, k: nat, length: nat)
    requires k < |p.workers| && p.workers[k].pc.Unranged?
    ensures Committed(AfterTakeWhole(p, k, length)) <= Committed(p)
  {
    hide Tally;
    var p' := AfterTakeWhole(p, k, length);
    if p'.workers == p.workers[k := p.workers[k].(pc := Failing)] {
      OneIsNotReady(p, k, p.workers[k].(pc := Failing), p');
    } else {
      Single(p'.workers[0]);
      ReadyCounts(p.workers);
    }
  }

  lemma ThreadCommits(limits: Limits, entry: Entry, p: Part, a: Action)
    requires ThreadEnabled(p, a)
    ensures Committed(DoThread(limits, entry, p, true, a)) <= Committed(p)
  {
    hide Tally, Problem, Raised, Matches, Hashable;
    ReadyCounts(p.workers);
    if a.Whole? {
      Single(NewWorker(true, Span(0, entry.length, 0)));
    } else if a.Restart? {
      NoneWeigh([], Ready);
    }
  }

  lemma QuietCommits(limits: Limits, p: Part, a: Action)
    requires Quiet(a) && WorkerEnabled(p.workers, a)
    ensures Committed(DoQuiet(limits, p, true, a)) <= Committed(p)
  {
    hide Tally;
    OneIsNotReady(p, a.k, NextWorker(limits, p, true, a), DoQuiet(limits, p, true, a));
  }

  lemma BytesCommit(p: Part, k: nat, w': Worker, p': Part)
    requires k < |p.workers| && p'.workers == p.workers[k := w'] && w'.pc != Opening && Attempts(p') == Attempts(p)
    ensures Committed(p') <= Committed(p)
  {
    hide Tally;
    OneIsNotReady(p, k, w', p');
  }

  /** Under a stop, no action of a part commits it to another attempt. */
  lemma ActionCommits(limits: Limits, entry: Entry, l: Local, a: Action)
    requires ValidLimits(limits) && Enabled(l.part, a) && Shaped(entry.length, l.part) && l.shared.stopping
    ensures Committed(Do(limits, entry, l, a)) <= Committed(l.part)
  {
    hide Committed, AfterTakeWhole, AfterSplit, DoThread, DoQuiet, Arrived, Written;
    var p, p' := l.part, Do(limits, entry, l, a);
    if Quiet(a) {
      QuietCommits(limits, p, a);
    } else if a.TakeWhole? {
      WholeCommits(p, a.k, entry.length);
    } else if a.Split? {
      assert WorkerShaped(entry.length, p.workers[a.k]);
      SplitCommits(p, a.k, Taken(limits, p.workers[a.k].span, p.ranges, p.honored, l.shared.free));
    } else if WorkerEnabled(p.workers, a) {
      BytesCommit(p, a.k, p'.workers[a.k], p');
    } else {
      ThreadCommits(limits, entry, p, a);
    }
  }

  lemma StopLasts(limits: Limits, entries: seq<Entry>, s: State, e: Event)
    requires Formed(limits, entries, s) && Can(s, e) && s.shared.stopping
    ensures After(limits, entries, s, e).shared.stopping
    ensures |After(limits, entries, s, e).parts| == |s.parts|
  {
    hide Do;
  }

  lemma EventCommits(limits: Limits, entries: seq<Entry>, s: State, e: Event, i: nat)
    requires Formed(limits, entries, s) && Can(s, e) && s.shared.stopping && i < |s.parts|
    ensures |After(limits, entries, s, e).parts| == |s.parts|
    ensures Committed(After(limits, entries, s, e).parts[i]) <= Committed(s.parts[i])
  {
    hide Tally, Do, DoShared;
    if e.Moves? {
      ActionCommits(limits, entries[e.i], Local(s.parts[e.i], s.shared), e.action);
    }
  }

  lemma {:induction false} RunCommits(limits: Limits, entries: seq<Entry>, s: State, events: seq<Event>, t: State,
                  i: nat)
    requires Reaches(limits, entries, s, events, t) && s.shared.stopping && i < |s.parts|
    ensures |t.parts| == |s.parts| && Committed(t.parts[i]) <= Committed(s.parts[i])
    decreases |events|
  {
    hide Committed, Formed, Can, After;
    if events != [] {
      StopLasts(limits, entries, s, events[0]);
      EventCommits(limits, entries, s, events[0], i);
      RunCommits(limits, entries, After(limits, entries, s, events[0]), events[1..], t, i);
    }
  }

  /** Once the transfer stopped, whatever its threads do, a part opens no more attempts than it had ranges
      past their look at the stop; a part with none opens no other. */
  lemma NoneStartsAfterStop(limits: Limits, entries: seq<Entry>, s: State, events: seq<Event>, t: State, i: nat)
    requires Reaches(limits, entries, s, events, t) && s.shared.stopping && i < |s.parts|
    ensures |t.parts| == |s.parts| && Attempts(t.parts[i]) <= Attempts(s.parts[i]) + Tally(s.parts[i].workers, Ready)
  {
    RunCommits(limits, entries, s, events, t, i);
    ReadyCounts(t.parts[i].workers);
  }

  /** From the state in which a part has failed on, no part begins another attempt. */
  lemma FailureEndsAll(limits: Limits, entries: seq<Entry>, spare: nat, events: seq<Event>, s: State,
                       more: seq<Event>, t: State, failed: nat, i: nat)
    requires Reachable(limits, entries, spare, events, s) && Reaches(limits, entries, s, more, t)
    requires failed < |s.parts| && s.parts[failed].thread == Ended(Error) && i < |s.parts|
    ensures |t.parts| == |s.parts| && Attempts(t.parts[i]) <= Attempts(s.parts[i]) + Tally(s.parts[i].workers, Ready)
  {
    FailureIsHeeded(limits, entries, spare, events, s);
    NoneStartsAfterStop(limits, entries, s, more, t, i);
  }

  // ----- What a stopped range and a stopped part come to -----

  /** Still before its next look at the stop, or past it because of the stop. */
  ghost predicate Stops(from: Pc, pc: Pc) {
    (from == Top || from == Failing || from == Waiting) && (pc == from || pc == Leaving(Stopped) || pc == Done(Stopped))
  }

  ghost predicate RangeStops(p: Part, k: nat, from: Pc) {
    k < |p.workers| && Stops(from, p.workers[k].pc)
  }

  /** About to look at the stop before it starts over, or past that look because of the stop. */
  ghost predicate PartStops(p: Part) {
    p.thread == Pausing || p.thread == Raising(Stopped) || p.thread == Ended(Stopped)
  }

  lemma QuietStops(limits: Limits, p: Part, a: Action, from: Pc)
    requires Quiet(a) && WorkerEnabled(p.workers, a) && Stops(from, p.workers[a.k].pc)
    ensures Stops(from, NextWorker(limits, p, true, a).pc)
  {
  }

  lemma TakeWholeStops(limits: Limits, entry: Entry, p: Part, j: nat, k: nat, from: Pc)
    requires Inv(limits, entry, p) && WorkerEnabled(p.workers, TakeWhole(j)) && RangeStops(p, k, from)
    ensures RangeStops(AfterTakeWhole(p, j, entry.length), k, from)
  {
    AloneIsWhole(limits, entry, p, j);
    hide Inv;
  }

  lemma SplitStops(p: Part, j: nat, taken: nat, k: nat, from: Pc)
    requires At(p.workers, j, Deciding) && p.workers[j].span.next <= p.workers[j].span.end && RangeStops(p, k, from)
    ensures RangeStops(AfterSplit(p, j, taken), k, from)
  {
  }

  lemma WorkerStops(limits: Limits, entry: Entry, l: Local, a: Action, k: nat, from: Pc)
    requires Inv(limits, entry, l.part) && WorkerEnabled(l.part.workers, a) && l.shared.stopping
    requires RangeStops(l.part, k, from)
    ensures RangeStops(Do(limits, entry, l, a), k, from)
  {
    if Quiet(a) {
      hide Inv, Do;
      QuietRangeStops(limits, entry, l, a, k, from);
    } else if a.TakeWhole? {
      TakeWholeStops(limits, entry, l.part, a.k, k, from);
      hide Inv, AfterTakeWhole;
    } else if a.Split? {
      assert WorkerShaped(entry.length, l.part.workers[a.k]);
      hide Inv, AfterSplit;
      SplitStops(l.part, a.k,
                 Taken(limits, l.part.workers[a.k].span, l.part.ranges, l.part.honored, l.shared.free), k, from);
    } else {
      hide Inv, Do;
      BytesStop(limits, entry, l, a, k, from);
    }
  }

  lemma QuietRangeStops(limits: Limits, entry: Entry, l: Local, a: Action, k: nat, from: Pc)
    requires ValidLimits(limits) && Shaped(entry.length, l.part) && l.shared.stopping && RangeStops(l.part, k, from)
    requires Quiet(a) && WorkerEnabled(l.part.workers, a)
    ensures RangeStops(Do(limits, entry, l, a), k, from)
  {
    hide NextWorker;
    if a.k == k {
      QuietStops(limits, l.part, a, from);
    }
  }

  lemma BytesStop(limits: Limits, entry: Entry, l: Local, a: Action, k: nat, from: Pc)
    requires ValidLimits(limits) && Shaped(entry.length, l.part) && RangeStops(l.part, k, from)
    requires WorkerEnabled(l.part.workers, a) && (a.Block? || a.Pwrite? || a.PwriteFails?)
    ensures RangeStops(Do(limits, entry, l, a), k, from)
  {
    hide Arrived, Written;
  }

  lemma ThreadStops(limits: Limits, entry: Entry, p: Part, a: Action, k: nat, from: Pc)
    requires Inv(limits, entry, p) && ThreadEnabled(p, a)
    ensures RangeStops(p, k, from) ==> RangeStops(DoThread(limits, entry, p, true, a), k, from)
    ensures PartStops(p) ==> PartStops(DoThread(limits, entry, p, true, a))
  {
    hide Tally, Tiled, Accounted, Hashed, Stored, Carried, Ranged, Filled, Checked, Matches, Raised;
  }

  lemma ActionStops(limits: Limits, entry: Entry, l: Local, a: Action, k: nat, from: Pc)
    requires Inv(limits, entry, l.part) && Enabled(l.part, a) && l.shared.stopping
    ensures RangeStops(l.part, k, from) ==> RangeStops(Do(limits, entry, l, a), k, from)
    ensures PartStops(l.part) ==> PartStops(Do(limits, entry, l, a))
  {
    hide Inv, Do, RangeStops;
    if WorkerEnabled(l.part.workers, a) {
      if RangeStops(l.part, k, from) {
        WorkerStops(limits, entry, l, a, k, from);
      }
      WorkerFetches(limits, entry, l, a);
    } else {
      ThreadStops(limits, entry, l.part, a, k, from);
      DoIsThread(limits, entry, l, a);
    }
  }

  lemma EventStops(limits: Limits, entries: seq<Entry>, s: State, e: Event, i: nat, k: nat, from: Pc)
    requires WellFormed(limits, entries, s) && Can(s, e) && s.shared.stopping && i < |s.parts|
    ensures |After(limits, entries, s, e).parts| == |s.parts|
    ensures RangeStops(s.parts[i], k, from) ==> RangeStops(After(limits, entries, s, e).parts[i], k, from)
    ensures PartStops(s.parts[i]) ==> PartStops(After(limits, entries, s, e).parts[i])
  {
    hide Tally, Do, DoShared, Inv;
    if e.Moves? && e.i == i {
      ActionStops(limits, entries[i], Local(s.parts[i], s.shared), e.action, k, from);
    }
  }

  lemma {:induction false} RunStops(limits: Limits, entries: seq<Entry>, s: State, events: seq<Event>, t: State,
                  spare: nat, i: nat, k: nat, from: Pc)
    requires WellFormed(limits, entries, s) && Honest(s, spare) && Reaches(limits, entries, s, events, t)
    requires s.shared.stopping && i < |s.parts|
    ensures |t.parts| == |s.parts|
    ensures RangeStops(s.parts[i], k, from) ==> RangeStops(t.parts[i], k, from)
    ensures PartStops(s.parts[i]) ==> PartStops(t.parts[i])
    decreases |events|
  {
    hide WellFormed, Honest, After, Can, RangeStops, PartStops;
    if events != [] {
      EventHonest(limits, entries, s, events[0], spare);
      EventStops(limits, entries, s, events[0], i, k, from);
      StopLasts(limits, entries, s, events[0]);
      RunStops(limits, entries, After(limits, entries, s, events[0]), events[1..], t, spare, i, k, from);
    }
  }

  /** Once the transfer stopped, a range that has yet to look at the stop, or failed, or waits to retry can only end
      stopped, and so can a part that waits to start over. */
  lemma StoppedCanOnlyStop(limits: Limits, entries: seq<Entry>, spare: nat, events: seq<Event>, s: State,
                           more: seq<Event>, t: State, i: nat, k: nat)
    requires Reachable(limits, entries, spare, events, s) && Reaches(limits, entries, s, more, t)
    requires s.shared.stopping && i < |s.parts|
    ensures |t.parts| == |s.parts|
    ensures k < |s.parts[i].workers| ==>
      var pc := s.parts[i].workers[k].pc;
      pc == Top || pc == Failing || pc == Waiting ==> RangeStops(t.parts[i], k, pc)
    ensures s.parts[i].thread == Pausing ==> PartStops(t.parts[i])
  {
    ReachableHonest(limits, entries, spare, events, s);
    RunStops(limits, entries, s, more, t, spare, i, k,
             if k < |s.parts[i].workers| then s.parts[i].workers[k].pc else Top);
  }
}
