/**
 Retrying ends for the whole part: a part that does not match is fetched again only so often, so over all its
 passes it opens a bounded number of attempts.
 */
module TotalBound {
  import opened Ranges
  import opened Transfer
  import opened TransferInvariant
  import opened TransferSteps
  import opened PartRuns
  import opened RetryBound
  import opened Products

  /** The store answers every range as such. */
  ghost predicate Honours(a: Action) {
    a.Answer? ==> a.ranged
  }

  ghost predicate InPass(t: Thread) {
    t == Fetching || t.StopOthers? || t.Joining?
  }

  /** The passes that may follow a mismatch are not over. */
  ghost predicate MayPass(t: Thread) {
    Unstarted(t) || InPass(t) || t == Verifying || t == Pausing || t == Restarting
  }

  /** How many passes the attempts of `earlier` and `tries` together may belong to. */
  ghost function Passes(limits: Limits, p: Part): nat {
    if !MayPass(p.thread) then Patience(limits)
    else if InPass(p.thread) || p.thread == Verifying then p.mismatches + 1
    else p.mismatches
  }

  /** Earlier passes kept within the bound, this one does, and there is at most one more than mismatches. */
  ghost predicate Totalled(limits: Limits, length: nat, p: Part)
    requires ValidLimits(limits)
  {
    && (MayPass(p.thread) ==> p.mismatches < Patience(limits))
    && (InPass(p.thread) ==> Bounded(limits, length, p) && p.earlier <= AttemptBound(limits, length) * p.mismatches)
    && (!InPass(p.thread) ==> p.earlier + p.tries <= AttemptBound(limits, length) * Passes(limits, p))
  }

  /** A pass that ends adds at most the bound of one. */
  lemma OneMorePass(bound: nat, earlier: nat, tries: nat, mismatches: nat, patience: nat)
    requires earlier <= bound * mismatches && tries <= bound && mismatches < patience
    ensures earlier + tries <= bound * (mismatches + 1) <= bound * patience
  {
    assert bound * (mismatches + 1) == bound * mismatches + bound;
    MulMonotone(bound, mismatches + 1, patience);
  }

  lemma WorkerKeepsPass(limits: Limits, entry: Entry, l: Local, a: Action)
    requires Inv(limits, entry, l.part) && WorkerEnabled(l.part.workers, a)
    ensures var q := Do(limits, entry, l, a);
            InPass(l.part.thread) && q.thread == l.part.thread && q.mismatches == l.part.mismatches &&
                q.earlier == l.part.earlier
  {
    WorkerFetches(limits, entry, l, a);
    WorkerLeavesThread(limits, entry, l, a);
    hide Inv, Do;
  }

  lemma WorkerTotal(limits: Limits, entry: Entry, l: Local, a: Action)
    requires ValidLimits(limits) && Inv(limits, entry, l.part) && Totalled(limits, entry.length, l.part)
    requires WorkerEnabled(l.part.workers, a) && Honours(a)
    ensures Totalled(limits, entry.length, Do(limits, entry, l, a))
  {
    hide Inv, Do, Spent, AttemptBound, Tally;
    WorkerKeepsPass(limits, entry, l, a);
    hide Bounded;
    assert PassAction(a) by {
      NoneUnranged(limits, entry, l.part, a);
    }
    ActionBounded(limits, entry, l, a);
  }

  lemma NoneUnranged(limits: Limits, entry: Entry, p: Part, a: Action)
    requires ValidLimits(limits) && Bounded(limits, entry.length, p) && WorkerEnabled(p.workers, a) && Honours(a)
    ensures PassAction(a)
  {
    hide Spent, AttemptBound, Tally;
  }

  /** Joining ends the pass, whose attempts were within the bound. */
  lemma JoinTotal(limits: Limits, entry: Entry, p: Part, stopping: bool)
    requires ValidLimits(limits) && Inv(limits, entry, p) && Totalled(limits, entry.length, p) && ThreadEnabled(p, Join)
    ensures Totalled(limits, entry.length, DoThread(limits, entry, p, stopping, Join))
  {
    hide Inv, Bounded, AttemptBound, Problem, Raised;
    SpentWithin(limits, entry, p);
    OneMorePass(AttemptBound(limits, entry.length), p.earlier, p.tries, p.mismatches, Patience(limits));
  }

  lemma WholeTotal(limits: Limits, entry: Entry, p: Part, stopping: bool)
    requires ValidLimits(limits) && Inv(limits, entry, p) && Totalled(limits, entry.length, p) && p.thread == Beginning
    ensures Totalled(limits, entry.length, DoThread(limits, entry, p, stopping, Whole))
  {
    hide Inv, Bounded, AttemptBound;
    WholeBounded(limits, entry, p, stopping);
  }

  lemma VerifyTotal(limits: Limits, entry: Entry, p: Part)
    requires ValidLimits(limits) && Totalled(limits, entry.length, p) && p.thread == Verifying
    ensures Totalled(limits, entry.length, AfterVerify(limits, entry, p))
  {
    hide Bounded, AttemptBound, Matches, Hashable;
    MulMonotone(AttemptBound(limits, entry.length), p.mismatches + 1, Patience(limits));
  }

  lemma OtherTotal(limits: Limits, entry: Entry, p: Part, stopping: bool, a: Action)
    requires ValidLimits(limits) && Totalled(limits, entry.length, p)
    requires ThreadEnabled(p, a) && !a.Join? && !a.Whole? && !a.Verify?
    ensures Totalled(limits, entry.length, DoThread(limits, entry, p, stopping, a))
  {
    hide AttemptBound, Bounded, Patience, AfterVerify;
    if InPass(p.thread) {
      SameBounded(limits, entry.length, p, DoThread(limits, entry, p, stopping, a));
    } else if MayPass(p.thread) {
      MulMonotone(AttemptBound(limits, entry.length), p.mismatches, Patience(limits));
    }
  }

  lemma ActionTotal(limits: Limits, entry: Entry, l: Local, a: Action)
    requires ValidLimits(limits) && Inv(limits, entry, l.part) && Totalled(limits, entry.length, l.part) &&
             Enabled(l.part, a) && Honours(a)
    ensures Totalled(limits, entry.length, Do(limits, entry, l, a))
  {
    hide Inv, Totalled, AfterVerify, DoQuiet, AfterTakeWhole, AfterBlock, AfterPwrite, AfterPwriteFails, AfterSplit;
    var p, stopping := l.part, l.shared.stopping;
    if WorkerEnabled(p.workers, a) {
      WorkerTotal(limits, entry, l, a);
    } else if a.Join? {
      JoinTotal(limits, entry, p, stopping);
    } else if a.Whole? {
      WholeTotal(limits, entry, p, stopping);
    } else if a.Verify? {
      VerifyTotal(limits, entry, p);
    } else {
      OtherTotal(limits, entry, p, stopping, a);
    }
  }

  lemma {:induction false} RunTotal(limits: Limits, entry: Entry, p: Part, steps: seq<Step>, q: Part)
    requires ValidLimits(limits) && Inv(limits, entry, p) && Totalled(limits, entry.length, p) &&
             Reaches(limits, entry, p, steps, q)
    requires forall i :: 0 <= i < |steps| ==> Honours(steps[i].action)
    ensures Inv(limits, entry, q) && Totalled(limits, entry.length, q)
    decreases |steps|
  {
    hide Totalled, Inv;
    if steps != [] {
      var l := Local(p, steps[0].shared);
      ActionKeeps(limits, entry, l, steps[0].action);
      ActionTotal(limits, entry, l, steps[0].action);
      RunTotal(limits, entry, Do(limits, entry, l, steps[0].action), steps[1..], q);
    }
  }

  /** Over all its passes, under any stops, failures, splits, mismatches and arrival orders, a part fetched
      from a store that answers ranges as such opens at most as many attempts as the failures in a row that
      give up times the bound of one pass. */
  lemma AllAttemptsBounded(limits: Limits, entry: Entry, steps: seq<Step>, p: Part)
    requires Reachable(limits, entry, steps, p) && forall i :: 0 <= i < |steps| ==> Honours(steps[i].action)
    ensures p.earlier + p.tries <= AttemptBound(limits, entry.length) * Patience(limits)
  {
    hide Inv, Bounded, AttemptBound, Reaches;
    FreshInv(limits, entry);
    RunTotal(limits, entry, Fresh(entry), steps, p);
    if InPass(p.thread) {
      SpentWithin(limits, entry, p);
      OneMorePass(AttemptBound(limits, entry.length), p.earlier, p.tries, p.mismatches, Patience(limits));
    } else {
      PassesFew(limits, entry.length, p);
    }
  }

  lemma PassesFew(limits: Limits, length: nat, p: Part)
    requires ValidLimits(limits) && Totalled(limits, length, p) && !InPass(p.thread)
    ensures p.earlier + p.tries <= AttemptBound(limits, length) * Patience(limits)
  {
    hide AttemptBound;
    MulMonotone(AttemptBound(limits, length), Passes(limits, p), Patience(limits));
  }
}
