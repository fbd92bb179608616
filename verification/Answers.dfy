/**
 Publication told from what it heard: the answers of its waits, in their order, decide what it waits for next and
 how it ends.
 */
module Answers {
  import opened Options
  import opened Publication

  /** A wait that ended, and with what. */
  datatype Heard = Heard(wait: Wait, answer: Answer)

  /** What was heard once an action of a wait may have ended with an answer. */
  ghost function Hearing(h: seq<Heard>, place: Place, answer: Answer): seq<Heard> {
    if place.Inside? && Fits(place.wait, answer) then h + [Heard(place.wait, answer)] else h
  }

  /** The waits of a run that ended with an answer. */
  ghost function HeardIn(events: seq<Event>): seq<Heard> {
    if events == [] then []
    else
      var before, e := events[..|events| - 1], events[|events| - 1];
      if e.Step? then Hearing(HeardIn(before), Run(before).place, e.answer) else HeardIn(before)
  }

  /** The job, as the first action of the step finds it. */
  ghost function JobIn(events: seq<Event>): Option<Job> {
    if events == [] then None
    else
      var earlier, e := JobIn(events[..|events| - 1]), events[|events| - 1];
      if earlier.Some? then earlier else if e.Step? then Some(e.job) else None
  }

  /** The budget had run out at some action. */
  ghost predicate Hurried(events: seq<Event>) {
    exists i :: 0 <= i < |events| && events[i].Step? && !events[i].time
  }

  // ----- What the answers say -----

  ghost function Last(h: seq<Heard>): Heard
    requires h != []
  {
    h[|h| - 1]
  }

  /** The status with which the manifest was saved. */
  ghost function Saved(h: seq<Heard>): Option<int> {
    if h == [] then None
    else if Last(h).wait == Manifest && Last(h).answer.Status? then Last(h).answer.status
    else Saved(h[..|h| - 1])
  }

  /** The last reading of the uploads. */
  ghost function LastRead(h: seq<Heard>): Answer {
    if h == [] then Read(0, 0)
    else if Last(h).answer.Read? then Last(h).answer
    else LastRead(h[..|h| - 1])
  }

  ghost predicate ReadingFailed(h: seq<Heard>) {
    exists i :: 0 <= i < |h| && h[i].wait == Reading && !h[i].answer.Read?
  }

  ghost predicate StillAnswers(h: seq<Heard>) {
    exists i :: 0 <= i < |h| && h[i].wait == Confirmation && (h[i].answer.Running? || h[i].answer.RemoteReadOnly?)
  }

  /** The manifest was saved, and the daemon read last, and still answering, has every upload. */
  ghost predicate AllUploaded(h: seq<Heard>) {
    Saved(h) == Some(0) && LastRead(h) == Read(0, 0) && !ReadingFailed(h) && StillAnswers(h)
  }

  /** The daemon ran, and its uploads were read. */
  ghost predicate Began(h: seq<Heard>) {
    && |h| >= 2 && h[0] == Heard(Daemon, Running)
    && h[1].wait == FirstReading && h[1].answer.Read?
  }

  /** What publication may wait for next; in a hurry it may leave out saving the manifest, and the readings. */
  ghost predicate Awaits(h: seq<Heard>, wait: Wait, hurried: bool) {
    match wait
    case Daemon => h == []
    case FirstReading => h == [Heard(Daemon, Running)]
    case Manifest => Began(h) && |h| == 2
    case Reading => Began(h) && (Last(h).wait == Manifest || Last(h).wait == Pause || (hurried && |h| == 2))
    case Pause => Began(h) && Last(h).wait == Reading && Last(h).answer.Read? && Last(h).answer.pending > 0
    case Confirmation =>
      && Began(h)
      && if hurried then Last(h).wait != Confirmation
         else Last(h).wait == Reading && (Last(h).answer.Read? ==> Last(h).answer.pending == 0)
  }

  ghost predicate Legal(h: seq<Heard>, hurried: bool) {
    forall i :: 0 <= i < |h| ==> Awaits(h[..i], h[i].wait, hurried) && Fits(h[i].wait, h[i].answer)
  }

  ghost predicate Able(job: Option<Job>) {
    job.Some? && job.value.succeeded && job.value.hasCommand && job.value.hasKey
  }

  /** Exactly what was heard when publication ends with an outcome. */
  ghost predicate Warrants(outcome: Outcome, job: Option<Job>, h: seq<Heard>) {
    match outcome
    case NotRun => job.Some? && !job.value.succeeded && h == []
    case Unavailable =>
      || (job.Some? && job.value.succeeded && !(job.value.hasCommand && job.value.hasKey) && h == [])
      || (Able(job) && (h == [Heard(Daemon, Fails)] || h == [Heard(Daemon, NotRunning)]))
      || (Able(job) && h == [Heard(Daemon, Running), Heard(FirstReading, Fails)])
    case ReadOnly => Able(job) && h == [Heard(Daemon, RemoteReadOnly)]
    case Published => Able(job) && Began(h) && Last(h).wait == Confirmation && AllUploaded(h)
    case Incomplete => Able(job) && Began(h) && Last(h).wait == Confirmation && !AllUploaded(h)
    case Cancelled => false
  }

  // ----- The step follows them -----

  ghost predicate SeenIs(seen: Seen, h: seq<Heard>) {
    && seen.manifest == Saved(h)
    && Read(seen.pending, seen.failed) == LastRead(h)
    && seen.unread == ReadingFailed(h)
    && seen.confirmed == StillAnswers(h)
  }

  ghost predicate Told(place: Place, job: Option<Job>, h: seq<Heard>, hurried: bool) {
    match place
    case Deciding => job == None && h == []
    case CheckPhase(next) => Able(job) && Begins(next, h, hurried)
    case SetPhase(next) => Able(job) && Begins(next, h, hurried)
    case Enter(wait) => Able(job) && Awaits(h, wait, hurried)
    case CheckWait(wait) => Able(job) && Awaits(h, wait, hurried)
    case Inside(wait) => Able(job) && Awaits(h, wait, hurried)
    case Leave(wait, answer) =>
      Able(job) && h != [] && Last(h) == Heard(wait, answer)
    case Choose => Able(job) && Began(h) && |h| == 2
    case Loop => Able(job) && Awaits(h, Reading, hurried)
    case Finish(outcome, _) => Warrants(outcome, job, h)
    case _ => true
  }

  ghost predicate Begins(phase: Phase, h: seq<Heard>, hurried: bool) {
    match phase
    case Starting => false
    case Asking => h == []
    case Saving => Began(h) && |h| == 2
    case AwaitingUploads => Awaits(h, Reading, hurried)
  }

  /** What publication has made use of: not of an answer it is still leaving with. */
  ghost function Used(place: Place, h: seq<Heard>): seq<Heard> {
    if place.Leave? && h != [] then h[..|h| - 1] else h
  }

  ghost predicate Explained(s: State, job: Option<Job>, h: seq<Heard>, hurried: bool) {
    && Legal(h, hurried)
    && (Publishing(s.place) ==> Told(s.place, job, h, hurried) && SeenIs(s.seen, Used(s.place, h)))
    && (s.outcome.Some? && s.outcome != Some(Cancelled) ==> Warrants(s.outcome.value, job, h) && SeenIs(s.seen, h))
  }

  lemma MoreHurry(s: State, job: Option<Job>, h: seq<Heard>, hurried: bool)
    requires Explained(s, job, h, hurried)
    ensures Explained(s, job, h, true)
  {
  }

  lemma LegalGrows(h: seq<Heard>, x: Heard, hurried: bool)
    requires Legal(h, hurried) && Awaits(h, x.wait, hurried) && Fits(x.wait, x.answer)
    ensures Legal(h + [x], hurried)
  {
    hide Awaits;
    var more := h + [x];
    forall i | 0 <= i < |more| ensures Awaits(more[..i], more[i].wait, hurried) && Fits(more[i].wait, more[i].answer) {
      assert more[..i] == if i < |h| then h[..i] else h;
    }
  }

  lemma OneMoreFailure(h: seq<Heard>, x: Heard)
    ensures ReadingFailed(h + [x]) <==> ReadingFailed(h) || (x.wait == Reading && !x.answer.Read?)
    ensures StillAnswers(h + [x]) <==>
      StillAnswers(h) || (x.wait == Confirmation && (x.answer.Running? || x.answer.RemoteReadOnly?))
  {
    var more := h + [x];
    assert more[|h|] == x;
    if i :| 0 <= i < |h| && h[i].wait == Reading && !h[i].answer.Read? {
      assert more[i] == h[i];
    }
    if i :| 0 <= i < |h| && h[i].wait == Confirmation && (h[i].answer.Running? || h[i].answer.RemoteReadOnly?) {
      assert more[i] == h[i];
    }
  }

  /** What one more answer adds. */
  lemma OneMoreHeard(h: seq<Heard>, x: Heard)
    ensures Last(h + [x]) == x && Used(Leave(x.wait, x.answer), h + [x]) == h
    ensures Saved(h + [x]) == if x.wait == Manifest && x.answer.Status? then x.answer.status else Saved(h)
    ensures LastRead(h + [x]) == if x.answer.Read? then x.answer else LastRead(h)
    ensures ReadingFailed(h + [x]) <==> ReadingFailed(h) || (x.wait == Reading && !x.answer.Read?)
    ensures StillAnswers(h + [x]) <==>
      StillAnswers(h) || (x.wait == Confirmation && (x.answer.Running? || x.answer.RemoteReadOnly?))
    ensures Began(h) ==> Began(h + [x])
  {
    hide ReadingFailed, StillAnswers;
    OneMoreFailure(h, x);
    assert (h + [x])[..|h|] == h;
  }

  /** Nothing is decided before publication's last action, and its problems so far are readings that failed. */
  lemma Undecided(s: State)
    requires Inv(s) && Publishing(s.place)
    ensures s.place != CheckAfter ==> s.outcome == None
    ensures s.place.Leave? ==> Rank(s.phase) == WaitRank(s.place.wait)
    ensures Listed(s.seen) && (s.place.Leave? && s.seen.unread ==> s.place.wait == Confirmation)
  {
    hide Fair, Decided, Remembered, EndFits, WaitsFit, Kept;
  }

  lemma InsideExplained(s: State, answer: Answer, job: Option<Job>, h: seq<Heard>, hurried: bool)
    requires Inv(s) && Explained(s, job, h, hurried) && s.place.Inside? && Fits(s.place.wait, answer)
    ensures Explained(s.(place := Leave(s.place.wait, answer)), job, h + [Heard(s.place.wait, answer)], hurried)
  {
    var x := Heard(s.place.wait, answer);
    Undecided(s);
    LegalGrows(h, x, hurried);
    OneMoreHeard(h, x);
    hide Inv, Legal, SeenIs, Awaits, Fits, Warrants, Used;
  }

  /** An answer used leads to a wait that may follow it, or ends publication as it must. */
  lemma LeaveLeadsOn(seen: Seen, before: seq<Heard>, x: Heard, time: bool, job: Option<Job>, hurried: bool)
    requires SeenIs(seen, before) && Able(job) && Awaits(before, x.wait, hurried) && Fits(x.wait, x.answer)
    requires Listed(seen) && (!time ==> hurried)
    requires !StillAnswers(before)
    ensures var turn := Answered(seen, x.wait, x.answer, time);
      && SeenIs(turn.seen, before + [x])
      && (x.wait != Confirmation ==> Told(turn.place, job, before + [x], hurried) && !turn.place.Leave?)
  {
    OneMoreHeard(before, x);
    hide Problems, Saved, LastRead, ReadingFailed, StillAnswers;
    assert before == [] ==> before + [x] == [x];
    assert before == [Heard(Daemon, Running)] ==> before + [x] == [Heard(Daemon, Running), x];
  }

  lemma EndsAsItMust(seen: Seen, before: seq<Heard>, x: Heard, time: bool, job: Option<Job>)
    requires SeenIs(seen, before) && Able(job) && Began(before) && x.wait == Confirmation && Fits(x.wait, x.answer)
    requires Listed(seen) && !StillAnswers(before)
    ensures var turn := Answered(seen, x.wait, x.answer, time);
      turn.place.Finish? && Warrants(turn.place.outcome, job, before + [x])
  {
    OneMoreHeard(before, x);
    var turn := Answered(seen, x.wait, x.answer, time);
    ProblemsApply(turn.seen);
    hide Problems, Saved, LastRead, ReadingFailed, StillAnswers;
  }

  /** Only a confirmation, the last of the waits, finds the daemon still answering. */
  lemma NotYetConfirmed(h: seq<Heard>, hurried: bool, wait: Wait)
    requires Legal(h, hurried) && Awaits(h, wait, hurried)
    ensures !StillAnswers(h)
  {
    forall i | 0 <= i < |h| ensures h[i].wait != Confirmation {
      var next := if i + 1 < |h| then h[i + 1].wait else wait;
      assert i + 1 == |h| ==> h[..i + 1] == h;
      assert Awaits(h[..i + 1], next, hurried) && Last(h[..i + 1]) == h[i];
    }
  }

  lemma WasAwaited(h: seq<Heard>, hurried: bool)
    requires Legal(h, hurried) && h != []
    ensures var before, x := h[..|h| - 1], Last(h);
      h == before + [x] && Legal(before, hurried) && Awaits(before, x.wait, hurried) && Fits(x.wait, x.answer)
  {
    hide Awaits;
    var before := h[..|h| - 1];
    assert forall i :: 0 <= i < |before| ==> before[..i] == h[..i] && before[i] == h[i];
  }

  lemma LeavesFor(s: State, time: bool)
    requires s.place.Leave?
    ensures var t, turn := ActWait(s, time, s.place.answer), Answered(s.seen, s.place.wait, s.place.answer, time);
      t.place == turn.place && t.seen == turn.seen && t.outcome == s.outcome
  {
    hide Answered;
  }

  lemma ExplainedIf(t: State, job: Option<Job>, h: seq<Heard>, hurried: bool)
    requires Legal(h, hurried) && SeenIs(t.seen, h) && t.outcome == None && !t.place.Leave?
    requires Told(t.place, job, h, hurried)
    ensures Explained(t, job, h, hurried)
  {
    hide Legal, SeenIs, Told;
  }

  lemma LeavingWith(s: State, job: Option<Job>, h: seq<Heard>, hurried: bool)
    requires Inv(s) && Explained(s, job, h, hurried) && s.place.Leave?
    ensures h != [] && Legal(h, hurried) && SeenIs(s.seen, h[..|h| - 1]) && Able(job)
    ensures s.place == Leave(Last(h).wait, Last(h).answer) && Publishing(s.place)
  {
    hide Inv, Legal, SeenIs;
  }

  lemma TurnIsTold(seen: Seen, before: seq<Heard>, x: Heard, time: bool, job: Option<Job>, hurried: bool, phase: Phase)
    requires SeenIs(seen, before) && Able(job) && Legal(before, hurried)
    requires Awaits(before, x.wait, hurried) && Fits(x.wait, x.answer) && (!time ==> hurried)
    requires Listed(seen) && (seen.unread ==> x.wait == Confirmation) && Rank(phase) == WaitRank(x.wait)
    ensures var turn := Answered(seen, x.wait, x.answer, time);
      Told(turn.place, job, before + [x], hurried) && SeenIs(turn.seen, before + [x]) && !turn.place.Leave?
  {
    hide *;
    NotYetConfirmed(before, hurried, x.wait);
    LeaveLeadsOn(seen, before, x, time, job, hurried);
    AnswerLeadsOn(seen, x.wait, x.answer, time, phase);
    if x.wait == Confirmation {
      ConfirmedLast(before, hurried);
      EndsAsItMust(seen, before, x, time, job);
      FinishIsTold(Answered(seen, x.wait, x.answer, time).place, job, before + [x], hurried);
    }
  }

  lemma LeaveExplained(s: State, time: bool, job: Option<Job>, h: seq<Heard>, hurried: bool)
    requires Inv(s) && Explained(s, job, h, hurried) && s.place.Leave? && (!time ==> hurried)
    ensures Explained(ActWait(s, time, s.place.answer), job, h, hurried)
  {
    hide *;
    LeavingWith(s, job, h, hurried);
    WasAwaited(h, hurried);
    Undecided(s);
    LeavesFor(s, time);
    TurnIsTold(s.seen, h[..|h| - 1], Last(h), time, job, hurried, s.phase);
    ExplainedIf(ActWait(s, time, s.place.answer), job, h, hurried);
  }

  lemma FinishIsTold(place: Place, job: Option<Job>, h: seq<Heard>, hurried: bool)
    requires place.Finish? && Warrants(place.outcome, job, h)
    ensures Told(place, job, h, hurried)
  {
  }

  lemma ConfirmedLast(h: seq<Heard>, hurried: bool)
    requires Awaits(h, Confirmation, hurried)
    ensures Began(h)
  {
  }

  lemma WaitExplained(s: State, time: bool, answer: Answer, job: Option<Job>, h: seq<Heard>, hurried: bool)
    requires Inv(s) && Explained(s, job, h, hurried) && (s.place.Enter? || InWait(s.place)) && (!time ==> hurried)
    ensures Explained(ActWait(s, time, answer), job,
                      Hearing(h, s.place, answer), hurried)
  {
    if s.place.Leave? {
      LeaveExplained(s, time, job, h, hurried);
    } else if s.place.Inside? && Fits(s.place.wait, answer) {
      InsideExplained(s, answer, job, h, hurried);
    } else {
      hide Legal, SeenIs, Awaits, Answered, Fits, Justified, Decided, Remembered;
    }
  }

  lemma NotSavedYet(h: seq<Heard>)
    requires Began(h) && |h| == 2
    ensures Saved(h) == None
  {
    assert h[..1][..0] == [];
    assert Saved(h[..1]) == None;
  }

  lemma DecidingExplained(s: State, j: Job, time: bool, h: seq<Heard>, hurried: bool)
    requires Inv(s) && Explained(s, None, h, hurried) && s.place == Deciding
    ensures Explained(ActBetween(s, j, time), Some(j), h, hurried)
  {
    Undecided(s);
    hide Inv, Legal, SeenIs, AllUploaded, Awaits;
  }

  lemma BetweenExplained(s: State, j: Job, time: bool, job: Option<Job>, h: seq<Heard>, hurried: bool)
    requires Inv(s) && Explained(s, job, h, hurried) && Publishing(s.place) && !s.place.Enter? && !InWait(s.place)
    requires !time ==> hurried
    ensures Explained(ActBetween(s, j, time), if job.Some? then job else Some(j), h, hurried)
  {
    if s.place == Deciding {
      DecidingExplained(s, j, time, h, hurried);
    } else {
      Undecided(s);
      if s.place.Finish? || s.place == CheckAfter {
        EndExplained(s, j, time, job, h, hurried);
      } else {
        LeadExplained(s, j, time, job, h, hurried);
      }
      hide Inv, Explained, ActBetween;
    }
  }

  lemma EndExplained(s: State, j: Job, time: bool, job: Option<Job>, h: seq<Heard>, hurried: bool)
    requires Explained(s, job, h, hurried) && (s.place.Finish? || (s.place == CheckAfter && s.outcome.Some?))
    ensures Explained(ActBetween(s, j, time), job, h, hurried)
  {
    hide Legal, SeenIs, Awaits, Warrants;
  }

  /** Where an action between waits leads, unless to a cancellation. */
  ghost function LeadsTo(place: Place, time: bool): Place {
    match place
    case CheckPhase(next) => SetPhase(next)
    case SetPhase(next) => if next == Asking then Enter(Daemon) else if next == Saving then Choose else Loop
    case Choose => if time then Enter(Manifest) else CheckPhase(AwaitingUploads)
    case Loop => if time then Enter(Reading) else Enter(Confirmation)
    case _ => place
  }

  lemma ActsTowards(s: State, j: Job, time: bool)
    requires s.place.CheckPhase? || s.place.SetPhase? || s.place.Choose? || s.place.Loop?
    ensures var t := ActBetween(s, j, time);
      && (t.place == Caught || t.place == LeadsTo(s.place, time)) && t.outcome == s.outcome
      && t.seen == if s.place == Choose && !time then s.seen.(manifest := None) else s.seen
  {
  }

  lemma ToldLeads(place: Place, time: bool, job: Option<Job>, h: seq<Heard>, hurried: bool)
    requires Told(place, job, h, hurried) && (!time ==> hurried)
    requires place.CheckPhase? || place.SetPhase? || place.Choose? || place.Loop?
    ensures job.Some? && Told(LeadsTo(place, time), job, h, hurried)
  {
  }

  lemma CaughtExplained(t: State, job: Option<Job>, h: seq<Heard>, hurried: bool)
    requires t.place == Caught && t.outcome == None && Legal(h, hurried)
    ensures Explained(t, job, h, hurried)
  {
    hide Legal;
  }

  lemma WasExplained(s: State, job: Option<Job>, h: seq<Heard>, hurried: bool)
    requires Explained(s, job, h, hurried) && Publishing(s.place) && !s.place.Leave?
    ensures Legal(h, hurried) && Told(s.place, job, h, hurried) && SeenIs(s.seen, h)
  {
    hide Legal, Told, SeenIs;
  }

  lemma SkipsManifest(place: Place, seen: Seen, job: Option<Job>, h: seq<Heard>, hurried: bool)
    requires Told(place, job, h, hurried) && place == Choose && SeenIs(seen, h)
    ensures SeenIs(seen.(manifest := None), h)
  {
    NotSavedYet(h);
  }

  lemma LeadExplained(s: State, j: Job, time: bool, job: Option<Job>, h: seq<Heard>, hurried: bool)
    requires Explained(s, job, h, hurried) && s.outcome == None && (!time ==> hurried)
    requires s.place.CheckPhase? || s.place.SetPhase? || s.place.Choose? || s.place.Loop?
    ensures job.Some? && Explained(ActBetween(s, j, time), job, h, hurried)
  {
    hide ActBetween, Explained, Told, Legal, SeenIs;
    WasExplained(s, job, h, hurried);
    ActsTowards(s, j, time);
    ToldLeads(s.place, time, job, h, hurried);
    var t := ActBetween(s, j, time);
    if s.place == Choose {
      SkipsManifest(s.place, s.seen, job, h, hurried);
    }
    if t.place == Caught {
      CaughtExplained(t, job, h, hurried);
    } else {
      ExplainedIf(t, job, h, hurried);
    }
  }

  lemma StepExplained(s: State, e: Event, job: Option<Job>, h: seq<Heard>, hurried: bool)
    requires Inv(s) && Explained(s, job, h, hurried) && e.Step? && (!e.time ==> hurried)
    ensures Explained(After(s, e), if job.Some? then job else Some(e.job),
                      Hearing(h, s.place, e.answer), hurried)
  {
    hide Explained, ActWait, ActBetween;
    if s.place.Enter? || InWait(s.place) {
      WaitExplained(s, e.time, e.answer, job, h, hurried);
      WaitsAreAble(s, job, h, hurried);
    } else if Publishing(s.place) {
      BetweenExplained(s, e.job, e.time, job, h, hurried);
    } else {
      AfterExplained(s, e.job, job, h, hurried);
    }
  }

  lemma WaitsAreAble(s: State, job: Option<Job>, h: seq<Heard>, hurried: bool)
    requires Explained(s, job, h, hurried) && (s.place.Enter? || InWait(s.place))
    ensures job.Some?
  {
    hide Legal, SeenIs, Awaits;
  }

  lemma AfterExplained(s: State, j: Job, job: Option<Job>, h: seq<Heard>, hurried: bool)
    requires Inv(s) && Explained(s, job, h, hurried) && !Publishing(s.place)
    ensures Explained(ActAfter(s), if job.Some? then job else Some(j), h, hurried)
  {
    hide Legal, SeenIs, Awaits, Decided, Remembered, Justified;
  }

  lemma OthersExplained(s: State, e: Event, job: Option<Job>, h: seq<Heard>, hurried: bool)
    requires Inv(s) && Explained(s, job, h, hurried) && !e.Step?
    ensures Explained(After(s, e), job, h, hurried)
  {
    hide Legal, SeenIs, Awaits, Warrants, Decided, Remembered, Justified;
  }

  lemma OneMoreEvent(events: seq<Event>, e: Event)
    ensures var s, h := Run(events), HeardIn(events);
      && Run(events + [e]) == After(s, e)
      && HeardIn(events + [e]) == (if e.Step? then Hearing(h, s.place, e.answer) else h)
      && JobIn(events + [e]) ==
           (if JobIn(events).Some? then JobIn(events) else if e.Step? then Some(e.job) else None)
      && (Hurried(events + [e]) <==> Hurried(events) || (e.Step? && !e.time))
  {
    var more := events + [e];
    assert more[..|events|] == events && more[|events|] == e;
    assert forall i :: 0 <= i < |events| ==> more[i] == events[i];
  }

  lemma {:induction false} RunExplained(events: seq<Event>)
    ensures Explained(Run(events), JobIn(events), HeardIn(events), Hurried(events))
  {
    if events == [] {
      NothingHeard();
    } else {
      var before, e := events[..|events| - 1], events[|events| - 1];
      assert events == before + [e];
      RunExplained(before);
      RunInv(before);
      OneMoreEvent(before, e);
      hide *;
      if Hurried(before + [e]) {
        MoreHurry(Run(before), JobIn(before), HeardIn(before), Hurried(before));
      }
      if e.Step? {
        StepExplained(Run(before), e, JobIn(before), HeardIn(before), Hurried(before + [e]));
      } else {
        OthersExplained(Run(before), e, JobIn(before), HeardIn(before), Hurried(before + [e]));
      }
    }
  }

  lemma NothingHeard()
    ensures Explained(Run([]), JobIn([]), HeardIn([]), Hurried([]))
  {
  }

  // ----- Over every run -----

  /** What publication waits for is what must follow what it heard; only in a hurry does it leave waits out. */
  lemma WaitsInOrder(events: seq<Event>)
    ensures Legal(HeardIn(events), Hurried(events))
  {
    RunExplained(events);
  }

  /** An outcome other than a cancellation is recorded exactly where the job and the answers warrant it. */
  lemma EndsAsHeard(events: seq<Event>, outcome: Outcome)
    requires Run(events).records == 1 && Run(events).outcome != Some(Cancelled)
    ensures Run(events).outcome == Some(outcome) <==> Warrants(outcome, JobIn(events), HeardIn(events))
  {
    RunExplained(events);
    RecordedOnce(events);
    hide Run, HeardIn, JobIn, AllUploaded, Hurried, Legal, SeenIs;
  }

  /** Why a publication that began is not complete, from what it heard. */
  ghost predicate Explains(h: seq<Heard>, reason: Reason) {
    match reason
    case Unread => ReadingFailed(h)
    case Unconfirmed => !StillAnswers(h)
    case NotSaved(status) => status == Saved(h) && status != Some(0)
    case StillPending(count) => LastRead(h).Read? && count == LastRead(h).pending && count > 0
    case FailedUploads(count) => LastRead(h).Read? && count == LastRead(h).failed && count > 0
    case _ => false
  }

  /** The reasons of an incomplete publication are exactly those that the answers give. */
  lemma ReasonsAreHeard(events: seq<Event>, reason: Reason)
    requires Run(events).outcome == Some(Incomplete)
    ensures reason in Run(events).reasons <==> Explains(HeardIn(events), reason)
  {
    RunExplained(events);
    PublishedMeansComplete(events);
    hide Run, HeardIn, JobIn, Warrants, Hurried, Legal, Saved, ReadingFailed, StillAnswers;
  }

  ghost function Turn(reason: Reason): nat {
    match reason
    case Unread => 0
    case Unconfirmed => 1
    case NotSaved(_) => 2
    case StillPending(_) => 3
    case FailedUploads(_) => 4
    case _ => 5
  }

  /** Each reason stands once, in its turn. */
  lemma ReasonsInTurn(events: seq<Event>)
    requires Run(events).outcome == Some(Incomplete)
    ensures var reasons := Run(events).reasons;
      forall i, j :: 0 <= i < j < |reasons| ==> Turn(reasons[i]) < Turn(reasons[j])
  {
    RunInv(events);
    ProblemsInTurn(Run(events).seen);
    hide Run, Problems, Turn, Decided, Remembered, EndFits, Kept, WaitsFit, PhaseFits;
  }

  lemma ProblemsInTurn(seen: Seen)
    requires Listed(seen)
    ensures forall i, j :: 0 <= i < j < |Problems(seen)| ==> Turn(Problems(seen)[i]) < Turn(Problems(seen)[j])
  {
  }

  /** Publication waits for uploads: one that is incomplete because some were pending ran out of time, or a reading
      failed; and one whose manifest has no status ran out of time, or the command that saves it did. */
  lemma WaitsForUploads(events: seq<Event>)
    requires Run(events).outcome == Some(Incomplete) && !Hurried(events)
    ensures forall count :: StillPending(count) in Run(events).reasons ==> Unread in Run(events).reasons
    ensures NotSaved(None) in Run(events).reasons ==> Heard(Manifest, Status(None)) in HeardIn(events)
  {
    RunExplained(events);
    var h := HeardIn(events);
    forall reason ensures reason in Run(events).reasons <==> Explains(h, reason) {
      ReasonsAreHeard(events, reason);
    }
    hide Run, HeardIn, JobIn, Hurried;
    CalmEnd(h);
  }

  lemma CalmEnd(h: seq<Heard>)
    requires Legal(h, false) && Began(h) && Last(h).wait == Confirmation
    ensures ReadingFailed(h) || (LastRead(h).Read? && LastRead(h).pending == 0)
    ensures Saved(h) == None ==> Heard(Manifest, Status(None)) in h
  {
    LastReadingEnds(h);
    WasAwaited(h, false);
    hide Legal, ReadingFailed, LastRead;
    if Saved(h) == None {
      assert |h| >= 3;
      ManifestIsAsked(h, |h|);
      assert h[..|h|] == h;
    }
  }

  lemma LastReadingEnds(h: seq<Heard>)
    requires Legal(h, false) && h != [] && Last(h).wait == Confirmation
    ensures |h| >= 3
    ensures ReadingFailed(h) || (LastRead(h).Read? && LastRead(h).pending == 0)
  {
    WasAwaited(h, false);
    var n, before := |h| - 1, h[..|h| - 1];
    hide Legal, Saved;
    assert h[n - 1] == Last(before) && Last(before).wait == Reading && LastRead(h) == LastRead(before);
    if !Last(before).answer.Read? {
      assert h[n - 1].wait == Reading && !h[n - 1].answer.Read?;
    }
  }

  /** Without hurry the third wait is the manifest's, and no other one is. */
  lemma {:induction false} ManifestIsAsked(h: seq<Heard>, n: nat)
    requires Legal(h, false) && 3 <= n <= |h|
    ensures h[2].wait == Manifest && h[2].answer.Status? && Saved(h[..n]) == h[2].answer.status
  {
    assert Awaits(h[..n - 1], h[n - 1].wait, false) && Fits(h[n - 1].wait, h[n - 1].answer);
    assert h[..n][..n - 1] == h[..n - 1];
    if n > 3 {
      ManifestIsAsked(h, n - 1);
    } else {
      assert Saved(h[..2]) == Saved(h[..1]) == Saved([]);
    }
  }

  ghost predicate Spends(place: Place) {
    place == Enter(Manifest) || place == Enter(Reading) || place == Enter(Pause)
  }

  /** Saving the manifest, a reading and a pause each begin only with an action that found time left. */
  lemma BeginsOnlyInTime(events: seq<Event>, e: Event)
    requires !Spends(Run(events).place) && Spends(After(Run(events), e).place)
    ensures e.Step? && e.time
  {
    var s := Run(events);
    hide Run, ActWait, ActBetween, ActAfter, Handled, Broken;
    if e.Signalled? {
      HandlingSpends(s, e.signal);
    } else if e.Breaks? {
      BreakingSpends(s);
    } else {
      if s.place.Enter? || InWait(s.place) {
        WaitSpends(s, e.time, e.answer);
      } else if Publishing(s.place) {
        BetweenSpends(s, e.job, e.time);
      } else {
        AfterSpends(s);
      }
    }
  }

  lemma HandlingSpends(s: State, signal: Signal)
    requires !Spends(s.place)
    ensures !Spends(Handled(s, signal).place)
  {
    var number := Some(Number(signal));
    RaisingSpends(s.(signal := number, first := Some(First(s.place, s.phase)), interruptsWait := false));
    if s.signal.Some? {
      RaisingSpends(s.(interruptsWait := false));
    }
    hide Raise;
  }

  lemma BreakingSpends(s: State)
    requires !Spends(s.place)
    ensures !Spends(Broken(s).place)
  {
  }

  lemma AnswerSpends(seen: Seen, wait: Wait, answer: Answer, time: bool)
    requires Spends(Answered(seen, wait, answer, time).place)
    ensures time
  {
    hide Problems;
  }

  lemma WaitSpends(s: State, time: bool, answer: Answer)
    requires (s.place.Enter? || InWait(s.place)) && !Spends(s.place) && Spends(ActWait(s, time, answer).place)
    ensures time
  {
    hide Answered;
    if s.place.Leave? {
      AnswerSpends(s.seen, s.place.wait, s.place.answer, time);
    }
  }

  lemma BetweenSpends(s: State, job: Job, time: bool)
    requires !Spends(s.place) && Spends(ActBetween(s, job, time).place)
    ensures time
  {
    if s.place.CheckPhase? || s.place.SetPhase? || s.place.Choose? || s.place.Loop? {
      ActsTowards(s, job, time);
      hide ActBetween;
    } else {
      if s.signal.Some? {
        RaisingSpends(s);
      }
      hide Early, Raise;
    }
  }

  lemma RaisingSpends(s: State)
    requires s.signal.Some?
    ensures !Spends(Raise(s).place)
  {
    hide Publishing;
  }

  lemma AfterSpends(s: State)
    requires !Publishing(s.place)
    ensures !Spends(ActAfter(s).place)
  {
    assert s.place != Enter(Manifest) && s.place != Enter(Reading) && s.place != Enter(Pause);
    hide Publishing;
  }
}
