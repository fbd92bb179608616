/**
 The publication step as a state machine whose events are its own actions, signals that arrive between any
 two of them, and exceptions. What is recorded and how the step exits depend on the first handled signal alone.
 */
module Publication {
  import opened Options

  datatype Outcome = Published | Incomplete | ReadOnly | NotRun | Cancelled | Unavailable

  /** What the step knows of its job: whether its work succeeded, and whether it has a kache command and a manifest
      key. */
  datatype Job = Job(succeeded: bool, hasCommand: bool, hasKey: bool)

  datatype Phase = Starting | Asking | Saving | AwaitingUploads

  /** What publication waits for, each wait interruptible by a signal. */
  datatype Wait = Daemon | FirstReading | Manifest | Reading | Pause | Confirmation

  /** What a wait ends with, other than a signal; a command that ran out of time has no status. */
  datatype Answer =
    | Fails
    | NotRunning
    | RemoteReadOnly
    | Running
    | Read(pending: nat, failed: nat)
    | Status(status: Option<int>)
    | Slept

  /** Why an outcome is not a plain publication. */
  datatype Reason =
    | NothingToPublish(outcome: Outcome)
    | Unread
    | Unconfirmed
    | NotSaved(status: Option<int>)
    | StillPending(count: nat)
    | FailedUploads(count: nat)
    | Received(number: int, phase: Phase)

  /** Where the step stands between two of its actions. */
  datatype Place =
    | Deciding                     // what the job's status and settings say
    | CheckPhase(next: Phase)      // a phase is about to begin, and the termination to be checked
    | SetPhase(next: Phase)        // it was checked, and the phase is about to be named
    | Enter(wait: Wait)
    | CheckWait(wait: Wait)        // the wait is interruptible, and the termination about to be checked
    | Inside(wait: Wait)
    | Leave(wait: Wait, answer: Answer)
    | Choose                       // before the manifest is saved: whether there is time for it
    | Loop                         // whether there is time for another reading
    | Finish(outcome: Outcome, reasons: seq<Reason>)
    | CheckAfter                   // publication ended, and the termination is about to be checked
    | Caught                       // a cancellation was raised, and is about to be recorded
    | Recording
    | CheckLast                    // the record is written, and the termination about to be checked
    | IgnoreInterrupt
    | IgnoreTerminate
    | CheckMain
    | Exited(status: int)

  datatype Signal = Interrupt | Terminate

  function Number(s: Signal): int {
    if s == Interrupt then 2 else 15
  }

  /** Where and in which phase the first signal was handled. */
  datatype First = First(place: Place, phase: Phase)

  /** What publication learned: the status of saving the manifest, the uploads of the last reading, and the
      problems listed so far. `unread` and `confirmed` observe whether a later reading failed and whether the
      daemon still answered at the end. */
  datatype Seen = Seen(
    manifest: Option<int>,
    pending: nat,
    failed: nat,
    problems: seq<Reason>,
    unread: bool,
    confirmed: bool)

  datatype State = State(
    place: Place,
    phase: Phase,
    signal: Option<int>,
    interruptsWait: bool,
    raised: Option<int>,
    ignoresInterrupt: bool,
    ignoresTerminate: bool,
    broke: bool,
    outcome: Option<Outcome>,
    reasons: seq<Reason>,
    seen: Seen,
    records: nat,
    first: Option<First>)

  const START := State(
    Deciding, Starting, None, false, None, false, false, false, None, [], Seen(None, 0, 0, [], false, false), 0, None)

  // ----- The handler -----

  /** The termination of the step, as its handler and its waits update it. */
  class Termination {
    var signal: Option<int>
    var interruptsWait: bool

    constructor ()
      ensures signal == None && !interruptsWait
    {
      signal, interruptsWait := None, false;
    }

    /** The first number stays, and is what a running wait raises; then no wait is interruptible. */
    method Handle(number: int) returns (raised: Option<int>)
      modifies this
      ensures signal == (if old(signal) == None then Some(number) else old(signal))
      ensures raised == (if old(interruptsWait) then signal else None) && !interruptsWait
    {
      raised := None;
      if signal == None {
        signal := Some(number);
      }
      if interruptsWait {
        interruptsWait := false;
        raised := signal;
      }
    }

    /** What is raised is the kept signal, or nothing. */
    method Check() returns (raised: Option<int>)
      ensures raised == signal
    {
      raised := signal;
    }
  }

  // ----- The step -----

  ghost predicate InWait(p: Place) {
    p.CheckWait? || p.Inside? || p.Leave?
  }

  /** Publication itself, whose cancellation is caught and recorded. */
  ghost predicate Publishing(p: Place) {
    || p.Deciding? || p.CheckPhase? || p.SetPhase? || p.Enter? || InWait(p)
    || p.Choose? || p.Loop? || p.Finish? || p.CheckAfter?
  }

  /** A cancellation leaves publication for its record, and anything after it for the step's end. */
  ghost function Raise(s: State): (t: State)
    requires s.signal.Some?
    ensures t.signal == s.signal && t.first == s.first
  {
    if Publishing(s.place) then s.(place := Caught, interruptsWait := false)
    else if s.place == CheckLast then s.(place := IgnoreInterrupt, raised := s.signal)
    else s.(place := Exited(128 + s.signal.value))
  }

  ghost function CheckThen(s: State, next: Place): (t: State)
    ensures t.signal == s.signal && t.first == s.first
  {
    if s.signal.Some? then Raise(s) else s.(place := next)
  }

  /** A signal is handled, unless it is ignored or the step exited. */
  ghost function Handled(s: State, signal: Signal): State {
    if s.place.Exited? || (if signal == Interrupt then s.ignoresInterrupt else s.ignoresTerminate) then s
    else
      var r := if s.signal.Some? then s else s.(signal := Some(Number(signal)), first := Some(First(s.place, s.phase)));
      if r.interruptsWait then Raise(r.(interruptsWait := false)) else r
  }

  ghost predicate Fits(wait: Wait, answer: Answer) {
    match wait
    case Daemon | Confirmation => answer.Fails? || answer.NotRunning? || answer.RemoteReadOnly? || answer.Running?
    case FirstReading | Reading => answer.Fails? || answer.Read?
    case Manifest => answer.Status?
    case Pause => answer.Slept?
  }

  /** Everything the job's cache needs is with the remote, as far as its daemon says. */
  ghost predicate Complete(seen: Seen) {
    seen.manifest == Some(0) && seen.pending == 0 && seen.failed == 0 && !seen.unread && seen.confirmed
  }

  /** The problems listed, and those that the end of the wait adds, each in its turn. */
  ghost function Problems(seen: Seen): seq<Reason> {
    seen.problems
    + (if seen.confirmed then [] else [Unconfirmed])
    + (if seen.manifest == Some(0) then [] else [NotSaved(seen.manifest)])
    + (if seen.pending == 0 then [] else [StillPending(seen.pending)])
    + (if seen.failed == 0 then [] else [FailedUploads(seen.failed)])
  }

  datatype Turn = Turn(place: Place, seen: Seen)

  /** What publication makes of a wait's answer; `time` says whether the budget has any left. */
  ghost function Answered(seen: Seen, wait: Wait, answer: Answer, time: bool): Turn {
    match wait
    case Daemon =>
      if answer.RemoteReadOnly? then Turn(Finish(ReadOnly, [NothingToPublish(ReadOnly)]), seen)
      else if answer.Running? then Turn(Enter(FirstReading), seen)
      else Turn(Finish(Unavailable, [NothingToPublish(Unavailable)]), seen)
    case FirstReading =>
      if answer.Read? then Turn(CheckPhase(Saving), seen.(pending := answer.pending, failed := answer.failed))
      else Turn(Finish(Unavailable, [NothingToPublish(Unavailable)]), seen)
    case Manifest => Turn(CheckPhase(AwaitingUploads),
        seen.(manifest := if answer.Status? then answer.status else None))
    case Reading =>
      if !answer.Read? then Turn(Enter(Confirmation), seen.(problems := seen.problems + [Unread], unread := true))
      else Turn(if answer.pending == 0 || !time then Enter(Confirmation) else Enter(Pause),
                seen.(pending := answer.pending, failed := answer.failed))
    case Pause => Turn(Loop, seen)
    case Confirmation =>
      var last := seen.(confirmed := answer.Running? || answer.RemoteReadOnly?);
      var problems := Problems(last);
      Turn(if problems != [] then Finish(Incomplete, problems) else Finish(Published, []), last)
  }

  /** The outcome of a job that does not get to ask the daemon. */
  ghost function Early(job: Job): Option<Outcome> {
    if !job.succeeded then Some(NotRun) else if !job.hasCommand || !job.hasKey then Some(Unavailable) else None
  }

  /** An action of publication between its waits; `time` says whether the budget has any left. */
  ghost function ActBetween(s: State, job: Job, time: bool): (t: State)
    ensures t.signal == s.signal && t.first == s.first
  {
    match s.place
    case Deciding =>
      s.(place := if Early(job).Some? then Finish(Early(job).value, [NothingToPublish(Early(job).value)])
                  else CheckPhase(Asking))
    case CheckPhase(next) => CheckThen(s, SetPhase(next))
    case SetPhase(next) =>
      s.(phase := next, place := if next == Asking then Enter(Daemon) else if next == Saving then Choose else Loop)
    case Choose =>
      if time then s.(place := Enter(Manifest))
      else s.(place := CheckPhase(AwaitingUploads), seen := s.seen.(manifest := None))
    case Loop => s.(place := if time then Enter(Reading) else Enter(Confirmation))
    case Finish(outcome, reasons) => s.(outcome := Some(outcome), reasons := s.reasons + reasons, place := CheckAfter)
    case CheckAfter => CheckThen(s, Recording)
    case _ => s
  }

  /** An action of a wait, which ends with `answer`. */
  ghost function ActWait(s: State, time: bool, answer: Answer): (t: State)
    ensures t.signal == s.signal && t.first == s.first
  {
    match s.place
    case Enter(wait) => s.(place := CheckWait(wait), interruptsWait := true)
    case CheckWait(wait) => CheckThen(s, Inside(wait))
    case Inside(wait) => if Fits(wait, answer) then s.(place := Leave(wait, answer)) else s
    case Leave(wait, a) =>
      var turn := Answered(s.seen, wait, a, time);
      s.(place := turn.place, seen := turn.seen, interruptsWait := false)
    case _ => s
  }

  /** An action after publication: the record, and the step's exit. */
  ghost function ActAfter(s: State): (t: State)
    ensures t.signal == s.signal && t.first == s.first
  {
    match s.place
    case Caught =>
      var number := if s.signal.Some? then s.signal.value else 0;
      s.(outcome := Some(Cancelled), reasons := s.reasons + [Received(number, s.phase)], place := Recording)
    case Recording => s.(records := s.records + 1, place := CheckLast)
    case CheckLast => CheckThen(s, IgnoreInterrupt)
    case IgnoreInterrupt => s.(ignoresInterrupt := true, place := IgnoreTerminate)
    case IgnoreTerminate => s.(ignoresTerminate := true, place := CheckMain)
    case CheckMain =>
      if s.broke then s.(place := Exited(1))
      else if s.raised.Some? then s.(place := Exited(128 + s.raised.value))
      else CheckThen(s, Exited(0))
    case _ => s
  }

  ghost function Act(s: State, job: Job, time: bool, answer: Answer): (t: State)
    ensures t.signal == s.signal && t.first == s.first
  {
    if s.place.Enter? || InWait(s.place) then ActWait(s, time, answer)
    else if Publishing(s.place) then ActBetween(s, job, time)
    else ActAfter(s)
  }

  /** Any other exception leaves publication, or its record, unrecorded, and ends the step. */
  ghost function Broken(s: State): State {
    if Publishing(s.place) || s.place == Recording then
      s.(place := IgnoreInterrupt, broke := true, interruptsWait := false)
    else s
  }

  datatype Event = Step(job: Job, time: bool, answer: Answer) | Signalled(signal: Signal) | Breaks

  ghost function After(s: State, e: Event): State {
    match e
    case Step(job, time, answer) => Act(s, job, time, answer)
    case Signalled(signal) => Handled(s, signal)
    case Breaks => Broken(s)
  }

  ghost function Run(events: seq<Event>): State {
    if events == [] then START else After(Run(events[..|events| - 1]), events[|events| - 1])
  }

  // ----- What every placement of signals keeps -----

  ghost predicate Recorded(p: Place) {
    p.CheckLast? || p.IgnoreInterrupt? || p.IgnoreTerminate? || p.CheckMain? || p.Exited?
  }

  ghost function Rank(phase: Phase): nat {
    match phase case Starting => 0 case Asking => 1 case Saving => 2 case AwaitingUploads => 3
  }

  ghost function WaitRank(wait: Wait): nat {
    match wait case Daemon | FirstReading => 1 case Manifest => 2 case Reading | Pause | Confirmation => 3
  }

  /** Only a wait is interruptible, and it stays so until its first signal. */
  ghost predicate WaitsFit(place: Place, interruptsWait: bool, signal: Option<int>) {
    && (interruptsWait ==> InWait(place))
    && (InWait(place) && signal == None ==> interruptsWait)
  }

  /** The phase is the one the place belongs to, and the next one to be named follows it. */
  ghost predicate PhaseFits(place: Place, phase: Phase) {
    && ((place.CheckPhase? || place.SetPhase?) ==> Rank(place.next) == Rank(phase) + 1)
    && (place == Deciding ==> phase == Starting)
    && (place == Choose ==> phase == Saving)
    && (place == Loop ==> phase == AwaitingUploads)
    && ((place.Enter? || InWait(place)) ==> Rank(phase) == WaitRank(place.wait))
  }

  /** The record is written once, and each signal is ignored from its own action on. */
  ghost predicate EndFits(s: State) {
    && s.records == (if Recorded(s.place) && !s.broke then 1 else 0)
    && (s.broke ==> Recorded(s.place) && s.place != CheckLast && s.raised == None)
    && (s.ignoresInterrupt <==> s.place == IgnoreTerminate || s.place == CheckMain || s.place.Exited?)
    && (s.ignoresTerminate <==> s.place == CheckMain || s.place.Exited?)
  }

  /** The phase the record names for a signal: the one it was handled in, unless the next phase had been
      checked but not named yet. */
  ghost function NamedPhase(first: First): Phase {
    if first.place.SetPhase? then first.place.next else first.phase
  }

  /** The first signal is kept, and reaches the exit. */
  ghost predicate Kept(s: State) {
    && (s.first.Some? <==> s.signal.Some?)
    && (s.raised.Some? ==> s.raised == s.signal && Recorded(s.place) && s.place != CheckLast)
    && (s.place == Caught ==> s.signal.Some?)
    && (s.place.Exited? ==> s.place.status == ExitStatus(s.broke, s.signal))
  }

  ghost function ExitStatus(broke: bool, signal: Option<int>): int {
    if broke then 1 else if signal.Some? then 128 + signal.value else 0
  }

  /** The first signal's phase is still the current one, or the one about to be named. */
  ghost predicate Remembered(s: State) {
    s.first.Some? && (Publishing(s.place) || s.place == Caught) ==>
      && Publishing(s.first.value.place)
      && NamedPhase(s.first.value) == if s.place.SetPhase? then s.place.next else s.phase
  }

  ghost predicate NamesLast(reasons: seq<Reason>, signal: Option<int>, phase: Phase) {
    reasons != [] && signal.Some? && reasons[|reasons| - 1] == Received(signal.value, phase)
  }

  /** The outcome is cancelled exactly when the first signal reached publication, and then its last reason
      names that signal and a phase. */
  ghost predicate Decided(s: State) {
    if Publishing(s.place) || s.place == Caught then
      s.outcome != Some(Cancelled) && (s.place == CheckAfter ==> s.outcome.Some?)
    else !s.broke ==>
      && s.outcome.Some?
      && (s.outcome == Some(Cancelled) <==> s.first.Some? && Publishing(s.first.value.place))
      && (s.outcome == Some(Cancelled) ==> NamesLast(s.reasons, s.signal, NamedPhase(s.first.value)))
  }

  /** Of the readings that failed the first is listed, and none follows it. */
  ghost predicate Listed(seen: Seen) {
    seen.problems == if seen.unread then [Unread] else []
  }

  ghost predicate PastReadings(place: Place) {
    ((place.Enter? || InWait(place)) && place.wait == Confirmation) || place.Finish? || place.CheckAfter?
  }

  /** Nothing is finished before its reasons are known, and what is finished has the reasons it must. */
  ghost predicate Justified(place: Place, phase: Phase, outcome: Option<Outcome>, reasons: seq<Reason>, seen: Seen) {
    && Listed(seen)
    && (seen.unread && Publishing(place) ==> PastReadings(place))
    && (place.Finish? ==> place.outcome != Cancelled && Fair(place.outcome, place.reasons, phase, seen))
    && (outcome == None ==> reasons == [])
    && (outcome.Some? ==> (!Publishing(place) || place == CheckAfter) && Fair(outcome.value, reasons, phase, seen))
  }

  ghost predicate Fair(outcome: Outcome, reasons: seq<Reason>, phase: Phase, seen: Seen) {
    && (outcome == Published ==> reasons == [] == Problems(seen) && phase == AwaitingUploads)
    && (outcome == Incomplete ==> reasons == Problems(seen) != [] && phase == AwaitingUploads)
    && (outcome == ReadOnly ==> phase == Asking)
  }

  ghost predicate Inv(s: State) {
    && WaitsFit(s.place, s.interruptsWait, s.signal)
    && PhaseFits(s.place, s.phase)
    && EndFits(s)
    && Kept(s)
    && Remembered(s)
    && Decided(s)
    && Justified(s.place, s.phase, s.outcome, s.reasons, s.seen)
  }

  /** An answered wait leads on within its phase, and ends publication only with an outcome it saw. */
  lemma AnswerLeadsOn(seen: Seen, wait: Wait, answer: Answer, time: bool, phase: Phase)
    requires Rank(phase) == WaitRank(wait) && Listed(seen) && (seen.unread ==> wait == Confirmation)
    ensures var turn := Answered(seen, wait, answer, time);
            && (turn.place.Enter? || turn.place.CheckPhase? || turn.place.Loop? || turn.place.Finish?)
            && PhaseFits(turn.place, phase)
            && Justified(turn.place, phase, None, [], turn.seen)
  {
    hide Problems;
  }

  lemma WaitKeeps(s: State, time: bool, answer: Answer)
    requires Inv(s) && (s.place.Enter? || InWait(s.place))
    ensures Inv(ActWait(s, time, answer))
  {
    if s.place.Leave? {
      LeaveKeeps(s, time, answer);
    } else {
      hide Problems, Fair, Fits;
    }
  }

  lemma LeaveKeeps(s: State, time: bool, answer: Answer)
    requires Inv(s) && s.place.Leave?
    ensures Inv(ActWait(s, time, answer))
  {
    hide Answered, Problems, Fair;
    AnswerLeadsOn(s.seen, s.place.wait, s.place.answer, time, s.phase);
  }

  lemma BetweenKeeps(s: State, job: Job, time: bool)
    requires Inv(s) && Publishing(s.place)
    ensures Inv(ActBetween(s, job, time))
  {
    hide Problems;
    if s.place.Finish? {
      FinishKeeps(s, job, time);
    } else if s.place == Deciding {
      DecidingKeeps(s, job, time);
    } else if s.place.CheckPhase? || s.place.CheckAfter? {
      CheckKeeps(s, job, time);
    }
  }

  lemma DecidingKeeps(s: State, job: Job, time: bool)
    requires Inv(s) && s.place == Deciding
    ensures Inv(ActBetween(s, job, time))
  {
    hide Problems;
  }

  lemma FinishKeeps(s: State, job: Job, time: bool)
    requires Inv(s) && s.place.Finish?
    ensures Inv(ActBetween(s, job, time))
  {
    hide Problems;
    assert [] + s.place.reasons == s.place.reasons;
  }

  lemma CheckKeeps(s: State, job: Job, time: bool)
    requires Inv(s) && (s.place.CheckPhase? || s.place.CheckAfter?)
    ensures Inv(ActBetween(s, job, time))
  {
    hide Problems, Fair;
  }

  lemma AfterKeeps(s: State)
    requires Inv(s) && !Publishing(s.place)
    ensures Inv(ActAfter(s))
  {
    hide Problems, Fair;
    if s.place == Caught {
      CaughtKeeps(s);
    }
  }

  lemma CaughtKeeps(s: State)
    requires Inv(s) && s.place == Caught
    ensures Inv(ActAfter(s))
  {
    hide Problems;
  }

  lemma StepKeeps(s: State, job: Job, time: bool, answer: Answer)
    requires Inv(s)
    ensures Inv(Act(s, job, time, answer))
  {
    hide Inv, ActWait, ActBetween, ActAfter;
    if s.place.Enter? || InWait(s.place) {
      WaitKeeps(s, time, answer);
    } else if Publishing(s.place) {
      BetweenKeeps(s, job, time);
    } else {
      AfterKeeps(s);
    }
  }

  lemma HandledKeeps(s: State, signal: Signal)
    requires Inv(s)
    ensures Inv(Handled(s, signal))
  {
    hide Problems;
  }

  lemma BrokenKeeps(s: State)
    requires Inv(s)
    ensures Inv(Broken(s))
  {
    hide Problems;
  }

  lemma {:induction false} RunInv(events: seq<Event>)
    ensures Inv(Run(events))
  {
    if events != [] {
      var before, e := events[..|events| - 1], events[|events| - 1];
      RunInv(before);
      match e
      case Step(job, time, answer) =>
        StepKeeps(Run(before), job, time, answer);
      case Signalled(signal) =>
        HandledKeeps(Run(before), signal);
      case Breaks =>
        BrokenKeeps(Run(before));
    }
  }

  // ----- Over every run -----

  ghost predicate Delivered(s: State, signal: Signal) {
    !s.place.Exited? && !(if signal == Interrupt then s.ignoresInterrupt else s.ignoresTerminate)
  }

  /** A signal that the step handled, and the events before it. */
  datatype Handling = Handling(before: seq<Event>, signal: Signal)

  /** The first signal that the step handled. */
  ghost function FirstHandled(events: seq<Event>): Option<Handling> {
    if events == [] then None
    else
      var before, e := events[..|events| - 1], events[|events| - 1];
      var earlier := FirstHandled(before);
      if earlier.Some? then earlier
      else if e.Signalled? && Delivered(Run(before), e.signal) then Some(Handling(before, e.signal))
      else None
  }

  lemma FirstIsKept(s: State, e: Event)
    requires Inv(s)
    ensures var t := After(s, e);
            if s.signal == None && e.Signalled? && Delivered(s, e.signal) then
              t.signal == Some(Number(e.signal)) && t.first == Some(First(s.place, s.phase))
            else t.signal == s.signal && t.first == s.first
  {
    hide ActBetween, ActWait, ActAfter;
  }

  /** The step remembers the first signal it handled, whatever came after. */
  lemma {:induction false} FirstIsRemembered(events: seq<Event>)
    ensures var s, h := Run(events), FirstHandled(events);
            if h.Some? then
              && s.signal == Some(Number(h.value.signal))
              && s.first == Some(First(Run(h.value.before).place, Run(h.value.before).phase))
              && h.value.before + [Signalled(h.value.signal)] <= events
            else s.signal == None && s.first == None
  {
    hide Run, FirstHandled, After, Inv;
    if events == [] {
      NothingHandled();
    } else {
      var before, e := events[..|events| - 1], events[|events| - 1];
      assert events == before + [e];
      FirstIsRemembered(before);
      RunInv(before);
      FirstIsKept(Run(before), e);
      Extended(before, e);
    }
  }

  lemma NothingHandled()
    ensures Run([]) == START && FirstHandled([]) == None
  {
  }

  /** A cancellation is raised only at a check, or by the handler inside a wait; a signal handled anywhere
      else leaves the step where it stands. */
  lemma CancelledOnlyAtChecksAndInWaits(events: seq<Event>, e: Event)
    ensures var s, t := Run(events), After(Run(events), e);
            && (t.place == Caught && s.place != Caught ==>
                  if e.Signalled? then InWait(s.place) && s.interruptsWait
                  else s.signal.Some? && (s.place.CheckPhase? || s.place.CheckWait? || s.place.CheckAfter?))
            && (e.Signalled? && !InWait(s.place) ==> t.place == s.place)
            && (e.Signalled? && InWait(s.place) && s.signal == None ==> t.place == Caught)
  {
    RunInv(events);
    var s := Run(events);
    hide Run, Answered, Decided, Remembered;
    if e.Step? && s.place.Leave? {
      AnswerLeadsOn(s.seen, s.place.wait, s.place.answer, e.time, s.phase);
    }
  }

  /** However signals fall, no record is written twice, and a step that ended wrote one, with an outcome,
      exactly unless another exception broke it off. */
  lemma RecordedOnce(events: seq<Event>)
    ensures Run(events).records <= 1
    ensures Run(events).place.Exited? ==> (Run(events).records == 1 <==> !Run(events).broke)
    ensures Run(events).records == 1 ==> Run(events).outcome.Some?
  {
    RunInv(events);
  }

  /** The recorded outcome is cancelled exactly when the first signal was handled before publication's
      last check passed. */
  lemma CancelledExactly(events: seq<Event>)
    requires Run(events).records == 1
    ensures var h := FirstHandled(events);
            Run(events).outcome == Some(Cancelled) <==> h.Some? && Publishing(Run(h.value.before).place)
  {
    RunInv(events);
    FirstIsRemembered(events);
  }

  /** The step exits with 128 plus the first signal it handled, or with 0 if it handled none; with 1 if another
      exception broke it off, whatever it handled. */
  lemma ExitsWithFirstSignal(events: seq<Event>)
    requires Run(events).place.Exited?
    ensures var h := FirstHandled(events);
            Run(events).place.status ==
            if Run(events).broke then 1 else if h.Some? then 128 + Number(h.value.signal) else 0
  {
    RunInv(events);
    FirstIsRemembered(events);
  }

  /** From its exit on, nothing changes the step, however many signals follow. */
  lemma {:induction false} ExitIsFinal(events: seq<Event>, more: seq<Event>)
    requires Run(events).place.Exited?
    ensures Run(events + more) == Run(events)
    decreases |more|
  {
    hide After;
    if more == [] {
      assert events + more == events;
    } else {
      var init, last := more[..|more| - 1], more[|more| - 1];
      ExitIsFinal(events, init);
      assert (events + more)[..|events + more| - 1] == events + init;
      ExitedStays(Run(events), last);
    }
  }

  lemma ExitedStays(s: State, e: Event)
    requires s.place.Exited?
    ensures After(s, e) == s
  {
  }

  /** The problem that a reason states. */
  ghost predicate Applies(seen: Seen, reason: Reason) {
    match reason
    case Unread => seen.unread
    case Unconfirmed => !seen.confirmed
    case NotSaved(status) => status == seen.manifest && status != Some(0)
    case StillPending(count) => count == seen.pending && count > 0
    case FailedUploads(count) => count == seen.failed && count > 0
    case _ => false
  }

  lemma ProblemsApply(seen: Seen)
    requires Listed(seen)
    ensures forall x :: x in Problems(seen) <==> Applies(seen, x)
    ensures Problems(seen) == [] <==> Complete(seen)
  {
    forall x ensures x in Problems(seen) <==> Applies(seen, x) {
    }
    if Problems(seen) == [] {
      assert Unread !in Problems(seen) && Unconfirmed !in Problems(seen) && NotSaved(seen.manifest) !in Problems(seen);
      assert StillPending(seen.pending) !in Problems(seen) && FailedUploads(seen.failed) !in Problems(seen);
    } else {
      assert Applies(seen, Problems(seen)[0]);
    }
  }

  /** A publication is recorded as published, without a reason, only if its manifest was saved and its daemon,
      still answering, had last reported no upload pending or failed; as incomplete only if one of these
      failed, and then its reasons are exactly those that did. */
  lemma PublishedMeansComplete(events: seq<Event>)
    ensures var s := Run(events);
            && (s.outcome == Some(Published) ==> Complete(s.seen) && s.reasons == [])
            && (s.outcome == Some(Incomplete) ==>
                  !Complete(s.seen) && forall x :: x in s.reasons <==> Applies(s.seen, x))
  {
    RunInv(events);
    ProblemsApply(Run(events).seen);
    hide Problems, Applies;
  }

  /** The last reason of a cancelled record is the first signal with the phase that was current when it was
      handled, exactly unless that was between a phase's check and its naming. */
  lemma PhaseNamedExactly(events: seq<Event>)
    requires Run(events).records == 1 && Run(events).outcome == Some(Cancelled)
    ensures var h := FirstHandled(events);
            && h.Some?
            && (NamesLast(Run(events).reasons, Some(Number(h.value.signal)), Run(h.value.before).phase)
                <==> !Run(h.value.before).place.SetPhase?)
  {
    RunInv(events);
    FirstIsRemembered(events);
    RunInv(FirstHandled(events).value.before);
  }

  lemma Extended(events: seq<Event>, e: Event)
    ensures Run(events + [e]) == After(Run(events), e)
    ensures FirstHandled(events + [e]) ==
            if FirstHandled(events).Some? then FirstHandled(events)
            else if e.Signalled? && Delivered(Run(events), e.signal) then Some(Handling(events, e.signal))
            else None
  {
    assert (events + [e])[..|events|] == events;
  }

  lemma GapIsCaught(s: State, go: Event)
    requires s.place == SetPhase(Asking) && s.signal.Some? && go.Step?
    ensures var t := After(After(After(After(s, go), go), go), go);
            t.outcome == Some(Cancelled) && t.reasons == s.reasons + [Received(s.signal.value, Asking)]
  {
    assert After(s, go) == s.(phase := Asking, place := Enter(Daemon));
    assert After(After(s, go), go).place == CheckWait(Daemon);
  }

  lemma FourMore(events: seq<Event>, go: Event)
    requires FirstHandled(events).Some?
    ensures var more := events + [go] + [go] + [go] + [go];
            && Run(more) == After(After(After(After(Run(events), go), go), go), go)
            && FirstHandled(more) == FirstHandled(events)
  {
    hide *;
    Extended(events, go);
    Extended(events + [go], go);
    Extended(events + [go] + [go], go);
    Extended(events + [go] + [go] + [go], go);
  }

  /** In that one gap the record names a later phase than the one the signal was handled in. */
  lemma RacedPhaseIsMisnamed() returns (events: seq<Event>)
    ensures Run(events).outcome == Some(Cancelled) && Run(events).reasons == [Received(15, Asking)]
    ensures var h := FirstHandled(events); h.Some? && Run(h.value.before).phase == Starting
  {
    var go := Step(Job(true, true, true), true, Slept);
    NothingHandled();
    hide Run, FirstHandled;
    Extended([], go);
    assert [] + [go] == [go];
    Extended([go], go);
    var checked := [go] + [go];
    Extended(checked, Signalled(Terminate));
    var raced := checked + [Signalled(Terminate)];
    GapIsCaught(Run(raced), go);
    FourMore(raced, go);
    events := raced + [go] + [go] + [go] + [go];
  }
}
