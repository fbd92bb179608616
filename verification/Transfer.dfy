/**
 A download of parts as a state machine. Each action is one lock-protected block of a thread, one
 read of shared state, or one answer of the store, so a run of actions is one interleaving of the
 threads moving the parts. The store is the environment: which answer it gives, how many bytes a read
 returns, whether a write to the part's file fails and when an attempt was too slow are parameters of
 the actions.
 */
module Transfer {
  import opened Ranges

  /** How a range or a part ended: without an exception, because the transfer stopped, or otherwise. */
  datatype Outcome = Fine | Stopped | Error

  /** Where one range's thread stands between two actions. */
  datatype Pc =
    | Top                                   // about to look at the transfer's stop
    | Opening                               // about to count the part's bytes and open an attempt
    | Asking                                // a request for the bytes still wanted is out
    | Unranged(lengthFits: bool)            // the store answered with the whole part
    | Receiving                             // a body is being read
    | Writing(rest: seq<Byte>, size: nat)   // a block of `size` bytes is being written
    | Counting(size: nat)                   // a written block is about to count as held
    | Failing                               // an attempt failed in a way the next may not
    | Judging                               // about to count the failure
    | Deciding                              // about to split, wait or give up
    | GivingUp
    | Waiting
    | Leaving(outcome: Outcome)             // about to leave the part's live ranges
    | StoppingAll                           // a split-off range failed and is about to stop everything
    | Done(outcome: Outcome)

  /** A thread fetching one range: the part's first one, or one split off on a spare request. */
  datatype Worker = Worker(main: bool, span: Span, pc: Pc, before: nat, failures: nat)

  /** Where the thread of a part stands. */
  datatype Thread =
    | Queued
    | Beginning                    // about to take the part as one range
    | Fetching                     // its first range is being fetched
    | StopOthers(failure: Outcome) // its first range failed, and the others are about to stop
    | Joining(failure: Outcome)    // waiting for the ranges split off
    | Verifying
    | Pausing                      // the part did not match, and is fetched again after a wait
    | Restarting
    | Completing
    | Raising(outcome: Outcome)    // an exception leaves the part's move
    | GuardStop                    // a failure is about to stop the other parts
    | Ended(outcome: Outcome)      // the part's future holds its result
    | Cancelled

  /** A part's bytes since it last started: those hashed, its file, and three observations: the byte
      received for each place, how often the place was written, and how often it was given up on. */
  datatype Bytes = Bytes(digest: seq<Byte>, file: seq<Byte>, data: seq<Byte>, writes: seq<nat>, lost: seq<nat>)

  /** One part. `tries` counts the attempts of its current pass, `earlier` those of the passes before it,
      and `owed` the ended pieces whose request was not given back yet. */
  datatype Part = Part(
    thread: Thread,
    workers: seq<Worker>,
    bytes: Bytes,
    ranges: int,
    honored: bool,
    held: nat,
    mismatches: nat,
    tries: nat,
    owed: nat,
    earlier: nat)

  /** What the parts share: the stop, and the spare requests no range has taken. */
  datatype Shared = Shared(stopping: bool, free: nat)

  datatype Local = Local(part: Part, shared: Shared)

  /** One part's manifest entry, and the hash it was computed with. */
  datatype Entry = Entry(length: nat, sha256: string, hash: seq<Byte> -> string)

  datatype Action =
    | Look(k: nat)
    | Open(k: nat)
    | NothingLeft(k: nat)
    | Refuse(k: nat, retry: bool)
    | Answer(k: nat, ranged: bool, lengthFits: bool)
    | TakeWhole(k: nat)
    | Block(k: nat, block: seq<Byte>)
    | BodyEnds(k: nat)
    | BodyFails(k: nat, retry: bool)
    | Pwrite(k: nat, written: nat)
    | PwriteFails(k: nat)
    | Count(k: nat)
    | Notice(k: nat)
    | Judge(k: nat)
    | Split(k: nat)
    | NoSplit(k: nat)
    | Decide(k: nat)
    | Wake(k: nat)
    | Leave(k: nat)
    | StopAll(k: nat)
    | GiveBack
    | Start
    | Whole
    | Fetched
    | StopRanges
    | Join
    | Verify
    | Resume
    | Restart
    | Complete
    | Raise
    | Guard

  // ----- Bytes of a part -----

  ghost function Zeros(n: nat): seq<nat> {
    seq(n, _ => 0)
  }

  ghost function Blank(n: nat): seq<Byte> {
    seq(n, _ => 0)
  }

  ghost function NoBytes(length: nat): Bytes {
    Bytes([], [], Blank(length), Zeros(length), Zeros(length))
  }

  /** `bytes` at `offset`, replacing what was there. */
  ghost function Overlay(data: seq<Byte>, offset: nat, bytes: seq<Byte>): seq<Byte>
    requires offset + |bytes| <= |data|
  {
    data[..offset] + bytes + data[offset + |bytes|..]
  }

  /** A positional write: places between the file's end and `offset` read as zero. */
  function WriteAt(file: seq<Byte>, offset: nat, bytes: seq<Byte>): (written: seq<Byte>)
    ensures |written| == if |file| >= offset + |bytes| then |file| else offset + |bytes|
    ensures forall i :: 0 <= i < |written| ==>
      written[i] == if offset <= i < offset + |bytes| then bytes[i - offset] else if i < |file| then file[i] else 0
  {
    var length := if |file| >= offset + |bytes| then |file| else offset + |bytes|;
    seq(length, i requires 0 <= i < length =>
      if offset <= i < offset + |bytes| then bytes[i - offset] else if i < |file| then file[i] else 0)
  }

  /** One more at each place of `[from, to)`. */
  ghost function Bump(counts: seq<nat>, from: int, to: int): (bumped: seq<nat>)
    ensures |bumped| == |counts|
    ensures forall i :: 0 <= i < |counts| ==> bumped[i] == counts[i] + if from <= i < to then 1 else 0
  {
    seq(|counts|, i requires 0 <= i < |counts| => counts[i] + if from <= i < to then 1 else 0)
  }

  /** A block received at `offset`: the digest grows by it exactly if the digest ends there. */
  ghost function Arrived(b: Bytes, offset: nat, block: seq<Byte>): Bytes
    requires offset + |block| <= |b.data|
  {
    b.(digest := if offset == |b.digest| then b.digest + block else b.digest, data := Overlay(b.data, offset, block))
  }

  /** The bytes a part's whole digest covers: those hashed as they arrived, then the file's. */
  ghost function Hashable(digest: seq<Byte>, file: seq<Byte>, length: nat): seq<Byte> {
    if |digest| >= length || |file| <= |digest| then digest
    else if |file| < length then digest + file[|digest|..] else digest + file[|digest|..length]
  }

  /** Whether the part, whole, hashes to its manifest entry. */
  ghost predicate Matches(entry: Entry, b: Bytes) {
    var bytes := Hashable(b.digest, b.file, entry.length);
    |bytes| >= entry.length && entry.hash(bytes) == entry.sha256
  }

  // ----- Ranges of a part -----

  ghost function NewWorker(main: bool, span: Span): Worker {
    Worker(main, span, Top, 0, 0)
  }

  ghost function NewWorkers(pieces: seq<Span>): seq<Worker> {
    seq(|pieces|, i requires 0 <= i < |pieces| => NewWorker(false, pieces[i]))
  }

  /** The ranges after a split: the one cut, shortened to its first piece, and a new one for each other. */
  ghost function SplitUp(ws: seq<Worker>, k: nat, taken: nat): seq<Worker>
    requires k < |ws| && taken >= 1 && ws[k].span.next <= ws[k].span.end
  {
    var pieces := Pieces(ws[k].span, taken + 1);
    ws[k := ws[k].(span := ws[k].span.(end := pieces[0].start), pc := Top)] + NewWorkers(pieces)
  }

  /** How many pieces a split cuts off, each on a request taken for it. */
  ghost function Taken(limits: Limits, span: Span, ranges: int, honored: bool, free: nat): (taken: nat)
    requires ValidLimits(limits) && span.next <= span.end
  {
    var ways := WaysAllowed(limits, span.end - span.next, ranges);
    if ways < 2 || !honored then 0 else Min(ways - 1, free)
  }

  /** What joining the ranges split off finds: a failure, else a stop, else nothing. */
  ghost function Problem(workers: seq<Worker>): Outcome {
    if exists k :: 1 <= k < |workers| && workers[k].pc == Done(Error) then Error
    else if exists k :: 1 <= k < |workers| && workers[k].pc == Done(Stopped) then Stopped
    else Fine
  }

  /** What a part raises once its ranges ended, if anything. */
  ghost function Raised(failure: Outcome, problem: Outcome): Outcome {
    if failure == Fine then problem
    else if failure == Stopped && problem == Error then problem
    else failure
  }

  // ----- Which actions a part can take -----

  ghost predicate At(ws: seq<Worker>, k: nat, pc: Pc) {
    k < |ws| && ws[k].pc == pc
  }

  ghost predicate Wants(ws: seq<Worker>, k: nat) {
    At(ws, k, Asking) && ws[k].span.next < ws[k].span.end
  }

  /** The actions of a range's thread. */
  ghost predicate WorkerEnabled(ws: seq<Worker>, a: Action) {
    match a
    case Look(k) => At(ws, k, Top)
    case Open(k) => At(ws, k, Opening)
    case NothingLeft(k) => At(ws, k, Asking) && ws[k].span.next >= ws[k].span.end
    case Refuse(k, _) => Wants(ws, k)
    case Answer(k, _, _) => Wants(ws, k)
    case TakeWhole(k) => k < |ws| && ws[k].pc.Unranged?
    case Block(k, block) => At(ws, k, Receiving) && 0 < |block| <= ws[k].span.end - ws[k].span.next
    case BodyEnds(k) => At(ws, k, Receiving)
    case BodyFails(k, _) => At(ws, k, Receiving)
    case Pwrite(k, written) => k < |ws| && ws[k].pc.Writing? && 0 < written <= |ws[k].pc.rest|
    case PwriteFails(k) => k < |ws| && ws[k].pc.Writing?
    case Count(k) => k < |ws| && ws[k].pc.Counting?
    case Notice(k) => At(ws, k, Failing)
    case Judge(k) => At(ws, k, Judging)
    case Split(k) => At(ws, k, Deciding)
    case NoSplit(k) => At(ws, k, Deciding)
    case Decide(k) => At(ws, k, GivingUp)
    case Wake(k) => At(ws, k, Waiting)
    case Leave(k) => k < |ws| && ws[k].pc.Leaving?
    case StopAll(k) => At(ws, k, StoppingAll)
    case _ => false
  }

  /** The actions of the part's own thread, and of the spare requests' callback. */
  ghost predicate ThreadEnabled(p: Part, a: Action) {
    match a
    case GiveBack => p.owed > 0
    case Start => p.thread == Queued
    case Whole => p.thread == Beginning
    case Fetched => p.thread == Fetching && |p.workers| > 0 && p.workers[0].pc.Done?
    case StopRanges => p.thread.StopOthers?
    case Join => p.thread.Joining? && forall k :: 0 <= k < |p.workers| ==> p.workers[k].pc.Done?
    case Verify => p.thread == Verifying
    case Resume => p.thread == Pausing
    case Restart => p.thread == Restarting
    case Complete => p.thread == Completing
    case Raise => p.thread.Raising?
    case Guard => p.thread == GuardStop
    case _ => false
  }

  ghost predicate Enabled(p: Part, a: Action) {
    WorkerEnabled(p.workers, a) || ThreadEnabled(p, a)
  }

  /** What makes every action well defined: ranges lie in the part, and so does what is being written. */
  ghost predicate Shaped(length: nat, p: Part) {
    BytesShaped(length, p.bytes) && WorkersShaped(length, p.workers)
  }

  ghost predicate BytesShaped(length: nat, b: Bytes) {
    |b.data| == |b.writes| == |b.lost| == length
  }

  ghost predicate WorkersShaped(length: nat, ws: seq<Worker>) {
    forall k :: 0 <= k < |ws| ==> WorkerShaped(length, ws[k])
  }

  ghost predicate WorkerShaped(length: nat, w: Worker) {
    && w.span.start <= w.span.next <= w.span.end <= length
    && (w.pc.Writing? ==> 0 < |w.pc.rest| <= w.span.next - w.span.start)
  }

  // ----- What an action makes of its part -----

  /** The actions that move a range's thread on without touching bytes or ranges. */
  ghost predicate Quiet(a: Action) {
    a.Look? || a.Open? || a.NothingLeft? || a.Refuse? || a.Answer? || a.BodyEnds? || a.BodyFails? || a.Count? ||
    a.Notice? || a.Judge? || a.NoSplit? || a.Decide? || a.Wake? || a.Leave? || a.StopAll?
  }

  /** Where such an action takes its range's thread. */
  ghost function NextPc(limits: Limits, p: Part, stopping: bool, a: Action): Pc
    requires Quiet(a) && WorkerEnabled(p.workers, a)
  {
    var w := p.workers[a.k];
    match a
    case Look(_) => if stopping then Leaving(Stopped) else Opening
    case Open(_) => Asking
    case NothingLeft(_) => Leaving(Fine)
    case Refuse(_, retry) => if retry then Failing else Leaving(Error)
    case Answer(_, ranged, lengthFits) =>
      if !ranged then Unranged(lengthFits) else if lengthFits then Receiving else Failing
    case BodyEnds(_) => if w.span.next < w.span.end then Failing else Leaving(Fine)
    case BodyFails(_, retry) => if retry then Failing else Leaving(Error)
    case Count(_) => Receiving
    case Notice(_) => if stopping then Leaving(Stopped) else Judging
    case Judge(_) => Deciding
    case NoSplit(_) => GivingUp
    case Decide(_) => if w.failures >= limits.attempts then Leaving(Error) else Waiting
    case Wake(_) => if stopping then Leaving(Stopped) else Top
    case Leave(_) => if !w.main && w.pc.outcome == Error then StoppingAll else Done(w.pc.outcome)
    case StopAll(_) => Done(Error)
  }

  ghost function NextWorker(limits: Limits, p: Part, stopping: bool, a: Action): Worker
    requires Quiet(a) && WorkerEnabled(p.workers, a)
  {
    var w := p.workers[a.k];
    w.(pc := NextPc(limits, p, stopping, a),
       before := if a.Open? then p.held else w.before,
       failures := if !a.Judge? then w.failures else if p.held > w.before then 1 else w.failures + 1)
  }

  ghost function DoQuiet(limits: Limits, p: Part, stopping: bool, a: Action): Part
    requires Quiet(a) && WorkerEnabled(p.workers, a)
  {
    var w, w' := p.workers[a.k], NextWorker(limits, p, stopping, a);
    p.(workers := p.workers[a.k := w'],
       ranges := if a.Leave? then p.ranges - 1 else p.ranges,
       honored := if a.Answer? then a.ranged else p.honored,
       held := if a.Count? then p.held + w.pc.size else p.held,
       tries := if a.Open? then p.tries + 1 else p.tries,
       owed := if !w.main && w'.pc.Done? then p.owed + 1 else p.owed)
  }

  ghost function SetPc(ws: seq<Worker>, k: nat, pc: Pc): seq<Worker>
    requires k < |ws|
  {
    ws[k := ws[k].(pc := pc)]
  }

  /** The range counts a block received, and writes it next. */
  ghost function Took(w: Worker, block: seq<Byte>): Worker {
    w.(span := w.span.(next := w.span.next + |block|), pc := Writing(block, |block|))
  }

  ghost function AfterBlock(p: Part, k: nat, block: seq<Byte>): Part
    requires k < |p.workers| && p.workers[k].span.next + |block| <= |p.bytes.data|
  {
    var w := p.workers[k];
    p.(workers := p.workers[k := Took(w, block)], bytes := Arrived(p.bytes, w.span.next, block))
  }

  /** The first `written` bytes of what is left of a block reach the file. */
  ghost function Wrote(w: Worker, written: nat): Worker
    requires w.pc.Writing? && written <= |w.pc.rest|
  {
    w.(pc := if written == |w.pc.rest| then Counting(w.pc.size) else Writing(w.pc.rest[written..], w.pc.size))
  }

  ghost function Written(b: Bytes, w: Worker, written: nat): Bytes
    requires w.pc.Writing? && written <= |w.pc.rest| <= w.span.next
  {
    var offset := w.span.next - |w.pc.rest|;
    b.(file := WriteAt(b.file, offset, w.pc.rest[..written]), writes := Bump(b.writes, offset, offset + written))
  }

  ghost function AfterPwrite(p: Part, k: nat, written: nat): Part
    requires k < |p.workers| && p.workers[k].pc.Writing?
    requires written <= |p.workers[k].pc.rest| <= p.workers[k].span.next
  {
    var w := p.workers[k];
    p.(workers := p.workers[k := Wrote(w, written)], bytes := Written(p.bytes, w, written))
  }

  /** What is left of a block does not reach the file, though the range already counts it received. */
  ghost function AfterPwriteFails(p: Part, k: nat): Part
    requires k < |p.workers| && p.workers[k].pc.Writing?
  {
    var w := p.workers[k];
    p.(workers := SetPc(p.workers, k, Failing),
       bytes := p.bytes.(lost := Bump(p.bytes.lost, w.span.next - |w.pc.rest|, w.span.next)))
  }

  /** The whole part came where a range was asked for. If the range is the whole part, the part starts over
      with it alone; otherwise the attempt failed. */
  ghost function AfterTakeWhole(p: Part, k: nat, length: nat): Part
    requires k < |p.workers| && p.workers[k].pc.Unranged?
  {
    var w := p.workers[k];
    if p.ranges == 1 && w.span.start == 0 && w.span.end == length then
      p.(workers := [w.(span := w.span.(next := 0), pc := if w.pc.lengthFits then Receiving else Failing)],
         bytes := NoBytes(length), held := 0)
    else p.(workers := SetPc(p.workers, k, Failing))
  }

  ghost function AfterSplit(p: Part, k: nat, taken: nat): Part
    requires k < |p.workers| && p.workers[k].span.next <= p.workers[k].span.end
  {
    if taken == 0 then p.(workers := SetPc(p.workers, k, GivingUp))
    else p.(workers := SplitUp(p.workers, k, taken), ranges := p.ranges + taken)
  }

  /** The digest is completed from the file, and the part goes on, starts over or fails by what it hashes to. */
  ghost function AfterVerify(limits: Limits, entry: Entry, p: Part): Part {
    var hashed := p.(bytes := p.bytes.(digest := Hashable(p.bytes.digest, p.bytes.file, entry.length)));
    if Matches(entry, p.bytes) then hashed.(thread := Completing)
    else hashed.(thread := if p.mismatches + 1 >= limits.attempts then Raising(Error) else Pausing,
                 mismatches := p.mismatches + 1)
  }

  /** What an action of the part's own thread makes of it. */
  ghost function DoThread(limits: Limits, entry: Entry, p: Part, stopping: bool, a: Action): Part
    requires ThreadEnabled(p, a)
  {
    match a
    case GiveBack => p.(owed := p.owed - 1)
    case Start => p.(thread := Beginning)
    case Whole =>
      p.(thread := Fetching, ranges := p.ranges + 1, tries := 0, earlier := p.earlier + p.tries,
         workers := [NewWorker(true, Span(0, entry.length, 0))])
    case Fetched =>
      var o := p.workers[0].pc.outcome;
      p.(thread := if o == Fine then Joining(Fine) else StopOthers(o))
    case StopRanges => p.(thread := Joining(p.thread.failure))
    case Join =>
      var o := Raised(p.thread.failure, Problem(p.workers));
      p.(thread := if o == Fine then Verifying else Raising(o))
    case Verify => AfterVerify(limits, entry, p)
    case Resume => p.(thread := if stopping then Raising(Stopped) else Restarting)
    case Restart => p.(thread := Beginning, workers := [], bytes := NoBytes(entry.length), held := 0)
    case Complete => p.(thread := Ended(Fine), held := entry.length)
    case Raise => p.(thread := if p.thread.outcome == Stopped then Ended(Stopped) else GuardStop)
    case Guard => p.(thread := Ended(Error))
  }

  /** What the action makes of its part. */
  ghost function Do(limits: Limits, entry: Entry, l: Local, a: Action): Part
    requires ValidLimits(limits) && Enabled(l.part, a) && Shaped(entry.length, l.part)
  {
    var p := l.part;
    if Quiet(a) then DoQuiet(limits, p, l.shared.stopping, a)
    else if a.TakeWhole? then AfterTakeWhole(p, a.k, entry.length)
    else if a.Block? then AfterBlock(p, a.k, a.block)
    else if a.Pwrite? then AfterPwrite(p, a.k, a.written)
    else if a.PwriteFails? then AfterPwriteFails(p, a.k)
    else if a.Split? then AfterSplit(p, a.k, Taken(limits, p.workers[a.k].span, p.ranges, p.honored, l.shared.free))
    else DoThread(limits, entry, p, l.shared.stopping, a)
  }

  /** What the action makes of the shared state. */
  ghost function DoShared(limits: Limits, entry: Entry, l: Local, a: Action): Shared
    requires ValidLimits(limits) && Enabled(l.part, a) && Shaped(entry.length, l.part)
  {
    var p := l.part;
    match a
    case Split(k) =>
      l.shared.(free := l.shared.free - Taken(limits, p.workers[k].span, p.ranges, p.honored, l.shared.free))
    case GiveBack => l.shared.(free := l.shared.free + 1)
    case StopAll(_) => l.shared.(stopping := true)
    case StopRanges => l.shared.(stopping := true)
    case Guard => l.shared.(stopping := true)
    case _ => l.shared
  }
}
