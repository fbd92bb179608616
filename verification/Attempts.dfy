/**
 Requests and their connections, which the thread making a request, the thread watching the transfer and
 every thread that stops it share. The attempt's own lock makes each of its methods one step.
 */
module Attempts {
  import opened Options

  /** Which sides of a connection a cut shuts. */
  datatype Side = Reads | Both

  /** An attempt's connection. `shut`, `closed` and `misfired` observe the descriptor: what was shut of
      it, whether it was closed, and whether a shutdown ever reached it after that. */
  datatype Wire = Wire(
    sock: bool,
    cut: bool,
    slow: bool,
    receiving: bool,
    shutting: Side,
    shut: Option<Side>,
    closed: bool,
    misfired: bool)

  const NEW_WIRE := Wire(false, false, false, false, Both, None, false, false)

  function Shut(w: Wire): Wire
    requires w.sock
  {
    w.(shut := Some(w.shutting), misfired := w.misfired || w.closed)
  }

  function CutOff(w: Wire, slow: bool): Wire {
    if w.cut then w
    else
      var c := w.(cut := true, slow := slow, shutting := if slow && w.receiving then Reads else w.shutting);
      if c.sock then Shut(c) else c
  }

  function Connect(w: Wire): Wire {
    if w.cut then Shut(w.(sock := true)) else w.(sock := true)
  }

  function Close(w: Wire): Wire {
    w.(sock := false, closed := true)
  }

  /** A cut connection was shut, an uncut one was not, no shutdown reached a closed descriptor, and only
      a body cut as too slow is shut on its read side alone. */
  ghost predicate Sound(w: Wire) {
    && !w.misfired
    && (w.sock ==> !w.closed)
    && (w.sock && w.cut ==> w.shut == Some(w.shutting))
    && (!w.cut ==> w.shut == None && w.shutting == Both)
    && (w.shut.Some? ==> w.shut.value == w.shutting)
    && (w.shutting == Reads ==> w.slow)
    && (w.slow ==> w.cut)
  }

  /** The attempt as an object: each method holds its lock. */
  class Attempt {
    var wire: Wire

    constructor ()
      ensures wire == NEW_WIRE
    {
      wire := NEW_WIRE;
    }

    method Connected()
      requires Sound(wire) && !wire.closed && !wire.sock
      modifies this
      ensures wire == Connect(old(wire)) && Sound(wire)
      ensures wire.cut ==> wire.shut.Some?
    {
      wire := wire.(sock := true);
      if wire.cut {
        ShutDown();
      }
    }

    method CloseConnection()
      requires Sound(wire)
      modifies this
      ensures wire == Close(old(wire)) && Sound(wire)
    {
      wire := wire.(sock := false, closed := true);
    }

    /** Cut the connection off; a second cut changes nothing. */
    method Cut(slow: bool)
      requires Sound(wire)
      modifies this
      ensures wire == CutOff(old(wire), slow) && Sound(wire)
      ensures wire.cut && (old(wire.cut) ==> wire == old(wire)) && (wire.sock ==> wire.shut.Some?)
    {
      if wire.cut {
        return;
      }
      wire := wire.(cut := true, slow := slow);
      if slow && wire.receiving {
        wire := wire.(shutting := Reads);
      }
      if wire.sock {
        ShutDown();
      }
    }

    method ShutDown()
      requires wire.sock
      modifies this
      ensures wire == Shut(old(wire))
    {
      wire := wire.(shut := Some(wire.shutting), misfired := wire.misfired || wire.closed);
    }
  }

  // ----- A transfer's attempts and its stops -----

  /** Where the thread making a request stands. */
  datatype Making =
    | Checking   // the attempt is open, and the stop is about to be looked at
    | Cutting    // the stop was seen, and the attempt is about to be cut
    | Begun      // begin returned
    | InUse      // its connection opened
    | Finished   // its connection was closed
    | Ended      // the watch no longer follows it

  datatype Try = Try(making: Making, wire: Wire)

  /** Where a thread that stops the transfer stands; `left` are the attempts it has yet to cut. */
  datatype Stopper = Idle | Flagged | Sweeping(left: set<nat>) | Over

  datatype Board = Board(stopping: bool, tries: seq<Try>, stoppers: seq<Stopper>)

  datatype Step =
    | Begin
    | Check(a: nat)
    | CutSelf(a: nat)
    | Opened(a: nat)
    | Receive(a: nat)
    | Closed(a: nat)
    | End(a: nat)
    | WatchCut(a: nat)
    | Flag(j: nat)
    | Sweep(j: nat)
    | CutNext(j: nat, a: nat)
    | SweepDone(j: nat)

  ghost predicate Open(t: Try) {
    t.making != Ended
  }

  ghost predicate Can(b: Board, s: Step) {
    match s
    case Begin => true
    case Check(a) => a < |b.tries| && b.tries[a].making == Checking
    case CutSelf(a) => a < |b.tries| && b.tries[a].making == Cutting
    case Opened(a) => a < |b.tries| && b.tries[a].making == Begun
    case Receive(a) => a < |b.tries| && b.tries[a].making == InUse
    case Closed(a) => a < |b.tries| && (b.tries[a].making == Begun || b.tries[a].making == InUse)
    case End(a) => a < |b.tries| && (b.tries[a].making == Begun || b.tries[a].making == Finished)
    case WatchCut(a) => a < |b.tries|
    case Flag(j) => j < |b.stoppers| && b.stoppers[j] == Idle
    case Sweep(j) => j < |b.stoppers| && b.stoppers[j] == Flagged
    case CutNext(j, a) => j < |b.stoppers| && b.stoppers[j].Sweeping? && a in b.stoppers[j].left && a < |b.tries|
    case SweepDone(j) => j < |b.stoppers| && b.stoppers[j] == Sweeping({})
  }

  ghost function SetTry(b: Board, a: nat, making: Making, wire: Wire): Board
    requires a < |b.tries|
  {
    b.(tries := b.tries[a := Try(making, wire)])
  }

  ghost function After(b: Board, s: Step): Board
    requires Can(b, s)
  {
    match s
    case Begin => b.(tries := b.tries + [Try(Checking, NEW_WIRE)])
    case Check(a) => SetTry(b, a, if b.stopping then Cutting else Begun, b.tries[a].wire)
    case CutSelf(a) => SetTry(b, a, Begun, CutOff(b.tries[a].wire, false))
    case Opened(a) => SetTry(b, a, InUse, Connect(b.tries[a].wire))
    case Receive(a) => SetTry(b, a, InUse, b.tries[a].wire.(receiving := true))
    case Closed(a) => SetTry(b, a, Finished, Close(b.tries[a].wire))
    case End(a) => SetTry(b, a, Ended, b.tries[a].wire)
    case WatchCut(a) => SetTry(b, a, b.tries[a].making, CutOff(b.tries[a].wire, true))
    case Flag(j) => b.(stopping := true, stoppers := b.stoppers[j := Flagged])
    case Sweep(j) => b.(stoppers := b.stoppers[j := Sweeping(set a | 0 <= a < |b.tries| && Open(b.tries[a]))])
    case CutNext(j, a) =>
      SetTry(b, a, b.tries[a].making, CutOff(b.tries[a].wire, false))
        .(stoppers := b.stoppers[j := Sweeping(b.stoppers[j].left - {a})])
    case SweepDone(j) => b.(stoppers := b.stoppers[j := Over])
  }

  ghost predicate Reaches(b: Board, steps: seq<Step>, c: Board)
    decreases |steps|
  {
    if steps == [] then b == c
    else Can(b, steps[0]) && Reaches(After(b, steps[0]), steps[1..], c)
  }

  /** Nobody has cut it yet, and somebody still will: its own thread, or the stop sweeping it. */
  ghost predicate Awaits(t: Try, a: nat, left: set<nat>) {
    t.wire.cut || t.making == Checking || t.making == Cutting || t.making == Ended || a in left
  }

  ghost function LeftOf(s: Stopper): set<nat> {
    if s.Sweeping? then s.left else {}
  }

  /** Where the attempt's own thread stands fits its connection. */
  ghost predicate Placed(t: Try) {
    && (t.making == InUse <==> t.wire.sock)
    && (t.making == Finished ==> t.wire.closed)
    && (t.making == Checking || t.making == Cutting || t.making == Begun || t.making == InUse ==> !t.wire.closed)
  }

  ghost predicate Inv(b: Board) {
    && (forall a :: 0 <= a < |b.tries| ==> Sound(b.tries[a].wire) && Placed(b.tries[a]))
    && (forall j :: 0 <= j < |b.stoppers| && b.stoppers[j] != Idle ==> b.stopping)
    && forall j, a :: 0 <= j < |b.stoppers| && (b.stoppers[j].Sweeping? || b.stoppers[j].Over?) && 0 <= a < |b.tries|
         ==> Awaits(b.tries[a], a, LeftOf(b.stoppers[j]))
  }

  /** A change of one attempt that is sound by itself, cuts nothing loose and needs no more awaiting. */
  lemma OneTryKeeps(b: Board, a: nat, making: Making, wire: Wire)
    requires Inv(b) && a < |b.tries|
    requires Sound(wire) && Placed(Try(making, wire))
    requires forall left :: Awaits(b.tries[a], a, left) ==> Awaits(Try(making, wire), a, left)
    ensures Inv(SetTry(b, a, making, wire))
  {
    hide Sound, Placed, Awaits;
  }

  /** Cutting an attempt keeps it sound, and leaves none to await. */
  lemma CutKeeps(t: Try, slow: bool)
    requires Sound(t.wire) && Placed(t)
    ensures Sound(CutOff(t.wire, slow)) && Placed(Try(t.making, CutOff(t.wire, slow))) && CutOff(t.wire, slow).cut
  {
  }

  /** The steps of the thread making a request. */
  ghost predicate Requests(s: Step) {
    s.Check? || s.CutSelf? || s.Opened? || s.Receive? || s.Closed? || s.End?
  }

  lemma BeginKeeps(b: Board)
    requires Inv(b)
    ensures Inv(After(b, Begin))
  {
    var t := Try(Checking, NEW_WIRE);
    assert Sound(t.wire) && Placed(t) && forall a: nat, left :: Awaits(t, a, left);
    hide Sound, Placed, Awaits;
  }

  /** A request that saw no stop began before any sweep: none is over that could have missed it. */
  lemma RequestKeeps(b: Board, s: Step)
    requires Inv(b) && Can(b, s) && Requests(s)
    ensures Inv(After(b, s))
  {
    var t := b.tries[s.a];
    if s.Check? && !b.stopping {
      assert forall j :: 0 <= j < |b.stoppers| ==> b.stoppers[j] == Idle;
    } else {
      var next := After(b, s).tries[s.a];
      assert After(b, s) == SetTry(b, s.a, next.making, next.wire);
      if s.CutSelf? {
        CutKeeps(t, false);
      }
      OneTryKeeps(b, s.a, next.making, next.wire);
    }
  }

  lemma CutNextKeeps(b: Board, j: nat, a: nat)
    requires Inv(b) && Can(b, CutNext(j, a))
    ensures Inv(After(b, CutNext(j, a)))
  {
    var t := b.tries[a];
    CutKeeps(t, false);
    OneTryKeeps(b, a, t.making, CutOff(t.wire, false));
    hide Sound, Placed, CutOff;
  }

  lemma StopKeeps(b: Board, s: Step)
    requires Inv(b) && Can(b, s) && (s.Flag? || s.Sweep? || s.SweepDone?)
    ensures Inv(After(b, s))
  {
    hide Sound, Placed;
  }

  lemma WatchKeeps(b: Board, a: nat)
    requires Inv(b) && Can(b, WatchCut(a))
    ensures Inv(After(b, WatchCut(a)))
  {
    CutKeeps(b.tries[a], true);
    OneTryKeeps(b, a, b.tries[a].making, CutOff(b.tries[a].wire, true));
  }

  lemma StepKeeps(b: Board, s: Step)
    requires Inv(b) && Can(b, s)
    ensures Inv(After(b, s))
  {
    hide Inv, CutOff, Connect, Close;
    if s.Begin? {
      BeginKeeps(b);
    } else if Requests(s) {
      RequestKeeps(b, s);
    } else if s.WatchCut? {
      WatchKeeps(b, s.a);
    } else if s.CutNext? {
      CutNextKeeps(b, s.j, s.a);
    } else {
      StopKeeps(b, s);
    }
  }

  lemma {:induction false} RunKeeps(b: Board, steps: seq<Step>, c: Board)
    requires Inv(b) && Reaches(b, steps, c)
    ensures Inv(c)
    decreases |steps|
  {
    if steps != [] {
      StepKeeps(b, steps[0]);
      RunKeeps(After(b, steps[0]), steps[1..], c);
    }
  }

  /** Nothing escapes a stop: in every interleaving of requests beginning, connecting, receiving, closing
      and ending, of the watch, and of any number of threads stopping the transfer, once one stop is over
      and an open attempt's begin returned, the attempt is cut, and its connection, if open, was shut. */
  lemma NothingEscapesStop(stops: nat, steps: seq<Step>, b: Board, j: nat, a: nat)
    requires Reaches(Board(false, [], seq(stops, _ => Idle)), steps, b)
    requires j < |b.stoppers| && b.stoppers[j] == Over
    requires a < |b.tries| && Open(b.tries[a]) && b.tries[a].making != Checking && b.tries[a].making != Cutting
    ensures b.tries[a].wire.cut && (b.tries[a].wire.sock ==> b.tries[a].wire.shut.Some?)
  {
    RunKeeps(Board(false, [], seq(stops, _ => Idle)), steps, b);
  }

  /** No cut ever acts on a closed descriptor, and a connection is shut on its read side alone only when
      the watch cut it as too slow. */
  lemma CutsAreSound(stops: nat, steps: seq<Step>, b: Board, a: nat)
    requires Reaches(Board(false, [], seq(stops, _ => Idle)), steps, b) && a < |b.tries|
    ensures !b.tries[a].wire.misfired
    ensures b.tries[a].wire.shut == Some(Reads) ==> b.tries[a].wire.slow
    ensures b.tries[a].wire.shut.Some? ==> b.tries[a].wire.cut
  {
    RunKeeps(Board(false, [], seq(stops, _ => Idle)), steps, b);
  }

  // ----- Which sides a cut shuts -----

  ghost predicate Cuts(s: Step, a: nat) {
    s == CutSelf(a) || s == WatchCut(a) || (s.CutNext? && s.a == a)
  }

  /** The first cut of an attempt: whether it is the watch's, and whether a body was being received then. */
  datatype FirstCut = FirstCut(slow: bool, receiving: bool)

  ghost function FirstCutIn(steps: seq<Step>, a: nat): Option<FirstCut> {
    if steps == [] then None
    else
      var init, last := steps[..|steps| - 1], steps[|steps| - 1];
      if FirstCutIn(init, a).Some? then FirstCutIn(init, a)
      else if Cuts(last, a) then Some(FirstCut(last.WatchCut?, Receive(a) in init))
      else None
  }

  /** The attempt was cut as its first cut says, if it was cut at all. */
  ghost predicate CutAs(w: Wire, first: Option<FirstCut>, received: bool) {
    && w.receiving == received
    && (w.cut <==> first.Some?)
    && w.slow == (first.Some? && first.value.slow)
    && w.shutting == (if first.Some? && first.value.slow && first.value.receiving then Reads else Both)
  }

  ghost predicate Told(steps: seq<Step>, b: Board) {
    && (forall a :: 0 <= a < |b.tries| ==> CutAs(b.tries[a].wire, FirstCutIn(steps, a), Receive(a) in steps))
    && forall a: nat :: |b.tries| <= a ==> FirstCutIn(steps, a) == None && Receive(a) !in steps
  }

  lemma OneMore(steps: seq<Step>, s: Step, a: nat)
    ensures FirstCutIn(steps + [s], a) ==
            if FirstCutIn(steps, a).Some? then FirstCutIn(steps, a)
            else if Cuts(s, a) then Some(FirstCut(s.WatchCut?, Receive(a) in steps)) else None
    ensures Receive(a) in steps + [s] <==> Receive(a) in steps || s == Receive(a)
  {
    assert (steps + [s])[..|steps|] == steps;
  }

  lemma StepTells(steps: seq<Step>, b: Board, s: Step)
    requires Inv(b) && Told(steps, b) && Can(b, s)
    ensures Told(steps + [s], After(b, s))
  {
    var c := After(b, s);
    hide Inv, FirstCutIn;
    forall a: nat
      ensures a < |c.tries| ==> CutAs(c.tries[a].wire, FirstCutIn(steps + [s], a), Receive(a) in steps + [s])
      ensures |c.tries| <= a ==> FirstCutIn(steps + [s], a) == None && Receive(a) !in steps + [s]
    {
      OneMore(steps, s, a);
      assert a < |b.tries| ==> CutAs(b.tries[a].wire, FirstCutIn(steps, a), Receive(a) in steps);
    }
  }

  lemma {:induction false} RunTells(done: seq<Step>, b: Board, steps: seq<Step>, c: Board)
    requires Inv(b) && Told(done, b) && Reaches(b, steps, c)
    ensures Told(done + steps, c)
    decreases |steps|
  {
    hide Told, Inv, After;
    if steps == [] {
      assert done + steps == done;
    } else {
      StepTells(done, b, steps[0]);
      StepKeeps(b, steps[0]);
      RunTells(done + [steps[0]], After(b, steps[0]), steps[1..], c);
      assert done + [steps[0]] + steps[1..] == done + steps;
    }
  }

  /** In every interleaving a cut connection that is open was shut on its read side alone exactly if the watch was
      the first to cut it and its body was being received then; otherwise on both. */
  lemma FirstCutDecides(stops: nat, steps: seq<Step>, b: Board, a: nat)
    requires Reaches(Board(false, [], seq(stops, _ => Idle)), steps, b) && a < |b.tries|
    ensures var wire, first := b.tries[a].wire, FirstCutIn(steps, a);
      && (wire.cut <==> first.Some?)
      && (wire.slow <==> first.Some? && first.value.slow)
      && (wire.sock && wire.cut ==>
            wire.shut == Some(if first.value.slow && first.value.receiving then Reads else Both))
  {
    var start := Board(false, [], seq(stops, _ => Idle));
    RunKeeps(start, steps, b);
    RunTells([], start, steps, b);
    assert [] + steps == steps;
    hide FirstCutIn;
    assert CutAs(b.tries[a].wire, FirstCutIn(steps, a), Receive(a) in steps) && Sound(b.tries[a].wire);
  }
}
