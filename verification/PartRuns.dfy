/** What holds of one part after every run of its threads, whatever the rest of the transfer does. */
module PartRuns {
  import opened Ranges
  import opened Transfer
  import opened TransferInvariant
  import opened TransferSteps

  /** One action, and the shared state its thread finds. */
  datatype Step = Step(shared: Shared, action: Action)

  /** The steps lead from one state of the part to another. */
  ghost predicate Reaches(limits: Limits, entry: Entry, p: Part, steps: seq<Step>, q: Part)
    decreases |steps|
  {
    if steps == [] then p == q
    else
      && ValidLimits(limits) && Shaped(entry.length, p) && Enabled(p, steps[0].action)
      && Reaches(limits, entry, Do(limits, entry, Local(p, steps[0].shared), steps[0].action), steps[1..], q)
  }

  lemma {:induction false} RunKeeps(limits: Limits, entry: Entry, p: Part, steps: seq<Step>, q: Part)
    requires Inv(limits, entry, p) && Reaches(limits, entry, p, steps, q)
    ensures Inv(limits, entry, q)
    decreases |steps|
  {
    hide Tally;
    if steps != [] {
      var l := Local(p, steps[0].shared);
      ActionKeeps(limits, entry, l, steps[0].action);
      RunKeeps(limits, entry, Do(limits, entry, l, steps[0].action), steps[1..], q);
    }
  }

  ghost predicate Reachable(limits: Limits, entry: Entry, steps: seq<Step>, p: Part) {
    ValidLimits(limits) && Reaches(limits, entry, Fresh(entry), steps, p)
  }

  lemma ReachableInv(limits: Limits, entry: Entry, steps: seq<Step>, p: Part)
    requires Reachable(limits, entry, steps, p)
    ensures Inv(limits, entry, p)
  {
    FreshInv(limits, entry);
    RunKeeps(limits, entry, Fresh(entry), steps, p);
  }

  /** Range tiling: under every mix of blocks, cut-offs, retries, nested splits and restarts, the bytes
      the ranges received and those they still want are each of the part's bytes exactly once. */
  lemma RangesTile(limits: Limits, entry: Entry, steps: seq<Step>, p: Part)
    requires Reachable(limits, entry, steps, p) && p.workers != []
    ensures forall i :: 0 <= i < entry.length ==> Tally(p.workers, Got(i)) + Tally(p.workers, Wanted(i)) == 1
    ensures forall i :: i < 0 || i >= entry.length ==> Tally(p.workers, Got(i)) + Tally(p.workers, Wanted(i)) == 0
  {
    ReachableInv(limits, entry, steps, p);
    forall i | 0 <= i < entry.length ensures Tally(p.workers, Got(i)) + Tally(p.workers, Wanted(i)) == 1 {
      HeldSplits(p.workers, i);
    }
    forall i | i < 0 || i >= entry.length ensures Tally(p.workers, Got(i)) + Tally(p.workers, Wanted(i)) == 0 {
      NoneWeigh(p.workers, Got(i));
      NoneWeigh(p.workers, Wanted(i));
    }
  }

  /** Split arithmetic: every split leaves ranges of at least the smallest size, and never more live ones
      than the limits allow. */
  lemma SplitsStayLarge(limits: Limits, entry: Entry, steps: seq<Step>, p: Part)
    requires Reachable(limits, entry, steps, p)
    ensures |p.workers| >= 2 ==> forall k :: 0 <= k < |p.workers| ==>
      p.workers[k].span.end - p.workers[k].span.start >= limits.smallestRangeBytes
    ensures p.ranges == Tally(p.workers, Live)
    ensures 0 <= p.ranges && (p.ranges <= 1 || p.ranges <= limits.mostRangesPerPart)
  {
    ReachableInv(limits, entry, steps, p);
    TallyBounds(p.workers, Live);
  }

  /** Once a part's ranges ended cleanly, each byte was written or given up on, exactly once: it was
      written once exactly when no failed write gave it up. */
  lemma EachByteOnce(limits: Limits, entry: Entry, steps: seq<Step>, p: Part)
    requires Reachable(limits, entry, steps, p) && Received(p.thread)
    ensures |p.bytes.writes| == |p.bytes.lost| == entry.length
    ensures forall i :: 0 <= i < entry.length ==> p.bytes.writes[i] + p.bytes.lost[i] == 1
    ensures forall i :: 0 <= i < entry.length ==> (p.bytes.writes[i] == 1 <==> p.bytes.lost[i] == 0)
  {
    ReachableInv(limits, entry, steps, p);
    var ws := p.workers;
    forall i | 0 <= i < entry.length ensures p.bytes.writes[i] + p.bytes.lost[i] == 1 {
      HeldSplits(ws, i);
      NoneWeigh(ws, Wanted(i));
      NoneWeigh(ws, Flying(i));
    }
  }

  /** Hash soundness: in every arrival order, the running digest is that of exactly the bytes delivered
      for `[0, hashed)`, each of them received. */
  lemma DigestIsOfPrefix(limits: Limits, entry: Entry, steps: seq<Step>, p: Part)
    requires Reachable(limits, entry, steps, p) && Streaming(p.thread)
    ensures |p.bytes.digest| <= |p.bytes.data| == entry.length
    ensures p.bytes.digest == p.bytes.data[..|p.bytes.digest|]
    ensures forall i :: 0 <= i < |p.bytes.digest| ==> Tally(p.workers, Got(i)) == 1
  {
    ReachableInv(limits, entry, steps, p);
  }

  // ----- What the file of a part holds -----

  /** A place of the file that was never written reads as zero. */
  ghost predicate Unwritten(b: Bytes) {
    forall i :: 0 <= i < |b.file| && i < |b.writes| && b.writes[i] == 0 ==> b.file[i] == 0
  }

  lemma PwriteUnwritten(p: Part, k: nat, written: nat)
    requires k < |p.workers| && p.workers[k].pc.Writing? && written <= |p.workers[k].pc.rest| <= p.workers[k].span.next
    requires Unwritten(p.bytes)
    ensures Unwritten(AfterPwrite(p, k, written).bytes)
  {
  }

  lemma ActionUnwritten(limits: Limits, entry: Entry, l: Local, a: Action)
    requires ValidLimits(limits) && Shaped(entry.length, l.part) && Enabled(l.part, a) && Unwritten(l.part.bytes)
    ensures Unwritten(Do(limits, entry, l, a).bytes)
  {
    hide AfterPwrite, NextWorker, Taken, SplitUp;
    if a.Pwrite? {
      assert WorkerShaped(entry.length, l.part.workers[a.k]);
      PwriteUnwritten(l.part, a.k, a.written);
    }
  }

  lemma {:induction false} RunUnwritten(limits: Limits, entry: Entry, p: Part, steps: seq<Step>, q: Part)
    requires Unwritten(p.bytes) && Reaches(limits, entry, p, steps, q)
    ensures Unwritten(q.bytes)
    decreases |steps|
  {
    hide Unwritten;
    if steps != [] {
      var l := Local(p, steps[0].shared);
      ActionUnwritten(limits, entry, l, steps[0].action);
      RunUnwritten(limits, entry, Do(limits, entry, l, steps[0].action), steps[1..], q);
    }
  }

  /** Completing a digest that is a prefix of a long enough file makes it that file's prefix. */
  lemma DigestIsCompleted(digest: seq<Byte>, file: seq<Byte>, length: nat)
    requires digest <= file && |digest| <= length <= |file|
    ensures Hashable(digest, file, length) == file[..length]
  {
    assert file == digest + file[|digest|..];
  }

  /** What a check of the part hashes: the bytes received, but zero where one past the running digest was given
      up. */
  ghost function Checkable(b: Bytes, length: nat): seq<Byte>
    requires BytesShaped(length, b)
  {
    seq(length, i requires 0 <= i < length => if i < |b.digest| || b.writes[i] > 0 then b.data[i] else 0)
  }

  lemma CheckIsOf(b: Bytes, length: nat)
    requires BytesShaped(length, b) && Stored(length, b) && Unwritten(b) && |b.digest| <= length
    requires forall i :: 0 <= i < |b.digest| ==> b.digest[i] == b.data[i]
    ensures var bytes := Hashable(b.digest, b.file, length);
      && (|bytes| >= length <==> |b.digest| == length || |b.file| == length)
      && (|bytes| >= length ==> bytes == Checkable(b, length))
  {
  }

  lemma AllReceived(b: Bytes, length: nat)
    requires BytesShaped(length, b) && Stored(length, b)
    requires forall i :: 0 <= i < length ==> b.writes[i] > 0
    ensures |b.file| == length && Checkable(b, length) == b.data
  {
    assert length > 0 ==> b.writes[length - 1] > 0;
    assert |Checkable(b, length)| == |b.data|;
  }

  /** A part whose ranges ended matches its entry exactly if its digest or its file reaches its length and the
      bytes received, zero where one was given up before it was hashed, hash to the entry. If none was given up,
      exactly if the bytes received do. */
  lemma VerifiesExactly(limits: Limits, entry: Entry, steps: seq<Step>, p: Part)
    requires Reachable(limits, entry, steps, p) && p.thread == Verifying
    ensures BytesShaped(entry.length, p.bytes)
    ensures Matches(entry, p.bytes) <==>
      && (|p.bytes.digest| == entry.length || |p.bytes.file| == entry.length)
      && entry.hash(Checkable(p.bytes, entry.length)) == entry.sha256
    ensures (forall i :: 0 <= i < entry.length ==> p.bytes.lost[i] == 0) ==>
      (Matches(entry, p.bytes) <==> entry.hash(p.bytes.data) == entry.sha256)
  {
    ReachableInv(limits, entry, steps, p);
    EachByteOnce(limits, entry, steps, p);
    RunUnwritten(limits, entry, Fresh(entry), steps, p);
    hide Reachable, Reaches, Unwritten, Tally, Hashable;
    CheckIsOf(p.bytes, entry.length);
    if forall i :: 0 <= i < entry.length ==> p.bytes.lost[i] == 0 {
      AllReceived(p.bytes, entry.length);
    }
  }

  /** A part that ends fine hashed to its manifest entry, over bytes its file holds wherever they were
      written. The file is those bytes exactly when it has the part's length and every byte that a failed
      write gave up is zero. */
  lemma FinePartMatches(limits: Limits, entry: Entry, steps: seq<Step>, p: Part)
    requires Reachable(limits, entry, steps, p) && p.thread == Ended(Fine)
    ensures |p.bytes.digest| == |p.bytes.writes| == |p.bytes.lost| == entry.length &&
            entry.hash(p.bytes.digest) == entry.sha256
    ensures forall i :: 0 <= i < entry.length && p.bytes.writes[i] == 1 ==>
            i < |p.bytes.file| && p.bytes.file[i] == p.bytes.digest[i]
    ensures p.bytes.file == p.bytes.digest <==>
      && |p.bytes.file| == entry.length
      && forall i :: 0 <= i < |p.bytes.lost| && p.bytes.lost[i] > 0 ==> p.bytes.digest[i] == 0
    ensures (forall i :: 0 <= i < |p.bytes.lost| ==> p.bytes.lost[i] == 0) ==> p.bytes.file == p.bytes.digest
  {
    ReachableInv(limits, entry, steps, p);
    EachByteOnce(limits, entry, steps, p);
    RunUnwritten(limits, entry, Fresh(entry), steps, p);
    hide Inv, Reachable, Reaches;
    FileIsDigest(p.bytes, entry.length);
  }

  lemma FileIsDigest(b: Bytes, length: nat)
    requires |b.file| <= length == |b.digest| == |b.writes| == |b.lost| && Unwritten(b)
    requires forall i :: 0 <= i < length ==> b.writes[i] + b.lost[i] == 1
    requires forall i :: 0 <= i < length && b.writes[i] == 1 ==> i < |b.file| && b.file[i] == b.digest[i]
    ensures b.file == b.digest <==>
      |b.file| == length && forall i :: 0 <= i < |b.lost| && b.lost[i] > 0 ==> b.digest[i] == 0
    ensures (forall i :: 0 <= i < |b.lost| ==> b.lost[i] == 0) ==> b.file == b.digest
  {
    if |b.file| == length {
      forall i | 0 <= i < length ensures b.file[i] == if b.writes[i] == 1 then b.digest[i] else 0 {
        assert b.writes[i] + b.lost[i] == 1;
      }
    }
    if forall i :: 0 <= i < |b.lost| ==> b.lost[i] == 0 {
      forall i | 0 <= i < length ensures i < |b.file| && b.file[i] == b.digest[i] {
        assert b.lost[i] == 0 && b.writes[i] == 1;
      }
      assert length > 0 ==> b.lost[length - 1] == 0;
    }
  }

  // ----- How a part ends -----

  ghost predicate SomeRange(ws: seq<Worker>, outcome: Outcome) {
    exists k :: 0 <= k < |ws| && ws[k].pc == Done(outcome)
  }

  /** Joining finds a failure exactly if some range failed, and a stop exactly if none failed and some stopped. */
  lemma JoinFinds(limits: Limits, entry: Entry, steps: seq<Step>, p: Part, shared: Shared)
    requires Reachable(limits, entry, steps, p) && Shaped(entry.length, p) && ThreadEnabled(p, Join)
    ensures Do(limits, entry, Local(p, shared), Join).thread ==
            if SomeRange(p.workers, Error) then Raising(Error)
            else if SomeRange(p.workers, Stopped) then Raising(Stopped)
            else Verifying
  {
    ReachableInv(limits, entry, steps, p);
    hide Reachable, Reaches, Tally;
    RaisedFinds(p.thread, p.workers);
  }

  lemma RaisedFinds(t: Thread, ws: seq<Worker>)
    requires Roles(t, ws) && t.Joining?
    ensures Raised(t.failure, Problem(ws)) ==
            if SomeRange(ws, Error) then Error else if SomeRange(ws, Stopped) then Stopped else Fine
  {
    assert ws[0].pc == Done(t.failure);
    forall o | SomeRange(ws, o) && t.failure != o ensures exists k :: 1 <= k < |ws| && ws[k].pc == Done(o) {
      var k :| 0 <= k < |ws| && ws[k].pc == Done(o);
      assert k != 0;
    }
  }

  /** A part that raises a failure has a range that failed, or did not match as often as the limits allow; one that
      raises a stop has none that failed. */
  ghost predicate Grounded(limits: Limits, p: Part) {
    && (p.thread == Raising(Error) || p.thread == GuardStop || p.thread == Ended(Error) ==>
          SomeRange(p.workers, Error) || p.mismatches >= limits.attempts)
    && (p.thread == Raising(Stopped) || p.thread == Ended(Stopped) ==> !SomeRange(p.workers, Error))
  }

  lemma ActionGrounded(limits: Limits, entry: Entry, l: Local, a: Action)
    requires Inv(limits, entry, l.part) && Enabled(l.part, a) && Grounded(limits, l.part)
    ensures Grounded(limits, Do(limits, entry, l, a))
  {
    hide Inv, Do, Grounded;
    if WorkerEnabled(l.part.workers, a) {
      WorkerGrounded(limits, entry, l, a);
    } else {
      ThreadGrounded(limits, entry, l.part, l.shared.stopping, a);
      DoIsThread(limits, entry, l, a);
    }
  }

  lemma WorkerGrounded(limits: Limits, entry: Entry, l: Local, a: Action)
    requires Inv(limits, entry, l.part) && WorkerEnabled(l.part.workers, a)
    ensures Grounded(limits, Do(limits, entry, l, a))
  {
    hide Inv, Do, SomeRange;
    WorkerFetches(limits, entry, l, a);
  }

  lemma ThreadGrounded(limits: Limits, entry: Entry, p: Part, stopping: bool, a: Action)
    requires Inv(limits, entry, p) && ThreadEnabled(p, a) && Grounded(limits, p)
    ensures Grounded(limits, DoThread(limits, entry, p, stopping, a))
  {
    hide Tally, Tiled, Accounted, Hashed, Stored, Carried, Ranged, Filled, Checked, Matches;
    if a.Join? {
      RaisedFinds(p.thread, p.workers);
    }
    hide Raised;
  }

  lemma {:induction false} RunGrounded(limits: Limits, entry: Entry, p: Part, steps: seq<Step>, q: Part)
    requires Inv(limits, entry, p) && Grounded(limits, p) && Reaches(limits, entry, p, steps, q)
    ensures Grounded(limits, q)
    decreases |steps|
  {
    hide Grounded, Inv;
    if steps != [] {
      var l := Local(p, steps[0].shared);
      ActionKeeps(limits, entry, l, steps[0].action);
      ActionGrounded(limits, entry, l, steps[0].action);
      RunGrounded(limits, entry, Do(limits, entry, l, steps[0].action), steps[1..], q);
    }
  }

  /** In every run a part ends in a failure only if a range of it failed or it did not match too often, and is
      stopped only if no range failed. */
  lemma EndsAreGrounded(limits: Limits, entry: Entry, steps: seq<Step>, p: Part)
    requires Reachable(limits, entry, steps, p)
    ensures p.thread == Ended(Error) ==> SomeRange(p.workers, Error) || p.mismatches >= limits.attempts
    ensures p.thread == Ended(Stopped) ==> !SomeRange(p.workers, Error)
  {
    FreshInv(limits, entry);
    RunGrounded(limits, entry, Fresh(entry), steps, p);
  }

  // ----- A write that fails after its block was hashed -----

  lemma {:induction false} Extend(limits: Limits, entry: Entry, p: Part, steps: seq<Step>, q: Part, step: Step)
    requires ValidLimits(limits) && Reaches(limits, entry, p, steps, q)
    requires Shaped(entry.length, q) && Enabled(q, step.action)
    ensures Reaches(limits, entry, p, steps + [step], Do(limits, entry, Local(q, step.shared), step.action))
    decreases |steps|
  {
    var q' := Do(limits, entry, Local(q, step.shared), step.action);
    if steps == [] {
      assert Reaches(limits, entry, q', [], q');
      assert [step][1..] == [];
    } else {
      Extend(limits, entry, Do(limits, entry, Local(p, steps[0].shared), steps[0].action), steps[1..], q, step);
      assert (steps + [step])[1..] == steps[1..] + [step];
    }
  }

  const CALM := Shared(false, 0)

  /** A part of one byte, received and hashed, that was not written. */
  ghost function OneByte(thread: Thread, pc: Pc, failures: nat, ranges: nat, tries: nat, byte: Byte, lost: nat): Part {
    Part(thread, [Worker(true, Span(0, 1, 1), pc, 0, failures)], Bytes([byte], [], [byte], [0], [lost]),
         ranges, true, 0, 0, tries, 0, 0)
  }

  lemma Run(limits: Limits, entry: Entry, steps: seq<Step>, p: Part, a: Action) returns (steps': seq<Step>, p': Part)
    requires Reachable(limits, entry, steps, p) && Shaped(entry.length, p) && Enabled(p, a)
    ensures Reachable(limits, entry, steps', p') && p' == Do(limits, entry, Local(p, CALM), a)
    ensures Shaped(entry.length, p')
  {
    Extend(limits, entry, Fresh(entry), steps, p, Step(CALM, a));
    steps', p' := steps + [Step(CALM, a)], Do(limits, entry, Local(p, CALM), a);
    ReachableInv(limits, entry, steps', p');
  }

  /** A part that asked for its bytes, and has none yet. */
  lemma Asked(limits: Limits, entry: Entry) returns (steps: seq<Step>, p: Part)
    requires ValidLimits(limits) && entry.length == 1
    ensures Reachable(limits, entry, steps, p) && Shaped(1, p)
    ensures p == Part(Fetching, [Worker(true, Span(0, 1, 0), Asking, 0, 0)], NoBytes(1), 1, false, 0, 0, 1, 0, 0)
  {
    hide Reaches, Reachable;
    steps, p := Run(limits, entry, [], Fresh(entry), Start);
    steps, p := Run(limits, entry, steps, p, Whole);
    steps, p := Run(limits, entry, steps, p, Look(0));
    steps, p := Run(limits, entry, steps, p, Open(0));
  }

  lemma OneBlock(limits: Limits, entry: Entry, byte: Byte) returns (steps: seq<Step>, p: Part)
    requires ValidLimits(limits) && entry.length == 1
    ensures Reachable(limits, entry, steps, p) && p == OneByte(Fetching, Writing([byte], 1), 0, 1, 1, byte, 0)
  {
    hide Reaches, Reachable;
    steps, p := Asked(limits, entry);
    steps, p := Run(limits, entry, steps, p, Answer(0, true, true));
    steps, p := Run(limits, entry, steps, p, Block(0, [byte]));
    assert Overlay(Blank(1), 0, [byte]) == [byte] && Zeros(1) == [0];
  }

  lemma FailedWrite(limits: Limits, entry: Entry, byte: Byte) returns (steps: seq<Step>, p: Part)
    requires ValidLimits(limits) && entry.length == 1
    ensures Reachable(limits, entry, steps, p) && p == OneByte(Fetching, Deciding, 1, 1, 1, byte, 1)
  {
    hide Reaches, Reachable;
    steps, p := OneBlock(limits, entry, byte);
    steps, p := Run(limits, entry, steps, p, PwriteFails(0));
    assert Bump([0], 0, 1) == [1];
    steps, p := Run(limits, entry, steps, p, Notice(0));
    steps, p := Run(limits, entry, steps, p, Judge(0));
  }

  lemma RetriedNothing(limits: Limits, entry: Entry, byte: Byte) returns (steps: seq<Step>, p: Part)
    requires ValidLimits(limits) && limits.attempts >= 2 && entry.length == 1
    ensures Reachable(limits, entry, steps, p) && p == OneByte(Fetching, Asking, 1, 1, 2, byte, 1)
  {
    hide Reaches, Reachable;
    steps, p := FailedWrite(limits, entry, byte);
    steps, p := Run(limits, entry, steps, p, NoSplit(0));
    steps, p := Run(limits, entry, steps, p, Decide(0));
    steps, p := Run(limits, entry, steps, p, Wake(0));
    steps, p := Run(limits, entry, steps, p, Look(0));
    steps, p := Run(limits, entry, steps, p, Open(0));
  }

  lemma JoinedNothing(limits: Limits, entry: Entry, byte: Byte) returns (steps: seq<Step>, p: Part)
    requires ValidLimits(limits) && limits.attempts >= 2 && entry.length == 1
    ensures Reachable(limits, entry, steps, p) && p == OneByte(Verifying, Done(Fine), 1, 0, 2, byte, 1)
  {
    hide Reaches, Reachable;
    steps, p := RetriedNothing(limits, entry, byte);
    steps, p := Run(limits, entry, steps, p, NothingLeft(0));
    steps, p := Run(limits, entry, steps, p, Leave(0));
    steps, p := Run(limits, entry, steps, p, Fetched);
    assert Raised(Fine, Problem(p.workers)) == Fine;
    steps, p := Run(limits, entry, steps, p, Join);
  }

  lemma VerifiedNothing(limits: Limits, entry: Entry, byte: Byte)
    ensures var p := OneByte(Verifying, Done(Fine), 1, 0, 2, byte, 1);
            entry.length == 1 && entry.hash([byte]) == entry.sha256 ==>
              AfterVerify(limits, entry, p) == p.(thread := Completing)
  {
  }

  /** The file of a part that ended fine need not be the bytes that matched: a write that fails is
      retried from the byte after its block, which the digest already has. Whatever the hash is, a part
      of one byte ends fine with an empty file. */
  lemma LostWriteEndsFine(limits: Limits, byte: Byte, hash: seq<Byte> -> string) returns (steps: seq<Step>, p: Part)
    requires ValidLimits(limits) && limits.attempts >= 2
    ensures Reachable(limits, Entry(1, hash([byte]), hash), steps, p) && p.thread == Ended(Fine)
    ensures p.bytes.digest == [byte] && p.bytes.file == []
  {
    hide Reaches, Reachable;
    var entry := Entry(1, hash([byte]), hash);
    steps, p := JoinedNothing(limits, entry, byte);
    VerifiedNothing(limits, entry, byte);
    hide AfterVerify;
    steps, p := Run(limits, entry, steps, p, Verify);
    steps, p := Run(limits, entry, steps, p, Complete);
  }
}
