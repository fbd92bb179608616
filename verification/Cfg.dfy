/**
 Conditional compilation predicates: reading one from its tokens, and its value in a build without Loom.
 */
module Cfg {
  import opened Options

  /** `Text` is a quoted literal. */
  datatype Token = Name(name: string) | Text(text: string) | Equals | Open | Close | Comma

  /** A configuration option, alone or with the value it must have. */
  datatype Key = Plain(name: string) | Valued(name: string, text: string)

  datatype Combinator = All | Any | Not

  datatype Predicate = Choice(key: Key) | Combined(combinator: Combinator, operands: Operands)

  datatype Operands = End | Operand(first: Predicate, rest: Operands)

  const LOOM := Valued("feature", "loom")

  function CombinatorOf(name: string): Option<Combinator> {
    if name == "all" then Some(All) else if name == "any" then Some(Any) else if name == "not" then Some(Not) else None
  }

  predicate Alone(os: Operands) {
    os.Operand? && os.rest.End?
  }

  // ----- The grammar -----

  /** The tokens spell the predicate. */
  ghost predicate Spells(p: Predicate, ts: seq<Token>)
    decreases p
  {
    match p
    case Choice(Plain(name)) => ts == [Name(name)]
    case Choice(Valued(name, text)) => ts == [Name(name), Equals, Text(text)]
    case Combined(c, operands) =>
      && |ts| >= 3 && ts[0].Name? && CombinatorOf(ts[0].name) == Some(c) && ts[1] == Open && ts[|ts| - 1] == Close
      && (c == Not ==> Alone(operands))
      && SpellsAll(operands, ts[2..|ts| - 1])
  }

  /** The tokens spell the operands, a comma after each but at will after the last. */
  ghost predicate SpellsAll(os: Operands, ts: seq<Token>)
    decreases os, 1
  {
    match os
    case End => ts == []
    case Operand(first, rest) => exists k :: 0 <= k <= |ts| && SpellsFirst(os, ts, k)
  }

  /** The first `k` tokens spell the first operand. */
  ghost predicate SpellsFirst(os: Operands, ts: seq<Token>, k: nat)
    requires os.Operand? && k <= |ts|
    decreases os, 0
  {
    && Spells(os.first, ts[..k])
    && if k == |ts| then os.rest.End? else ts[k] == Comma && SpellsAll(os.rest, ts[k + 1..])
  }

  // ----- Reading -----

  datatype Read<T> = Unreadable | Read(value: T, rest: seq<Token>)

  /** The predicate at the start of the tokens, and what follows it. */
  function ReadPredicate(ts: seq<Token>): (r: Read<Predicate>)
    ensures r.Read? ==> |r.rest| < |ts|
    decreases |ts|, 0
  {
    if ts == [] || !ts[0].Name? then Unreadable
    else if |ts| > 1 && ts[1] == Equals then
      if |ts| > 2 && ts[2].Text? then Read(Choice(Valued(ts[0].name, ts[2].text)), ts[3..]) else Unreadable
    else if |ts| == 1 || ts[1] != Open then Read(Choice(Plain(ts[0].name)), ts[1..])
    else if CombinatorOf(ts[0].name) == None then Unreadable
    else
      var c, r := CombinatorOf(ts[0].name).value, ReadOperands(ts[2..]);
      if r.Unreadable? || (c == Not && !Alone(r.value)) then Unreadable else Read(Combined(c, r.value), r.rest)
  }

  /** The operands up to their closing parenthesis, and what follows it. */
  function ReadOperands(ts: seq<Token>): (r: Read<Operands>)
    ensures r.Read? ==> |r.rest| < |ts|
    decreases |ts|, 1
  {
    if ts == [] then Unreadable
    else if ts[0] == Close then Read(End, ts[1..])
    else
      var p := ReadPredicate(ts);
      if p.Unreadable? || p.rest == [] || (p.rest[0] != Comma && p.rest[0] != Close) then Unreadable
      else
        var r := ReadOperands(if p.rest[0] == Comma then p.rest[1..] else p.rest);
        if r.Unreadable? then Unreadable else Read(Operand(p.value, r.value), r.rest)
  }

  function Parse(ts: seq<Token>): Option<Predicate> {
    var r := ReadPredicate(ts);
    if r.Read? && r.rest == [] then Some(r.value) else None
  }

  /** What may follow a predicate without becoming part of it. */
  ghost predicate Follows(ts: seq<Token>) {
    ts == [] || ts[0] == Comma || ts[0] == Close
  }

  lemma {:induction false} ReadsSpelled(p: Predicate, ts: seq<Token>, rest: seq<Token>)
    requires Spells(p, ts) && Follows(rest)
    ensures ReadPredicate(ts + rest) == Read(p, rest)
    decreases p
  {
    match p
    case Choice(key) =>
      ReadsChoice(key, ts, rest);
    case Combined(c, operands) =>
      ReadsAllSpelled(operands, ts[2..|ts| - 1], rest);
      CombinedRead(ts, rest);
  }

  lemma ReadsChoice(key: Key, ts: seq<Token>, rest: seq<Token>)
    requires Spells(Choice(key), ts) && Follows(rest)
    ensures ReadPredicate(ts + rest) == Read(Choice(key), rest)
  {
    hide ReadOperands;
    assert (ts + rest)[|ts|..] == rest;
  }

  /** Behind a combinator and its parenthesis, the operands are read. */
  lemma CombinedRead(ts: seq<Token>, rest: seq<Token>)
    requires |ts| >= 3 && ts[0].Name? && CombinatorOf(ts[0].name).Some? && ts[1] == Open && ts[|ts| - 1] == Close
    ensures var c, r := CombinatorOf(ts[0].name).value, ReadOperands(ts[2..|ts| - 1] + [Close] + rest);
            ReadPredicate(ts + rest) ==
            if r.Unreadable? || (c == Not && !Alone(r.value)) then Unreadable else Read(Combined(c, r.value), r.rest)
  {
    hide ReadOperands;
    assert (ts + rest)[2..] == ts[2..|ts| - 1] + [Close] + rest;
  }

  lemma {:induction false} ReadsAllSpelled(os: Operands, ts: seq<Token>, rest: seq<Token>)
    requires SpellsAll(os, ts)
    ensures ReadOperands(ts + [Close] + rest) == Read(os, rest)
    decreases os
  {
    var all := ts + [Close] + rest;
    match os
    case End =>
      assert all[1..] == rest;
    case Operand(first, others) =>
      var k :| 0 <= k <= |ts| && SpellsFirst(os, ts, k);
      StartsWithName(first, ts[..k]);
      assert all[0] == ts[..k][0];
      if k == |ts| {
        assert all == ts[..k] + ([Close] + rest);
        ReadsSpelled(first, ts[..k], [Close] + rest);
        assert ([Close] + rest)[1..] == rest;
      } else {
        var after := ts[k + 1..] + [Close] + rest;
        assert all == ts[..k] + ([Comma] + after);
        ReadsSpelled(first, ts[..k], [Comma] + after);
        ReadsAllSpelled(others, ts[k + 1..], rest);
        assert ([Comma] + after)[1..] == after;
      }
  }

  lemma StartsWithName(p: Predicate, ts: seq<Token>)
    requires Spells(p, ts)
    ensures ts != [] && ts[0].Name?
  {
  }

  lemma {:induction false} ReadIsSpelled(ts: seq<Token>)
    requires ReadPredicate(ts).Read?
    ensures var r := ReadPredicate(ts);
            var k := |ts| - |r.rest|;
            ts[k..] == r.rest && Spells(r.value, ts[..k])
    decreases |ts|, 0
  {
    if |ts| > 1 && ts[1] == Open {
      OperandsAreSpelled(ts[2..]);
      var r := ReadOperands(ts[2..]);
      var k := |ts| - |r.rest|;
      assert ts[2..][..k - 3] == ts[..k][2..k - 1];
    }
  }

  lemma {:induction false} OperandsAreSpelled(ts: seq<Token>)
    requires ReadOperands(ts).Read?
    ensures var r := ReadOperands(ts);
            var k := |ts| - |r.rest| - 1;
            ts[k] == Close && ts[k + 1..] == r.rest && SpellsAll(r.value, ts[..k])
    decreases |ts|, 1
  {
    hide *;
    ReadIsNotEmpty(ts);
    if ts[0] == Close {
      NoOperandIsSpelled(ts);
    } else {
      var p, next := FirstOperand(ts);
      ReadIsSpelled(ts);
      OperandsAreSpelled(next);
      FirstIsSpelled(ts, p, ReadOperands(next));
    }
  }

  lemma ReadIsNotEmpty(ts: seq<Token>)
    requires ReadOperands(ts).Read?
    ensures ts != []
  {
  }

  lemma NoOperandIsSpelled(ts: seq<Token>)
    requires ts != [] && ts[0] == Close
    ensures ReadOperands(ts) == Read(End, ts[1..]) && SpellsAll(End, ts[..0])
  {
  }

  lemma FirstOperand(ts: seq<Token>) returns (p: Read<Predicate>, next: seq<Token>)
    requires ReadOperands(ts).Read? && ts != [] && ts[0] != Close
    ensures p == ReadPredicate(ts) && p.Read? && p.rest != [] && (p.rest[0] == Comma || p.rest[0] == Close)
    ensures next == (if p.rest[0] == Comma then p.rest[1..] else p.rest) && |next| < |ts|
    ensures var r := ReadOperands(next);
            && r.Read? && |r.rest| < |next|
            && ReadOperands(ts) == Read(Operand(p.value, r.value), r.rest)
            && (p.rest[0] == Close ==> r == Read(End, next[1..]))
  {
    hide ReadPredicate;
    p := ReadPredicate(ts);
    next := if p.rest[0] == Comma then p.rest[1..] else p.rest;
  }

  lemma FirstIsSpelled(ts: seq<Token>, p: Read<Predicate>, r: Read<Operands>)
    requires p.Read? && r.Read? && p.rest != [] && |p.rest| <= |ts|
    requires var j := |ts| - |p.rest|; ts[j..] == p.rest && Spells(p.value, ts[..j])
    requires p.rest[0] == Comma || p.rest[0] == Close
    requires var next := if p.rest[0] == Comma then p.rest[1..] else p.rest;
             var k := |next| - |r.rest| - 1;
             && |r.rest| < |next| && next[k] == Close && next[k + 1..] == r.rest && SpellsAll(r.value, next[..k])
             && (p.rest[0] == Close ==> r == Read(End, next[1..]))
    ensures var k := |ts| - |r.rest| - 1;
            ts[k] == Close && ts[k + 1..] == r.rest && SpellsAll(Operand(p.value, r.value), ts[..k])
  {
    hide Spells;
    var j, k := |ts| - |p.rest|, |ts| - |r.rest| - 1;
    assert ts[..k][..j] == ts[..j];
    if p.rest[0] == Comma {
      var next := p.rest[1..];
      assert ts[..k][j + 1..] == next[..k - j - 1];
      assert ts[k] == next[k - j - 1];
    }
    assert SpellsFirst(Operand(p.value, r.value), ts[..k], j);
  }

  /** Reading accepts exactly the spellings of a predicate, and every spelling reads as what it spells. */
  lemma ParsesExactly(ts: seq<Token>, p: Predicate)
    ensures Parse(ts) == Some(p) <==> Spells(p, ts)
  {
    if Spells(p, ts) {
      ReadsSpelled(p, ts, []);
      assert ts + [] == ts;
    }
    if Parse(ts) == Some(p) {
      ReadIsSpelled(ts);
      assert ts[..|ts|] == ts;
    }
  }

  // ----- Printing -----

  function WordOf(c: Combinator): (name: string)
    ensures CombinatorOf(name) == Some(c)
  {
    match c case All => "all" case Any => "any" case Not => "not"
  }

  function Enclosed(word: Token, inner: seq<Token>): (ts: seq<Token>)
    ensures |ts| == |inner| + 3 && ts[0] == word && ts[1] == Open && ts[|ts| - 1] == Close
    ensures ts[2..|ts| - 1] == inner
  {
    [word, Open] + inner + [Close]
  }

  function Print(p: Predicate): seq<Token> {
    match p
    case Choice(Plain(name)) => [Name(name)]
    case Choice(Valued(name, text)) => [Name(name), Equals, Text(text)]
    case Combined(c, operands) =>
      Enclosed(Name(WordOf(c)), PrintAll(operands))
  }

  function PrintAll(os: Operands): seq<Token> {
    match os
    case End => []
    case Operand(first, rest) => Print(first) + if rest.End? then [] else [Comma] + PrintAll(rest)
  }

  /** Every negation has its one operand, as reading demands. */
  ghost predicate WellFormed(p: Predicate) {
    p.Combined? ==> (p.combinator == Not ==> Alone(p.operands)) && AllWellFormed(p.operands)
  }

  ghost predicate AllWellFormed(os: Operands) {
    os.Operand? ==> WellFormed(os.first) && AllWellFormed(os.rest)
  }

  lemma {:induction false} PrintSpells(p: Predicate)
    requires WellFormed(p)
    ensures Spells(p, Print(p))
  {
    if p.Combined? {
      PrintAllSpells(p.operands);
      hide Enclosed, WordOf, CombinatorOf;
    }
  }

  lemma {:induction false} PrintAllSpells(os: Operands)
    requires AllWellFormed(os)
    ensures SpellsAll(os, PrintAll(os))
  {
    if os.Operand? {
      PrintSpells(os.first);
      PrintAllSpells(os.rest);
      var ts, k := PrintAll(os), |Print(os.first)|;
      assert ts[..k] == Print(os.first);
      assert k < |ts| ==> ts[k + 1..] == PrintAll(os.rest);
      assert SpellsFirst(os, ts, k);
    }
  }

  /** Reading undoes printing, for exactly the predicates whose negations have one operand. */
  lemma ParseUndoesPrint(p: Predicate)
    ensures Parse(Print(p)) == Some(p) <==> WellFormed(p)
  {
    if WellFormed(p) {
      PrintSpells(p);
      ParsesExactly(Print(p), p);
    }
    if Parse(Print(p)) == Some(p) {
      ParsesExactly(Print(p), p);
      SpelledIsWellFormed(p, Print(p));
    }
  }

  lemma {:induction false} SpelledIsWellFormed(p: Predicate, ts: seq<Token>)
    requires Spells(p, ts)
    ensures WellFormed(p)
    decreases p
  {
    if p.Combined? {
      AllSpelledAreWellFormed(p.operands, ts[2..|ts| - 1]);
    }
  }

  lemma {:induction false} AllSpelledAreWellFormed(os: Operands, ts: seq<Token>)
    requires SpellsAll(os, ts)
    ensures AllWellFormed(os)
    decreases os
  {
    if os.Operand? {
      var k :| 0 <= k <= |ts| && SpellsFirst(os, ts, k);
      SpelledIsWellFormed(os.first, ts[..k]);
      if k < |ts| {
        AllSpelledAreWellFormed(os.rest, ts[k + 1..]);
      }
    }
  }

  // ----- The reader as it goes over the tokens -----

  function Append(os: Operands, p: Predicate): Operands {
    if os.End? then Operand(p, End) else Operand(os.first, Append(os.rest, p))
  }

  function Concat(a: Operands, b: Operands): Operands {
    if a.End? then b else Operand(a.first, Concat(a.rest, b))
  }

  lemma {:induction false} AppendConcat(a: Operands, p: Predicate, b: Operands)
    ensures Concat(Append(a, p), b) == Concat(a, Operand(p, b))
  {
    if a.Operand? {
      AppendConcat(a.rest, p, b);
    }
  }

  /** What reading the operands gives once some of them are read. */
  ghost function Prepend(a: Operands, r: Read<Operands>): Read<Operands> {
    if r.Unreadable? then r else Read(Concat(a, r.value), r.rest)
  }

  lemma {:induction false} ConcatEnd(a: Operands)
    ensures Concat(a, End) == a
  {
    if a.Operand? {
      ConcatEnd(a.rest);
    }
  }

  lemma NoMoreOperands(ts: seq<Token>)
    requires ts == [] || ts[0] == Close
    ensures ReadOperands(ts) == if ts == [] then Unreadable else Read(End, ts[1..])
  {
  }

  lemma UnreadableOperand(ts: seq<Token>)
    requires ts != [] && ts[0] != Close && ReadPredicate(ts).Unreadable?
    ensures ReadOperands(ts).Unreadable?
  {
  }

  /** One round of the operands' loop. */
  lemma OperandStep(tokens: seq<Token>, index: nat, after: nat, done: Operands)
    requires index < after <= |tokens| && tokens[index] != Close
    requires var p := ReadPredicate(tokens[index..]); p.Read? && tokens[after..] == p.rest
    ensures var p := ReadPredicate(tokens[index..]);
            var more := Append(done, p.value);
            Prepend(done, ReadOperands(tokens[index..])) ==
            if after < |tokens| && tokens[after] == Comma then Prepend(more, ReadOperands(tokens[after + 1..]))
            else if after < |tokens| && tokens[after] == Close then Prepend(more, ReadOperands(tokens[after..]))
            else Unreadable
  {
    hide ReadPredicate, Append, Concat;
    var p := ReadPredicate(tokens[index..]);
    assert after < |tokens| ==> tokens[after..][1..] == tokens[after + 1..];
    if after < |tokens| && (tokens[after] == Comma || tokens[after] == Close) {
      var r := ReadOperands(if tokens[after] == Comma then tokens[after + 1..] else tokens[after..]);
      if r.Read? {
        AppendConcat(done, p.value, r.value);
      }
    }
  }

  /** The predicate at an index, and the index after it. */
  method ParseAt(tokens: seq<Token>, start: nat) returns (found: Option<Predicate>, index: nat)
    ensures start <= |tokens| ==>
              var r := ReadPredicate(tokens[start..]);
              if r.Unreadable? then found == None
              else found == Some(r.value) && start < index <= |tokens| && tokens[index..] == r.rest
    ensures start >= |tokens| ==> found == None
    decreases |tokens| - start, 0
  {
    found, index := None, start;
    if start >= |tokens| || !tokens[start].Name? {
      return;
    }
    var name := tokens[start].name;
    index := start + 1;
    if index < |tokens| && tokens[index] == Equals {
      if index + 1 >= |tokens| || !tokens[index + 1].Text? {
        return;
      }
      found, index := Some(Choice(Valued(name, tokens[index + 1].text))), index + 2;
      return;
    }
    if index >= |tokens| || tokens[index] != Open {
      found := Some(Choice(Plain(name)));
      return;
    }
    var c := CombinatorOf(name);
    if c == None {
      return;
    }
    var operands;
    operands, index := ParseOperands(tokens, index + 1);
    if operands == None || (c.value == Not && !Alone(operands.value)) {
      return;
    }
    found := Some(Combined(c.value, operands.value));
  }

  /** The operands from an index up to their closing parenthesis. */
  method ParseOperands(tokens: seq<Token>, start: nat) returns (found: Option<Operands>, index: nat)
    requires start <= |tokens|
    ensures var r := ReadOperands(tokens[start..]);
            if r.Unreadable? then found == None
            else found == Some(r.value) && start < index <= |tokens| && tokens[index..] == r.rest
    decreases |tokens| - start, 1
  {
    hide ReadPredicate, ReadOperands;
    var operands: Operands := End;
    found, index := None, start;
    while index < |tokens| && tokens[index] != Close
      invariant start <= index <= |tokens|
      invariant ReadOperands(tokens[start..]) == Prepend(operands, ReadOperands(tokens[index..]))
      decreases |tokens| - index
    {
      var operand, after := ParseAt(tokens, index);
      if operand == None {
        UnreadableOperand(tokens[index..]);
        return;
      }
      OperandStep(tokens, index, after, operands);
      operands, index := Append(operands, operand.value), after;
      if index < |tokens| && tokens[index] == Comma {
        index := index + 1;
      } else if index >= |tokens| || tokens[index] != Close {
        return;
      }
    }
    NoMoreOperands(tokens[index..]);
    if index >= |tokens| {
      return;
    }
    ConcatEnd(operands);
    assert tokens[index..][1..] == tokens[index + 1..];
    found, index := Some(operands), index + 1;
  }

  /** Read a whole condition. */
  method ParseCondition(tokens: seq<Token>) returns (found: Option<Predicate>)
    ensures found == Parse(tokens)
  {
    assert tokens[0..] == tokens;
    var p, index := ParseAt(tokens, 0);
    found := if p.Some? && index == |tokens| then p else None;
  }

  // ----- The value without Loom -----

  /** The value where the options that are set are `on`. */
  ghost predicate Holds(p: Predicate, on: iset<Key>) {
    match p
    case Choice(key) => key in on
    case Combined(All, os) => AllHold(os, on)
    case Combined(Any, os) => AnyHolds(os, on)
    case Combined(Not, os) => !AnyHolds(os, on)
  }

  ghost predicate AllHold(os: Operands, on: iset<Key>) {
    os.Operand? ==> Holds(os.first, on) && AllHold(os.rest, on)
  }

  ghost predicate AnyHolds(os: Operands, on: iset<Key>) {
    os.Operand? && (Holds(os.first, on) || AnyHolds(os.rest, on))
  }

  ghost function List(os: Operands): seq<Predicate> {
    if os.End? then [] else [os.first] + List(os.rest)
  }

  lemma {:induction false} OperandsHold(os: Operands, on: iset<Key>)
    ensures AllHold(os, on) <==> forall q :: q in List(os) ==> Holds(q, on)
    ensures AnyHolds(os, on) <==> exists q :: q in List(os) && Holds(q, on)
  {
    if os.Operand? {
      OperandsHold(os.rest, on);
      assert forall q :: q in List(os) <==> q == os.first || q in List(os.rest);
      assert AllHold(os, on) <==> Holds(os.first, on) && AllHold(os.rest, on);
      assert AnyHolds(os, on) <==> Holds(os.first, on) || AnyHolds(os.rest, on);
      hide Holds, AllHold, AnyHolds, List;
      assert os.first in List(os);
      if !AllHold(os.rest, on) {
        var q :| q in List(os.rest) && !Holds(q, on);
        assert q in List(os);
      }
    }
  }

  /** What the words mean: `all` holds if each of its operands does, `any` if one does, and `not` if its one operand
      does not. */
  lemma WordsMean(p: Predicate, ts: seq<Token>, on: iset<Key>)
    requires Spells(p, ts) && p.Combined?
    ensures ts[0] == Name("all") || ts[0] == Name("any") || ts[0] == Name("not")
    ensures ts[0] == Name("all") ==> (Holds(p, on) <==> forall q :: q in List(p.operands) ==> Holds(q, on))
    ensures ts[0] == Name("any") ==> (Holds(p, on) <==> exists q :: q in List(p.operands) && Holds(q, on))
    ensures ts[0] == Name("not") ==> |List(p.operands)| == 1 && (Holds(p, on) <==> !Holds(List(p.operands)[0], on))
  {
    OperandsHold(p.operands, on);
    hide SpellsAll;
    if ts[0] == Name("not") {
      assert Alone(p.operands) && List(p.operands) == [p.operands.first] + List(End);
      assert !AnyHolds(p.operands.rest, on);
    }
  }

  /** Three values: true or false with Loom off, or neither for certain. */
  function WithoutLoom(p: Predicate): Option<bool>
    requires WellFormed(p)
  {
    match p
    case Choice(key) => if key == LOOM then Some(false) else None
    case Combined(c, os) =>
      var values := Values(os);
      if c == Not then if values[0] == None then None else Some(!values[0].value)
      else if c == All then if Some(false) in values then Some(false) else if None in values then None else Some(true)
      else if Some(true) in values then Some(true) else if None in values then None else Some(false)
  }

  function Values(os: Operands): (values: seq<Option<bool>>)
    requires AllWellFormed(os)
    ensures os.Operand? <==> values != []
  {
    if os.End? then [] else [WithoutLoom(os.first)] + Values(os.rest)
  }

  /** A definite value is the predicate's value under every setting of the other options. */
  lemma {:induction false} WithoutLoomIsSound(p: Predicate, on: iset<Key>)
    requires WellFormed(p) && LOOM !in on && WithoutLoom(p).Some?
    ensures Holds(p, on) == WithoutLoom(p).value
    decreases p
  {
    if p.Combined? {
      ValuesAreSound(p.operands, on);
    }
  }

  lemma {:induction false} ValuesAreSound(os: Operands, on: iset<Key>)
    requires AllWellFormed(os) && LOOM !in on
    ensures Some(false) in Values(os) ==> !AllHold(os, on)
    ensures Some(false) !in Values(os) && None !in Values(os) ==> AllHold(os, on)
    ensures Some(true) in Values(os) ==> AnyHolds(os, on)
    ensures Some(true) !in Values(os) && None !in Values(os) ==> !AnyHolds(os, on)
    decreases os
  {
    if os.Operand? {
      var first := WithoutLoom(os.first);
      if first.Some? {
        WithoutLoomIsSound(os.first, on);
      }
      ValuesAreSound(os.rest, on);
    }
  }

  // ----- Where the value is exact -----

  ghost function Keys(p: Predicate): iset<Key> {
    if p.Choice? then if p.key == LOOM then iset{} else iset{p.key} else AllKeys(p.operands)
  }

  ghost function AllKeys(os: Operands): iset<Key> {
    if os.End? then iset{} else Keys(os.first) + AllKeys(os.rest)
  }

  /** No option but Loom stands in two operands of one predicate. */
  ghost predicate ReadOnce(p: Predicate) {
    p.Combined? ==> AllReadOnce(p.operands)
  }

  ghost predicate AllReadOnce(os: Operands) {
    os.Operand? ==> ReadOnce(os.first) && AllReadOnce(os.rest) && Keys(os.first) !! AllKeys(os.rest)
  }

  ghost predicate Agree(x: iset<Key>, y: iset<Key>, keys: iset<Key>) {
    LOOM !in x && LOOM !in y && forall k :: k in keys ==> (k in x <==> k in y)
  }

  lemma {:induction false} HoldsAlike(p: Predicate, x: iset<Key>, y: iset<Key>)
    requires Agree(x, y, Keys(p))
    ensures Holds(p, x) == Holds(p, y)
    decreases p
  {
    if p.Combined? {
      AllHoldAlike(p.operands, x, y);
    }
  }

  lemma {:induction false} AllHoldAlike(os: Operands, x: iset<Key>, y: iset<Key>)
    requires Agree(x, y, AllKeys(os))
    ensures AllHold(os, x) == AllHold(os, y) && AnyHolds(os, x) == AnyHolds(os, y)
    decreases os
  {
    if os.Operand? {
      HoldsAlike(os.first, x, y);
      AllHoldAlike(os.rest, x, y);
    }
  }

  /** An undecided predicate that reads each option once takes either value. */
  lemma {:induction false} Undecided(p: Predicate, want: bool) returns (on: iset<Key>)
    requires WellFormed(p) && ReadOnce(p) && WithoutLoom(p) == None
    ensures on <= Keys(p) && LOOM !in on && Holds(p, on) == want
    decreases p, 0
  {
    match p
    case Choice(key) =>
      on := if want then iset{key} else iset{};
    case Combined(c, os) =>
      if c == Not {
        assert Values(os)[0] == WithoutLoom(os.first);
        on := Undecided(os.first, !want);
        assert !AnyHolds(os.rest, on);
      } else if (c == All) == want {
        on := Every(os, want);
      } else {
        on := SomeOperand(os, want);
      }
  }

  /** A setting that gives every operand the value, where none has the other one for certain. */
  lemma {:induction false} Every(os: Operands, want: bool) returns (on: iset<Key>)
    requires AllWellFormed(os) && AllReadOnce(os) && Some(!want) !in Values(os)
    ensures on <= AllKeys(os) && LOOM !in on && if want then AllHold(os, on) else !AnyHolds(os, on)
    decreases os, 1
  {
    on := iset{};
    if os.Operand? {
      var first: iset<Key> := iset{};
      assert Some(!want) !in Values(os.rest);
      var rest := Every(os.rest, want);
      if WithoutLoom(os.first) == None {
        first := Undecided(os.first, want);
      } else {
        assert Values(os)[0] == WithoutLoom(os.first);
        WithoutLoomIsSound(os.first, first);
      }
      on := first + rest;
      HoldsAlike(os.first, first, on);
      AllHoldAlike(os.rest, rest, on);
    }
  }

  /** A setting that gives some operand the value, where one is undecided. */
  lemma {:induction false} SomeOperand(os: Operands, want: bool) returns (on: iset<Key>)
    requires AllWellFormed(os) && AllReadOnce(os) && None in Values(os)
    ensures on <= AllKeys(os) && LOOM !in on && if want then AnyHolds(os, on) else !AllHold(os, on)
    decreases os, 1
  {
    if WithoutLoom(os.first) == None {
      on := Undecided(os.first, want);
    } else {
      assert None in Values(os.rest);
      on := SomeOperand(os.rest, want);
    }
  }

  /** Where each option is read once, the value is definite exactly when every setting without Loom gives it. */
  lemma WithoutLoomIsExact(p: Predicate, value: bool)
    requires WellFormed(p) && ReadOnce(p)
    ensures WithoutLoom(p) == Some(value) <==> forall on: iset<Key> :: LOOM !in on ==> Holds(p, on) == value
  {
    forall on: iset<Key> | LOOM !in on && WithoutLoom(p) == Some(value) ensures Holds(p, on) == value {
      WithoutLoomIsSound(p, on);
    }
    if WithoutLoom(p) == None {
      var on := Undecided(p, !value);
    } else if WithoutLoom(p) == Some(!value) {
      WithoutLoomIsSound(p, iset{});
    }
  }

  /** Where an option is read twice, a predicate that never varies may be left undecided. */
  lemma ReadTwiceMayBeUndecided() returns (p: Predicate)
    ensures WellFormed(p) && WithoutLoom(p) == None && forall on: iset<Key> :: Holds(p, on)
  {
    var x := Choice(Plain("unix"));
    var negation := Combined(Not, Operand(x, End));
    p := Combined(Any, Operand(x, Operand(negation, End)));
    assert WithoutLoom(x) == None;
    assert Values(Operand(x, End))[0] == None;
    assert WithoutLoom(negation) == None;
    assert Values(p.operands) == [None, None];
    forall on: iset<Key> ensures Holds(p, on) {
      assert Holds(negation, on) == !Holds(x, on) by {
        assert !AnyHolds(End, on);
      }
    }
  }

  // ----- Items only for Loom -----

  datatype Verdict = Malformed | LoomOnly | Ordinary

  /** The condition is readable, and does not rule out a build without Loom for certain. */
  ghost predicate Admits(condition: seq<Token>) {
    var p := Parse(condition);
    p.Some? && WellFormed(p.value) && WithoutLoom(p.value) != Some(false)
  }

  ghost predicate NeverWithoutLoom(condition: seq<Token>) {
    Parse(condition).Some? && forall on: iset<Key> :: LOOM !in on ==> !Holds(Parse(condition).value, on)
  }

  /** Whether an item's conditions leave it out of every build without Loom: the first one that does not
      admit such a build decides. */
  method CheckLoomOnly(conditions: seq<seq<Token>>) returns (v: Verdict)
    ensures v == Ordinary ==> forall i :: 0 <= i < |conditions| ==> Admits(conditions[i])
    ensures v != Ordinary ==>
              exists i :: 0 <= i < |conditions| && (forall j :: 0 <= j < i ==> Admits(conditions[j])) &&
                  !Admits(conditions[i]) &&
                if v == LoomOnly then NeverWithoutLoom(conditions[i]) else Parse(conditions[i]) == None
  {
    hide Holds, Parse;
    var i := 0;
    while i < |conditions|
      invariant 0 <= i <= |conditions| && forall j :: 0 <= j < i ==> Admits(conditions[j])
    {
      var p := ParseCondition(conditions[i]);
      if p == None {
        assert !Admits(conditions[i]);
        return Malformed;
      }
      ParsesExactly(conditions[i], p.value);
      SpelledIsWellFormed(p.value, conditions[i]);
      if WithoutLoom(p.value) == Some(false) {
        forall on: iset<Key> | LOOM !in on ensures !Holds(p.value, on) {
          WithoutLoomIsSound(p.value, on);
        }
        assert NeverWithoutLoom(conditions[i]) && !Admits(conditions[i]);
        return LoomOnly;
      }
      i := i + 1;
    }
    v := Ordinary;
  }
}
