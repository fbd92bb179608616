/** The tree of a `use` item, and the full paths it imports. */
module UseTree {
  import opened Options

  datatype Token = Ident(text: string) | Colons | LeftBrace | RightBrace | Comma | Star

  type Path = seq<string>

  datatype Import = Import(path: Path, alias: Option<string>)

  /** What a `use` item imports below a path. */
  datatype Tree =
    | Name(name: string, alias: Option<string>)
    | Glob
    | Below(name: string, tree: Tree)
    | Group(trees: Trees)

  datatype Trees = End | More(first: Tree, rest: Trees)

  // ----- The meaning and the spelling of a tree -----

  /** The paths a tree imports; `self` imports the path it stands below. */
  function Flatten(t: Tree, prefix: Path): seq<Import> {
    match t
    case Name(name, alias) => [Import(if name == "self" then prefix else prefix + [name], alias)]
    case Glob => [Import(prefix + ["*"], None)]
    case Below(name, tree) => Flatten(tree, prefix + [name])
    case Group(trees) => FlattenAll(trees, prefix)
  }

  function FlattenAll(ts: Trees, prefix: Path): seq<Import> {
    if ts.End? then [] else Flatten(ts.first, prefix) + FlattenAll(ts.rest, prefix)
  }

  /** The tokens spell the tree, after a leading `::` or without one. */
  ghost predicate Spells(t: Tree, ts: seq<Token>)
    decreases t, 1
  {
    SpellsBare(t, ts) || (ts != [] && ts[0] == Colons && SpellsBare(t, ts[1..]))
  }

  ghost predicate SpellsBare(t: Tree, ts: seq<Token>)
    decreases t, 0
  {
    match t
    case Name(name, None) => ts == [Ident(name)]
    case Name(name, Some(alias)) => ts == [Ident(name), Ident("as"), Ident(alias)]
    case Glob => ts == [Star]
    case Below(name, tree) => |ts| > 2 && ts[0] == Ident(name) && ts[1] == Colons && SpellsBare(tree, ts[2..])
    case Group(trees) =>
      && |ts| >= 2 && ts[0] == LeftBrace && ts[|ts| - 1] == RightBrace
      && SpellsAll(trees, ts[1..|ts| - 1])
  }

  /** The tokens spell the trees, a comma after each but at will after the last. */
  ghost predicate SpellsAll(trees: Trees, ts: seq<Token>)
    decreases trees, 1
  {
    if trees.End? then ts == [] else exists k :: 0 <= k <= |ts| && SpellsFirst(trees, ts, k)
  }

  ghost predicate SpellsFirst(trees: Trees, ts: seq<Token>, k: nat)
    requires trees.More? && k <= |ts|
    decreases trees, 0
  {
    && Spells(trees.first, ts[..k])
    && if k == |ts| then trees.rest.End? else ts[k] == Comma && SpellsAll(trees.rest, ts[k + 1..])
  }

  // ----- Reading -----

  /** What reading comes to: the imports and what follows them, an early end, or an index past the tokens. */
  datatype Read = Read(imports: seq<Import>, rest: seq<Token>) | EndsEarly | OutOfRange

  function Text(t: Token): string {
    match t
    case Ident(text) => text
    case Colons => "::"
    case LeftBrace => "{"
    case RightBrace => "}"
    case Comma => ","
    case Star => "*"
  }

  function ReadTree(ts: seq<Token>, prefix: Path): (r: Read)
    ensures r.Read? ==> |r.rest| < |ts|
    decreases |ts|, 1
  {
    ReadBare(if ts != [] && ts[0] == Colons then ts[1..] else ts, prefix)
  }

  /** A tree after its leading `::`, if any. Whatever token stands where a name should is taken for one. */
  function ReadBare(ts: seq<Token>, prefix: Path): (r: Read)
    ensures r.Read? ==> |r.rest| < |ts|
    decreases |ts|, 0
  {
    if ts == [] then EndsEarly
    else if ts[0] == LeftBrace then ReadGroup(ts[1..], prefix)
    else if ts[0] == Star then Read([Import(prefix + ["*"], None)], ts[1..])
    else if |ts| > 1 && ts[1] == Colons then ReadTree(ts[2..], prefix + [Text(ts[0])])
    else
      var named := |ts| > 2 && ts[1] == Ident("as");
      var path := if ts[0] == Ident("self") then prefix else prefix + [Text(ts[0])];
      Read([Import(path, if named then Some(Text(ts[2])) else None)], if named then ts[3..] else ts[1..])
  }

  function ReadGroup(ts: seq<Token>, prefix: Path): (r: Read)
    ensures r.Read? ==> |r.rest| < |ts|
    decreases |ts|, 2
  {
    if ts == [] then OutOfRange
    else if ts[0] == RightBrace then Read([], ts[1..])
    else
      var first := ReadTree(ts, prefix);
      if !first.Read? then first
      else if first.rest == [] then OutOfRange
      else
        var others := ReadGroup(if first.rest[0] == Comma then first.rest[1..] else first.rest, prefix);
        if !others.Read? then others else Read(first.imports + others.imports, others.rest)
  }

  datatype Result = Imports(imports: seq<Import>) | Unreadable | Crash

  function UseLeaves(ts: seq<Token>): Result {
    var r := ReadTree(ts, []);
    if r.OutOfRange? then Crash else if r.Read? && r.rest == [] then Imports(r.imports) else Unreadable
  }

  // ----- A spelled tree reads as what it imports -----

  ghost predicate Follows(ts: seq<Token>) {
    ts == [] || ts[0] == Comma || ts[0] == RightBrace
  }

  lemma {:induction false} ReadsBare(t: Tree, ts: seq<Token>, rest: seq<Token>, prefix: Path)
    requires SpellsBare(t, ts) && Follows(rest)
    ensures ts != [] && ts[0] != Colons && ts[0] != RightBrace
    ensures ReadTree(ts + rest, prefix) == Read(Flatten(t, prefix), rest)
    decreases t, 0
  {
    var all := ts + rest;
    match t
    case Name(name, alias) =>
      assert all[|ts|..] == rest;
    case Glob =>
      assert all[1..] == rest;
    case Below(name, tree) =>
      ReadsBare(tree, ts[2..], rest, prefix + [name]);
      BelowRead(ts, rest, prefix);
    case Group(trees) =>
      ReadsAll(trees, ts[1..|ts| - 1], rest, prefix);
      GroupRead(ts, rest, prefix);
  }

  lemma BelowRead(ts: seq<Token>, rest: seq<Token>, prefix: Path)
    requires |ts| > 2 && ts[0].Ident? && ts[1] == Colons
    ensures ReadTree(ts + rest, prefix) == ReadTree(ts[2..] + rest, prefix + [ts[0].text])
  {
    assert (ts + rest)[2..] == ts[2..] + rest;
  }

  lemma GroupRead(ts: seq<Token>, rest: seq<Token>, prefix: Path)
    requires |ts| >= 2 && ts[0] == LeftBrace && ts[|ts| - 1] == RightBrace
    ensures ReadTree(ts + rest, prefix) == ReadGroup(ts[1..|ts| - 1] + [RightBrace] + rest, prefix)
  {
    hide ReadGroup;
    assert (ts + rest)[1..] == ts[1..|ts| - 1] + [RightBrace] + rest;
  }

  lemma {:induction false} ReadsSpelled(t: Tree, ts: seq<Token>, rest: seq<Token>, prefix: Path)
    requires Spells(t, ts) && Follows(rest)
    ensures ts != [] && ts[0] != RightBrace
    ensures ReadTree(ts + rest, prefix) == Read(Flatten(t, prefix), rest)
    decreases t, 1
  {
    if SpellsBare(t, ts) {
      ReadsBare(t, ts, rest, prefix);
    } else {
      var bare := ts[1..];
      ReadsBare(t, bare, rest, prefix);
      assert (ts + rest)[1..] == bare + rest;
      LeadingColons(ts + rest, prefix);
    }
  }

  lemma LeadingColons(ts: seq<Token>, prefix: Path)
    requires |ts| > 1 && ts[0] == Colons && ts[1] != Colons
    ensures ReadTree(ts, prefix) == ReadTree(ts[1..], prefix)
  {
  }

  lemma {:induction false} ReadsAll(trees: Trees, ts: seq<Token>, rest: seq<Token>, prefix: Path)
    requires SpellsAll(trees, ts)
    ensures ReadGroup(ts + [RightBrace] + rest, prefix) == Read(FlattenAll(trees, prefix), rest)
    decreases trees, 2
  {
    hide ReadTree, Spells;
    var all := ts + [RightBrace] + rest;
    if trees.End? {
      assert all[1..] == rest;
    } else {
      var k :| 0 <= k <= |ts| && SpellsFirst(trees, ts, k);
      var first := ts[..k];
      if k == |ts| {
        assert all == first + ([RightBrace] + rest);
        ReadsSpelled(trees.first, first, [RightBrace] + rest, prefix);
        assert ([RightBrace] + rest)[1..] == rest;
      } else {
        var after := ts[k + 1..] + [RightBrace] + rest;
        assert all == first + ([Comma] + after);
        ReadsSpelled(trees.first, first, [Comma] + after, prefix);
        ReadsAll(trees.rest, ts[k + 1..], rest, prefix);
        assert ([Comma] + after)[1..] == after;
      }
    }
  }

  /** Every spelling of a tree is read as exactly the paths and aliases the tree imports. */
  lemma SpelledTreesImport(t: Tree, ts: seq<Token>)
    requires Spells(t, ts)
    ensures UseLeaves(ts) == Imports(Flatten(t, []))
  {
    ReadsSpelled(t, ts, [], []);
    assert ts + [] == ts;
  }

  function Print(t: Tree): seq<Token> {
    match t
    case Name(name, alias) => [Ident(name)] + if alias == None then [] else [Ident("as"), Ident(alias.value)]
    case Glob => [Star]
    case Below(name, tree) => [Ident(name), Colons] + Print(tree)
    case Group(trees) => [LeftBrace] + PrintAll(trees) + [RightBrace]
  }

  function PrintAll(ts: Trees): seq<Token> {
    if ts.End? then [] else Print(ts.first) + if ts.rest.End? then [] else [Comma] + PrintAll(ts.rest)
  }

  lemma {:induction false} PrintSpells(t: Tree)
    ensures SpellsBare(t, Print(t)) && Print(t) != []
  {
    if t.Below? {
      PrintSpells(t.tree);
      assert Print(t)[2..] == Print(t.tree);
    } else if t.Group? {
      PrintAllSpells(t.trees);
      assert Print(t)[1..|Print(t)| - 1] == PrintAll(t.trees);
    }
  }

  lemma {:induction false} PrintAllSpells(trees: Trees)
    ensures SpellsAll(trees, PrintAll(trees))
  {
    if trees.More? {
      PrintSpells(trees.first);
      PrintAllSpells(trees.rest);
      var ts, k := PrintAll(trees), |Print(trees.first)|;
      assert ts[..k] == Print(trees.first);
      assert k < |ts| ==> ts[k + 1..] == PrintAll(trees.rest);
      assert SpellsFirst(trees, ts, k);
    }
  }

  /** A printed tree is read as exactly what it imports. */
  lemma PrintedTreesImport(t: Tree)
    ensures UseLeaves(Print(t)) == Imports(Flatten(t, []))
  {
    PrintSpells(t);
    SpelledTreesImport(t, Print(t));
  }

  // ----- When reading fails, and how -----

  /** What one look at the next token knows: a tree must come, with or without a leading `::`; a tree or the
      group's end; a name stands, that `::` or `as` may follow; an alias must come; a tree ended; or tokens
      follow the whole tree. */
  datatype Mode = Want | Led | Item | Named | Aliasing | Between | Excess

  /** That, and how many groups are open. */
  datatype Position = Position(mode: Mode, depth: nat)

  function AtName(token: Token, depth: nat): Position {
    if token == LeftBrace then Position(Item, depth + 1)
    else if token == Star then Position(Between, depth)
    else Position(Named, depth)
  }

  function AtTree(token: Token, depth: nat): Position {
    if token == Colons then Position(Led, depth) else AtName(token, depth)
  }

  function AtItem(token: Token, depth: nat): Position {
    if token == RightBrace && depth > 0 then Position(Between, depth - 1) else AtTree(token, depth)
  }

  function AfterTree(token: Token, depth: nat): Position {
    if depth == 0 then Position(Excess, 0) else if token == Comma then Position(Item, depth) else AtItem(token, depth)
  }

  function Move(p: Position, token: Token): Position {
    match p.mode
    case Want => AtTree(token, p.depth)
    case Led => AtName(token, p.depth)
    case Item => AtItem(token, p.depth)
    case Named =>
      if token == Colons then p.(mode := Want)
      else if token == Ident("as") then p.(mode := Aliasing)
      else AfterTree(token, p.depth)
    case Aliasing => p.(mode := Between)
    case Between => AfterTree(token, p.depth)
    case Excess => p
  }

  /** One pass over the tokens, which counts open groups and keeps nothing else. A brace counts only where a
      tree or a group's end may stand: elsewhere it is a name. */
  function Scan(p: Position, ts: seq<Token>): Position
    decreases |ts|
  {
    if ts == [] then p else Scan(Move(p, ts[0]), ts[1..])
  }

  const START := Position(Want, 0)

  /** The tokens end inside a group, where the group could go on or end. */
  predicate RunsOut(p: Position) {
    p.depth > 0 && p.mode != Want && p.mode != Led
  }

  /** The tokens end with the tree. */
  predicate IsWhole(p: Position) {
    p.depth == 0 && (p.mode == Between || p.mode == Named)
  }

  ghost predicate Alike(p: Position, q: Position) {
    RunsOut(p) == RunsOut(q) && IsWhole(p) == IsWhole(q)
  }

  lemma {:induction false} ExcessStays(ts: seq<Token>)
    ensures Scan(Position(Excess, 0), ts) == Position(Excess, 0)
    decreases |ts|
  {
    if ts != [] {
      ExcessStays(ts[1..]);
    }
  }

  /** A name that nothing continues is a tree that ended. */
  lemma NameEnds(depth: nat, rest: seq<Token>)
    requires !(rest != [] && rest[0] == Colons) && !(|rest| > 1 && rest[0] == Ident("as"))
    ensures Alike(Scan(Position(Named, depth), rest), Scan(Position(Between, depth), rest))
  {
    if |rest| == 1 {
      assert rest[1..] == [];
    }
  }

  /** How a scan ends that met a tree at `depth`: as one after the tree does, or as the reader failed. */
  ghost predicate Ends(r: Read, scanned: Position, depth: nat) {
    match r
    case Read(_, rest) => Alike(scanned, Scan(Position(Between, depth), rest))
    case EndsEarly => !RunsOut(scanned) && !IsWhole(scanned)
    case OutOfRange => RunsOut(scanned)
  }

  lemma {:induction false} ScansTree(ts: seq<Token>, prefix: Path, depth: nat)
    ensures Ends(ReadTree(ts, prefix), Scan(Position(Want, depth), ts), depth)
    decreases |ts|, 1
  {
    if ts != [] && ts[0] == Colons {
      ScansBare(ts[1..], prefix, depth);
    } else {
      ScansBare(ts, prefix, depth);
    }
  }

  lemma {:induction false} ScansBare(us: seq<Token>, prefix: Path, depth: nat)
    ensures Ends(ReadBare(us, prefix), Scan(Position(Led, depth), us), depth)
    decreases |us|, 0
  {
    if us != [] {
      var rest := us[1..];
      if us[0] == LeftBrace {
        ScansGroup(rest, prefix, depth);
      } else if us[0] != Star {
        if rest != [] && rest[0] == Colons {
          assert us[2..] == rest[1..];
          ScansTree(us[2..], prefix + [Text(us[0])], depth);
        } else if |rest| > 1 && rest[0] == Ident("as") {
          assert us[3..] == rest[1..][1..];
          assert Scan(Position(Named, depth), rest) == Scan(Position(Aliasing, depth), rest[1..]);
        } else {
          NameEnds(depth, rest);
        }
      }
    }
  }

  lemma {:induction false} ScansGroup(ts: seq<Token>, prefix: Path, depth: nat)
    ensures Ends(ReadGroup(ts, prefix), Scan(Position(Item, depth + 1), ts), depth)
    decreases |ts|, 2
  {
    hide ReadTree;
    if ts != [] && ts[0] != RightBrace {
      assert Scan(Position(Item, depth + 1), ts) == Scan(Position(Want, depth + 1), ts);
      ScansTree(ts, prefix, depth + 1);
      var first := ReadTree(ts, prefix);
      if first.Read? && first.rest != [] {
        ScansGroup(if first.rest[0] == Comma then first.rest[1..] else first.rest, prefix, depth);
      }
    }
  }

  /** Reading runs past the tokens exactly when they end inside an open group, groups counted as one pass over
      the tokens counts them, and not right after a `::` or where a tree must come; it returns the imports
      exactly when they end with the tree. Otherwise it raises its own error. */
  lemma FailsExactly(ts: seq<Token>)
    ensures UseLeaves(ts) == Crash <==> RunsOut(Scan(START, ts))
    ensures UseLeaves(ts).Imports? <==> IsWhole(Scan(START, ts))
  {
    hide ReadTree;
    ScansTree(ts, [], 0);
    var r := ReadTree(ts, []);
    if r.Read? && r.rest != [] {
      ExcessStays(r.rest[1..]);
    }
  }

  lemma OneToken(p: Position, t: Token, ts: seq<Token>)
    ensures Scan(p, [t] + ts) == Scan(Move(p, t), ts)
    ensures Scan(p, [t]) == Move(p, t)
  {
    assert ([t] + ts)[1..] == ts && [t][1..] == [];
  }

  /** A group may be closed and run out, its end taken for a name; and left open and not run out. */
  lemma ClosingDoesNotDecide()
    ensures UseLeaves([LeftBrace, Ident("a"), Colons, RightBrace]) == Crash
    ensures UseLeaves([LeftBrace, Ident("a"), Colons]) == Unreadable
    ensures UseLeaves([LeftBrace, Ident("a")]) == Crash
  {
    hide Scan, UseLeaves;
    var two, three := [LeftBrace] + [Ident("a")], [LeftBrace] + ([Ident("a")] + [Colons]);
    var four := [LeftBrace] + ([Ident("a")] + ([Colons] + [RightBrace]));
    var open, named, want := Position(Item, 1), Position(Named, 1), Position(Want, 1);
    OneToken(START, LeftBrace, [Ident("a")]);
    OneToken(open, Ident("a"), []);
    OneToken(START, LeftBrace, [Ident("a")] + [Colons]);
    OneToken(open, Ident("a"), [Colons]);
    OneToken(named, Colons, []);
    OneToken(START, LeftBrace, [Ident("a")] + ([Colons] + [RightBrace]));
    OneToken(open, Ident("a"), [Colons] + [RightBrace]);
    OneToken(named, Colons, [RightBrace]);
    OneToken(want, RightBrace, []);
    FailsExactly(two);
    FailsExactly(three);
    FailsExactly(four);
    assert two == [LeftBrace, Ident("a")] && three == [LeftBrace, Ident("a"), Colons];
    assert four == [LeftBrace, Ident("a"), Colons, RightBrace];
  }

  // ----- The reader as it goes over the tokens -----

  datatype Status = Fine | Early | PastEnd

  function StatusOf(r: Read): Status {
    match r case Read(_, _) => Fine case EndsEarly => Early case OutOfRange => PastEnd
  }

  /** Append the imports of the tree at an index, and return the index after it. */
  method ParseTree(tokens: seq<Token>, start: nat, prefix: Path, before: seq<Import>)
    returns (status: Status, index: nat, leaves: seq<Import>)
    requires start <= |tokens|
    ensures var r := ReadTree(tokens[start..], prefix);
            && status == StatusOf(r)
            && (status == Fine ==> start < index <= |tokens| && tokens[index..] == r.rest)
            && (status == Fine ==> leaves == before + r.imports)
    decreases |tokens| - start, 0
  {
    hide ReadGroup;
    index, leaves := start, before;
    if index < |tokens| && tokens[index] == Colons {
      index := index + 1;
    }
    if index >= |tokens| {
      return Early, index, leaves;
    }
    var token := tokens[index];
    if token == LeftBrace {
      status, index, leaves := ParseGroup(tokens, index + 1, prefix, leaves);
      return;
    }
    if token == Star {
      return Fine, index + 1, leaves + [Import(prefix + ["*"], None)];
    }
    index := index + 1;
    if index < |tokens| && tokens[index] == Colons {
      status, index, leaves := ParseTree(tokens, index + 1, prefix + [Text(token)], leaves);
      return;
    }
    var alias := None;
    if index + 1 < |tokens| && tokens[index] == Ident("as") {
      alias, index := Some(Text(tokens[index + 1])), index + 2;
    }
    leaves := leaves + [Import(if token == Ident("self") then prefix else prefix + [Text(token)], alias)];
    status := Fine;
  }

  method ParseGroup(tokens: seq<Token>, start: nat, prefix: Path, before: seq<Import>)
    returns (status: Status, index: nat, leaves: seq<Import>)
    requires start <= |tokens|
    ensures var r := ReadGroup(tokens[start..], prefix);
            && status == StatusOf(r)
            && (status == Fine ==> start < index <= |tokens| && tokens[index..] == r.rest)
            && (status == Fine ==> leaves == before + r.imports)
    decreases |tokens| - start, 1
  {
    index, leaves := start, before;
    ghost var done: seq<Import> := [];
    hide ReadTree, ReadGroup;
    while true
      invariant start <= index <= |tokens| && leaves == before + done
      invariant ReadGroup(tokens[start..], prefix) == Prepend(done, ReadGroup(tokens[index..], prefix))
      decreases |tokens| - index
    {
      GroupStep(tokens[index..], prefix);
      if index >= |tokens| {
        return PastEnd, index, leaves;
      }
      if tokens[index] == RightBrace {
        assert tokens[index..][1..] == tokens[index + 1..];
        return Fine, index + 1, leaves;
      }
      ghost var first := ReadTree(tokens[index..], prefix);
      status, index, leaves := ParseTree(tokens, index, prefix, leaves);
      if status != Fine {
        return;
      }
      if index >= |tokens| {
        return PastEnd, index, leaves;
      }
      assert first.rest[1..] == tokens[index + 1..];
      done := done + first.imports;
      if tokens[index] == Comma {
        index := index + 1;
      }
    }
  }

  ghost function Prepend(done: seq<Import>, r: Read): Read {
    if r.Read? then Read(done + r.imports, r.rest) else r
  }

  lemma GroupStep(ts: seq<Token>, prefix: Path)
    ensures var first := ReadTree(ts, prefix);
            ReadGroup(ts, prefix) ==
            if ts == [] then OutOfRange
            else if ts[0] == RightBrace then Read([], ts[1..])
            else if !first.Read? then first
            else if first.rest == [] then OutOfRange
            else
              var rest := if first.rest[0] == Comma then first.rest[1..] else first.rest;
              Prepend(first.imports, ReadGroup(rest, prefix))
  {
  }

  /** The imports of one `use` item. */
  method ReadUse(tokens: seq<Token>) returns (result: Result)
    ensures result == UseLeaves(tokens)
  {
    assert tokens[0..] == tokens;
    var status, index, leaves := ParseTree(tokens, 0, [], []);
    if status == PastEnd {
      result := Crash;
    } else {
      result := if status == Fine && index == |tokens| then Imports(leaves) else Unreadable;
    }
  }
}
