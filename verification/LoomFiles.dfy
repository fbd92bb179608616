/** Which source files only a Loom build compiles: those a declaration only for Loom brings in, and all below. */
module LoomFiles {

  datatype Declaration = Declaration(file: string, onlyForLoom: bool)

  /** The modules each file declares out of line. */
  type Declared = map<string, seq<Declaration>>

  function ChildrenOf(declared: Declared, path: string): seq<Declaration> {
    if path in declared then declared[path] else []
  }

  ghost predicate Declares(declared: Declared, path: string, child: string) {
    path in declared && exists i :: 0 <= i < |declared[path]| && declared[path][i].file == child
  }

  ghost predicate DeclaredForLoom(declared: Declared, child: string) {
    exists path :: path in declared && Declaration(child, true) in declared[path]
  }

  /** A file declared only for Loom, then each one declared by the one before. */
  ghost predicate IsChain(declared: Declared, chain: seq<string>) {
    && chain != [] && DeclaredForLoom(declared, chain[0])
    && forall i :: 0 < i < |chain| ==> Declares(declared, chain[i - 1], chain[i])
  }

  ghost predicate Reached(declared: Declared, file: string) {
    exists chain :: IsChain(declared, chain) && chain[|chain| - 1] == file
  }

  lemma ReachedRoot(declared: Declared, file: string)
    requires DeclaredForLoom(declared, file)
    ensures Reached(declared, file)
  {
    assert IsChain(declared, [file]) && [file][|[file]| - 1] == file;
  }

  lemma ReachedChild(declared: Declared, path: string, child: string)
    requires Reached(declared, path) && Declares(declared, path, child)
    ensures Reached(declared, child)
  {
    var chain :| IsChain(declared, chain) && chain[|chain| - 1] == path;
    var longer := chain + [child];
    assert IsChain(declared, longer) && longer[|longer| - 1] == child;
  }

  ghost predicate Closed(declared: Declared, files: set<string>) {
    && (forall file :: DeclaredForLoom(declared, file) ==> file in files)
    && forall path, child :: path in files && Declares(declared, path, child) ==> child in files
  }

  lemma {:induction false} ClosedHoldsChain(declared: Declared, files: set<string>, chain: seq<string>)
    requires Closed(declared, files) && IsChain(declared, chain)
    ensures chain[|chain| - 1] in files
    decreases |chain|
  {
    if |chain| > 1 {
      var init := chain[..|chain| - 1];
      assert IsChain(declared, init) by {
        assert forall i :: 0 <= i < |init| ==> init[i] == chain[i];
      }
      ClosedHoldsChain(declared, files, init);
      assert Declares(declared, chain[|chain| - 2], chain[|chain| - 1]);
    }
  }

  // ----- The worklist -----

  ghost function Mentioned(declared: Declared): set<string> {
    set path, d | path in declared && d in declared[path] :: d.file
  }

  /** The files declared only for Loom. */
  method Roots(declared: Declared) returns (pending: seq<string>)
    ensures forall file :: file in pending <==> DeclaredForLoom(declared, file)
  {
    pending := [];
    var rest := declared.Keys;
    while rest != {}
      invariant rest <= declared.Keys
      invariant forall file :: file in pending <==>
                exists path :: path in declared && path !in rest && Declaration(file, true) in declared[path]
      decreases |rest|
    {
      var path :| path in rest;
      var more := RootsOf(declared[path]);
      pending, rest := pending + more, rest - {path};
    }
  }

  method RootsOf(children: seq<Declaration>) returns (roots: seq<string>)
    ensures forall file :: file in roots <==> Declaration(file, true) in children
  {
    roots := [];
    for i := 0 to |children|
      invariant forall file :: file in roots <==> Declaration(file, true) in children[..i]
    {
      if children[i].onlyForLoom {
        roots := roots + [children[i].file];
      }
    }
  }

  method Children(declared: Declared, path: string) returns (files: seq<string>)
    ensures forall child :: child in files <==> Declares(declared, path, child)
  {
    var children := ChildrenOf(declared, path);
    files := seq(|children|, i requires 0 <= i < |children| => children[i].file);
    forall child ensures child in files <==> Declares(declared, path, child) {
      if Declares(declared, path, child) {
        var i :| 0 <= i < |children| && children[i].file == child;
        assert files[i] == child;
      }
    }
  }

  /** Everything known is reached, and what the roots and the found files declare is known. */
  ghost predicate Underway(declared: Declared, found: set<string>, known: set<string>) {
    && found <= known
    && (forall file :: file in known ==> Reached(declared, file) && file in Mentioned(declared))
    && (forall file :: DeclaredForLoom(declared, file) ==> file in known)
    && (forall path, child :: path in found && Declares(declared, path, child) ==> child in known)
  }

  function Elements(s: seq<string>): set<string> {
    set x | x in s
  }

  lemma Begin(declared: Declared, roots: seq<string>)
    requires forall file :: file in roots <==> DeclaredForLoom(declared, file)
    ensures Underway(declared, {}, {} + Elements(roots))
  {
    forall file | DeclaredForLoom(declared, file) ensures Reached(declared, file) && file in Mentioned(declared) {
      ReachedRoot(declared, file);
    }
  }

  lemma Visit(declared: Declared, found: set<string>, known: set<string>, path: string, children: seq<string>)
    requires path in known && Underway(declared, found, known)
    requires forall child :: child in children <==> Declares(declared, path, child)
    ensures Underway(declared, found + {path}, known + Elements(children)) && path in Mentioned(declared)
  {
    hide Reached, Mentioned, Declares, DeclaredForLoom;
    forall child | child in children ensures Reached(declared, child) && child in Mentioned(declared) {
      ChildIsReached(declared, path, child);
    }
  }

  lemma ChildIsReached(declared: Declared, path: string, child: string)
    requires Reached(declared, path) && Declares(declared, path, child)
    ensures Reached(declared, child) && child in Mentioned(declared)
  {
    ReachedChild(declared, path, child);
    var i :| 0 <= i < |ChildrenOf(declared, path)| && ChildrenOf(declared, path)[i].file == child;
    assert ChildrenOf(declared, path)[i] in declared[path];
  }

  lemma Done(declared: Declared, found: set<string>)
    requires Underway(declared, found, found)
    ensures forall file :: file in found <==> Reached(declared, file)
  {
    assert Closed(declared, found);
    forall file | Reached(declared, file) ensures file in found {
      var chain :| IsChain(declared, chain) && chain[|chain| - 1] == file;
      ClosedHoldsChain(declared, found, chain);
    }
  }

  lemma NoElements()
    ensures Elements([]) == {}
  {
  }

  lemma Popped(found: set<string>, pending: seq<string>, children: seq<string>)
    requires pending != []
    ensures var path, rest := pending[|pending| - 1], pending[..|pending| - 1];
            && path in found + Elements(pending)
            && found + {path} + Elements(rest + children) == found + Elements(pending) + Elements(children)
            && (path in found ==> found + Elements(rest) == found + Elements(pending))
  {
    assert pending == pending[..|pending| - 1] + [pending[|pending| - 1]];
  }

  lemma Fewer(all: set<string>, found: set<string>, path: string)
    requires path in all && path !in found
    ensures |all - (found + {path})| < |all - found|
  {
    assert all - found == (all - (found + {path})) + {path};
  }

  /** Every file reachable through declarations from one that is only for Loom, and no other; also where
      declarations form a cycle. */
  method LoomOnlyFiles(declared: Declared) returns (loomOnly: set<string>)
    ensures forall file :: file in loomOnly <==> Reached(declared, file)
  {
    var pending := Roots(declared);
    loomOnly := {};
    Begin(declared, pending);
    hide Elements;
    hide Reached, Mentioned, Declares, DeclaredForLoom, Underway;
    while pending != []
      invariant Underway(declared, loomOnly, loomOnly + Elements(pending))
      decreases |Mentioned(declared) - loomOnly|, |pending|
    {
      var path := pending[|pending| - 1];
      if path in loomOnly {
        Popped(loomOnly, pending, []);
        pending := pending[..|pending| - 1];
      } else {
        var children := Children(declared, path);
        Popped(loomOnly, pending, children);
        Visit(declared, loomOnly, loomOnly + Elements(pending), path, children);
        Fewer(Mentioned(declared), loomOnly, path);
        loomOnly, pending := loomOnly + {path}, pending[..|pending| - 1] + children;
      }
    }
    NoElements();
    Done(declared, loomOnly);
  }
}
