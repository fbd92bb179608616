/** Which paths the boundary governs: the longest route's prefix decides, then the modules of thread blocking. */
module Routes {
  import opened Options

  type Path = seq<string>

  datatype Route = Route(prefix: Path, replacement: Path, verb: string, exact: bool)

  datatype Routed = Routed(replacement: Path, verb: string)

  const SYNC_MODULES: seq<Path> :=
      [["std", "sync"], ["core", "sync"], ["alloc", "sync"], ["shuttle", "sync"], ["loom", "sync"]]
  const SYNC_UNGOVERNED: set<string> := {"atomic"}
  const BLOCKING: Path := ["nervix_primitives", "sync", "blocking"]

  const BYPASSES := "bypasses the boundary"

  /** The first of the routes with the longest prefix of the path. */
  ghost predicate IsBest(routes: seq<Route>, path: Path, k: nat) {
    && k < |routes| && routes[k].prefix <= path
    && (forall i :: 0 <= i < |routes| && routes[i].prefix <= path ==> |routes[i].prefix| <= |routes[k].prefix|)
    && (forall i :: 0 <= i < k && routes[i].prefix <= path ==> |routes[i].prefix| < |routes[k].prefix|)
  }

  ghost predicate HasRoute(routes: seq<Route>, path: Path) {
    exists i :: 0 <= i < |routes| && routes[i].prefix <= path
  }

  /** A path strictly inside a module of thread blocking, but for what is left to its own rules. */
  ghost predicate Blocks(path: Path, outer: Path) {
    |path| > |outer| && outer <= path && path[|outer|] !in SYNC_UNGOVERNED
  }

  ghost predicate Governed(routes: seq<Route>, path: Path) {
    HasRoute(routes, path) || exists m :: m in SYNC_MODULES && Blocks(path, m)
  }

  /** The best route, found by keeping the best of those gone through. */
  method BestRoute(routes: seq<Route>, path: Path) returns (best: Option<nat>)
    ensures if HasRoute(routes, path) then best.Some? && IsBest(routes, path, best.value) else best == None
  {
    best := None;
    for i := 0 to |routes|
      invariant best == None ==> forall j :: 0 <= j < i ==> !(routes[j].prefix <= path)
      invariant best.Some? ==> best.value < i && routes[best.value].prefix <= path
      invariant best.Some? ==> forall j :: 0 <= j < i && routes[j].prefix <= path ==>
                  && |routes[j].prefix| <= |routes[best.value].prefix|
                  && (j < best.value ==> |routes[j].prefix| < |routes[best.value].prefix|)
    {
      if routes[i].prefix <= path {
        if best == None || |routes[i].prefix| > |routes[best.value].prefix| {
          best := Some(i);
        }
      }
    }
  }

  /** A governed path is routed by its best route, or else by the first blocking module around it. */
  method RouteOf(routes: seq<Route>, path: Path) returns (routed: Option<Routed>)
    ensures routed.Some? <==> Governed(routes, path)
    ensures HasRoute(routes, path) ==>
              exists k: nat :: IsBest(routes, path, k) &&
                routed == Some(Routed(
                  if routes[k].exact then routes[k].replacement else routes[k].replacement + path[|routes[k].prefix|..],
                  routes[k].verb))
    ensures !HasRoute(routes, path) && routed.Some? ==>
              exists i ::
                && 0 <= i < |SYNC_MODULES| && Blocks(path, SYNC_MODULES[i])
                && (forall j :: 0 <= j < i ==> !Blocks(path, SYNC_MODULES[j]))
                && routed.value == Routed(BLOCKING + path[|SYNC_MODULES[i]|..], BYPASSES)
  {
    hide HasRoute;
    var best := BestRoute(routes, path);
    if best.Some? {
      var route := routes[best.value];
      if route.exact {
        return Some(Routed(route.replacement, route.verb));
      }
      return Some(Routed(route.replacement + path[|route.prefix|..], route.verb));
    }
    for i := 0 to |SYNC_MODULES|
      invariant forall j :: 0 <= j < i ==> !Blocks(path, SYNC_MODULES[j])
    {
      var m := SYNC_MODULES[i];
      if m <= path && |path| > |m| && path[|m|] !in SYNC_UNGOVERNED {
        assert m in SYNC_MODULES && Blocks(path, m);
        return Some(Routed(BLOCKING + path[|m|..], BYPASSES));
      }
    }
    routed := None;
  }

  predicate GovernsBelow(routes: seq<Route>, path: Path) {
    || (exists i :: 0 <= i < |routes| && |path| < |routes[i].prefix| && path <= routes[i].prefix)
    || (exists i :: 0 <= i < |SYNC_MODULES| && path <= SYNC_MODULES[i])
  }

  lemma Extends(a: Path, b: Path)
    requires a <= b
    ensures a + b[|a|..] == b
  {
  }

  lemma BelowIsGoverned(routes: seq<Route>, path: Path) returns (below: Path)
    requires GovernsBelow(routes, path)
    ensures Governed(routes, path + below)
  {
    if i :| 0 <= i < |routes| && |path| < |routes[i].prefix| && path <= routes[i].prefix {
      below := routes[i].prefix[|path|..];
      Extends(path, routes[i].prefix);
      assert routes[i].prefix <= path + below;
    } else {
      var i :| 0 <= i < |SYNC_MODULES| && path <= SYNC_MODULES[i];
      var m := SYNC_MODULES[i];
      below := m[|path|..] + ["Mutex"];
      Extends(path, m);
      assert path + below == m + ["Mutex"];
      assert Blocks(path + below, m);
    }
  }

  lemma GovernedIsSeen(routes: seq<Route>, path: Path, below: Path)
    requires Governed(routes, path + below)
    ensures Governed(routes, path) || GovernsBelow(routes, path)
  {
    if HasRoute(routes, path + below) {
      var i :| 0 <= i < |routes| && routes[i].prefix <= path + below;
      if |routes[i].prefix| <= |path| {
        assert routes[i].prefix <= path;
      } else {
        assert path <= routes[i].prefix;
      }
    } else {
      var m :| m in SYNC_MODULES && Blocks(path + below, m);
      if |path| <= |m| {
        var i :| 0 <= i < |SYNC_MODULES| && SYNC_MODULES[i] == m;
        assert path <= SYNC_MODULES[i];
      } else {
        assert m <= path && path[|m|] == (path + below)[|m|];
        assert Blocks(path, m);
      }
    }
  }

  /** Some extension of a path is governed exactly when the path is, or is reported to govern below: a path
      that is neither hides nothing, however far it is extended. */
  lemma NothingIsHidden(routes: seq<Route>, path: Path)
    ensures (exists below :: Governed(routes, path + below)) <==> Governed(routes, path) || GovernsBelow(routes, path)
  {
    if below :| Governed(routes, path + below) {
      GovernedIsSeen(routes, path, below);
    }
    if Governed(routes, path) {
      assert path + [] == path;
      assert Governed(routes, path + []);
    } else if GovernsBelow(routes, path) {
      var below := BelowIsGoverned(routes, path);
    }
  }
}
