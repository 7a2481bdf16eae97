/**
 The breadth-first search that decides whether a machine phase can be followed,
 in one or more allowed transitions, by another one.
 */
module PhaseSearch {

  /** One allowed edge, under some action of the enumeration. */
  ghost predicate Edge<P(!new), A(!new)>(allowed: (P, A, P) -> bool, actions: seq<A>, from: P, to: P) {
    exists a :: a in actions && allowed(from, a, to)
  }

  /** `path` is a walk of allowed edges from its first to its last phase. */
  ghost predicate Walk<P(!new), A(!new)>(allowed: (P, A, P) -> bool, actions: seq<A>, path: seq<P>) {
    && path != []
    && forall i :: 0 <= i < |path| - 1 ==> Edge(allowed, actions, path[i], path[i + 1])
  }

  ghost predicate Joins<P(!new), A(!new)>(allowed: (P, A, P) -> bool, actions: seq<A>, from: P, to: P) {
    exists path :: Walk(allowed, actions, path) && path[0] == from && path[|path| - 1] == to
  }

  lemma JoinsSelf<P(!new), A(!new)>(allowed: (P, A, P) -> bool, actions: seq<A>, from: P)
    ensures Joins(allowed, actions, from, from)
  {
    assert Walk(allowed, actions, [from]);
  }

  lemma JoinsStep<P(!new), A(!new)>(allowed: (P, A, P) -> bool, actions: seq<A>, from: P, via: P, to: P)
    requires Joins(allowed, actions, from, via) && Edge(allowed, actions, via, to)
    ensures Joins(allowed, actions, from, to)
  {
    var path :| Walk(allowed, actions, path) && path[0] == from && path[|path| - 1] == via;
    var longer := path + [to];
    forall i | 0 <= i < |longer| - 1 ensures Edge(allowed, actions, longer[i], longer[i + 1]) {
      if i < |path| - 1 {
        assert Edge(allowed, actions, path[i], path[i + 1]);
      }
    }
    assert Walk(allowed, actions, longer);
  }

  /** A set closed under edges holds every phase a walk from inside can end at. */
  lemma {:induction false} ClosedKeepsWalks<P(!new), A(!new)>(
      allowed: (P, A, P) -> bool, actions: seq<A>, closed: set<P>, path: seq<P>)
    requires Walk(allowed, actions, path) && path[0] in closed
    requires forall x, y :: x in closed && Edge(allowed, actions, x, y) ==> y in closed
    ensures path[|path| - 1] in closed
    decreases |path|
  {
    if |path| > 1 {
      assert Edge(allowed, actions, path[0], path[1]);
      forall i | 0 <= i < |path[1..]| - 1 ensures Edge(allowed, actions, path[1..][i], path[1..][i + 1]) {
        assert Edge(allowed, actions, path[i + 1], path[i + 2]);
      }
      ClosedKeepsWalks(allowed, actions, closed, path[1..]);
    }
  }

  /** Everything `visited` is joined to the start; what is in neither open set is expanded. */
  ghost predicate Explored<P(!new), A(!new)>(
      allowed: (P, A, P) -> bool, actions: seq<A>, prior: P, result: P,
      visited: set<P>, todo: set<P>, following: set<P>)
  {
    && prior in visited && result !in visited && todo <= visited && following <= visited
    && (forall x :: x in visited ==> Joins(allowed, actions, prior, x))
    && (forall x, y :: x in visited && x !in todo && x !in following && Edge(allowed, actions, x, y) ==> y in visited)
  }

  lemma NothingOpenMeansNotJoined<P(!new), A(!new)>(
      allowed: (P, A, P) -> bool, actions: seq<A>, prior: P, result: P, visited: set<P>)
    requires Explored(allowed, actions, prior, result, visited, {}, {})
    ensures !Joins(allowed, actions, prior, result)
  {
    forall path | Walk(allowed, actions, path) && path[0] == prior
      ensures path[|path| - 1] != result
    {
      ClosedKeepsWalks(allowed, actions, visited, path);
    }
  }

  /**
   The search over every phase and action of the two enumerations. It returns
   true exactly when the phases differ and a walk of allowed transitions joins
   them, for every transition relation.
   */
  method ForwardPhase<P(==, !new), A(==, !new)>(
      allowed: (P, A, P) -> bool, phases: seq<P>, actions: seq<A>, prior: P, result: P) returns (found: bool)
    requires forall p: P :: p in phases
    ensures found <==> prior != result && Joins(allowed, actions, prior, result)
  {
    if prior == result {
      return false;
    }
    var visited, frontier := {prior}, {prior};
    JoinsSelf(allowed, actions, prior);
    ghost var all := set p | p in phases;
    while frontier != {}
      invariant Explored(allowed, actions, prior, result, visited, frontier, {})
      decreases all - visited, |frontier|
    {
      ghost var before := visited;
      var hit;
      hit, visited, frontier := ExpandAll(allowed, phases, actions, prior, result, visited, frontier);
      if hit {
        return true;
      }
      if newcomer :| newcomer in frontier {
        assert newcomer in all - before && newcomer !in all - visited;
      }
    }
    NothingOpenMeansNotJoined(allowed, actions, prior, result, visited);
    return false;
  }

  /** One round of the search: every phase of the frontier is expanded, in any order. */
  method ExpandAll<P(==, !new), A(==, !new)>(
      allowed: (P, A, P) -> bool, phases: seq<P>, actions: seq<A>, prior: P, result: P,
      before: set<P>, frontier: set<P>)
    returns (hit: bool, visited: set<P>, following: set<P>)
    requires forall p: P :: p in phases
    requires Explored(allowed, actions, prior, result, before, frontier, {})
    ensures hit ==> Joins(allowed, actions, prior, result)
    ensures !hit ==> Explored(allowed, actions, prior, result, visited, following, {})
    ensures visited == before + following && before !! following
  {
    visited, following := before, {};
    var todo := frontier;
    while todo != {}
      invariant todo <= before && visited == before + following && before !! following
      invariant Explored(allowed, actions, prior, result, visited, todo, following)
      decreases |todo|
    {
      var phase :| phase in todo;
      var found, added := Expand(allowed, phases, actions, prior, result, phase, visited, todo, following);
      if found {
        return true, visited, following;
      }
      visited, following, todo := visited + added, following + added, todo - {phase};
    }
    return false, visited, following;
  }

  /**
   The two inner loops: every action and every candidate of one open phase. The
   candidates found are new, and the phase is expanded.
   */
  method Expand<P(==, !new), A(==, !new)>(
      allowed: (P, A, P) -> bool, phases: seq<P>, actions: seq<A>, prior: P, result: P, phase: P,
      visited: set<P>, ghost todo: set<P>, ghost following: set<P>)
    returns (hit: bool, added: set<P>)
    requires forall p: P :: p in phases
    requires phase in todo && Explored(allowed, actions, prior, result, visited, todo, following)
    ensures hit ==> Joins(allowed, actions, prior, result)
    ensures !hit ==> Explored(allowed, actions, prior, result, visited + added, todo - {phase}, following + added)
    ensures added !! visited
  {
    added := {};
    for i := 0 to |actions|
      invariant added !! visited && result !in added
      invariant forall x :: x in added ==> Joins(allowed, actions, prior, x)
      invariant forall k, y :: 0 <= k < i && allowed(phase, actions[k], y) ==> y in visited + added
    {
      for j := 0 to |phases|
        invariant added !! visited && result !in added
        invariant forall x :: x in added ==> Joins(allowed, actions, prior, x)
        invariant forall k, y :: 0 <= k < i && allowed(phase, actions[k], y) ==> y in visited + added
        invariant forall k :: 0 <= k < j && allowed(phase, actions[i], phases[k]) ==> phases[k] in visited + added
      {
        var candidate := phases[j];
        if candidate !in visited + added && allowed(phase, actions[i], candidate) {
          assert Edge(allowed, actions, phase, candidate);
          JoinsStep(allowed, actions, prior, phase, candidate);
          if candidate == result {
            return true, added;
          }
          added := added + {candidate};
        }
      }
      forall y | allowed(phase, actions[i], y) ensures y in visited + added {
        assert y in phases;
      }
    }
    return false, added;
  }
}
