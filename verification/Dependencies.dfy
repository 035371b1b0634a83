/**
 The transitive reading of a two-column dependency table, shared by record
 dependencies, learning dependencies and provenance groups.  The archive
 reads such a table with a recursive query that starts from a set of seeds
 and keeps adding children until nothing is new.
 */
module Dependencies {

  /** One row: `child` rests on `parent`. */
  datatype Edge<T> = Edge(child: T, parent: T)

  function Children<T(==)>(deps: set<Edge<T>>, found: set<T>): set<T> {
    set e | e in deps && e.parent in found :: e.child
  }

  predicate IsClosed<T(==)>(deps: set<Edge<T>>, found: set<T>) {
    Children(deps, found) <= found
  }

  /** The recursive query: everything found once no row adds anything new. */
  function Closure<T(==)>(deps: set<Edge<T>>, found: set<T>): (all: set<T>)
    ensures found <= all
    ensures IsClosed(deps, all)
    decreases |(set e | e in deps :: e.child) - found|
  {
    var next := Children(deps, found);
    if next <= found then
      found
    else
      var everyone := set e | e in deps :: e.child;
      assert everyone - (found + next) < everyone - found by {
        var x :| x in next && x !in found;
        assert x in everyone - found;
      }
      StrictSubsetIsSmaller(everyone - (found + next), everyone - found);
      Closure(deps, found + next)
  }

  lemma StrictSubsetIsSmaller<T>(small: set<T>, large: set<T>)
    requires small < large
    ensures |small| < |large|
  {
    var x :| x in large && x !in small;
    SubsetIsNoLarger(small, large - {x});
  }

  lemma {:induction false} SubsetIsNoLarger<T>(small: set<T>, large: set<T>)
    requires small <= large
    ensures |small| <= |large|
  {
    if small != {} {
      var x :| x in small;
      SubsetIsNoLarger(small - {x}, large - {x});
    }
  }

  /** The query finds nothing that some closed set around the seeds leaves out. */
  lemma {:induction false} ClosureIsLeast<T>(deps: set<Edge<T>>, found: set<T>, bound: set<T>)
    requires found <= bound && IsClosed(deps, bound)
    ensures Closure(deps, found) <= bound
    decreases |(set e | e in deps :: e.child) - found|
  {
    var next := Children(deps, found);
    if !(next <= found) {
      assert next <= bound by {
        forall c | c in next ensures c in bound {
          var e :| e in deps && e.parent in found && e.child == c;
          assert c in Children(deps, bound);
        }
      }
      var everyone := set e | e in deps :: e.child;
      var x :| x in next && x !in found;
      assert x in everyone - found;
      StrictSubsetIsSmaller(everyone - (found + next), everyone - found);
      ClosureIsLeast(deps, found + next, bound);
    }
  }

  lemma ClosureMonotone<T>(deps: set<Edge<T>>, small: set<T>, large: set<T>)
    requires small <= large
    ensures Closure(deps, small) <= Closure(deps, large)
  {
    ClosureIsLeast(deps, small, Closure(deps, large));
  }

  /** More rows reach at least as much. */
  lemma ClosureGrowsWithRows<T>(fewer: set<Edge<T>>, more: set<Edge<T>>, found: set<T>)
    requires fewer <= more
    ensures Closure(fewer, found) <= Closure(more, found)
  {
    var all := Closure(more, found);
    assert Children(fewer, all) <= Children(more, all);
    ClosureIsLeast(fewer, found, all);
  }

  lemma ClosureOfNothing<T>(deps: set<Edge<T>>)
    ensures Closure(deps, {}) == {}
  {
  }

  /** Retiring roots one by one, or all together, reaches the same records. */
  lemma ClosureOfUnion<T>(deps: set<Edge<T>>, a: set<T>, b: set<T>)
    ensures Closure(deps, a + b) == Closure(deps, a) + Closure(deps, b)
  {
    var both := Closure(deps, a) + Closure(deps, b);
    assert IsClosed(deps, both) by {
      forall c | c in Children(deps, both) ensures c in both {
        var e :| e in deps && e.parent in both && e.child == c;
        assert c in Children(deps, Closure(deps, a)) || c in Children(deps, Closure(deps, b));
      }
    }
    ClosureIsLeast(deps, a + b, both);
    ClosureMonotone(deps, a, a + b);
    ClosureMonotone(deps, b, a + b);
  }

  /** Walking the table: each step goes from a parent to one of its children. */
  ghost predicate IsPath<T(!new)>(deps: set<Edge<T>>, path: seq<T>) {
    |path| > 0 && forall i :: 0 < i < |path| ==> Edge(path[i], path[i - 1]) in deps
  }

  ghost predicate Reaches<T(!new)>(deps: set<Edge<T>>, start: T, goal: T) {
    exists path: seq<T> :: IsPath(deps, path) && path[0] == start && path[|path| - 1] == goal
  }

  lemma {:induction false} PathStaysInside<T(!new)>(deps: set<Edge<T>>, path: seq<T>, bound: set<T>)
    requires IsPath(deps, path) && path[0] in bound && IsClosed(deps, bound)
    ensures path[|path| - 1] in bound
  {
    if |path| > 1 {
      assert IsPath(deps, path[..|path| - 1]);
      PathStaysInside(deps, path[..|path| - 1], bound);
      assert Edge(path[|path| - 1], path[|path| - 2]) in deps;
      assert path[|path| - 1] in Children(deps, bound);
    }
  }

  lemma ReachIsTransitiveStep<T(!new)>(deps: set<Edge<T>>, start: T, middle: T, goal: T)
    requires Reaches(deps, start, middle) && Edge(goal, middle) in deps
    ensures Reaches(deps, start, goal)
  {
    var path :| IsPath(deps, path) && path[0] == start && path[|path| - 1] == middle;
    assert IsPath(deps, path + [goal]);
  }

  /** The recursive query computes reachability: both directions. */
  lemma ClosureIsReachability<T(!new)>(deps: set<Edge<T>>, root: T, x: T)
    ensures x in Closure(deps, {root}) <==> Reaches(deps, root, x)
  {
    var all := Closure(deps, {root});
    if Reaches(deps, root, x) {
      var path :| IsPath(deps, path) && path[0] == root && path[|path| - 1] == x;
      PathStaysInside(deps, path, all);
    }
    var reached := set y | y in all && Reaches(deps, root, y);
    assert root in reached by {
      assert IsPath(deps, [root]);
    }
    assert IsClosed(deps, reached) by {
      forall c | c in Children(deps, reached) ensures c in reached {
        var e :| e in deps && e.parent in reached && e.child == c;
        ReachIsTransitiveStep(deps, root, e.parent, c);
        assert c in Children(deps, all);
      }
    }
    ClosureIsLeast(deps, {root}, reached);
  }
}
