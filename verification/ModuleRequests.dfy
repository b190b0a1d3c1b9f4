/**
The static side of a module graph: which module requests which, the paths that
these requests form, and the components (maximal sets of mutually reachable
modules) that evaluation has to treat as one unit.
*/
module ModuleRequests {

  /** What the compiler emits for one module: its requests in source order, and whether its body awaits. */
  datatype Definition = Definition(requests: seq<nat>, hasTla: bool)

  /** Every request names a module of the graph; `tsc_module_graph_new` rejects any other table. */
  ghost predicate Closed(p: seq<Definition>) {
    forall m, k :: 0 <= m < |p| && 0 <= k < |p[m].requests| ==> p[m].requests[k] < |p|
  }

  ghost predicate IsPath(p: seq<Definition>, path: seq<nat>) {
    && |path| > 0
    && (forall i :: 0 <= i < |path| ==> path[i] < |p|)
    && (forall i :: 0 <= i < |path| - 1 ==> Hop(p, path, i))
  }

  ghost predicate Hop(p: seq<Definition>, path: seq<nat>, i: int) {
    0 <= i < |path| - 1 && path[i] < |p| && path[i + 1] in p[path[i]].requests
  }

  ghost predicate PathFromTo(p: seq<Definition>, path: seq<nat>, a: nat, b: nat) {
    IsPath(p, path) && path[0] == a && path[|path| - 1] == b
  }

  ghost predicate Reaches(p: seq<Definition>, a: nat, b: nat) {
    exists path :: PathFromTo(p, path, a, b)
  }

  /** The equivalence whose classes are the strongly connected components. */
  ghost predicate SameComponent(p: seq<Definition>, a: nat, b: nat) {
    Reaches(p, a, b) && Reaches(p, b, a)
  }

  lemma ReachesSelf(p: seq<Definition>, a: nat)
    requires a < |p|
    ensures Reaches(p, a, a)
  {
    assert PathFromTo(p, [a], a, a);
  }

  lemma ReachesRequest(p: seq<Definition>, a: nat, b: nat)
    requires a < |p| && b < |p| && b in p[a].requests
    ensures Reaches(p, a, b)
  {
    assert PathFromTo(p, [a, b], a, b);
  }

  lemma ReachesTransitive(p: seq<Definition>, a: nat, b: nat, c: nat)
    requires Reaches(p, a, b) && Reaches(p, b, c)
    ensures Reaches(p, a, c)
  {
    var s :| PathFromTo(p, s, a, b);
    var t :| PathFromTo(p, t, b, c);
    var st := s + t[1..];
    forall i | 0 <= i < |st| - 1
      ensures Hop(p, st, i)
    {
      if i + 1 < |s| {
        assert Hop(p, s, i);
        assert st[i] == s[i] && st[i + 1] == s[i + 1];
      } else {
        assert Hop(p, t, i - |s| + 1);
        assert st[i] == t[i - |s| + 1] && st[i + 1] == t[i - |s| + 2];
      }
    }
    assert PathFromTo(p, st, a, c);
  }

  /** Nothing outside a set that keeps all its requests can be reached from inside it. */
  lemma ReachStaysInside(p: seq<Definition>, inside: set<nat>, a: nat, b: nat)
    requires a in inside && Reaches(p, a, b)
    requires forall m, r :: m in inside && m < |p| && r in p[m].requests ==> r in inside
    ensures b in inside
  {
    var path :| PathFromTo(p, path, a, b);
    var i := 0;
    while i < |path| - 1
      invariant 0 <= i < |path|
      invariant path[i] in inside
    {
      assert Hop(p, path, i);
      i := i + 1;
    }
  }
}
