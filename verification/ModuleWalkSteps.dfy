/** Each move of the walk keeps its invariant. */
module ModuleWalkSteps {
  import opened ModuleRequests
  import opened ModuleState
  import opened ModuleWalk

  function Top(k: Walk): (f: Frame)
    requires |k.frames| > 0
  {
    k.frames[|k.frames| - 1]
  }

  function WithTop(k: Walk, f: Frame): (k': Walk)
    requires |k.frames| > 0
  {
    k.(frames := k.frames[|k.frames| - 1 := f])
  }

  function Put(w: World, m: nat, r: Record): (w': World)
    requires m < |w.rs|
  {
    w.(rs := w.rs[m := r])
  }

  /** Records differ at most in what the walk writes into modules whose component is open. */
  ghost predicate Moved(w: World, w': World) {
    && |w'.rs| == |w.rs| && w' == w.(rs := w'.rs)
    && (forall y :: 0 <= y < |w.rs| && y in w.popped ==> w'.rs[y] == w.rs[y])
    && (forall y :: 0 <= y < |w.rs| && y !in w.popped ==>
          w'.rs[y] == w.rs[y].(status := w'.rs[y].status, dfsIndex := w'.rs[y].dfsIndex,
                               ancestorIndex := w'.rs[y].ancestorIndex, pending := w'.rs[y].pending))
    && (forall y :: 0 <= y < |w.rs| ==>
          w'.rs[y].status == w.rs[y].status || (w.rs[y].status == Linked && w'.rs[y].status == Evaluating))
    && (forall y :: 0 <= y < |w.rs| && w.rs[y].status == Evaluating ==>
          w'.rs[y].dfsIndex == w.rs[y].dfsIndex && w'.rs[y].ancestorIndex <= w.rs[y].ancestorIndex)
  }

  lemma MovedCounts(w: World, w': World, q: nat)
    requires Moved(w, w')
    ensures Active(w'.rs) == Active(w.rs)
    ensures Registrations(w'.rs, Active(w'.rs), q, |w.rs|) == Registrations(w.rs, Active(w.rs), q, |w.rs|)
  {
    assert forall y :: 0 <= y < |w.rs| ==> w'.rs[y].asyncParents == w.rs[y].asyncParents;
    RegistrationsSame(w.rs, Active(w.rs), w'.rs, Active(w'.rs), q, |w.rs|);
  }

  lemma MovedRecords(p: seq<Definition>, w: World, w': World)
    requires Shape(p, w) && Statuses(w) && RegistrationsOk(w) && Moved(w, w')
    ensures Shape(p, w') && Statuses(w') && RegistrationsOk(w')
  {
    forall m | 0 <= m < |w'.rs| ensures RecordOk(w', m) { assert RecordOk(w, m); }
    forall y, q | 0 <= y < |w'.rs| && q in w'.rs[y].asyncParents ensures RegistrationOk(w', y, q) {
      assert RecordOk(w, y) && RegistrationOk(w, y, q);
    }
  }

  lemma MovedMembers(p: seq<Definition>, w: World, w': World)
    requires Shape(p, w) && Shape(p, w') && Components(p, w) && RequestsServed(p, w) && MembersOk(w) && Moved(w, w')
    ensures Components(p, w') && RequestsServed(p, w') && MembersOk(w')
  {
    forall y | y in w'.popped && y < |w'.rs| && w'.rs[y].cycleRoot != y
      ensures MemberOk(w', y)
    {
      assert MemberOk(w, y);
    }
  }

  lemma MovedPending(p: seq<Definition>, w: World, w': World)
    requires Shape(p, w) && Statuses(w) && PendingCounts(w, Active(w.rs)) && ZeroMeansRunning(w, {}) && Moved(w, w')
    ensures PendingCounts(w', Active(w'.rs)) && ZeroMeansRunning(w', {})
  {
    forall m: nat | Live(w', m)
      ensures Live(w, m) && w'.rs[m] == w.rs[m] && w'.rs[m].pending == Registrations(w'.rs, Active(w'.rs), m, |w'.rs|)
    {
      assert RecordOk(w, m);
      MovedCounts(w, w', m);
    }
  }

  lemma MovedSettled(p: seq<Definition>, w: World, w': World)
    requires Settled(p, w) && Moved(w, w')
    ensures Settled(p, w')
  {
    MovedRecords(p, w, w');
    MovedMembers(p, w, w');
    MovedPending(p, w, w');
  }

  // -------------------------------------------------------------------- enter

  function EnteredWorld(w: World, k: Walk): (w': World)
    requires |k.frames| > 0 && Top(k).m < |w.rs|
  {
    Put(w, Top(k).m, w.rs[Top(k).m].(status := Evaluating, dfsIndex := k.index, ancestorIndex := k.index, pending := 0))
  }

  function EnteredWalk(k: Walk): (k': Walk)
    requires |k.frames| > 0
  {
    WithTop(k, Top(k).(entered := true)).(stack := k.stack + [Top(k).m], index := k.index + 1)
  }

  lemma EnterStack(p: seq<Definition>, w: World, k: Walk)
    requires Shape(p, w) && StackOk(p, w, k) && |k.frames| > 0 && Top(k).m < |p| && w.rs[Top(k).m].status == Linked
    ensures StackOk(p, EnteredWorld(w, k), EnteredWalk(k))
  {
    var u, w', k' := Top(k).m, EnteredWorld(w, k), EnteredWalk(k);
    forall m: nat ensures m in k'.stack <==> m in k.stack || m == u {}
    forall m | m in k.stack ensures m != u && OpenOk(w, k, m) {}
    forall i | 0 <= i < |k.stack| ensures k.stack[i] in k.stack && k'.stack[i] == k.stack[i] {}
  }

  lemma EnterFrames(p: seq<Definition>, w: World, k: Walk)
    requires Shape(p, w) && StackOk(p, w, k) && FramesOk(p, w, k) && |k.frames| > 0 && !Top(k).entered
    ensures FramesOk(p, EnteredWorld(w, k), EnteredWalk(k))
  {
    var n, u, w', k' := |k.frames| - 1, Top(k).m, EnteredWorld(w, k), EnteredWalk(k);
    assert FrameOk(p, w, k, n);
    forall i | 0 <= i < n
      ensures k.frames[i].entered && k.frames[i].m != u && w.rs[k.frames[i].m].dfsIndex < k.index
    {
      assert FrameOk(p, w, k, i) && OpenOk(w, k, k.frames[i].m);
    }
    forall i | 0 <= i < |k'.frames|
      ensures FrameOk(p, w', k', i)
    {
      assert FrameOk(p, w, k, i);
    }
    if n > 0 {
      assert k.frames[0].m in k.stack by { assert FrameOk(p, w, k, 0); }
    }
  }

  lemma EnterGray(p: seq<Definition>, w: World, k: Walk, y: nat)
    requires Shape(p, w) && FramesOk(p, w, k) && |k.frames| > 0 && !Top(k).entered
    ensures Gray(EnteredWalk(k), y) <==> Gray(k, y) || y == Top(k).m
    ensures Black(EnteredWorld(w, k), EnteredWalk(k), y) <==> Black(w, k, y)
  {
    var n, k' := |k.frames| - 1, EnteredWalk(k);
    assert FrameOk(p, w, k, n);
    if Gray(k, y) {
      var i :| 0 <= i < |k.frames| && k.frames[i].entered && k.frames[i].m == y;
      assert k'.frames[i] == k.frames[i];
    }
    assert k'.frames[n].m == Top(k).m && k'.frames[n].entered;
  }

  lemma EnterEdge(p: seq<Definition>, w: World, k: Walk, y: nat, r: nat)
    requires Shape(p, w) && Statuses(w) && FramesOk(p, w, k) && StackOk(p, w, k) && |k.frames| > 0 && !Top(k).entered
    requires y < |p| && w.rs[y].status == Evaluating && EdgeOk(w, k, y, r)
    ensures EdgeOk(EnteredWorld(w, k), EnteredWalk(k), y, r)
  {
    var u, w', k' := Top(k).m, EnteredWorld(w, k), EnteredWalk(k);
    assert FrameOk(p, w, k, |k.frames| - 1) && RecordOk(w, u);
    assert r != u;
    if w.rs[r].status == Evaluating {
      EnterNested(p, w, k, y, r);
    }
  }

  lemma EnterNested(p: seq<Definition>, w: World, k: Walk, y: nat, r: nat)
    requires Shape(p, w) && FramesOk(p, w, k) && StackOk(p, w, k) && |k.frames| > 0 && !Top(k).entered
    requires y < |p| && w.rs[y].status == Evaluating && r < |p| && w.rs[r].status == Evaluating && NestedIn(w, k, y, r)
    ensures NestedIn(EnteredWorld(w, k), EnteredWalk(k), y, r)
  {
    var u, w', k' := Top(k).m, EnteredWorld(w, k), EnteredWalk(k);
    assert FrameOk(p, w, k, |k.frames| - 1);
    assert OpenOk(w, k, r);
    forall g: nat | Gray(k', g) && g < |w'.rs| && w'.rs[y].dfsIndex < w'.rs[g].dfsIndex
      ensures w'.rs[r].dfsIndex < w'.rs[g].dfsIndex
    {
      EnterGray(p, w, k, g);
    }
  }

  lemma EnterEdges(p: seq<Definition>, w: World, k: Walk)
    requires Shape(p, w) && Statuses(w) && FramesOk(p, w, k) && StackOk(p, w, k) && EdgesOk(p, w, k) && |k.frames| > 0
             && !Top(k).entered
    ensures EdgesOk(p, EnteredWorld(w, k), EnteredWalk(k))
  {
    var n, u, w', k' := |k.frames| - 1, Top(k).m, EnteredWorld(w, k), EnteredWalk(k);
    assert FrameOk(p, w, k, n) && RecordOk(w, u);
    forall i | 0 <= i < |k'.frames| && k'.frames[i].entered
      ensures FrameEdgesOk(p, w', k', k'.frames[i])
    {
      if i < n {
        assert FrameOk(p, w, k, i) && FrameEdgesOk(p, w, k, k.frames[i]);
        var f := k.frames[i];
        forall j | 0 <= j < Looked(f) && j < |p[f.m].requests| ensures EdgeOk(w', k', f.m, p[f.m].requests[j]) {
          EnterEdge(p, w, k, f.m, p[f.m].requests[j]);
        }
      }
    }
    forall y: nat | Black(w', k', y)
      ensures BlackEdgesOk(p, w', k', y)
    {
      EnterGray(p, w, k, y);
      assert BlackEdgesOk(p, w, k, y);
      forall r | r in p[y].requests ensures EdgeOk(w', k', y, r) { EnterEdge(p, w, k, y, r); }
    }
  }

  lemma EnterReachesAbove(p: seq<Definition>, w: World, k: Walk, i: nat)
    requires Shape(p, w) && FramesOk(p, w, k) && ReachOk(p, w, k) && |k.frames| > 0 && !Top(k).entered
    requires i < |k.frames| - 1
    ensures ReachesAbove(p, EnteredWorld(w, k), k.frames[i].m)
  {
    var n, u := |k.frames| - 1, Top(k).m;
    assert FrameOk(p, w, k, n) && FrameOk(p, w, k, i) && FrameOk(p, w, k, n - 1);
    var g, h := k.frames[i].m, k.frames[n - 1].m;
    assert ReachesAbove(p, w, g);
    assert Reaches(p, g, h) by {
      assert i < n - 1 ==> w.rs[g].dfsIndex < w.rs[h].dfsIndex;
    }
    ReachesRequest(p, h, u);
    ReachesTransitive(p, g, h, u);
  }

  lemma EnterHasLow(p: seq<Definition>, w: World, k: Walk, y: nat)
    requires |w.rs| == |p| && ReachOk(p, w, k) && |k.frames| > 0 && Top(k).m < |p| && w.rs[Top(k).m].status == Linked
    requires y < |p| && EnteredWorld(w, k).rs[y].status == Evaluating
    ensures HasLow(p, EnteredWorld(w, k), y)
  {
    var u, w' := Top(k).m, EnteredWorld(w, k);
    if y == u {
      ReachesSelf(p, u);
      assert LowWitness(p, w', u, u);
    } else {
      assert HasLow(p, w, y);
      var z: nat :| LowWitness(p, w, y, z);
      assert LowWitness(p, w', y, z);
    }
  }

  lemma EnterReach(p: seq<Definition>, w: World, k: Walk)
    requires Shape(p, w) && StackOk(p, w, k) && FramesOk(p, w, k) && ReachOk(p, w, k) && |k.frames| > 0
             && !Top(k).entered
    ensures ReachOk(p, EnteredWorld(w, k), EnteredWalk(k))
  {
    var n, u, w', k' := |k.frames| - 1, Top(k).m, EnteredWorld(w, k), EnteredWalk(k);
    assert FrameOk(p, w, k, n);
    assert ReachesAbove(p, w', u) by {
      ReachesSelf(p, u);
      forall y: nat | y < |p| && w.rs[y].status == Evaluating
        ensures w.rs[y].dfsIndex < k.index
      {
        assert OpenOk(w, k, y);
      }
    }
    forall i | 0 <= i < |k'.frames| && k'.frames[i].entered ensures ReachesAbove(p, w', k'.frames[i].m) {
      if i < n { EnterReachesAbove(p, w, k, i); }
    }
    forall y: nat | y < |p| && w'.rs[y].status == Evaluating ensures HasLow(p, w', y) { EnterHasLow(p, w, k, y); }
  }

  lemma EnterLow(p: seq<Definition>, w: World, k: Walk)
    requires Shape(p, w) && StackOk(p, w, k) && FramesOk(p, w, k) && LowStrict(w, k) && LowCover(p, w, k)
             && |k.frames| > 0 && !Top(k).entered
    ensures LowStrict(EnteredWorld(w, k), EnteredWalk(k)) && LowCover(p, EnteredWorld(w, k), EnteredWalk(k))
  {
    var n, u, w', k' := |k.frames| - 1, Top(k).m, EnteredWorld(w, k), EnteredWalk(k);
    assert FrameOk(p, w, k, n);
    forall y: nat | Black(w', k', y)
      ensures Black(w, k, y) && y != u && w.rs[y].dfsIndex < k.index
    {
      EnterGray(p, w, k, y);
      assert OpenOk(w, k, y);
    }
    forall i, y: nat | 0 <= i < |k'.frames| && Black(w', k', y)
      ensures CoverOk(p, w', k', i, y)
    {
      assert Black(w, k, y);
      if i < n {
        assert FrameOk(p, w, k, i);
        assert CoverOk(p, w, k, i, y);
        assert k'.frames[i] == k.frames[i];
        if Around(w', k', i, y) {
          if i + 1 < n {
            assert FrameOk(p, w, k, i + 1);
          }
          assert Around(w, k, i, y);
        }
      }
    }
  }

  lemma EnterWaits(p: seq<Definition>, w: World, k: Walk)
    requires Shape(p, w) && Statuses(w) && RegistrationsOk(w) && StackOk(p, w, k) && FramesOk(p, w, k)
             && WaitsOk(p, w, k) && |k.frames| > 0 && !Top(k).entered
    ensures WaitsOk(p, EnteredWorld(w, k), EnteredWalk(k))
  {
    var n, u, w', k' := |k.frames| - 1, Top(k).m, EnteredWorld(w, k), EnteredWalk(k);
    assert FrameOk(p, w, k, n) && RecordOk(w, u);
    forall m: nat | m < |p| && Gray(k', m) ensures GrayWaits(w', m) {
      EnterGray(p, w, k, m);
      assert m != u ==> GrayWaits(w, m);
    }
    forall y: nat | Black(w', k', y)
      ensures BlackWaits(p, w', k', y)
    {
      EnterGray(p, w, k, y);
      assert BlackWaits(p, w, k, y);
      assert OpenOk(w, k, y);
      if w.rs[y].asyncActive {
        assert ViaOk(w, k, y);
        forall g: nat { EnterGray(p, w, k, g); }
      }
    }
    forall y, q: nat | 0 <= y < |p| && w'.rs[y].status == Evaluating && q in w'.rs[y].asyncParents && q < |p|
      ensures NestedIn(w', k', q, y)
    {
      assert RegistrationOk(w, y, q);
      EnterNested(p, w, k, q, y);
    }
  }

  lemma EnterCounts(p: seq<Definition>, w: World, k: Walk)
    requires Shape(p, w) && Statuses(w) && RegistrationsOk(w) && WalkCounts(w)
    requires |k.frames| > 0 && Top(k).m < |p| && w.rs[Top(k).m].status == Linked
    ensures Moved(w, EnteredWorld(w, k)) && WalkCounts(EnteredWorld(w, k))
  {
    var u, w' := Top(k).m, EnteredWorld(w, k);
    assert RecordOk(w, u);
    NeverRegistered(w, u);
    forall m: nat | m < |w'.rs| && w'.rs[m].status == Evaluating
      ensures w'.rs[m].pending == Registrations(w'.rs, Active(w'.rs), m, |w'.rs|)
    {
      MovedCounts(w, w', m);
    }
  }

  lemma EnterKeeps(p: seq<Definition>, w: World, k: Walk, root: nat)
    requires WalkOk(p, w, k, root) && |k.frames| > 0 && !Top(k).entered
    ensures WalkOk(p, EnteredWorld(w, k), EnteredWalk(k), root)
  {
    assert FrameOk(p, w, k, |k.frames| - 1);
    EnterStack(p, w, k);
    EnterFrames(p, w, k);
    EnterEdges(p, w, k);
    EnterReach(p, w, k);
    EnterLow(p, w, k);
    EnterWaits(p, w, k);
    EnterCounts(p, w, k);
    MovedSettled(p, w, EnteredWorld(w, k));
    EnterCapabilities(w, k, root);
  }

  lemma EnterCapabilities(w: World, k: Walk, root: nat)
    requires WalkCapabilities(w, root) && |k.frames| > 0 && Top(k).m < |w.rs| && w.rs[Top(k).m].status == Linked
    ensures WalkCapabilities(EnteredWorld(w, k), root)
  {
  }

  /** A module that was never entered waits for nothing. */
  lemma NeverRegistered(w: World, u: nat)
    requires Statuses(w) && RegistrationsOk(w) && u < |w.rs| && w.rs[u].status == Linked
    ensures Registrations(w.rs, Active(w.rs), u, |w.rs|) == 0
  {
    RegistrationsZero(w.rs, Active(w.rs), u, |w.rs|);
    forall y | 0 <= y < |w.rs|
      ensures u !in w.rs[y].asyncParents
    {
      assert u in w.rs[y].asyncParents ==> RegistrationOk(w, y, u);
    }
  }

  // ---------------------------------------------------------------- look back

  /** Two worlds that the walk's shape cannot tell apart. */
  ghost predicate SameShape(w: World, w': World) {
    && |w'.rs| == |w.rs|
    && (forall m :: 0 <= m < |w.rs| ==>
          w'.rs[m].status == w.rs[m].status && w'.rs[m].dfsIndex == w.rs[m].dfsIndex
          && w'.rs[m].ancestorIndex == w.rs[m].ancestorIndex)
  }

  lemma SameShapeStack(p: seq<Definition>, w: World, w': World, k: Walk)
    requires |p| == |w.rs| && SameShape(w, w') && StackOk(p, w, k) && FramesOk(p, w, k)
    ensures StackOk(p, w', k) && FramesOk(p, w', k)
  {
    forall m | m in k.stack ensures OpenOk(w', k, m) { assert OpenOk(w, k, m); }
    forall i | 0 <= i < |k.frames| ensures FrameOk(p, w', k, i) { assert FrameOk(p, w, k, i); }
  }

  lemma SameShapeReach(p: seq<Definition>, w: World, w': World, k: Walk)
    requires |p| == |w.rs| && SameShape(w, w') && ReachOk(p, w, k)
    ensures ReachOk(p, w', k)
  {
    forall i | 0 <= i < |k.frames| && k.frames[i].entered ensures ReachesAbove(p, w', k.frames[i].m) {
      assert ReachesAbove(p, w, k.frames[i].m);
    }
    forall y: nat | y < |p| && w'.rs[y].status == Evaluating ensures HasLow(p, w', y) {
      assert HasLow(p, w, y);
      var z: nat :| LowWitness(p, w, y, z);
      assert LowWitness(p, w', y, z);
    }
  }

  lemma SameShapeLow(p: seq<Definition>, w: World, w': World, k: Walk)
    requires |p| == |w.rs| && SameShape(w, w') && LowStrict(w, k) && LowCover(p, w, k)
    ensures LowStrict(w', k) && LowCover(p, w', k)
  {
    forall y: nat ensures Black(w', k, y) <==> Black(w, k, y) {}
    forall i, y: nat | 0 <= i < |k.frames| && Black(w', k, y) ensures CoverOk(p, w', k, i, y) {
      assert CoverOk(p, w, k, i, y);
      assert Around(w', k, i, y) <==> Around(w, k, i, y);
      forall r: nat ensures JustReturned(p, w', k, r) <==> JustReturned(p, w, k, r) {}
    }
  }

  /** The request the innermost frame waits for. */
  function Requested(p: seq<Definition>, k: Walk): (r: nat)
    requires |k.frames| > 0 && Top(k).m < |p| && 0 < Top(k).next <= |p[Top(k).m].requests|
  {
    p[Top(k).m].requests[Top(k).next - 1]
  }

  /** The module to wait for: the request itself inside an open component, its cycle root otherwise. */
  function Target(w: World, r: nat): (t: nat)
    requires r < |w.rs|
  {
    if w.rs[r].status == Evaluating then r else w.rs[r].cycleRoot
  }

  function LoweredWorld(w: World, u: nat, r: nat): (w': World)
    requires u < |w.rs| && r < |w.rs|
  {
    if w.rs[r].status == Evaluating && w.rs[r].ancestorIndex < w.rs[u].ancestorIndex
    then Put(w, u, w.rs[u].(ancestorIndex := w.rs[r].ancestorIndex)) else w
  }

  function RegisteredWorld(w: World, u: nat, r: nat): (w': World)
    requires u < |w.rs| == |w.via| && r < |w.rs| && w.rs[r].cycleRoot < |w.rs|
  {
    var t := Target(w, r);
    if w.rs[t].asyncActive && t != u then
      var counted := w.rs[u := w.rs[u].(pending := w.rs[u].pending + 1)];
      w.(rs := counted[t := counted[t].(asyncParents := counted[t].asyncParents + [u])],
         via := if w.rs[r].status == Evaluating && w.rs[u].dfsIndex < w.rs[r].dfsIndex then w.via[r := u] else w.via)
    else w
  }

  lemma LowerEdges(p: seq<Definition>, w: World, k: Walk, r: nat)
    requires Shape(p, w) && FramesOk(p, w, k) && EdgesOk(p, w, k)
    requires |k.frames| > 0 && Top(k).entered && r < |p|
    ensures EdgesOk(p, LoweredWorld(w, Top(k).m, r), k)
  {
    var u := Top(k).m;
    var w' := LoweredWorld(w, u, r);
    assert FrameOk(p, w, k, |k.frames| - 1);
    forall v, x: nat | 0 <= v < |p| && EdgeOk(w, k, v, x) ensures EdgeOk(w', k, v, x) {}
    forall i | 0 <= i < |k.frames| && k.frames[i].entered ensures FrameEdgesOk(p, w', k, k.frames[i]) {
      assert FrameEdgesOk(p, w, k, k.frames[i]);
    }
    forall y: nat | Black(w', k, y) ensures BlackEdgesOk(p, w', k, y) {
      assert Black(w, k, y) && BlackEdgesOk(p, w, k, y);
    }
  }

  lemma LowerReach(p: seq<Definition>, w: World, k: Walk, u: nat, r: nat)
    requires |w.rs| == |p| && ReachOk(p, w, k)
    requires u < |p| && r < |p| && r in p[u].requests
    ensures ReachOk(p, LoweredWorld(w, u, r), k)
  {
    var w' := LoweredWorld(w, u, r);
    forall i | 0 <= i < |k.frames| && k.frames[i].entered ensures ReachesAbove(p, w', k.frames[i].m) {
      assert ReachesAbove(p, w, k.frames[i].m);
    }
    forall y: nat | y < |p| && w'.rs[y].status == Evaluating ensures HasLow(p, w', y) {
      var from := if y == u && w' != w then r else y;
      assert HasLow(p, w, from);
      var z: nat :| LowWitness(p, w, from, z);
      if from != y {
        ReachesRequest(p, u, r);
        ReachesTransitive(p, u, r, z);
      }
      assert LowWitness(p, w', y, z);
    }
  }

  lemma LowerLow(p: seq<Definition>, w: World, k: Walk, r: nat)
    requires Shape(p, w) && FramesOk(p, w, k) && LowStrict(w, k) && LowCover(p, w, k)
    requires |k.frames| > 0 && Top(k).entered && r < |p|
    ensures LowStrict(LoweredWorld(w, Top(k).m, r), k) && LowCover(p, LoweredWorld(w, Top(k).m, r), k)
  {
    var n, u := |k.frames| - 1, Top(k).m;
    var w' := LoweredWorld(w, u, r);
    assert FrameOk(p, w, k, n);
    assert Gray(k, u);
    forall y: nat | Black(w', k, y) ensures Black(w, k, y) && y != u {}
    forall i, y: nat | 0 <= i < |k.frames| && Black(w', k, y) ensures CoverOk(p, w', k, i, y) {
      LowerCover(p, w, k, r, i, y);
    }
  }

  lemma LowerCover(p: seq<Definition>, w: World, k: Walk, r: nat, i: nat, y: nat)
    requires |w.rs| == |p| && |k.frames| > 0 && Top(k).m < |p| && r < |p| && y != Top(k).m
    requires CoverOk(p, w, k, i, y)
    ensures CoverOk(p, LoweredWorld(w, Top(k).m, r), k, i, y)
  {
    var u := Top(k).m;
    var w' := LoweredWorld(w, u, r);
    if Around(w', k, i, y) && w'.rs[k.frames[i].m].ancestorIndex > w'.rs[y].ancestorIndex {
      assert Around(w, k, i, y);
      var s: nat :| JustReturned(p, w, k, s) && w.rs[s].dfsIndex <= w.rs[y].dfsIndex
                    && w.rs[s].ancestorIndex <= w.rs[y].ancestorIndex;
      assert s != u;
      assert JustReturned(p, w', k, s);
    }
  }

  lemma LowerWaits(p: seq<Definition>, w: World, w': World, k: Walk)
    requires Shape(p, w) && WaitsOk(p, w, k) && Moved(w, w')
    requires forall y :: 0 <= y < |w.rs| ==>
      w'.rs[y].status == w.rs[y].status && w'.rs[y].dfsIndex == w.rs[y].dfsIndex && w'.rs[y].pending == w.rs[y].pending
    ensures WaitsOk(p, w', k)
  {
    forall m: nat | m < |p| && Gray(k, m) ensures GrayWaits(w', m) { assert GrayWaits(w, m); }
    forall y: nat | Black(w', k, y) ensures BlackWaits(p, w', k, y) {
      assert Black(w, k, y) && BlackWaits(p, w, k, y);
    }
  }

  lemma LowerKeeps(p: seq<Definition>, w: World, k: Walk, root: nat)
    requires WalkOk(p, w, k, root) && |k.frames| > 0 && Top(k).waiting
    ensures FrameOk(p, w, k, |k.frames| - 1)
    ensures WalkOk(p, LoweredWorld(w, Top(k).m, Requested(p, k)), k, root)
  {
    assert FrameOk(p, w, k, |k.frames| - 1);
    var u, r := Top(k).m, Requested(p, k);
    var w' := LoweredWorld(w, u, r);
    assert RecordOk(w, u);
    LowerFields(w, u, r);
    LowerStack(p, w, k, u, r);
    LowerEdges(p, w, k, r);
    LowerReach(p, w, k, u, r);
    LowerLow(p, w, k, r);
    LowerWaits(p, w, w', k);
    MovedSettled(p, w, w');
    LowerCounts(w, w');
    SameCapabilities(w, w', root);
  }

  /** Two worlds whose records differ in nothing that a capability reports. */
  ghost predicate SameOutcomes(w: World, w': World) {
    && |w'.rs| == |w.rs|
    && forall m :: 0 <= m < |w.rs| ==>
         && w'.rs[m].topLevel == w.rs[m].topLevel && w'.rs[m].status == w.rs[m].status
         && w'.rs[m].cycleRoot == w.rs[m].cycleRoot
         && w'.rs[m].hasError == w.rs[m].hasError && w'.rs[m].error == w.rs[m].error
         && w'.rs[m].inExecutionList == w.rs[m].inExecutionList
  }

  lemma SameCapabilities(w: World, w': World, root: nat)
    requires WalkCapabilities(w, root) && SameOutcomes(w, w')
    ensures WalkCapabilities(w', root)
  {
  }

  lemma LowerFields(w: World, u: nat, r: nat)
    requires u < |w.rs| && r < |w.rs| && u !in w.popped
    ensures Moved(w, LoweredWorld(w, u, r)) && SameOutcomes(w, LoweredWorld(w, u, r))
    ensures forall y :: 0 <= y < |w.rs| ==>
      && LoweredWorld(w, u, r).rs[y].status == w.rs[y].status
      && LoweredWorld(w, u, r).rs[y].dfsIndex == w.rs[y].dfsIndex
      && LoweredWorld(w, u, r).rs[y].pending == w.rs[y].pending
  {
  }

  lemma LowerCounts(w: World, w': World)
    requires Moved(w, w') && WalkCounts(w)
    requires forall y :: 0 <= y < |w.rs| ==> w'.rs[y].status == w.rs[y].status && w'.rs[y].pending == w.rs[y].pending
    ensures WalkCounts(w')
  {
    forall m: nat | m < |w'.rs| && w'.rs[m].status == Evaluating
      ensures w'.rs[m].pending == Registrations(w'.rs, Active(w'.rs), m, |w'.rs|)
    {
      MovedCounts(w, w', m);
    }
  }

  lemma LowerStack(p: seq<Definition>, w: World, k: Walk, u: nat, r: nat)
    requires |w.rs| == |p| && StackOk(p, w, k) && FramesOk(p, w, k) && u < |p| && r < |p|
    ensures StackOk(p, LoweredWorld(w, u, r), k) && FramesOk(p, LoweredWorld(w, u, r), k)
  {
    var w' := LoweredWorld(w, u, r);
    forall m | m in k.stack ensures OpenOk(w', k, m) { assert OpenOk(w, k, m); }
    forall i | 0 <= i < |k.frames| ensures FrameOk(p, w', k, i) { assert FrameOk(p, w, k, i); }
  }
}
