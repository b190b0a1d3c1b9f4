/**
Looking back at a request that has returned: registering with what it still waits for, and going on to the next request.
*/
module ModuleWalkWaits {
  import opened ModuleRequests
  import opened ModuleState
  import opened ModuleWalk
  import opened ModuleWalkSteps

  /** The registration of u with t, as one update of the world. */
  ghost predicate RegistersWith(w: World, w': World, u: nat, t: nat, r: nat) {
    && u < |w.rs| == |w.via| && t < |w.rs| && r < |w.rs| && w.rs[r].cycleRoot < |w.rs| && u != t
    && w.rs[u].status == Evaluating && !w.rs[u].asyncActive && u !in w.started && w.rs[u].asyncParents == []
    && w.rs[t].asyncActive && !w.rs[t].hasError && w.rs[t].status != Linked
    && t == Target(w, r)
    && (w.rs[t].status == Evaluating ==> w.rs[u].ancestorIndex <= w.rs[t].dfsIndex)
    && (w.rs[t].status != Evaluating ==> t in w.popped && w.rs[t].cycleRoot == t)
    && w' == RegisteredWorld(w, u, r)
  }

  lemma RegisterFields(w: World, w': World, u: nat, t: nat, r: nat)
    requires RegistersWith(w, w', u, t, r)
    ensures SameShape(w, w') && SameOutcomes(w, w')
  {
  }

  lemma RegisterRecords(p: seq<Definition>, w: World, w': World, u: nat, t: nat, r: nat)
    requires Shape(p, w) && Statuses(w) && RegistrationsOk(w) && RegistersWith(w, w', u, t, r)
    ensures Shape(p, w') && Statuses(w') && RegistrationsOk(w')
  {
    forall m | 0 <= m < |w'.rs| ensures RecordOk(w', m) { assert RecordOk(w, m); }
    forall y, q | 0 <= y < |w'.rs| && q in w'.rs[y].asyncParents ensures RegistrationOk(w', y, q) {
      if y == t && q == u {
        assert RecordOk(w, t) && RecordOk(w, u);
      } else {
        assert q in w.rs[y].asyncParents;
        assert RegistrationOk(w, y, q);
      }
    }
  }

  lemma RegisterMembers(p: seq<Definition>, w: World, w': World, u: nat, t: nat, r: nat)
    requires Shape(p, w) && Shape(p, w') && Statuses(w) && Components(p, w) && RequestsServed(p, w) && MembersOk(w)
             && RegistersWith(w, w', u, t, r)
    ensures Components(p, w') && RequestsServed(p, w') && MembersOk(w')
  {
    forall y: nat | y < |w.rs|
      ensures w'.rs[y].cycleRoot == w.rs[y].cycleRoot
      ensures forall q :: q in w.rs[y].asyncParents ==> q in w'.rs[y].asyncParents
    {}
    forall y | y in w'.popped && y < |w'.rs| && w'.rs[y].cycleRoot != y
      ensures MemberOk(w', y)
    {
      RegisterMember(w, w', u, t, r, y);
    }
    forall x, c: nat | 0 <= c < |w.rs| && Served(w, x, c) ensures Served(w', x, c) {}
  }

  lemma RegisterMember(w: World, w': World, u: nat, t: nat, r: nat, y: nat)
    requires Statuses(w) && RegistersWith(w, w', u, t, r) && y < |w.rs| && y in w.popped && MembersOk(w)
             && w.rs[y].cycleRoot != y
    ensures MemberOk(w', y)
  {
    assert MemberOk(w, y) && RecordOk(w, r);
  }

  lemma RegisterCount(w: World, w': World, u: nat, t: nat, r: nat, q: nat)
    requires RegistersWith(w, w', u, t, r)
    ensures Active(w'.rs) == Active(w.rs)
    ensures Registrations(w'.rs, Active(w'.rs), q, |w'.rs|) ==
      Registrations(w.rs, Active(w.rs), q, |w.rs|) + if q == u then 1 else 0
  {
    assert forall y :: 0 <= y < |w.rs| ==> w'.rs[y].asyncActive == w.rs[y].asyncActive;
    assert Active(w'.rs) == Active(w.rs);
    RegistrationsAppend(w.rs, w'.rs, Active(w.rs), t, u, q, |w.rs|);
  }

  lemma RegisterCounts(w: World, w': World, u: nat, t: nat, r: nat)
    requires RegistersWith(w, w', u, t, r) && WalkCounts(w)
    requires PendingCounts(w, Active(w.rs)) && ZeroMeansRunning(w, {})
    ensures WalkCounts(w') && PendingCounts(w', Active(w'.rs)) && ZeroMeansRunning(w', {})
  {
    forall m: nat | m < |w'.rs| && w'.rs[m].status == Evaluating
      ensures w'.rs[m].pending == Registrations(w'.rs, Active(w'.rs), m, |w'.rs|)
    {
      RegisterCount(w, w', u, t, r, m);
    }
    forall m: nat | Live(w', m)
      ensures Live(w, m) && w'.rs[m].pending == w.rs[m].pending == Registrations(w'.rs, Active(w'.rs), m, |w'.rs|)
    {
      RegisterCount(w, w', u, t, r, m);
    }
  }

  lemma RegisterEdges(p: seq<Definition>, w: World, w': World, k: Walk, u: nat, t: nat, r: nat)
    requires Shape(p, w) && EdgesOk(p, w, k) && RegistersWith(w, w', u, t, r)
    ensures EdgesOk(p, w', k)
  {
    forall v, x: nat | 0 <= v < |p| && EdgeOk(w, k, v, x) ensures EdgeOk(w', k, v, x) {}
    forall i | 0 <= i < |k.frames| && k.frames[i].entered ensures FrameEdgesOk(p, w', k, k.frames[i]) {
      assert FrameEdgesOk(p, w, k, k.frames[i]);
    }
    forall y: nat | Black(w', k, y) ensures BlackEdgesOk(p, w', k, y) {
      assert Black(w, k, y) && BlackEdgesOk(p, w, k, y);
    }
  }

  lemma RegisterVia(w: World, w': World, k: Walk, u: nat, t: nat, r: nat, y: nat)
    requires RegistersWith(w, w', u, t, r) && y < |w.rs|
    requires forall g: nat :: Gray(k, g) && g < |w.rs| ==> w.rs[g].dfsIndex <= w.rs[u].dfsIndex
    ensures ViaOk(w, k, y) ==> ViaOk(w', k, y)
    ensures y == r && w.rs[r].status == Evaluating && w.rs[u].dfsIndex < w.rs[r].dfsIndex ==> ViaOk(w', k, y)
  {
  }

  lemma RegisterWaits(p: seq<Definition>, w: World, w': World, k: Walk, u: nat, t: nat, r: nat)
    requires Shape(p, w) && FramesOk(p, w, k) && WaitsOk(p, w, k) && RegistersWith(w, w', u, t, r)
    requires |k.frames| > 0 && Top(k).entered && Top(k).m == u
    ensures WaitsOk(p, w', k)
  {
    forall g: nat | Gray(k, g) && g < |w.rs| ensures w.rs[g].dfsIndex <= w.rs[u].dfsIndex { GrayUpToTop(p, w, k, g); }
    forall m: nat | m < |p| && Gray(k, m) ensures GrayWaits(w', m) { assert GrayWaits(w, m); }
    assert Gray(k, u);
    forall y: nat | Black(w', k, y) ensures BlackWaits(p, w', k, y) {
      assert Black(w, k, y) && BlackWaits(p, w, k, y);
      RegisterVia(w, w', k, u, t, r, y);
      assert JustReturned(p, w, k, y) ==> JustReturned(p, w', k, y);
    }
  }

  lemma RegisterKeeps(p: seq<Definition>, w: World, k: Walk, root: nat)
    requires WalkOk(p, w, k, root) && |k.frames| > 0 && Top(k).waiting
    requires Top(k).m < |p| && 0 < Top(k).next <= |p[Top(k).m].requests|
    requires w.rs[Requested(p, k)].status == Evaluating ==>
      w.rs[Top(k).m].ancestorIndex <= w.rs[Requested(p, k)].ancestorIndex
    ensures !w.rs[Target(w, Requested(p, k))].hasError ==>
      WalkOk(p, RegisteredWorld(w, Top(k).m, Requested(p, k)), k, root)
  {
    assert FrameOk(p, w, k, |k.frames| - 1);
    var u, r := Top(k).m, Requested(p, k);
    var t, w' := Target(w, r), RegisteredWorld(w, u, r);
    assert RecordOk(w, r);
    assert Gray(k, u) && GrayWaits(w, u);
    if !w.rs[t].hasError && w.rs[t].asyncActive {
      assert RecordOk(w, t);
      assert w.rs[r].status == Evaluating ==> OpenOk(w, k, r);
      assert RegistersWith(w, w', u, t, r);
      RegisterRecords(p, w, w', u, t, r);
      RegisterMembers(p, w, w', u, t, r);
      RegisterCounts(w, w', u, t, r);
      RegisterEdges(p, w, w', k, u, t, r);
      RegisterWaits(p, w, w', k, u, t, r);
      RegisterFields(w, w', u, t, r);
      SameShapeStack(p, w, w', k);
      SameShapeReach(p, w, w', k);
      SameShapeLow(p, w, w', k);
      SameCapabilities(w, w', root);
    }
  }

  // ------------------------------------------------------- done with a request

  /** The innermost frame has learned all that its last request can tell it. */
  ghost predicate LookedBack(w: World, u: nat, r: nat) {
    && u < |w.rs| == |w.via| && r < |w.rs| && w.rs[r].cycleRoot < |w.rs|
    && var t := Target(w, r);
    && !w.rs[t].hasError
    && (w.rs[t].asyncActive ==> u in w.rs[t].asyncParents)
    && (w.rs[r].status == Evaluating ==> w.rs[u].ancestorIndex <= w.rs[r].ancestorIndex)
    && (w.rs[r].status == Evaluating && w.rs[r].asyncActive && w.rs[u].dfsIndex < w.rs[r].dfsIndex ==> w.via[r] == u)
  }

  lemma LookedBackHolds(w: World, u: nat, r: nat)
    requires u < |w.rs| == |w.via| && r < |w.rs| && w.rs[r].cycleRoot < |w.rs| && !w.rs[u].asyncActive
             && !w.rs[Target(w, r)].hasError
    ensures LookedBack(RegisteredWorld(LoweredWorld(w, u, r), u, r), u, r)
  {
    var w1 := LoweredWorld(w, u, r);
    assert Target(w1, r) == Target(w, r);
    assert w1.rs[Target(w, r)].asyncActive == w.rs[Target(w, r)].asyncActive;
  }

  function ForwardWalk(k: Walk): (k': Walk)
    requires |k.frames| > 0
  {
    WithTop(k, Top(k).(waiting := false))
  }

  lemma ForwardGray(k: Walk, y: nat)
    requires |k.frames| > 0
    ensures Gray(ForwardWalk(k), y) <==> Gray(k, y)
  {
    var k' := ForwardWalk(k);
    if Gray(k, y) {
      var i :| 0 <= i < |k.frames| && k.frames[i].entered && k.frames[i].m == y;
      assert k'.frames[i].m == y && k'.frames[i].entered;
    }
    if Gray(k', y) {
      var i :| 0 <= i < |k'.frames| && k'.frames[i].entered && k'.frames[i].m == y;
      assert k.frames[i].m == y && k.frames[i].entered;
    }
  }

  lemma ForwardFrames(p: seq<Definition>, w: World, k: Walk)
    requires |w.rs| == |p| && StackOk(p, w, k) && FramesOk(p, w, k) && |k.frames| > 0
    ensures StackOk(p, w, ForwardWalk(k)) && FramesOk(p, w, ForwardWalk(k))
  {
    var k' := ForwardWalk(k);
    forall m | m in k'.stack ensures OpenOk(w, k', m) { assert OpenOk(w, k, m); }
    forall i | 0 <= i < |k'.frames| ensures FrameOk(p, w, k', i) { assert FrameOk(p, w, k, i); }
  }

  lemma ForwardEdge(w: World, k: Walk, y: nat, r: nat)
    requires y < |w.rs| && EdgeOk(w, k, y, r) && |k.frames| > 0
    ensures EdgeOk(w, ForwardWalk(k), y, r)
  {
  }

  /** The request just looked back at becomes one that the innermost call knows about. */
  lemma NewEdge(p: seq<Definition>, w: World, k: Walk)
    requires Shape(p, w) && Statuses(w) && Components(p, w) && FramesOk(p, w, k) && StackOk(p, w, k) && |k.frames| > 0
             && Top(k).waiting
    requires Top(k).m < |p| && 0 < Top(k).next <= |p[Top(k).m].requests| && LookedBack(w, Top(k).m, Requested(p, k))
    ensures EdgeOk(w, k, Top(k).m, Requested(p, k))
  {
    var u, r := Top(k).m, Requested(p, k);
    assert FrameOk(p, w, k, |k.frames| - 1) && RecordOk(w, r);
    if w.rs[r].status == Evaluating {
      assert OpenOk(w, k, r);
      forall g: nat | Gray(k, g) && g < |w.rs| ensures w.rs[g].dfsIndex <= w.rs[u].dfsIndex { GrayUpToTop(p, w, k, g); }
    } else {
      assert RecordOk(w, w.rs[r].cycleRoot);
    }
  }

  lemma ForwardEdges(p: seq<Definition>, w: World, k: Walk)
    requires Shape(p, w) && FramesOk(p, w, k) && EdgesOk(p, w, k) && |k.frames| > 0 && Top(k).waiting
    requires Top(k).m < |p| && 0 < Top(k).next <= |p[Top(k).m].requests| && EdgeOk(w, k, Top(k).m, Requested(p, k))
    ensures EdgesOk(p, w, ForwardWalk(k))
  {
    var n, k', u, r := |k.frames| - 1, ForwardWalk(k), Top(k).m, Requested(p, k);
    assert FrameOk(p, w, k, n);
    forall i | 0 <= i < |k'.frames| && k'.frames[i].entered ensures FrameEdgesOk(p, w, k', k'.frames[i]) {
      assert FrameEdgesOk(p, w, k, k.frames[i]);
      var f := k'.frames[i];
      forall j | 0 <= j < Looked(f) && j < |p[f.m].requests| ensures EdgeOk(w, k', f.m, p[f.m].requests[j]) {
        ForwardEdge(w, k, f.m, p[f.m].requests[j]);
      }
    }
    forall y: nat | Black(w, k', y) ensures BlackEdgesOk(p, w, k', y) {
      ForwardGray(k, y);
      assert BlackEdgesOk(p, w, k, y);
      forall x | x in p[y].requests ensures EdgeOk(w, k', y, x) { ForwardEdge(w, k, y, x); }
    }
  }

  lemma ForwardReach(p: seq<Definition>, w: World, k: Walk)
    requires |w.rs| == |p| && ReachOk(p, w, k) && |k.frames| > 0
    ensures ReachOk(p, w, ForwardWalk(k))
  {
  }

  lemma ForwardLow(p: seq<Definition>, w: World, k: Walk)
    requires |w.rs| == |p| && LowStrict(w, k) && LowCover(p, w, k) && |k.frames| > 0
    requires Top(k).m < |p| && 0 < Top(k).next <= |p[Top(k).m].requests| && LookedBack(w, Top(k).m, Requested(p, k))
    ensures LowStrict(w, ForwardWalk(k)) && LowCover(p, w, ForwardWalk(k))
  {
    var k' := ForwardWalk(k);
    forall y: nat ensures Black(w, k', y) <==> Black(w, k, y) { ForwardGray(k, y); }
    forall i, y: nat | 0 <= i < |k'.frames| && Black(w, k', y) ensures CoverOk(p, w, k', i, y) {
      assert CoverOk(p, w, k, i, y);
      assert Around(w, k', i, y) ==> Around(w, k, i, y);
      assert forall r: nat :: JustReturned(p, w, k, r) ==> r == Requested(p, k);
    }
  }

  lemma ForwardWaits(p: seq<Definition>, w: World, k: Walk)
    requires Shape(p, w) && FramesOk(p, w, k) && WaitsOk(p, w, k) && |k.frames| > 0 && Top(k).entered
    requires Top(k).m < |p| && 0 < Top(k).next <= |p[Top(k).m].requests| && LookedBack(w, Top(k).m, Requested(p, k))
    ensures WaitsOk(p, w, ForwardWalk(k))
  {
    var k', u := ForwardWalk(k), Top(k).m;
    assert FrameOk(p, w, k, |k.frames| - 1);
    forall y: nat { ForwardGray(k, y); }
    forall m: nat | m < |p| && Gray(k', m) ensures GrayWaits(w, m) { assert Gray(k, m); }
    forall y: nat | Black(w, k', y) ensures BlackWaits(p, w, k', y) {
      assert Black(w, k, y) && BlackWaits(p, w, k, y);
      if w.rs[y].asyncActive && JustReturned(p, w, k, y) {
        forall g: nat | Gray(k', g) && g < |w.rs|
          ensures w.rs[g].dfsIndex <= w.rs[u].dfsIndex
        {
          GrayUpToTop(p, w, k, g);
        }
        assert ViaOk(w, k', y);
      } else if w.rs[y].asyncActive {
        assert ViaOk(w, k', y);
      }
    }
  }

  lemma ForwardKeeps(p: seq<Definition>, w: World, k: Walk, root: nat)
    requires WalkOk(p, w, k, root) && |k.frames| > 0 && Top(k).waiting
    requires Top(k).m < |p| && 0 < Top(k).next <= |p[Top(k).m].requests| && LookedBack(w, Top(k).m, Requested(p, k))
    ensures WalkOk(p, w, ForwardWalk(k), root)
  {
    assert FrameOk(p, w, k, |k.frames| - 1);
    ForwardFrames(p, w, k);
    NewEdge(p, w, k);
    ForwardEdges(p, w, k);
    ForwardReach(p, w, k);
    ForwardLow(p, w, k);
    ForwardWaits(p, w, k);
  }

  /** The world after looking back: an error of the target stops short of the registration. */
  function LookedWorld(w: World, u: nat, r: nat): (w': World)
    requires u < |w.rs| == |w.via| && r < |w.rs| && w.rs[r].cycleRoot < |w.rs|
  {
    var low := LoweredWorld(w, u, r);
    if w.rs[Target(w, r)].hasError then low else RegisteredWorld(low, u, r)
  }

  lemma LookedStatuses(w: World, u: nat, r: nat)
    requires u < |w.rs| == |w.via| && r < |w.rs| && w.rs[r].cycleRoot < |w.rs|
    ensures |LookedWorld(w, u, r).rs| == |w.rs|
    ensures forall y :: 0 <= y < |w.rs| ==> LookedWorld(w, u, r).rs[y].status == w.rs[y].status
  {
  }

  // ---------------------------------------------------------- the next request

  function RequestingWalk(k: Walk): (k': Walk)
    requires |k.frames| > 0
  {
    WithTop(k, Top(k).(next := Top(k).next + 1, waiting := true))
  }

  function NestedWalk(k: Walk, r: nat): (k': Walk) {
    k.(frames := k.frames + [Frame(r, 0, false, false)])
  }

  function NextWalk(p: seq<Definition>, w: World, k: Walk): (k': Walk)
    requires |k.frames| > 0 && Top(k).m < |p| == |w.rs| && Closed(p) && Top(k).next < |p[Top(k).m].requests|
  {
    var r := p[Top(k).m].requests[Top(k).next];
    if w.rs[r].status == Linked then NestedWalk(RequestingWalk(k), r) else RequestingWalk(k)
  }

  lemma NextGray(p: seq<Definition>, w: World, k: Walk, y: nat)
    requires |k.frames| > 0 && Top(k).m < |p| == |w.rs| && Closed(p) && Top(k).next < |p[Top(k).m].requests|
    ensures Gray(NextWalk(p, w, k), y) <==> Gray(k, y)
  {
    var k' := NextWalk(p, w, k);
    if Gray(k, y) {
      var i :| 0 <= i < |k.frames| && k.frames[i].entered && k.frames[i].m == y;
      assert k'.frames[i].m == y && k'.frames[i].entered;
    }
    if Gray(k', y) {
      var i :| 0 <= i < |k'.frames| && k'.frames[i].entered && k'.frames[i].m == y;
      assert k.frames[i].m == y && k.frames[i].entered;
    }
  }

  lemma NextFrame(p: seq<Definition>, w: World, k: Walk, i: nat)
    requires Shape(p, w) && FramesOk(p, w, k) && |k.frames| > 0 && Top(k).entered && !Top(k).waiting
    requires Top(k).m < |p| && Top(k).next < |p[Top(k).m].requests| && i < |NextWalk(p, w, k).frames|
    ensures FrameOk(p, w, NextWalk(p, w, k), i)
  {
    if i < |k.frames| {
      assert FrameOk(p, w, k, i);
    }
  }

  lemma NextFrames(p: seq<Definition>, w: World, k: Walk)
    requires Shape(p, w) && StackOk(p, w, k) && FramesOk(p, w, k) && |k.frames| > 0 && Top(k).entered && !Top(k).waiting
    requires Top(k).m < |p| && Top(k).next < |p[Top(k).m].requests|
    ensures StackOk(p, w, NextWalk(p, w, k)) && FramesOk(p, w, NextWalk(p, w, k))
  {
    var n, k' := |k.frames| - 1, NextWalk(p, w, k);
    forall m | m in k'.stack ensures OpenOk(w, k', m) { assert OpenOk(w, k, m); }
    forall i | 0 <= i < |k'.frames| ensures FrameOk(p, w, k', i) { NextFrame(p, w, k, i); }
    assert forall i :: 0 <= i <= n ==> k'.frames[i].m == k.frames[i].m && k'.frames[i].entered == k.frames[i].entered;
  }

  lemma NextEdge(p: seq<Definition>, w: World, k: Walk, y: nat, r: nat)
    requires Shape(p, w) && y < |w.rs| && EdgeOk(w, k, y, r) && |k.frames| > 0
    requires Top(k).m < |p| && Top(k).next < |p[Top(k).m].requests|
    ensures EdgeOk(w, NextWalk(p, w, k), y, r)
  {
  }

  lemma NextEdges(p: seq<Definition>, w: World, k: Walk)
    requires Shape(p, w) && EdgesOk(p, w, k) && |k.frames| > 0 && Top(k).entered && !Top(k).waiting
    requires Top(k).m < |p| && Top(k).next < |p[Top(k).m].requests|
    ensures EdgesOk(p, w, NextWalk(p, w, k))
  {
    var n, k' := |k.frames| - 1, NextWalk(p, w, k);
    forall i | 0 <= i < |k'.frames| && k'.frames[i].entered ensures FrameEdgesOk(p, w, k', k'.frames[i]) {
      assert FrameEdgesOk(p, w, k, k.frames[i]);
      var f := k'.frames[i];
      forall j | 0 <= j < Looked(f) && j < |p[f.m].requests| ensures EdgeOk(w, k', f.m, p[f.m].requests[j]) {
        NextEdge(p, w, k, f.m, p[f.m].requests[j]);
      }
    }
    forall y: nat | Black(w, k', y) ensures BlackEdgesOk(p, w, k', y) {
      NextGray(p, w, k, y);
      assert BlackEdgesOk(p, w, k, y);
      forall x | x in p[y].requests ensures EdgeOk(w, k', y, x) { NextEdge(p, w, k, y, x); }
    }
  }

  lemma NextReach(p: seq<Definition>, w: World, k: Walk)
    requires Shape(p, w) && ReachOk(p, w, k) && |k.frames| > 0
    requires Top(k).m < |p| && Top(k).next < |p[Top(k).m].requests|
    ensures ReachOk(p, w, NextWalk(p, w, k))
  {
  }

  lemma NextLow(p: seq<Definition>, w: World, k: Walk)
    requires Shape(p, w) && LowStrict(w, k) && LowCover(p, w, k) && |k.frames| > 0 && Top(k).entered && !Top(k).waiting
    requires Top(k).m < |p| && Top(k).next < |p[Top(k).m].requests|
    ensures LowStrict(w, NextWalk(p, w, k)) && LowCover(p, w, NextWalk(p, w, k))
  {
    var n, k' := |k.frames| - 1, NextWalk(p, w, k);
    forall y: nat ensures Black(w, k', y) <==> Black(w, k, y) { NextGray(p, w, k, y); }
    forall i, y: nat | 0 <= i < |k'.frames| && Black(w, k', y) ensures CoverOk(p, w, k', i, y) {
      if i <= n {
        assert CoverOk(p, w, k, i, y);
        assert Around(w, k', i, y) ==> Around(w, k, i, y);
      }
    }
  }

  lemma NextWaits(p: seq<Definition>, w: World, k: Walk)
    requires Shape(p, w) && WaitsOk(p, w, k) && |k.frames| > 0 && Top(k).entered && !Top(k).waiting
    requires Top(k).m < |p| && Top(k).next < |p[Top(k).m].requests|
    ensures WaitsOk(p, w, NextWalk(p, w, k))
  {
    var k' := NextWalk(p, w, k);
    forall y: nat { NextGray(p, w, k, y); }
    forall m: nat | m < |p| && Gray(k', m) ensures GrayWaits(w, m) { assert Gray(k, m); }
    forall y: nat | Black(w, k', y) ensures BlackWaits(p, w, k', y) {
      assert Black(w, k, y) && BlackWaits(p, w, k, y);
      if w.rs[y].asyncActive {
        assert ViaOk(w, k', y);
      }
    }
  }

  lemma NextKeeps(p: seq<Definition>, w: World, k: Walk, root: nat)
    requires WalkOk(p, w, k, root) && |k.frames| > 0 && Top(k).entered && !Top(k).waiting
    requires Top(k).m < |p| && Top(k).next < |p[Top(k).m].requests|
    ensures WalkOk(p, w, NextWalk(p, w, k), root)
  {
    NextFrames(p, w, k);
    NextEdges(p, w, k);
    NextReach(p, w, k);
    NextLow(p, w, k);
    NextWaits(p, w, k);
  }
}
