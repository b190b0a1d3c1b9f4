/**
Leaving a complete call: its component stays open, closes as exactly one strongly connected component, or the whole walk
is abandoned.
*/
module ModuleWalkClose {
  import opened Lists
  import opened ModuleRequests
  import opened ModuleState
  import opened ModuleWalk
  import opened ModuleWalkSteps
  import opened ModuleWalkFinish

  function LeftWalk(k: Walk): (k': Walk)
    requires |k.frames| > 0
  {
    k.(frames := k.frames[..|k.frames| - 1])
  }

  lemma LeftGray(p: seq<Definition>, w: World, k: Walk, y: nat)
    requires |w.rs| == |p| && FramesOk(p, w, k) && |k.frames| > 0 && Top(k).entered
    ensures Gray(LeftWalk(k), y) <==> Gray(k, y) && y != Top(k).m
  {
  }

  // ------------------------------------------------- the component stays open

  /** Only the first call of the walk has nothing below it to reach. */
  lemma FirstHeads(p: seq<Definition>, w: World, k: Walk)
    requires |w.rs| == |p| && Exhausted(p, k) && StackOk(p, w, k) && FramesOk(p, w, k) && ReachOk(p, w, k)
    requires w.rs[Top(k).m].ancestorIndex != w.rs[Top(k).m].dfsIndex
    ensures |k.frames| > 1 && w.rs[Top(k).m].ancestorIndex < w.rs[Top(k).m].dfsIndex
  {
    var u := Top(k).m;
    assert FrameOk(p, w, k, |k.frames| - 1) && OpenOk(w, k, u);
    assert HasLow(p, w, u);
    var z: nat :| LowWitness(p, w, u, z);
    assert z in k.stack && z != k.stack[0] ==> w.rs[k.stack[0]].dfsIndex < w.rs[z].dfsIndex;
  }

  lemma LeaveFrames(p: seq<Definition>, w: World, k: Walk)
    requires |w.rs| == |p| && Exhausted(p, k) && StackOk(p, w, k) && FramesOk(p, w, k) && |k.frames| > 1
    ensures JustReturned(p, w, LeftWalk(k), Top(k).m)
    ensures StackOk(p, w, LeftWalk(k)) && FramesOk(p, w, LeftWalk(k))
  {
    var n, k', u := |k.frames| - 1, LeftWalk(k), Top(k).m;
    assert FrameOk(p, w, k, n) && FrameOk(p, w, k, n - 1);
    forall m | m in k'.stack ensures OpenOk(w, k', m) { assert OpenOk(w, k, m); }
    forall i | 0 <= i < |k'.frames| ensures FrameOk(p, w, k', i) {
      assert FrameOk(p, w, k, i);
      assert k'.frames[i] == k.frames[i];
    }
  }

  lemma LeaveEdge(p: seq<Definition>, w: World, k: Walk, y: nat, r: nat)
    requires |w.rs| == |p| && FramesOk(p, w, k) && |k.frames| > 0 && Top(k).entered && y < |p| && EdgeOk(w, k, y, r)
    ensures EdgeOk(w, LeftWalk(k), y, r)
  {
  }

  lemma LeaveEdges(p: seq<Definition>, w: World, k: Walk)
    requires |w.rs| == |p| && Exhausted(p, k) && FramesOk(p, w, k) && EdgesOk(p, w, k)
    ensures EdgesOk(p, w, LeftWalk(k))
  {
    var n, k', u := |k.frames| - 1, LeftWalk(k), Top(k).m;
    forall i | 0 <= i < |k'.frames| && k'.frames[i].entered ensures FrameEdgesOk(p, w, k', k'.frames[i]) {
      var f := k.frames[i];
      assert FrameEdgesOk(p, w, k, f) && k'.frames[i] == f;
      forall j | 0 <= j < Looked(f) && j < |p[f.m].requests| ensures EdgeOk(w, k', f.m, p[f.m].requests[j]) {
        LeaveEdge(p, w, k, f.m, p[f.m].requests[j]);
      }
    }
    forall y: nat | Black(w, k', y) ensures BlackEdgesOk(p, w, k', y) {
      LeftGray(p, w, k, y);
      KnownEdges(p, w, k, y);
      forall r | r in p[y].requests ensures EdgeOk(w, k', y, r) { LeaveEdge(p, w, k, y, r); }
    }
  }

  /** A complete module knows about all its requests. */
  lemma KnownEdges(p: seq<Definition>, w: World, k: Walk, y: nat)
    requires |w.rs| == |p| && Exhausted(p, k) && EdgesOk(p, w, k)
    requires Black(w, k, y) || y == Top(k).m
    ensures BlackEdgesOk(p, w, k, y)
  {
  }

  lemma LeaveReach(p: seq<Definition>, w: World, k: Walk)
    requires |w.rs| == |p| && |k.frames| > 0 && ReachOk(p, w, k)
    ensures ReachOk(p, w, LeftWalk(k))
  {
  }

  lemma LeaveCover(p: seq<Definition>, w: World, k: Walk, i: nat, y: nat)
    requires |w.rs| == |p| && Exhausted(p, k) && StackOk(p, w, k) && FramesOk(p, w, k) && LowCover(p, w, k)
    requires |k.frames| > 1 && JustReturned(p, w, LeftWalk(k), Top(k).m)
    requires i < |k.frames| - 1 && (Black(w, k, y) || y == Top(k).m)
    ensures CoverOk(p, w, LeftWalk(k), i, y)
  {
    var n, k', u := |k.frames| - 1, LeftWalk(k), Top(k).m;
    assert k'.frames[i] == k.frames[i] && (i + 1 < n ==> k'.frames[i + 1] == k.frames[i + 1]);
    assert FrameOk(p, w, k, n);
    assert i + 1 < n ==> w.rs[k.frames[i + 1].m].dfsIndex < w.rs[k.frames[n].m].dfsIndex && FrameOk(p, w, k, i + 1);
    if Around(w, k', i, y) && y != u {
      IndexIdentifies(p, w, k, u, y);
      assert CoverOk(p, w, k, i, y) && CoverOk(p, w, k, n, y);
      if w.rs[y].dfsIndex < w.rs[u].dfsIndex {
        assert Around(w, k, i, y);
      } else {
        assert Around(w, k, n, y);
        assert forall r: nat :: !JustReturned(p, w, k, r);
      }
    }
  }

  lemma LeaveLow(p: seq<Definition>, w: World, k: Walk)
    requires |w.rs| == |p| && Exhausted(p, k) && StackOk(p, w, k) && FramesOk(p, w, k) && LowStrict(w, k)
             && LowCover(p, w, k)
    requires |k.frames| > 1 && JustReturned(p, w, LeftWalk(k), Top(k).m)
    requires w.rs[Top(k).m].ancestorIndex < w.rs[Top(k).m].dfsIndex
    ensures LowStrict(w, LeftWalk(k)) && LowCover(p, w, LeftWalk(k))
  {
    var k' := LeftWalk(k);
    forall y: nat | Black(w, k', y) ensures w.rs[y].ancestorIndex < w.rs[y].dfsIndex { LeftGray(p, w, k, y); }
    forall i, y: nat | 0 <= i < |k'.frames| && Black(w, k', y) ensures CoverOk(p, w, k', i, y) {
      LeftGray(p, w, k, y);
      LeaveCover(p, w, k, i, y);
    }
  }

  lemma LeaveWaits(p: seq<Definition>, w: World, k: Walk)
    requires Shape(p, w) && Exhausted(p, k) && FramesOk(p, w, k) && DoneWaits(p, w, k, Top(k).m)
    requires |k.frames| > 1 && JustReturned(p, w, LeftWalk(k), Top(k).m)
    ensures WaitsOk(p, w, LeftWalk(k))
  {
    var k', u := LeftWalk(k), Top(k).m;
    forall m: nat | m < |p| && Gray(k', m) ensures GrayWaits(w, m) { LeftGray(p, w, k, m); }
    forall y: nat | Black(w, k', y) ensures BlackWaits(p, w, k', y) {
      LeftGray(p, w, k, y);
      if y != u {
        assert BlackWaits(p, w, k, y);
        if w.rs[y].asyncActive {
          forall g: nat { LeftGray(p, w, k, g); }
          assert ViaOk(w, k', y);
        }
      }
    }
    forall y, q: nat | 0 <= y < |p| && w.rs[y].status == Evaluating && q in w.rs[y].asyncParents && q < |p|
      ensures NestedIn(w, k', q, y)
    {
      assert NestedIn(w, k, q, y);
      forall g: nat { LeftGray(p, w, k, g); }
    }
  }

  lemma LeaveKeeps(p: seq<Definition>, w: World, k: Walk, root: nat)
    requires DoneOk(p, w, k, root) && w.rs[Top(k).m].ancestorIndex != w.rs[Top(k).m].dfsIndex
    ensures WalkOk(p, w, LeftWalk(k), root)
  {
    FirstHeads(p, w, k);
    LeaveFrames(p, w, k);
    LeaveEdges(p, w, k);
    LeaveReach(p, w, k);
    LeaveLow(p, w, k);
    LeaveWaits(p, w, k);
  }

  // ------------------------------------------------------ the component closes

  /** The open modules from u upwards. */
  ghost predicate Member(w: World, u: nat, y: nat) {
    u < |w.rs| && y < |w.rs| && w.rs[y].status == Evaluating && w.rs[u].dfsIndex <= w.rs[y].dfsIndex
  }

  function ClosedRecord(r: Record, u: nat): (r': Record) {
    r.(status := if r.asyncActive then Async else Evaluated, cycleRoot := u)
  }

  /** The members leave the stack together, with u as their cycle root. */
  ghost predicate Closes(w: World, w': World, u: nat) {
    && |w'.rs| == |w.rs| && w' == w.(rs := w'.rs, popped := w'.popped)
    && (forall y: nat :: y < |w.rs| ==> w'.rs[y] == if Member(w, u, y) then ClosedRecord(w.rs[y], u) else w.rs[y])
    && (forall y: nat :: y in w'.popped <==> y in w.popped || Member(w, u, y))
  }

  /** Requests of the members stay among the members and what was popped before. */
  lemma MembersClosed(p: seq<Definition>, w: World, k: Walk, y: nat, r: nat)
    requires |w.rs| == |p| && Exhausted(p, k) && StackOk(p, w, k) && FramesOk(p, w, k) && EdgesOk(p, w, k)
             && LowCover(p, w, k)
    requires w.rs[Top(k).m].ancestorIndex == w.rs[Top(k).m].dfsIndex
    requires Member(w, Top(k).m, y) && r in p[y].requests
    ensures Member(w, Top(k).m, r) || r in w.popped
    ensures !Member(w, Top(k).m, r) ==> EdgeOk(w, k, y, r)
  {
    var u := Top(k).m;
    AboveStaysAbove(p, w, k, y);
    if Gray(k, y) {
      GrayUpToTop(p, w, k, y);
      assert FrameOk(p, w, k, |k.frames| - 1);
      IndexIdentifies(p, w, k, u, y);
    }
    KnownEdges(p, w, k, y);
    assert EdgeOk(w, k, y, r);
  }

  /** The members are exactly the modules mutually reachable with u. */
  lemma MembersAreComponent(p: seq<Definition>, w: World, k: Walk, x: nat)
    requires Shape(p, w) && Statuses(w) && PoppedClosed(p, w) && Exhausted(p, k)
    requires StackOk(p, w, k) && FramesOk(p, w, k) && EdgesOk(p, w, k) && ReachOk(p, w, k) && LowStrict(w, k)
             && LowCover(p, w, k)
    requires w.rs[Top(k).m].ancestorIndex == w.rs[Top(k).m].dfsIndex && x < |p|
    ensures SameComponent(p, Top(k).m, x) <==> Member(w, Top(k).m, x)
  {
    var u := Top(k).m;
    assert FrameOk(p, w, k, |k.frames| - 1) && RecordOk(w, u);
    if Member(w, u, x) {
      assert ReachesAbove(p, w, k.frames[|k.frames| - 1].m);
      OpenReachesTop(p, w, k, x);
    }
    if SameComponent(p, u, x) {
      var inside := set y: nat | y < |p| && (Member(w, u, y) || y in w.popped);
      forall m, r | m in inside && m < |p| && r in p[m].requests ensures r in inside {
        if Member(w, u, m) { MembersClosed(p, w, k, m, r); }
      }
      ReachStaysInside(p, inside, u, x);
      if x in w.popped { ReachStaysInside(p, w.popped, x, u); }
    }
  }

  lemma CloseComponents(p: seq<Definition>, w: World, w': World, k: Walk)
    requires Shape(p, w) && Statuses(w) && PoppedClosed(p, w) && Components(p, w) && Exhausted(p, k)
    requires StackOk(p, w, k) && FramesOk(p, w, k) && EdgesOk(p, w, k) && ReachOk(p, w, k) && LowStrict(w, k)
             && LowCover(p, w, k)
    requires w.rs[Top(k).m].ancestorIndex == w.rs[Top(k).m].dfsIndex && Closes(w, w', Top(k).m)
    ensures Shape(p, w') && PoppedClosed(p, w') && Components(p, w')
  {
    var u := Top(k).m;
    assert FrameOk(p, w, k, |k.frames| - 1) && Member(w, u, u);
    forall y: nat | Member(w, u, y) ensures y !in w.popped { assert RecordOk(w, y); }
    forall m, r | m in w'.popped && m < |p| && r in p[m].requests ensures r in w'.popped {
      if Member(w, u, m) { MembersClosed(p, w, k, m, r); }
    }
    forall m, x: nat | m in w'.popped && m < |p| && x < |p|
      ensures SameComponent(p, m, x) <==> x in w'.popped && w'.rs[x].cycleRoot == w'.rs[m].cycleRoot
    {
      CloseComponent(p, w, w', k, m, x);
    }
    forall m | m in w'.popped && m < |p|
      ensures var c := w'.rs[m].cycleRoot; c in w'.popped && c < |p| && w'.rs[c].cycleRoot == c
    {
      if Member(w, u, m) { assert w'.rs[m].cycleRoot == u; }
    }
  }

  /** Two modules of one component have the same mates. */
  lemma MatesAgree(p: seq<Definition>, u: nat, m: nat, x: nat)
    requires SameComponent(p, u, m)
    ensures SameComponent(p, m, x) <==> SameComponent(p, u, x)
  {
    if SameComponent(p, m, x) {
      ReachesTransitive(p, u, m, x);
      ReachesTransitive(p, x, m, u);
    }
    if SameComponent(p, u, x) {
      ReachesTransitive(p, m, u, x);
      ReachesTransitive(p, x, u, m);
    }
  }

  lemma CloseComponent(p: seq<Definition>, w: World, w': World, k: Walk, m: nat, x: nat)
    requires Shape(p, w) && Statuses(w) && PoppedClosed(p, w) && Components(p, w) && Exhausted(p, k)
    requires StackOk(p, w, k) && FramesOk(p, w, k) && EdgesOk(p, w, k) && ReachOk(p, w, k) && LowStrict(w, k)
             && LowCover(p, w, k)
    requires w.rs[Top(k).m].ancestorIndex == w.rs[Top(k).m].dfsIndex && Closes(w, w', Top(k).m)
    requires m in w'.popped && m < |p| && x < |p|
    ensures SameComponent(p, m, x) <==> x in w'.popped && w'.rs[x].cycleRoot == w'.rs[m].cycleRoot
  {
    var u := Top(k).m;
    assert RecordOk(w, m) && RecordOk(w, x) && RecordOk(w, u) && FrameOk(p, w, k, |k.frames| - 1);
    if Member(w, u, m) {
      MembersAreComponent(p, w, k, m);
      MembersAreComponent(p, w, k, x);
      MatesAgree(p, u, m, x);
    } else {
      assert m in w.popped && w.rs[m].cycleRoot in w.popped;
      assert SameComponent(p, m, x) <==> x in w.popped && w.rs[x].cycleRoot == w.rs[m].cycleRoot;
    }
  }

  lemma CloseRecords(p: seq<Definition>, w: World, w': World, k: Walk)
    requires Shape(p, w) && Statuses(w) && RegistrationsOk(w) && Exhausted(p, k) && StackOk(p, w, k)
             && FramesOk(p, w, k) && LowCover(p, w, k)
    requires DoneWaits(p, w, k, Top(k).m) && w.rs[Top(k).m].ancestorIndex == w.rs[Top(k).m].dfsIndex
             && Closes(w, w', Top(k).m)
    ensures Statuses(w') && RegistrationsOk(w')
  {
    var u := Top(k).m;
    forall m | 0 <= m < |w'.rs| ensures RecordOk(w', m) {
      assert RecordOk(w, m);
      if Member(w, u, m) { MemberDone(p, w, k, m); }
    }
    forall y, q | 0 <= y < |w'.rs| && q in w'.rs[y].asyncParents ensures RegistrationOk(w', y, q) {
      CloseRegistration(p, w, w', k, y, q);
    }
  }

  /** Every member is complete. */
  lemma MemberDone(p: seq<Definition>, w: World, k: Walk, m: nat)
    requires Shape(p, w) && Exhausted(p, k) && StackOk(p, w, k) && FramesOk(p, w, k)
    requires DoneWaits(p, w, k, Top(k).m) && Member(w, Top(k).m, m)
    ensures if w.rs[m].asyncActive
            then (w.rs[m].pending == 0 ==> m in w.started) && (m in w.started ==> m in w.inFlight)
            else m in w.finished
    ensures m != Top(k).m && w.rs[m].asyncActive ==> ViaOk(w, k, m)
    ensures m != Top(k).m ==> w.rs[Top(k).m].dfsIndex < w.rs[m].dfsIndex
  {
    var u := Top(k).m;
    assert FrameOk(p, w, k, |k.frames| - 1);
    IndexIdentifies(p, w, k, u, m);
    if m != u {
      if Gray(k, m) { GrayUpToTop(p, w, k, m); }
      assert Black(w, k, m);
      assert BlackWaits(p, w, k, m);
    }
  }

  lemma CloseRegistration(p: seq<Definition>, w: World, w': World, k: Walk, y: nat, q: nat)
    requires Shape(p, w) && Statuses(w) && RegistrationsOk(w) && Exhausted(p, k) && StackOk(p, w, k)
             && FramesOk(p, w, k) && LowCover(p, w, k)
    requires DoneWaits(p, w, k, Top(k).m) && w.rs[Top(k).m].ancestorIndex == w.rs[Top(k).m].dfsIndex
             && Closes(w, w', Top(k).m)
    requires y < |w.rs| && q in w.rs[y].asyncParents
    ensures RegistrationOk(w', y, q)
  {
    var u := Top(k).m;
    assert RegistrationOk(w, y, q) && RecordOk(w, y) && RecordOk(w, q);
    assert Gray(k, u) && FrameOk(p, w, k, |k.frames| - 1);
    assert w.rs[y].status == Evaluating ==> NestedIn(w, k, q, y);
    if Member(w, u, q) {
      AboveStaysAbove(p, w, k, q);
      MemberDone(p, w, k, q);
    }
  }

  lemma CloseMembers(p: seq<Definition>, w: World, w': World, k: Walk)
    requires Shape(p, w) && Statuses(w) && PoppedClosed(p, w) && Components(p, w) && RequestsServed(p, w)
             && MembersOk(w) && Exhausted(p, k)
    requires StackOk(p, w, k) && FramesOk(p, w, k) && EdgesOk(p, w, k) && LowCover(p, w, k)
             && DoneWaits(p, w, k, Top(k).m)
    requires w.rs[Top(k).m].ancestorIndex == w.rs[Top(k).m].dfsIndex && Closes(w, w', Top(k).m) && Shape(p, w')
    ensures RequestsServed(p, w') && MembersOk(w')
  {
    var u := Top(k).m;
    forall y: nat | Member(w, u, y) ensures y !in w.popped { assert RecordOk(w, y); }
    forall v, r | v in w'.popped && v < |p| && r in p[v].requests && r < |p| && w'.rs[r].cycleRoot != w'.rs[v].cycleRoot
      ensures Served(w', v, w'.rs[r].cycleRoot)
    {
      CloseServed(p, w, w', k, v, r);
    }
    forall y | y in w'.popped && y < |w'.rs| && w'.rs[y].cycleRoot != y ensures MemberOk(w', y) {
      if Member(w, u, y) {
        CloseMember(p, w, w', k, y);
      } else {
        assert MemberOk(w, y);
      }
    }
  }

  lemma CloseServed(p: seq<Definition>, w: World, w': World, k: Walk, v: nat, r: nat)
    requires Shape(p, w) && Statuses(w) && PoppedClosed(p, w) && Components(p, w) && RequestsServed(p, w)
             && Exhausted(p, k)
    requires StackOk(p, w, k) && FramesOk(p, w, k) && EdgesOk(p, w, k) && LowCover(p, w, k)
    requires w.rs[Top(k).m].ancestorIndex == w.rs[Top(k).m].dfsIndex && Closes(w, w', Top(k).m)
    requires v in w'.popped && v < |p| && r in p[v].requests && r < |p| && w'.rs[r].cycleRoot != w'.rs[v].cycleRoot
             && w'.rs[r].cycleRoot < |p|
    ensures Served(w', v, w'.rs[r].cycleRoot)
  {
    var u, c := Top(k).m, w.rs[r].cycleRoot;
    assert RecordOk(w, r) && RecordOk(w, c);
    if Member(w, u, v) {
      MembersClosed(p, w, k, v, r);
    } else {
      assert v in w.popped && r in w.popped;
    }
    assert Served(w, v, c);
    assert w'.rs[c].asyncParents == w.rs[c].asyncParents;
  }

  lemma CloseMember(p: seq<Definition>, w: World, w': World, k: Walk, y: nat)
    requires Shape(p, w) && Exhausted(p, k) && StackOk(p, w, k) && FramesOk(p, w, k) && DoneWaits(p, w, k, Top(k).m)
    requires Closes(w, w', Top(k).m) && Member(w, Top(k).m, y) && y != Top(k).m
    ensures MemberOk(w', y)
  {
    var u := Top(k).m;
    MemberDone(p, w, k, y);
    assert Gray(k, u);
    if w.rs[y].asyncActive {
      assert Member(w, u, w.via[y]);
    }
  }

  lemma CloseCount(w: World, w': World, u: nat, q: nat)
    requires Closes(w, w', u)
    ensures Registrations(w'.rs, Active(w'.rs), q, |w'.rs|) == Registrations(w.rs, Active(w.rs), q, |w.rs|)
  {
    assert forall y :: 0 <= y < |w.rs| ==>
      w'.rs[y].asyncParents == w.rs[y].asyncParents && w'.rs[y].asyncActive == w.rs[y].asyncActive;
    RegistrationsSame(w.rs, Active(w.rs), w'.rs, Active(w'.rs), q, |w.rs|);
  }

  lemma CloseCounts(p: seq<Definition>, w: World, w': World, k: Walk)
    requires Shape(p, w) && Statuses(w) && Components(p, w) && WalkCounts(w) && PendingCounts(w, Active(w.rs))
             && ZeroMeansRunning(w, {})
    requires Exhausted(p, k) && StackOk(p, w, k) && FramesOk(p, w, k) && DoneWaits(p, w, k, Top(k).m)
             && Closes(w, w', Top(k).m)
    ensures WalkCounts(w') && PendingCounts(w', Active(w'.rs)) && ZeroMeansRunning(w', {})
  {
    var u := Top(k).m;
    forall m: nat | m < |w'.rs| && w'.rs[m].status == Evaluating
      ensures w'.rs[m].pending == Registrations(w'.rs, Active(w'.rs), m, |w'.rs|)
    {
      CloseCount(w, w', u, m);
    }
    forall m: nat | Live(w', m)
      ensures w'.rs[m].pending == Registrations(w'.rs, Active(w'.rs), m, |w'.rs|)
      ensures w'.rs[m].pending == 0 ==> m in w'.started
    {
      CloseCount(w, w', u, m);
      if Member(w, u, m) {
        MemberDone(p, w, k, m);
      } else {
        assert RecordOk(w, m) && RecordOk(w, w.rs[m].cycleRoot);
        assert Live(w, m);
      }
    }
  }

  lemma CloseSettled(p: seq<Definition>, w: World, w': World, k: Walk, root: nat)
    requires DoneOk(p, w, k, root) && w.rs[Top(k).m].ancestorIndex == w.rs[Top(k).m].dfsIndex && Closes(w, w', Top(k).m)
    ensures Settled(p, w') && WalkCounts(w')
  {
    CloseComponents(p, w, w', k);
    CloseRecords(p, w, w', k);
    CloseMembers(p, w, w', k);
    CloseCounts(p, w, w', k);
  }

  function ClosedWalk(k: Walk, pos: nat): (k': Walk)
    requires |k.frames| > 0 && pos <= |k.stack|
  {
    LeftWalk(k).(stack := k.stack[..pos])
  }

  lemma CloseStack(p: seq<Definition>, w: World, w': World, k: Walk, pos: nat)
    requires |w.rs| == |p| && StackOk(p, w, k) && |k.frames| > 0 && Closes(w, w', Top(k).m)
    requires pos < |k.stack| && k.stack[pos] == Top(k).m
    ensures StackOk(p, w', ClosedWalk(k, pos))
    ensures forall i :: 0 <= i < |k.stack| ==> (Member(w, Top(k).m, k.stack[i]) <==> pos <= i)
  {
    var k', u := ClosedWalk(k, pos), Top(k).m;
    forall i | 0 <= i < |k.stack| ensures Member(w, u, k.stack[i]) <==> pos <= i {
      assert k.stack[i] in k.stack && OpenOk(w, k, k.stack[i]);
    }
    forall i | 0 <= i < pos ensures k'.stack[i] == k.stack[i] && w'.rs[k.stack[i]] == w.rs[k.stack[i]] {}
    forall m: nat | m < |p| && w'.rs[m].status == Evaluating ensures m in k'.stack {
      var i :| 0 <= i < |k.stack| && k.stack[i] == m;
      assert k'.stack[i] == m;
    }
    forall m | m in k'.stack ensures OpenOk(w', k', m) {
      var i :| 0 <= i < |k'.stack| && k'.stack[i] == m;
      assert m == k.stack[i] && m in k.stack;
      assert OpenOk(w, k, m);
    }
  }

  lemma CloseFrames(p: seq<Definition>, w: World, w': World, k: Walk, pos: nat)
    requires |w.rs| == |p| && StackOk(p, w, k) && FramesOk(p, w, k) && |k.frames| > 0 && Top(k).entered
             && Closes(w, w', Top(k).m)
    requires pos < |k.stack| && k.stack[pos] == Top(k).m
    ensures FramesOk(p, w', ClosedWalk(k, pos))
    ensures forall i :: 0 <= i < |k.frames| - 1 ==> !Member(w, Top(k).m, k.frames[i].m)
  {
    var n, k', u := |k.frames| - 1, ClosedWalk(k, pos), Top(k).m;
    assert FrameOk(p, w, k, n);
    forall i | 0 <= i < n ensures !Member(w, u, k.frames[i].m) && k'.frames[i] == k.frames[i] {}
    forall i | 0 <= i < |k'.frames| ensures FrameOk(p, w', k', i) { assert FrameOk(p, w, k, i); }
    if pos > 0 {
      assert w.rs[k.stack[0]].dfsIndex < w.rs[k.stack[pos]].dfsIndex;
      assert k'.stack[0] == k.stack[0];
    }
  }

  lemma CloseGray(p: seq<Definition>, w: World, w': World, k: Walk, pos: nat, y: nat)
    requires |w.rs| == |p| && StackOk(p, w, k) && FramesOk(p, w, k) && |k.frames| > 0 && Top(k).entered
             && Closes(w, w', Top(k).m)
    requires pos < |k.stack| && k.stack[pos] == Top(k).m
    ensures Gray(ClosedWalk(k, pos), y) <==> Gray(k, y) && y != Top(k).m
    ensures Gray(ClosedWalk(k, pos), y) ==> y < |p| && !Member(w, Top(k).m, y) && w'.rs[y] == w.rs[y]
    ensures Black(w', ClosedWalk(k, pos), y) <==> Black(w, k, y) && !Member(w, Top(k).m, y)
  {
  }

  lemma CloseEdge(p: seq<Definition>, w: World, w': World, k: Walk, pos: nat, y: nat, r: nat)
    requires Shape(p, w) && Statuses(w) && Components(p, w) && StackOk(p, w, k) && FramesOk(p, w, k) && |k.frames| > 0
             && Top(k).entered && Closes(w, w', Top(k).m)
    requires pos < |k.stack| && k.stack[pos] == Top(k).m
    requires y < |p| && w.rs[y].status == Evaluating && !Member(w, Top(k).m, y) && EdgeOk(w, k, y, r)
    ensures EdgeOk(w', ClosedWalk(k, pos), y, r)
  {
    var k', u := ClosedWalk(k, pos), Top(k).m;
    assert FrameOk(p, w, k, |k.frames| - 1) && Gray(k, u) && RecordOk(w, r);
    if w.rs[r].status == Evaluating {
      assert !Member(w, u, r);
      assert NestedIn(w', k', y, r) by { CloseNested(p, w, w', k, pos, y, r); }
    } else {
      assert RecordOk(w, w.rs[r].cycleRoot);
    }
  }

  lemma CloseNested(p: seq<Definition>, w: World, w': World, k: Walk, pos: nat, y: nat, r: nat)
    requires Shape(p, w) && StackOk(p, w, k) && FramesOk(p, w, k) && |k.frames| > 0 && Top(k).entered
             && Closes(w, w', Top(k).m)
    requires pos < |k.stack| && k.stack[pos] == Top(k).m
    requires y < |p| && r < |p| && !Member(w, Top(k).m, y) && !Member(w, Top(k).m, r) && NestedIn(w, k, y, r)
    ensures NestedIn(w', ClosedWalk(k, pos), y, r)
  {
  }

  lemma CloseEdges(p: seq<Definition>, w: World, w': World, k: Walk, pos: nat)
    requires Shape(p, w) && Statuses(w) && Components(p, w) && StackOk(p, w, k) && FramesOk(p, w, k) && EdgesOk(p, w, k)
             && |k.frames| > 0 && Top(k).entered
    requires Closes(w, w', Top(k).m) && pos < |k.stack| && k.stack[pos] == Top(k).m
    ensures EdgesOk(p, w', ClosedWalk(k, pos))
  {
    var k' := ClosedWalk(k, pos);
    CloseFrames(p, w, w', k, pos);
    forall i | 0 <= i < |k'.frames| && k'.frames[i].entered ensures FrameEdgesOk(p, w', k', k'.frames[i]) {
      var f := k.frames[i];
      assert FrameEdgesOk(p, w, k, f) && FrameOk(p, w, k, i) && k'.frames[i] == f;
      forall j | 0 <= j < Looked(f) && j < |p[f.m].requests| ensures EdgeOk(w', k', f.m, p[f.m].requests[j]) {
        CloseEdge(p, w, w', k, pos, f.m, p[f.m].requests[j]);
      }
    }
    forall y: nat | Black(w', k', y) ensures BlackEdgesOk(p, w', k', y) {
      CloseGray(p, w, w', k, pos, y);
      assert BlackEdgesOk(p, w, k, y);
      forall r | r in p[y].requests ensures EdgeOk(w', k', y, r) { CloseEdge(p, w, w', k, pos, y, r); }
    }
  }

  lemma CloseReach(p: seq<Definition>, w: World, w': World, k: Walk, pos: nat)
    requires |w.rs| == |p| && StackOk(p, w, k) && FramesOk(p, w, k) && ReachOk(p, w, k) && |k.frames| > 0
             && Top(k).entered
    requires Closes(w, w', Top(k).m) && pos < |k.stack| && k.stack[pos] == Top(k).m
    ensures ReachOk(p, w', ClosedWalk(k, pos))
  {
    var k', u := ClosedWalk(k, pos), Top(k).m;
    CloseFrames(p, w, w', k, pos);
    forall i | 0 <= i < |k'.frames| && k'.frames[i].entered ensures ReachesAbove(p, w', k'.frames[i].m) {
      assert k'.frames[i] == k.frames[i];
      assert ReachesAbove(p, w, k.frames[i].m);
    }
    forall y: nat | y < |p| && w'.rs[y].status == Evaluating ensures HasLow(p, w', y) {
      assert !Member(w, u, y) && OpenOk(w, k, y) && HasLow(p, w, y);
      var z: nat :| LowWitness(p, w, y, z);
      assert !Member(w, u, z);
      assert LowWitness(p, w', y, z);
    }
  }

  lemma CloseLow(p: seq<Definition>, w: World, w': World, k: Walk, pos: nat)
    requires |w.rs| == |p| && StackOk(p, w, k) && FramesOk(p, w, k) && LowStrict(w, k) && LowCover(p, w, k)
             && |k.frames| > 0 && Top(k).entered
    requires Closes(w, w', Top(k).m) && pos < |k.stack| && k.stack[pos] == Top(k).m
    ensures LowStrict(w', ClosedWalk(k, pos)) && LowCover(p, w', ClosedWalk(k, pos))
  {
    var n, k', u := |k.frames| - 1, ClosedWalk(k, pos), Top(k).m;
    CloseFrames(p, w, w', k, pos);
    forall y: nat | Black(w', k', y) ensures Black(w, k, y) && !Member(w, u, y) { CloseGray(p, w, w', k, pos, y); }
    forall i, y: nat | 0 <= i < |k'.frames| && Black(w', k', y) ensures CoverOk(p, w', k', i, y) {
      assert CoverOk(p, w, k, i, y);
      assert k'.frames[i] == k.frames[i] && (i + 1 < n ==> k'.frames[i + 1] == k.frames[i + 1]);
      assert Around(w', k', i, y) ==> Around(w, k, i, y);
    }
  }

  lemma CloseWaits(p: seq<Definition>, w: World, w': World, k: Walk, pos: nat)
    requires Shape(p, w) && RegistrationsOk(w) && Exhausted(p, k) && StackOk(p, w, k) && FramesOk(p, w, k)
             && DoneWaits(p, w, k, Top(k).m)
    requires Closes(w, w', Top(k).m) && pos < |k.stack| && k.stack[pos] == Top(k).m
    ensures WaitsOk(p, w', ClosedWalk(k, pos))
  {
    var k', u := ClosedWalk(k, pos), Top(k).m;
    forall m: nat | m < |p| && Gray(k', m) ensures GrayWaits(w', m) {
      CloseGray(p, w, w', k, pos, m);
      assert GrayWaits(w, m);
    }
    forall y: nat | Black(w', k', y) ensures BlackWaits(p, w', k', y) {
      CloseGray(p, w, w', k, pos, y);
      assert BlackWaits(p, w, k, y);
      if w.rs[y].asyncActive {
        assert ViaOk(w, k, y) && !Member(w, u, w.via[y]);
        forall g: nat { CloseGray(p, w, w', k, pos, g); }
        assert ViaOk(w', k', y);
      }
    }
    forall y, q: nat | 0 <= y < |p| && w'.rs[y].status == Evaluating && q in w'.rs[y].asyncParents && q < |p|
      ensures NestedIn(w', k', q, y)
    {
      assert !Member(w, u, y) && NestedIn(w, k, q, y) && RegistrationOk(w, y, q);
      CloseNestedBelow(p, w, w', k, pos, q, y);
    }
  }

  lemma CloseNestedBelow(p: seq<Definition>, w: World, w': World, k: Walk, pos: nat, q: nat, y: nat)
    requires Shape(p, w) && StackOk(p, w, k) && FramesOk(p, w, k) && |k.frames| > 0 && Top(k).entered
             && Closes(w, w', Top(k).m)
    requires pos < |k.stack| && k.stack[pos] == Top(k).m
    requires y < |p| && q < |p| && !Member(w, Top(k).m, y) && NestedIn(w, k, q, y)
    ensures NestedIn(w', ClosedWalk(k, pos), q, y)
  {
  }

  lemma CloseCapabilities(p: seq<Definition>, w: World, w': World, k: Walk, root: nat)
    requires |w.rs| == |p| && StackOk(p, w, k) && FramesOk(p, w, k) && WalkCapabilities(w, root) && Exhausted(p, k)
    requires k.frames[0].m == root && Closes(w, w', Top(k).m)
    ensures WalkCapabilities(w', root)
  {
  }

  lemma CloseKeeps(p: seq<Definition>, w: World, w': World, k: Walk, pos: nat, root: nat)
    requires DoneOk(p, w, k, root) && w.rs[Top(k).m].ancestorIndex == w.rs[Top(k).m].dfsIndex && Closes(w, w', Top(k).m)
    requires pos < |k.stack| && k.stack[pos] == Top(k).m
    ensures WalkOk(p, w', ClosedWalk(k, pos), root)
  {
    CloseSettled(p, w, w', k, root);
    CloseStack(p, w, w', k, pos);
    CloseFrames(p, w, w', k, pos);
    CloseEdges(p, w, w', k, pos);
    CloseReach(p, w, w', k, pos);
    CloseLow(p, w, w', k, pos);
    CloseWaits(p, w, w', k, pos);
    CloseCapabilities(p, w, w', k, root);
  }

  // ----------------------------------------------------- popping, one by one

  /** The stack holds modules of the graph, each at most once. */
  ghost predicate Stacked(stack: seq<nat>, n: nat) {
    Distinct(stack) && forall i :: 0 <= i < |stack| ==> stack[i] < n
  }

  lemma StackIsStacked(p: seq<Definition>, w: World, k: Walk)
    requires |w.rs| == |p| && StackOk(p, w, k)
    ensures Stacked(k.stack, |p|)
  {
  }

  ghost function MemberSet(w: World, u: nat): set<nat> {
    set y: nat | y < |w.rs| && Member(w, u, y)
  }

  /** The stack from `top` upwards has been popped with cycle root u. */
  ghost predicate PoppedTo(rs: seq<Record>, rs': seq<Record>, stack: seq<nat>, top: nat, u: nat) {
    && |rs'| == |rs| && top <= |stack| && (forall i :: 0 <= i < |stack| ==> stack[i] < |rs|)
    && (forall i :: 0 <= i < top ==> rs'[stack[i]] == rs[stack[i]])
    && (forall i :: top <= i < |stack| ==> rs'[stack[i]] == ClosedRecord(rs[stack[i]], u))
    && (forall y: nat :: y < |rs| && y !in stack ==> rs'[y] == rs[y])
  }

  lemma PopOne(rs0: seq<Record>, rs: seq<Record>, rs': seq<Record>, stack: seq<nat>, top: nat, u: nat)
    requires Stacked(stack, |rs|) && top < |stack| && PoppedTo(rs0, rs, stack, top + 1, u)
    requires rs' == rs[stack[top] := ClosedRecord(rs[stack[top]], u)]
    ensures PoppedTo(rs0, rs', stack, top, u)
  {
  }

  lemma PoppedCloses(p: seq<Definition>, w: World, k: Walk, rs': seq<Record>, pos: nat)
    requires |w.rs| == |p| && StackOk(p, w, k) && pos < |k.stack| && PoppedTo(w.rs, rs', k.stack, pos, k.stack[pos])
    ensures Closes(w, w.(rs := rs', popped := w.popped + MemberSet(w, k.stack[pos])), k.stack[pos])
  {
  }
}
