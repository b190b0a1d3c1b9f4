/**
Where errors come from: a module fails only with the error of a body that it reaches through its requests.
*/
module ModuleErrors {
  import opened Sealing
  import opened ModuleRequests
  import opened ModuleState
  import opened ModuleBodies
  import opened ModuleWalk
  import opened ModuleWalkSteps
  import opened ModuleWalkWaits
  import opened ModuleWalkFinish
  import opened ModuleWalkSealed

  // ------------------------------------------------------------------- waiting

  ghost predicate WaitHop(rs: seq<Record>, path: seq<nat>, i: int) {
    0 <= i < |path| - 1 && path[i] < |rs| && path[i + 1] in rs[path[i]].asyncParents
  }

  ghost predicate WaitPath(rs: seq<Record>, path: seq<nat>, m: nat, y: nat) {
    |path| > 0 && path[0] == m && path[|path| - 1] == y && forall i :: 0 <= i < |path| - 1 ==> WaitHop(rs, path, i)
  }

  /** y is m, or waits for it, directly or through others. */
  ghost predicate WaitsFor(rs: seq<Record>, y: nat, m: nat) {
    exists path :: WaitPath(rs, path, m, y)
  }

  lemma WaitsForSelf(rs: seq<Record>, m: nat)
    ensures WaitsFor(rs, m, m)
  {
    assert WaitPath(rs, [m], m, m);
  }

  lemma WaitsForNext(rs: seq<Record>, m: nat, y: nat, q: nat)
    requires WaitsFor(rs, y, m) && y < |rs| && q in rs[y].asyncParents
    ensures WaitsFor(rs, q, m)
  {
    var path :| WaitPath(rs, path, m, y);
    var longer := path + [q];
    forall i | 0 <= i < |longer| - 1 ensures WaitHop(rs, longer, i) {
      if i < |path| - 1 { assert WaitHop(rs, path, i); }
    }
    assert WaitPath(rs, longer, m, q);
  }

  // -------------------------------------------------------------------- causes

  /** A body below y has failed with this error. */
  ghost predicate Blames(p: seq<Definition>, faults: set<Fault>, y: nat, error: Value) {
    exists x: nat :: (x, error) in faults && Reaches(p, y, x)
  }

  /** One waits only for what one reaches, and fails only with an error from below. */
  ghost predicate Traced(p: seq<Definition>, rs: seq<Record>, faults: set<Fault>) {
    && |rs| == |p|
    && (forall y, q :: 0 <= y < |rs| && q in rs[y].asyncParents ==> Reaches(p, q, y))
    && (forall y: nat {:trigger Blames(p, faults, y, rs[y].error)} :: y < |rs| && rs[y].hasError ==>
          Blames(p, faults, y, rs[y].error))
  }

  ghost predicate Sourced(p: seq<Definition>, rs: seq<Record>, faults: set<Fault>) {
    forall b {:trigger Unfold(b)} :: Unfold(b) ==> Traced(p, rs, faults)
  }

  /** Nothing that matters to errors has changed. */
  ghost predicate SameTrace(rs: seq<Record>, rs': seq<Record>) {
    |rs'| == |rs| && forall y :: 0 <= y < |rs| ==>
      rs'[y].asyncParents == rs[y].asyncParents && rs'[y].hasError == rs[y].hasError && rs'[y].error == rs[y].error
  }

  lemma TraceKept(p: seq<Definition>, rs: seq<Record>, rs': seq<Record>, faults: set<Fault>)
    requires Sourced(p, rs, faults) && SameTrace(rs, rs')
    ensures Sourced(p, rs', faults)
  {
  }

  lemma MoreFaults(p: seq<Definition>, rs: seq<Record>, faults: set<Fault>, fault: Fault)
    requires Sourced(p, rs, faults)
    ensures Sourced(p, rs, faults + {fault})
  {
    assert Unfold(true);
    forall y: nat | y < |rs| && rs[y].hasError ensures Blames(p, faults + {fault}, y, rs[y].error) {
      assert Blames(p, faults, y, rs[y].error);
      var x: nat :| (x, rs[y].error) in faults && Reaches(p, y, x);
      assert (x, rs[y].error) in faults + {fault};
    }
  }

  lemma BlamesBelow(p: seq<Definition>, faults: set<Fault>, y: nat, z: nat, error: Value)
    requires Reaches(p, y, z) && Blames(p, faults, z, error)
    ensures Blames(p, faults, y, error)
  {
    var x: nat :| (x, error) in faults && Reaches(p, z, x);
    ReachesTransitive(p, y, z, x);
  }

  /** What waits for a module reaches it. */
  lemma {:induction false} WaiterReaches(p: seq<Definition>, rs: seq<Record>, faults: set<Fault>, path: seq<nat>,
                                         m: nat, y: nat)
    requires Traced(p, rs, faults) && WaitPath(rs, path, m, y) && m < |p|
    ensures Reaches(p, y, m)
    decreases |path|
  {
    if |path| == 1 {
      ReachesSelf(p, m);
    } else {
      var front, z := path[..|path| - 1], path[|path| - 2];
      assert WaitHop(rs, path, |path| - 2);
      forall i | 0 <= i < |front| - 1 ensures WaitHop(rs, front, i) {
        assert WaitHop(rs, path, i);
      }
      WaiterReaches(p, rs, faults, front, m, z);
      ReachesTransitive(p, y, z, m);
    }
  }

  // ----------------------------------------------------------------- the walk

  /** Every open module, the root of the walk among them, reaches the innermost call. */
  lemma OpenAbove(p: seq<Definition>, w: World, k: Walk, root: nat)
    requires Walking(p, w, k, root) && |k.frames| > 0 && Top(k).entered
    ensures |w.rs| == |p| && forall y: nat :: y < |p| && w.rs[y].status == Evaluating ==> Reaches(p, y, Top(k).m)
    ensures Reaches(p, root, Top(k).m)
  {
    assert Unfold(true);
    forall y: nat | y < |p| && w.rs[y].status == Evaluating ensures Reaches(p, y, Top(k).m) {
      OpenReachesTop(p, w, k, y);
    }
    assert FrameOk(p, w, k, 0) && FrameOk(p, w, k, |k.frames| - 1);
  }

  /** A module reaches what it waits for. */
  lemma TargetBelow(p: seq<Definition>, w: World, k: Walk, root: nat)
    requires Walking(p, w, k, root) && |k.frames| > 0 && Top(k).waiting && |w.rs| == |p|
             && FrameOk(p, w, k, |k.frames| - 1)
    requires Requested(p, k) < |p| && Top(k).m < |p| && 0 < Top(k).next <= |p[Top(k).m].requests|
    ensures Target(w, Requested(p, k)) < |p| && Reaches(p, Top(k).m, Target(w, Requested(p, k)))
  {
    assert Unfold(true);
    var u, r := Top(k).m, Requested(p, k);
    var t := Target(w, r);
    assert RecordOk(w, r);
    ReachesRequest(p, u, r);
    if t == r {
      ReachesSelf(p, r);
    } else {
      assert r in w.popped && SameComponent(p, r, t);
      ReachesTransitive(p, u, r, t);
    }
  }

  /** Looking back registers a module with something that it reaches. */
  lemma LookedTraced(p: seq<Definition>, w: World, u: nat, r: nat, faults: set<Fault>)
    requires Sourced(p, w.rs, faults) && u < |w.rs| == |w.via| && r < |w.rs| && w.rs[r].cycleRoot < |w.rs|
             && Reaches(p, u, Target(w, r))
    ensures Sourced(p, LookedWorld(w, u, r).rs, faults)
    ensures w.rs[Target(w, r)].hasError ==> Blames(p, faults, u, w.rs[Target(w, r)].error)
  {
    assert Unfold(true);
    var t, w' := Target(w, r), LookedWorld(w, u, r);
    forall y, q | 0 <= y < |w'.rs| && q in w'.rs[y].asyncParents ensures Reaches(p, q, y) {
      assert q in w.rs[y].asyncParents || (q == u && y == t);
    }
    forall y: nat | y < |w'.rs| && w'.rs[y].hasError ensures Blames(p, faults, y, w'.rs[y].error) {
      assert Blames(p, faults, y, w.rs[y].error);
    }
    if w.rs[t].hasError { BlamesBelow(p, faults, u, t, w.rs[t].error); }
  }

  /** All open modules may fail with this error. */
  ghost predicate OpenBlame(p: seq<Definition>, rs: seq<Record>, faults: set<Fault>, error: Value) {
    forall y: nat {:trigger Blames(p, faults, y, error)} :: y < |rs| && rs[y].status == Evaluating ==>
      Blames(p, faults, y, error)
  }

  lemma TopBlames(p: seq<Definition>, rs: seq<Record>, faults: set<Fault>, u: nat, error: Value)
    requires Blames(p, faults, u, error) && forall y: nat :: y < |rs| && rs[y].status == Evaluating ==> Reaches(p, y, u)
    ensures OpenBlame(p, rs, faults, error)
  {
    forall y: nat | y < |rs| && rs[y].status == Evaluating ensures Blames(p, faults, y, error) {
      BlamesBelow(p, faults, y, u, error);
    }
  }

  lemma AbortTraced(p: seq<Definition>, w: World, w': World, faults: set<Fault>, error: Value)
    requires Sourced(p, w.rs, faults) && OpenBlame(p, w.rs, faults, error) && Aborts(w, w', error)
    ensures Sourced(p, w'.rs, faults)
  {
  }

  // ---------------------------------------------------------------- spreading

  /** Only m and what waits for it have failed. */
  ghost predicate FailsOnly(rs: seq<Record>, rs': seq<Record>, m: nat, error: Value) {
    |rs'| == |rs| && forall y: nat :: y < |rs| && rs'[y] != rs[y] ==>
      rs'[y] == FailedRecord(rs[y], error) && WaitsFor(rs, y, m)
  }

  /** Whatever waits for a module that has failed has failed. */
  ghost predicate WaitersFail(rs: seq<Record>) {
    forall y, q :: 0 <= y < |rs| && rs[y].hasError && q in rs[y].asyncParents ==> q < |rs| && rs[q].hasError
  }

  lemma SpreadTraced(p: seq<Definition>, rs: seq<Record>, rs': seq<Record>, faults: set<Fault>, m: nat, error: Value)
    requires Sourced(p, rs, faults) && FailsOnly(rs, rs', m, error) && m < |p| && (m, error) in faults
    ensures Sourced(p, rs', faults)
  {
    assert Unfold(true);
    forall y: nat | y < |rs'| && rs'[y].hasError ensures Blames(p, faults, y, rs'[y].error) {
      if rs'[y] == rs[y] {
        assert Blames(p, faults, y, rs[y].error);
      } else {
        var path :| WaitPath(rs, path, m, y);
        WaiterReaches(p, rs, faults, path, m, y);
      }
    }
  }
}
