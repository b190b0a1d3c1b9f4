/** The invariants of the asynchronous phase, sealed in the same way, and the steps between calls. */
module ModuleAsyncSealed {
  import opened Options
  import opened Sealing
  import opened ModuleRequests
  import opened ModuleState
  import opened ModuleWalk
  import opened ModuleWalkSteps
  import opened ModuleWalkFinish
  import opened ModuleWalkSealed
  import opened ModuleAsync
  import opened ModuleAsyncRun
  import opened ModuleErrors

  ghost predicate Gathering(p: seq<Definition>, w: World, listed: seq<nat>, owed: multiset<nat>) {
    forall b {:trigger Unfold(b)} :: Unfold(b) ==> GatherOk(p, w, listed, owed)
  }

  ghost predicate Running(p: seq<Definition>, w: World, rem: seq<nat>) {
    forall b {:trigger Unfold(b)} :: Unfold(b) ==> RunOk(p, w, rem)
  }

  /** A world in which an error may spread. */
  ghost predicate Spreading(p: seq<Definition>, w: World) {
    forall b {:trigger Unfold(b)} :: Unfold(b) ==> Base(p, w)
  }

  // ------------------------------------------------------------------- resting

  /** A callback to a module that has failed in the meantime changes no record. */
  lemma RestLate(p: seq<Definition>, w: World, m: nat)
    requires Resting(p, w) && m < |w.rs| && w.rs[m].status == Evaluated && m in w.inFlight
    ensures Resting(p, LateWorld(w, m))
  {
    assert Unfold(true);
    LateBase(p, w, m);
    forall x: nat ensures Live(LateWorld(w, m), x) <==> Live(w, x) {}
  }

  lemma RestFacts(p: seq<Definition>, w: World, m: nat)
    requires Resting(p, w) && (m < |p| || m in w.inFlight)
    ensures m < |p| && |w.rs| == |p| == |w.via| && w.rs[m].status != Evaluating
    ensures w.rs[m].cycleRoot < |p| && w.rs[w.rs[m].cycleRoot].cycleRoot == w.rs[m].cycleRoot
    ensures w.rs[m].status == Linked ==> w.rs[m].topLevel == None && w.rs[m].cycleRoot == m
    ensures w.rs[m].status != Linked ==> w.rs[w.rs[m].cycleRoot].status != Linked
    ensures m in w.inFlight ==> m in w.started && m !in w.finished
    ensures m in w.inFlight && w.rs[m].status != Evaluated ==> w.rs[m].status == Async
    ensures m in w.inFlight && w.rs[m].status == Evaluated ==> w.rs[m].hasError
    ensures w.rs[m].hasError ==> w.rs[m].status == Evaluated
  {
    assert Unfold(true);
    assert RecordOk(w, m) && RecordOk(w, w.rs[m].cycleRoot);
  }

  /** How a capability created now would have to be settled. */
  function LateOutcome(r: Record): (o: Promise) {
    if r.status != Evaluated then Pending else if r.hasError then Rejected(r.error) else Fulfilled
  }

  function GrantedWorld(w: World, c: nat): (w': World)
    requires c < |w.rs|
  {
    Put(w, c, w.rs[c].(topLevel := Some(LateOutcome(w.rs[c]))))
  }

  lemma GrantStep(p: seq<Definition>, w: World, c: nat)
    requires Resting(p, w) && c < |w.rs| && w.rs[c].cycleRoot == c && w.rs[c].status != Linked
    ensures Resting(p, GrantedWorld(w, c))
  {
    assert Unfold(true);
    EndSettled(p, w, GrantedWorld(w, c), c);
  }

  function WantedWorld(w: World, root: nat): (w': World)
    requires root < |w.rs|
  {
    Put(w, root, w.rs[root].(topLevel := Some(Pending)))
  }

  /** A linked module may be walked from. */
  lemma WalkStart(p: seq<Definition>, w: World, root: nat)
    requires Resting(p, w) && root < |p| == |w.rs| && w.rs[root].status == Linked
    ensures Walking(p, WantedWorld(w, root), Walk([Frame(root, 0, false, false)], [], 0), root)
  {
    assert Unfold(true);
    var w', k := WantedWorld(w, root), Walk([Frame(root, 0, false, false)], [], 0);
    assert RecordOk(w, root);
    EndSettled(p, w, w', root);
    FirstFrame(p, w', root);
  }

  /** With nothing open, the walk's own part of the invariant says nothing yet. */
  lemma FirstFrame(p: seq<Definition>, w: World, root: nat)
    requires Shape(p, w) && root < |p| && w.rs[root].status == Linked && forall m: nat :: m < |p| ==>
      w.rs[m].status != Evaluating
    ensures var k := Walk([Frame(root, 0, false, false)], [], 0);
      StackOk(p, w, k) && FramesOk(p, w, k) && EdgesOk(p, w, k) && ReachOk(p, w, k) && LowStrict(w, k)
      && LowCover(p, w, k) && WaitsOk(p, w, k) && WalkCounts(w)
  {
  }

  lemma CapabilityOwner(p: seq<Definition>, w: World, m: nat)
    requires Resting(p, w) && m < |w.rs| && w.rs[m].topLevel.Some?
    ensures w.rs[m].cycleRoot == m
  {
    assert Unfold(true);
  }

  // ----------------------------------------------------------------- gathering

  lemma GatherStartStep(p: seq<Definition>, w: World, m: nat)
    requires Resting(p, w) && m < |w.rs| && w.rs[m].status == Async && m in w.started
    ensures |w.rs| == |p| && Gathering(p, FinishedWorld(w, m), [], multiset(w.rs[m].asyncParents))
  {
    assert Unfold(true);
    GatherStart(p, w, m);
  }

  lemma GatherFacts(p: seq<Definition>, w: World, listed: seq<nat>, owed: multiset<nat>, y: nat, q: nat)
    requires Gathering(p, w, listed, owed) && y < |w.rs| && q in w.rs[y].asyncParents && q in owed
    ensures |w.rs| == |p| && q < |p| && w.rs[q].cycleRoot < |p|
    ensures Skipped(w, q) ==> Gathering(p, w, listed, owed - multiset{q})
    ensures !Skipped(w, q) ==> w.rs[q].pending > 0
    ensures !Skipped(w, q) && w.rs[q].pending > 1 ==> Gathering(p, CountedWorld(w, q), listed, owed - multiset{q})
    ensures !Skipped(w, q) && w.rs[q].pending == 1 ==> Gathering(p, CountedWorld(w, q), listed + [q],
              owed - multiset{q} + if p[q].hasTla then multiset{} else multiset(w.rs[q].asyncParents))
  {
    assert Unfold(true);
    assert RegistrationOk(w, y, q);
    if Skipped(w, q) { GatherSkip(p, w, listed, owed, q); } else { GatherCount(p, w, listed, owed, q); }
  }

  /** What `CountParent` does, in one relation. */
  ghost predicate Counts(p: seq<Definition>, w: World, w': World, available: seq<nat>, available': seq<nat>,
                         work: seq<nat>, work': seq<nat>, q: nat)
    requires q < |w.rs| == |p| && w.rs[q].cycleRoot < |w.rs|
  {
    if Skipped(w, q) then
      w' == w && available' == available && work' == work
    else if w.rs[q].pending > 1 then
      w' == CountedWorld(w, q) && available' == available && work' == work
    else
      && w.rs[q].pending == 1 && w' == CountedWorld(w, q) && available' == available + [q]
      && work' == if p[q].hasTla then work else work + [q]
  }

  ghost function Unlisted(rs: seq<Record>): set<nat> {
    set y | 0 <= y < |rs| && !rs[y].inExecutionList
  }

  ghost predicate SameParents(rs: seq<Record>, rs': seq<Record>) {
    |rs'| == |rs| && forall y :: 0 <= y < |rs| ==> rs'[y].asyncParents == rs[y].asyncParents
  }

  /** A handled parent leaves the debt; a newly released module adds its own. */
  lemma DebtPaid(w: World, w': World, work: seq<nat>, work': seq<nat>, rest: seq<nat>, q: nat, owed: multiset<nat>)
    requires SameParents(w.rs, w'.rs) && q < |w.rs| && (forall i :: 0 <= i < |work| ==> work[i] < |w.rs|)
    requires OwedBy(w', work) == OwedBy(w, work) && owed == OwedBy(w, work) + multiset([q] + rest)
    requires work' == work || work' == work + [q]
    ensures work' == work ==> OwedBy(w', work') + multiset(rest) == owed - multiset{q}
    ensures work' == work + [q] ==>
      OwedBy(w', work') + multiset(rest) == owed - multiset{q} + multiset(w.rs[q].asyncParents)
  {
  }

  lemma CountsFrame(p: seq<Definition>, w: World, w': World, available: seq<nat>, available': seq<nat>, work: seq<nat>,
                    work': seq<nat>, q: nat)
    requires q < |w.rs| == |p| && w.rs[q].cycleRoot < |w.rs| && Counts(p, w, w', available, available', work, work', q)
    ensures SameParents(w.rs, w'.rs) && (work' == work || work' == work + [q])
    ensures Unlisted(w'.rs) < Unlisted(w.rs) || (Unlisted(w'.rs) == Unlisted(w.rs) && work' == work)
  {
    assert !w.rs[q].inExecutionList ==> q in Unlisted(w.rs);
  }

  lemma DebtAfter(p: seq<Definition>, w: World, w': World, available: seq<nat>, available': seq<nat>, work: seq<nat>,
                  work': seq<nat>,
                  rest: seq<nat>, q: nat)
    requires q < |w.rs| == |p| && w.rs[q].cycleRoot < |w.rs| && Counts(p, w, w', available, available', work, work', q)
    requires forall i :: 0 <= i < |work| ==> work[i] < |w.rs|
    ensures SameParents(w.rs, w'.rs) && (forall i :: 0 <= i < |work'| ==> work'[i] < |w'.rs|)
    ensures OwedBy(w', work') + multiset(rest) == OwedBy(w, work) + multiset([q] + rest) - multiset{q} +
      if available' == available || p[q].hasTla then multiset{} else multiset(w.rs[q].asyncParents)
  {
    CountsFrame(p, w, w', available, available', work, work', q);
    OwedBySame(w, w', work);
    DebtPaid(w, w', work, work', rest, q, OwedBy(w, work) + multiset([q] + rest));
  }

  lemma ReleaseStep(p: seq<Definition>, w: World, w': World, available: seq<nat>, available': seq<nat>, work: seq<nat>,
                    work': seq<nat>,
                    rest: seq<nat>, current: nat, q: nat, debt: multiset<nat>)
    requires current < |w.rs| && q in w.rs[current].asyncParents && (forall i :: 0 <= i < |work| ==> work[i] < |w.rs|)
    requires debt == OwedBy(w, work) + multiset([q] + rest) && q in debt && Gathering(p, w, available, debt)
    requires q < |w.rs| == |p| && w.rs[q].cycleRoot < |w.rs| && Counts(p, w, w', available, available', work, work', q)
    ensures Gathering(p, w', available',
                      debt - multiset{q}
                      + if available' == available || p[q].hasTla then multiset{} else multiset(w.rs[q].asyncParents))
  {
    GatherFacts(p, w, available, debt, current, q);
    assert debt - multiset{q} + multiset{} == debt - multiset{q};
  }

  lemma GatherListFacts(p: seq<Definition>, w: World, listed: seq<nat>, owed: multiset<nat>)
    requires Gathering(p, w, listed, owed)
    ensures |w.rs| == |p| && (forall i :: 0 <= i < |listed| ==> listed[i] < |p| && w.rs[listed[i]].inExecutionList)
  {
    assert Unfold(true);
    forall i | 0 <= i < |listed|
      ensures listed[i] < |p| && w.rs[listed[i]].inExecutionList
    {
      assert listed[i] in listed;
    }
  }

  lemma RunStartStep(p: seq<Definition>, w: World, listed: seq<nat>, rem: seq<nat>)
    requires Gathering(p, w, listed, multiset{}) && multiset(rem) == multiset(listed) && Ordered(w, rem)
    ensures Running(p, w, rem)
  {
    assert Unfold(true);
    RunStart(p, w, listed, rem);
  }

  // ------------------------------------------------------------------- running

  lemma RunFacts(p: seq<Definition>, w: World, rem: seq<nat>)
    requires Running(p, w, rem) && rem != []
    ensures |w.rs| == |p| && rem[0] < |p|
    ensures w.rs[rem[0]].status == Async || w.rs[rem[0]].status == Evaluated
    ensures w.rs[rem[0]].status == Evaluated ==> Running(p, UnlistedWorld(w, rem[0]), rem[1..])
    ensures w.rs[rem[0]].status == Async ==>
      && rem[0] !in w.started && rem[0] !in w.finished && rem[0] !in w.inFlight && Ready(p, rem[0], w.finished)
      && Spreading(p, StartedWorld(w, rem[0]))
      && if p[rem[0]].hasTla then Running(p, StartedWorld(w, rem[0]), rem[1..])
         else Running(p, FinishedWorld(StartedWorld(w, rem[0]), rem[0]), rem[1..])
  {
    assert Unfold(true);
    assert rem[0] in rem && RemOk(w, rem[0]) && RecordOk(w, rem[0]);
    if w.rs[rem[0]].status == Evaluated {
      RunSkip(p, w, rem);
    } else {
      FirstReady(p, w, rem);
      StartBase(p, w, rem);
      if p[rem[0]].hasTla { RunAwait(p, w, rem); } else { RunFinish(p, w, rem); }
    }
  }

  lemma RunOrdered(p: seq<Definition>, w: World, rem: seq<nat>)
    requires Running(p, w, rem)
    ensures Ordered(w, rem)
  {
    assert Unfold(true);
  }

  lemma RunThrowStep(p: seq<Definition>, w: World, w': World, rem: seq<nat>, error: Value)
    requires Running(p, w, rem) && rem != [] && rem[0] < |w.rs| && w.rs[rem[0]].status == Async
    requires Fails(StartedWorld(w, rem[0]), w', error) && w'.rs[rem[0]].hasError
    requires FailsOnly(StartedWorld(w, rem[0]).rs, w'.rs, rem[0], error)
    ensures Running(p, w'.(inFlight := w.inFlight - {rem[0]}), rem[1..])
  {
    assert Unfold(true);
    StartBase(p, w, rem);
    assert RecordOk(w, rem[0]) && RemOk(w, rem[0]);
    FailsStartedAlone(p, StartedWorld(w, rem[0]), w', rem[0], error);
    RunThrow(p, w, w', rem, error);
  }

  lemma RunEndStep(p: seq<Definition>, w: World)
    requires Running(p, w, [])
    ensures Resting(p, w) && |w.rs| == |p|
  {
    assert Unfold(true);
    RunEnd(p, w);
  }

  // ----------------------------------------------------------------- spreading

  lemma RestSpreads(p: seq<Definition>, w: World)
    requires Resting(p, w)
    ensures Spreading(p, w)
  {
  }

  lemma RejectStep(p: seq<Definition>, w: World, w': World, m: nat, error: Value)
    requires Resting(p, w) && m < |w.rs| && m in w.inFlight && Fails(w, w', error) && w'.rs[m].status == Evaluated
    requires FailsOnly(w.rs, w'.rs, m, error)
    ensures Resting(p, Landed(w', m))
  {
    assert Unfold(true);
    assert RecordOk(w, m);
    FailsStartedAlone(p, w, w', m, error);
    RejectKeeps(p, w, w', m, error);
  }

  /** What waits for an unfinished module has not been started. */
  lemma {:induction false} WaiterNotStarted(p: seq<Definition>, w: World, path: seq<nat>, m: nat, y: nat)
    requires Base(p, w) && WaitPath(w.rs, path, m, y) && |path| > 1 && m < |w.rs| && m !in w.finished
    ensures y !in w.started
    decreases |path|
  {
    var front, z := path[..|path| - 1], path[|path| - 2];
    assert WaitHop(w.rs, path, |path| - 2);
    assert RegistrationOk(w, z, y) && RecordOk(w, z);
    if |front| > 1 {
      forall i | 0 <= i < |front| - 1 ensures WaitHop(w.rs, front, i) {
        assert WaitHop(w.rs, path, i);
      }
      WaiterNotStarted(p, w, front, m, z);
    }
  }

  lemma FailsStartedAlone(p: seq<Definition>, w: World, w': World, m: nat, error: Value)
    requires Base(p, w) && FailsOnly(w.rs, w'.rs, m, error) && m < |w.rs| && m !in w.finished
    ensures StartedAlone(w, w', m)
  {
    forall y: nat | y < |w.rs| == |w'.rs| && w'.rs[y] != w.rs[y] && y in w.started ensures y == m {
      var path :| WaitPath(w.rs, path, m, y);
      if |path| > 1 { WaiterNotStarted(p, w, path, m, y); }
    }
  }

  /**
  The spread so far: every failed module has its waiters failed or on the worklist, only awaiting modules fail, and only
  m and what waits for it.
  */
  ghost predicate SpreadTo(w: World, rs: seq<Record>, work: seq<nat>, error: Value, m: nat) {
    && (forall i :: 0 <= i < |work| ==> WaitsFor(w.rs, work[i], m))
    && (forall y: nat :: y < |rs| == |w.rs| && rs[y] != w.rs[y] ==> WaitsFor(w.rs, y, m))
    && |rs| == |w.rs| && (forall i :: 0 <= i < |work| ==> work[i] < |w.rs|)
    && (forall y :: 0 <= y < |w.rs| ==>
          rs[y] == w.rs[y] || (w.rs[y].status == Async && rs[y] == FailedRecord(w.rs[y], error)))
    && (forall i :: 0 <= i < |work| ==> w.rs[work[i]].status == Async || w.rs[work[i]].hasError)
    && (forall y, q {:trigger q in w.rs[y].asyncParents} ::
          0 <= y < |w.rs| && rs[y].hasError && q in w.rs[y].asyncParents ==>
          q < |w.rs| && (rs[q].hasError || q in work))
  }

  lemma SpreadStart(p: seq<Definition>, w: World, m: nat, error: Value)
    requires Spreading(p, w) && m < |w.rs| && (w.rs[m].status == Async || w.rs[m].hasError)
    ensures SpreadTo(w, w.rs, [m], error, m)
  {
    assert Unfold(true);
    WaitsForSelf(w.rs, m);
    forall y, q | 0 <= y < |w.rs| && w.rs[y].hasError && q in w.rs[y].asyncParents
      ensures q < |w.rs| && w.rs[q].hasError
    {
      assert RegistrationOk(w, y, q);
    }
  }

  /** A module on the worklist that has failed already needs nothing. */
  lemma SpreadSkip(w: World, rs: seq<Record>, work: seq<nat>, error: Value, source: nat)
    requires SpreadTo(w, rs, work, error, source) && work != [] && rs[work[|work| - 1]].status == Evaluated
    ensures SpreadTo(w, rs, work[..|work| - 1], error, source)
  {
  }

  lemma ErrorsEvaluated(p: seq<Definition>, w: World, m: nat)
    requires Spreading(p, w) && m < |w.rs|
    ensures w.rs[m].hasError ==> w.rs[m].status == Evaluated
  {
    assert Unfold(true);
    assert RecordOk(w, m);
  }

  /** Whoever waits for an unfinished module has not finished either. */
  lemma WaitersOpen(p: seq<Definition>, w: World, m: nat)
    requires Spreading(p, w) && m < |w.rs| && w.rs[m].status == Async
    ensures forall q :: q in w.rs[m].asyncParents ==> q < |w.rs| && (w.rs[q].status == Async || w.rs[q].hasError)
  {
    assert Unfold(true);
    assert RecordOk(w, m);
    forall q | q in w.rs[m].asyncParents ensures q < |w.rs| && (w.rs[q].status == Async || w.rs[q].hasError) {
      assert RegistrationOk(w, m, q) && RecordOk(w, q);
    }
  }

  lemma SpreadFail(p: seq<Definition>, w: World, rs: seq<Record>, work: seq<nat>, error: Value, source: nat)
    requires Spreading(p, w) && SpreadTo(w, rs, work, error, source) && work != []
             && rs[work[|work| - 1]].status != Evaluated
    ensures var m := work[|work| - 1];
      SpreadTo(w, rs[m := FailedRecord(rs[m], error)], work[..|work| - 1] + w.rs[m].asyncParents, error, source)
    ensures w.rs[work[|work| - 1]].status == Async && rs[work[|work| - 1]] == w.rs[work[|work| - 1]]
  {
    ErrorsEvaluated(p, w, work[|work| - 1]);
    var m := work[|work| - 1];
    var rs', work' := rs[m := FailedRecord(rs[m], error)], work[..|work| - 1] + w.rs[m].asyncParents;
    assert work == work[..|work| - 1] + [m];
    WaitersOpen(p, w, m);
    assert WaitsFor(w.rs, m, source);
    forall i | 0 <= i < |work'|
      ensures work'[i] < |w.rs| && (w.rs[work'[i]].status == Async || w.rs[work'[i]].hasError)
              && WaitsFor(w.rs, work'[i], source)
    {
      if i >= |work| - 1 {
        assert work'[i] in w.rs[m].asyncParents;
        WaitsForNext(w.rs, source, m, work'[i]);
      }
    }
    forall y, q | 0 <= y < |w.rs| && rs'[y].hasError && q in w.rs[y].asyncParents
      ensures q < |w.rs| && (rs'[q].hasError || q in work')
    {
      if y == m {
        assert q in work';
      } else {
        assert rs[y].hasError;
        assert q in work ==> q in work[..|work| - 1] || q == m;
        assert q in work[..|work| - 1] ==> q in work';
      }
    }
  }

  lemma SpreadEnd(w: World, rs: seq<Record>, error: Value, source: nat)
    requires SpreadTo(w, rs, [], error, source)
    ensures Fails(w, w.(rs := rs), error) && FailsOnly(w.rs, rs, source, error)
  {
  }
}
