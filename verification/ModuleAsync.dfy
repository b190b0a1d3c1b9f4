/**
After the walk: a settled body releases what waited for it. The available modules are
gathered first, then run in the order in which the walk put them on the asynchronous
path, and an error spreads to everything that waits.
*/
module ModuleAsync {
  import opened Lists
  import opened ModuleRequests
  import opened ModuleState
  import opened ModuleWalkSteps
  import opened ModuleWalkFinish

  /** What holds throughout the asynchronous phase, whatever the counters are doing. */
  ghost predicate Base(p: seq<Definition>, w: World) {
    && Shape(p, w) && Statuses(w) && PoppedClosed(p, w) && Components(p, w)
    && RegistrationsOk(w) && RequestsServed(p, w) && MembersOk(w) && Capabilities(w)
    && (forall m :: 0 <= m < |w.rs| ==> w.rs[m].status != Evaluating)
  }

  // ------------------------------------------------------------ a body settles

  function FinishedRecord(r: Record): (r': Record) {
    r.(status := Evaluated, asyncActive := false, topLevel := Settle(r.topLevel, Fulfilled))
  }

  function FinishedWorld(w: World, m: nat): (w': World)
    requires m < |w.rs|
  {
    Put(w, m, FinishedRecord(w.rs[m])).(finished := w.finished + {m}, inFlight := w.inFlight - {m})
  }

  lemma FinishRecords(p: seq<Definition>, w: World, m: nat)
    requires Shape(p, w) && Statuses(w) && RegistrationsOk(w) && m < |w.rs| && w.rs[m].status == Async && m in w.started
    requires forall x :: 0 <= x < |w.rs| ==> w.rs[x].status != Evaluating
    ensures Shape(p, FinishedWorld(w, m)) && Statuses(FinishedWorld(w, m)) && RegistrationsOk(FinishedWorld(w, m))
  {
    var w' := FinishedWorld(w, m);
    forall x | 0 <= x < |w'.rs| ensures RecordOk(w', x) { assert RecordOk(w, x); }
    forall y, q | 0 <= y < |w'.rs| && q in w'.rs[y].asyncParents ensures RegistrationOk(w', y, q) {
      assert RegistrationOk(w, y, q) && RecordOk(w, m);
    }
  }

  lemma FinishBase(p: seq<Definition>, w: World, m: nat)
    requires Base(p, w) && m < |w.rs| && w.rs[m].status == Async && m in w.started
    ensures Base(p, FinishedWorld(w, m))
  {
    assert RecordOk(w, m);
    FinishRecords(p, w, m);
    assert KeepsLinks(w, FinishedWorld(w, m));
    LinksKept(p, w, FinishedWorld(w, m));
    FinishCapabilities(w, m);
  }

  lemma FinishCapabilities(w: World, m: nat)
    requires Capabilities(w) && m < |w.rs| && w.rs[m].status == Async && !w.rs[m].hasError
    ensures Capabilities(FinishedWorld(w, m))
  {
  }

  // ---------------------------------------------------------------- gathering

  /** The modules whose registrations have not been released. */
  ghost function Held(p: seq<Definition>, w: World, listed: seq<nat>): set<nat>
    requires |p| == |w.rs|
  {
    set y | 0 <= y < |w.rs| && w.rs[y].asyncActive && !(y in listed && !p[y].hasTla)
  }

  /** The registrations of the modules on the worklist. */
  ghost function OwedBy(w: World, work: seq<nat>): multiset<nat>
    requires forall i :: 0 <= i < |work| ==> work[i] < |w.rs|
  {
    if work == [] then multiset{}
    else OwedBy(w, work[..|work| - 1]) + multiset(w.rs[work[|work| - 1]].asyncParents)
  }

  ghost predicate Listed(w: World, listed: seq<nat>) {
    && (forall q :: q in listed ==> q < |w.rs|)
    && (forall q: nat :: q < |w.rs| ==> (w.rs[q].inExecutionList <==> q in listed))
    && Distinct(listed)
  }

  ghost predicate OwedCounts(p: seq<Definition>, w: World, listed: seq<nat>, owed: multiset<nat>)
    requires |p| == |w.rs|
  {
    forall m: nat :: Live(w, m) ==> w.rs[m].pending == Registrations(w.rs, Held(p, w, listed), m, |w.rs|) + owed[m]
  }

  /** Listed modules have nothing pending and have not started; any other module with nothing pending has. */
  ghost predicate ListedIdle(w: World, listed: seq<nat>) {
    && (forall q: nat :: q in listed ==> Live(w, q) && w.rs[q].pending == 0 && q !in w.started)
    && (forall m: nat :: Live(w, m) ==> (w.rs[m].pending == 0 <==> m in w.started || m in listed))
  }

  ghost predicate GatherOk(p: seq<Definition>, w: World, listed: seq<nat>, owed: multiset<nat>) {
    Base(p, w) && Listed(w, listed) && OwedCounts(p, w, listed, owed) && ListedIdle(w, listed)
  }

  /** Releasing m's registrations turns them into debts. */
  lemma GatherStart(p: seq<Definition>, w: World, m: nat)
    requires Stable(p, w) && m < |w.rs| && w.rs[m].status == Async && m in w.started
    ensures GatherOk(p, FinishedWorld(w, m), [], multiset(w.rs[m].asyncParents))
  {
    var w' := FinishedWorld(w, m);
    assert RecordOk(w, m);
    FinishBase(p, w, m);
    forall q: nat | Live(w', q)
      ensures w.rs[q].pending == 0 ==> q in w.started
      ensures q in w.started ==> w.rs[q].pending == 0
      ensures Live(w, q)
              && w'.rs[q].pending ==
                 Registrations(w'.rs, Held(p, w', []), q, |w'.rs|) + multiset(w.rs[m].asyncParents)[q]
    {
      assert RecordOk(w, q);
      FinishCount(p, w, m, q);
      if q in w.started { StartedOwesNothing(w, q); }
    }
  }

  lemma StartedOwesNothing(w: World, q: nat)
    requires Statuses(w) && RegistrationsOk(w) && q in w.started && q < |w.rs|
    ensures Registrations(w.rs, Active(w.rs), q, |w.rs|) == 0
  {
    RegistrationsZero(w.rs, Active(w.rs), q, |w.rs|);
    forall y | 0 <= y < |w.rs| && y in Active(w.rs) ensures q !in w.rs[y].asyncParents {
      assert RecordOk(w, y);
      assert q in w.rs[y].asyncParents ==> RegistrationOk(w, y, q);
    }
  }

  lemma FinishCount(p: seq<Definition>, w: World, m: nat, q: nat)
    requires |p| == |w.rs| && m < |w.rs| && w.rs[m].asyncActive
    ensures Registrations(w.rs, Active(w.rs), q, |w.rs|) ==
      Registrations(FinishedWorld(w, m).rs, Held(p, FinishedWorld(w, m), []), q, |w.rs|) +
      multiset(w.rs[m].asyncParents)[q]
  {
    var w' := FinishedWorld(w, m);
    assert Held(p, w', []) == Active(w.rs) - {m};
    RegistrationsRelease(w.rs, Active(w.rs), m, q, |w.rs|);
    RegistrationsSame(w.rs, Active(w.rs) - {m}, w'.rs, Held(p, w', []), q, |w.rs|);
  }

  /** The test under which a parent is passed over. */
  predicate Skipped(w: World, q: nat)
    requires q < |w.rs| && w.rs[q].cycleRoot < |w.rs|
  {
    w.rs[q].inExecutionList || w.rs[w.rs[q].cycleRoot].hasError || w.rs[q].status == Evaluated
  }

  function CountedWorld(w: World, q: nat): (w': World)
    requires q < |w.rs| && w.rs[q].pending > 0
  {
    var left := w.rs[q].pending - 1;
    Put(w, q, w.rs[q].(pending := left, inExecutionList := if left == 0 then true else w.rs[q].inExecutionList))
  }

  /** A parent that is passed over is no longer live, so its debt does not matter. */
  lemma GatherSkip(p: seq<Definition>, w: World, listed: seq<nat>, owed: multiset<nat>, q: nat)
    requires GatherOk(p, w, listed, owed) && q in owed && q < |w.rs| && Skipped(w, q)
    ensures GatherOk(p, w, listed, owed - multiset{q})
  {
  }

  lemma CountedBase(p: seq<Definition>, w: World, w': World)
    requires Base(p, w) && |w'.rs| == |w.rs| && w' == w.(rs := w'.rs)
    requires forall y :: 0 <= y < |w.rs| ==>
      w'.rs[y] == w.rs[y].(pending := w'.rs[y].pending, inExecutionList := w'.rs[y].inExecutionList)
    ensures Base(p, w')
  {
    forall x | 0 <= x < |w'.rs| ensures RecordOk(w', x) { assert RecordOk(w, x); }
    forall y, q | 0 <= y < |w'.rs| && q in w'.rs[y].asyncParents
      ensures RegistrationOk(w', y, q)
    {
      assert RegistrationOk(w, y, q);
    }
    forall y | y in w'.popped && y < |w'.rs| && w'.rs[y].cycleRoot != y
      ensures MemberOk(w', y)
    {
      assert MemberOk(w, y);
    }
    forall y | 0 <= y < |w'.rs| ensures CapabilityOk(w'.rs[y]) { assert CapabilityOk(w.rs[y]); }
  }

  /**
  A counted parent: its debt is paid, and at zero it joins the list; without an await it releases its own registrations
  at once.
  */
  lemma GatherCount(p: seq<Definition>, w: World, listed: seq<nat>, owed: multiset<nat>, q: nat)
    requires GatherOk(p, w, listed, owed) && q in owed && q < |w.rs| && w.rs[q].status != Linked && !Skipped(w, q)
    ensures w.rs[q].pending > 0
    ensures w.rs[q].pending > 1 ==> GatherOk(p, CountedWorld(w, q), listed, owed - multiset{q})
    ensures w.rs[q].pending == 1 ==> GatherOk(p, CountedWorld(w, q), listed + [q],
              owed - multiset{q} + if p[q].hasTla then multiset{} else multiset(w.rs[q].asyncParents))
  {
    assert Live(w, q);
    var w' := CountedWorld(w, q);
    CountedBase(p, w, w');
    if w.rs[q].pending > 1 {
      GatherMore(p, w, listed, owed, q);
    } else {
      GatherLast(p, w, listed, owed, q);
    }
  }

  lemma SameLive(w: World, q: nat, m: nat)
    requires q < |w.rs| && w.rs[q].pending > 0
    ensures Live(CountedWorld(w, q), m) <==> Live(w, m)
  {
  }

  lemma GatherMore(p: seq<Definition>, w: World, listed: seq<nat>, owed: multiset<nat>, q: nat)
    requires |p| == |w.rs| && Listed(w, listed) && OwedCounts(p, w, listed, owed) && ListedIdle(w, listed)
    requires q in owed && Live(w, q) && !w.rs[q].inExecutionList && w.rs[q].pending > 1
    ensures Listed(CountedWorld(w, q), listed) && OwedCounts(p, CountedWorld(w, q), listed, owed - multiset{q})
            && ListedIdle(CountedWorld(w, q), listed)
  {
    var w' := CountedWorld(w, q);
    forall m: nat { SameLive(w, q, m); }
    assert Held(p, w', listed) == Held(p, w, listed);
    forall m: nat | Live(w', m)
      ensures w'.rs[m].pending == Registrations(w'.rs, Held(p, w', listed), m, |w'.rs|) + (owed - multiset{q})[m]
    {
      RegistrationsSame(w.rs, Held(p, w, listed), w'.rs, Held(p, w', listed), m, |w.rs|);
    }
  }

  lemma GatherLast(p: seq<Definition>, w: World, listed: seq<nat>, owed: multiset<nat>, q: nat)
    requires |p| == |w.rs| && Statuses(w) && Listed(w, listed) && OwedCounts(p, w, listed, owed)
             && ListedIdle(w, listed)
    requires q in owed && Live(w, q) && !w.rs[q].inExecutionList && w.rs[q].pending == 1
    ensures Listed(CountedWorld(w, q), listed + [q]) && ListedIdle(CountedWorld(w, q), listed + [q])
    ensures OwedCounts(p, CountedWorld(w, q), listed + [q],
                       owed - multiset{q} + if p[q].hasTla then multiset{} else multiset(w.rs[q].asyncParents))
  {
    assert RecordOk(w, q);
    GatherListed(w, listed, q);
    var w' := CountedWorld(w, q);
    forall m: nat | Live(w', m)
      ensures w'.rs[m].pending == Registrations(w'.rs, Held(p, w', listed + [q]), m, |w'.rs|) +
        (owed - multiset{q} + if p[q].hasTla then multiset{} else multiset(w.rs[q].asyncParents))[m]
    {
      SameLive(w, q, m);
      ReleaseCount(p, w, listed, q, m);
    }
  }

  lemma GatherListed(w: World, listed: seq<nat>, q: nat)
    requires Listed(w, listed) && ListedIdle(w, listed) && Live(w, q) && !w.rs[q].inExecutionList
             && w.rs[q].pending == 1
    ensures Listed(CountedWorld(w, q), listed + [q]) && ListedIdle(CountedWorld(w, q), listed + [q])
  {
  }

  lemma ReleaseCount(p: seq<Definition>, w: World, listed: seq<nat>, q: nat, m: nat)
    requires |p| == |w.rs| && q < |w.rs| && w.rs[q].pending == 1 && w.rs[q].asyncActive && q !in listed
    ensures Registrations(w.rs, Held(p, w, listed), m, |w.rs|) ==
      Registrations(CountedWorld(w, q).rs, Held(p, CountedWorld(w, q), listed + [q]), m, |w.rs|) +
      if p[q].hasTla then 0 else multiset(w.rs[q].asyncParents)[m]
  {
    var w', held := CountedWorld(w, q), Held(p, w, listed);
    var held' := Held(p, w', listed + [q]);
    if p[q].hasTla {
      assert held' == held;
    } else {
      assert held' == held - {q};
      RegistrationsRelease(w.rs, held, q, m, |w.rs|);
    }
    RegistrationsSame(w.rs, held', w'.rs, held', m, |w.rs|);
  }

  lemma {:induction false} OwedBySame(w: World, w': World, work: seq<nat>)
    requires |w'.rs| == |w.rs| && forall i :: 0 <= i < |work| ==> work[i] < |w.rs|
    requires forall y :: 0 <= y < |w.rs| ==> w'.rs[y].asyncParents == w.rs[y].asyncParents
    ensures OwedBy(w', work) == OwedBy(w, work)
  {
    if work != [] { OwedBySame(w, w', work[..|work| - 1]); }
  }
}
