/** Running the gathered modules in order, and spreading an error over everything that waits for its source. */
module ModuleAsyncRun {
  import opened Lists
  import opened ModuleRequests
  import opened ModuleState
  import opened ModuleWalkSteps
  import opened ModuleWalkFinish
  import opened ModuleAsync

  // ------------------------------------------------------------------- errors

  /** Some awaiting modules fail, and with each of them all that wait for it. */
  ghost predicate Fails(w: World, w': World, error: Value) {
    && |w'.rs| == |w.rs| && w' == w.(rs := w'.rs)
    && (forall y :: 0 <= y < |w.rs| ==>
          w'.rs[y] == w.rs[y] || (w.rs[y].status == Async && w'.rs[y] == FailedRecord(w.rs[y], error)))
    && (forall y, q :: 0 <= y < |w.rs| && w'.rs[y].hasError && q in w.rs[y].asyncParents ==>
          q < |w.rs| && w'.rs[q].hasError)
  }

  /** Of the modules that fail, m alone has been started. */
  ghost predicate StartedAlone(w: World, w': World, m: nat) {
    m < |w.rs| && forall y: nat :: y < |w.rs| == |w'.rs| && w'.rs[y] != w.rs[y] && y in w.started ==> y == m
  }

  /** The body of m has no callback to come any more. */
  function Landed(w: World, m: nat): (w': World) {
    w.(inFlight := w.inFlight - {m})
  }

  lemma FailRecords(p: seq<Definition>, w: World, w': World, m: nat, error: Value)
    requires Shape(p, w) && Statuses(w) && RegistrationsOk(w) && Fails(w, w', error) && StartedAlone(w, w', m)
    requires (forall x :: 0 <= x < |w.rs| ==> w.rs[x].status != Evaluating) && w'.rs[m].status == Evaluated
    ensures Shape(p, Landed(w', m)) && Statuses(Landed(w', m)) && RegistrationsOk(Landed(w', m))
  {
    var w'' := Landed(w', m);
    forall x | 0 <= x < |w''.rs| ensures RecordOk(w'', x) { assert RecordOk(w, x); }
    forall y, q | 0 <= y < |w''.rs| && q in w''.rs[y].asyncParents ensures RegistrationOk(w'', y, q) {
      assert RegistrationOk(w, y, q);
    }
  }

  lemma FailBase(p: seq<Definition>, w: World, w': World, m: nat, error: Value)
    requires Base(p, w) && Fails(w, w', error) && StartedAlone(w, w', m) && w'.rs[m].status == Evaluated
    ensures Base(p, Landed(w', m))
  {
    FailRecords(p, w, w', m, error);
    assert KeepsLinks(w, Landed(w', m));
    LinksKept(p, w, Landed(w', m));
    FailCapabilities(w, w', error);
  }

  lemma FailCapabilities(w: World, w': World, error: Value)
    requires Statuses(w) && Capabilities(w) && Fails(w, w', error)
    ensures Capabilities(w')
  {
  }

  /** What stays live was counted right and still is. */
  lemma FailCounts(p: seq<Definition>, w: World, w': World, error: Value, listed: seq<nat>)
    requires |p| == |w.rs| && Statuses(w) && Fails(w, w', error) && PendingCounts(w, Held(p, w, listed))
    ensures PendingCounts(w', Held(p, w', listed))
    ensures forall m: nat :: Live(w', m) ==> Live(w, m) && w'.rs[m] == w.rs[m]
  {
    forall m: nat | Live(w', m)
      ensures Live(w, m) && w'.rs[m] == w.rs[m]
              && w'.rs[m].pending == Registrations(w'.rs, Held(p, w', listed), m, |w'.rs|)
    {
      assert RecordOk(w, m) && RecordOk(w, w.rs[m].cycleRoot);
      FailCount(p, w, w', error, listed, m);
    }
  }

  lemma FailCount(p: seq<Definition>, w: World, w': World, error: Value, listed: seq<nat>, m: nat)
    requires |p| == |w.rs| && Statuses(w) && Fails(w, w', error) && m < |w.rs| && !w'.rs[m].hasError
    ensures Registrations(w'.rs, Held(p, w', listed), m, |w'.rs|) == Registrations(w.rs, Held(p, w, listed), m, |w.rs|)
  {
    forall y | 0 <= y < |w.rs|
      ensures y in Held(p, w, listed) && m in w.rs[y].asyncParents <==>
        y in Held(p, w', listed) && m in w'.rs[y].asyncParents
    {
      assert m in w.rs[y].asyncParents ==> !w'.rs[y].hasError;
    }
    RegistrationsSame(w.rs, Held(p, w, listed), w'.rs, Held(p, w', listed), m, |w.rs|);
  }

  // ------------------------------------------------------------------ running

  /** One listed module: what it waits for has finished, or is listed too and will run synchronously before it. */
  ghost predicate WaitsOnlyForListed(p: seq<Definition>, w: World, rem: seq<nat>, y: nat, q: nat)
    requires |p| == |w.rs| && y < |w.rs|
  {
    y in w.finished || (y in rem && !p[y].hasTla && w.rs[y].status == Async)
  }

  ghost predicate ListedWaits(p: seq<Definition>, w: World, rem: seq<nat>)
    requires |p| == |w.rs|
  {
    forall y: nat, q: nat ::
      y < |w.rs| && q in rem && q < |w.rs| && w.rs[q].status == Async && q in w.rs[y].asyncParents ==>
      WaitsOnlyForListed(p, w, rem, y, q)
  }

  ghost predicate RemOk(w: World, q: nat)
    requires q < |w.rs|
  {
    q in w.popped && q !in w.started && (w.rs[q].status == Async || w.rs[q].hasError)
  }

  ghost predicate Ordered(w: World, rem: seq<nat>) {
    && (forall i :: 0 <= i < |rem| ==> rem[i] < |w.rs|)
    && (forall i, j :: 0 <= i < j < |rem| ==> w.rs[rem[i]].asyncOrder <= w.rs[rem[j]].asyncOrder)
  }

  ghost predicate RunOk(p: seq<Definition>, w: World, rem: seq<nat>) {
    && Base(p, w) && Listed(w, rem) && Ordered(w, rem)
    && (forall q :: q in rem ==> RemOk(w, q))
    && PendingCounts(w, Held(p, w, rem)) && ZeroMeansRunning(w, set q | q in rem) && ListedWaits(p, w, rem)
  }

  /** Nothing is owed any more: the list may run, in any order that sorts it. */
  lemma RunStart(p: seq<Definition>, w: World, listed: seq<nat>, rem: seq<nat>)
    requires GatherOk(p, w, listed, multiset{}) && multiset(rem) == multiset(listed) && Ordered(w, rem)
    ensures RunOk(p, w, rem)
  {
    SameElements(listed, rem);
    assert Held(p, w, rem) == Held(p, w, listed);
    forall q | q in rem ensures RemOk(w, q) { assert q in listed && Live(w, q) && RecordOk(w, q); }
    forall y: nat, q: nat | y < |w.rs| && q in rem && q < |w.rs| && w.rs[q].status == Async && q in w.rs[y].asyncParents
      ensures WaitsOnlyForListed(p, w, rem, y, q)
    {
      ListedWaitsFor(p, w, listed, y, q);
    }
  }

  lemma ListedWaitsFor(p: seq<Definition>, w: World, listed: seq<nat>, y: nat, q: nat)
    requires Base(p, w) && OwedCounts(p, w, listed, multiset{}) && ListedIdle(w, listed)
    requires y < |w.rs| && q in listed && q in w.rs[y].asyncParents
    ensures WaitsOnlyForListed(p, w, listed, y, q)
  {
    assert Live(w, q) && w.rs[q].pending == 0;
    assert RecordOk(w, q) && RecordOk(w, y) && RegistrationOk(w, y, q);
    assert Registrations(w.rs, Held(p, w, listed), q, |w.rs|) == 0;
    RegistrationsZero(w.rs, Held(p, w, listed), q, |w.rs|);
    assert y !in Held(p, w, listed);
  }

  lemma SameElements(a: seq<nat>, b: seq<nat>)
    requires multiset(a) == multiset(b) && Distinct(a)
    ensures forall q :: q in a <==> q in b
    ensures Distinct(b)
  {
    forall q ensures q in a <==> q in b { assert q in a <==> q in multiset(a); assert q in b <==> q in multiset(b); }
    forall i, j | 0 <= i < j < |b| ensures b[i] != b[j] {
      if b[i] == b[j] {
        TwiceIn(b, i, j);
        OnceIn(a, b[i]);
      }
    }
  }

  lemma TwiceIn(b: seq<nat>, i: nat, j: nat)
    requires i < j < |b| && b[i] == b[j]
    ensures multiset(b)[b[i]] >= 2
  {
    assert b == b[..j] + [b[j]] + b[j + 1..];
    assert b[i] in b[..j];
  }

  lemma {:induction false} OnceIn(a: seq<nat>, x: nat)
    requires Distinct(a)
    ensures multiset(a)[x] <= 1
  {
    if a != [] {
      var n := |a| - 1;
      assert a == a[..n] + [a[n]];
      OnceIn(a[..n], x);
      assert a[n] !in a[..n];
    }
  }

  /** All that the first listed module waits for has finished. */
  lemma FirstFree(p: seq<Definition>, w: World, rem: seq<nat>, y: nat)
    requires RunOk(p, w, rem) && rem != [] && rem[0] < |w.rs| && w.rs[rem[0]].status == Async && y < |w.rs|
             && rem[0] in w.rs[y].asyncParents
    ensures y in w.finished
  {
    var q := rem[0];
    assert WaitsOnlyForListed(p, w, rem, y, q) && RegistrationOk(w, y, q) && RemOk(w, q);
  }

  /** So its body may start. */
  lemma FirstReady(p: seq<Definition>, w: World, rem: seq<nat>)
    requires RunOk(p, w, rem) && rem != [] && rem[0] < |w.rs| && w.rs[rem[0]].status == Async
    ensures rem[0] !in w.started && Ready(p, rem[0], w.finished)
  {
    var q := rem[0];
    assert RemOk(w, q);
    forall r, x | r in p[q].requests && !SameComponent(p, q, r) && Reaches(p, r, x)
      ensures x in w.finished
    {
      assert r in w.popped && w.rs[r].cycleRoot != w.rs[q].cycleRoot;
      var c := w.rs[r].cycleRoot;
      assert Served(w, q, c);
      if c !in w.finished { FirstFree(p, w, rem, c); }
      BelowFinishedRoot(p, w, r, x);
    }
  }

  function UnlistedWorld(w: World, q: nat): (w': World)
    requires q < |w.rs|
  {
    Put(w, q, w.rs[q].(inExecutionList := false))
  }

  /** q leaves the list and its body starts. */
  function StartedWorld(w: World, q: nat): (w': World)
    requires q < |w.rs|
  {
    UnlistedWorld(w, q).(started := w.started + {q}, inFlight := w.inFlight + {q})
  }

  lemma StartRecords(p: seq<Definition>, w: World, u: World, rem: seq<nat>)
    requires RunOk(p, w, rem) && rem != [] && rem[0] < |w.rs| && w.rs[rem[0]].status == Async
    requires u == UnlistedWorld(w, rem[0]) && Statuses(u) && RegistrationsOk(u)
    ensures Statuses(StartedWorld(w, rem[0])) && RegistrationsOk(StartedWorld(w, rem[0]))
  {
    var q, w' := rem[0], StartedWorld(w, rem[0]);
    assert RecordOk(w, q) && RemOk(w, q);
    forall m | 0 <= m < |w'.rs| ensures RecordOk(w', m) { assert RecordOk(u, m); }
    forall y, x | 0 <= y < |w'.rs| && x in w'.rs[y].asyncParents ensures RegistrationOk(w', y, x) {
      assert RegistrationOk(u, y, x);
      if x == q { FirstFree(p, w, rem, y); }
    }
  }

  lemma StartBase(p: seq<Definition>, w: World, rem: seq<nat>)
    requires RunOk(p, w, rem) && rem != [] && rem[0] < |w.rs| && w.rs[rem[0]].status == Async
    ensures Base(p, StartedWorld(w, rem[0]))
  {
    var u := UnlistedWorld(w, rem[0]);
    CountedBase(p, w, u);
    StartRecords(p, w, u, rem);
    StartMembers(p, u, StartedWorld(w, rem[0]));
  }

  lemma StartMembers(p: seq<Definition>, u: World, w': World)
    requires Base(p, u) && w' == u.(started := w'.started, inFlight := w'.inFlight) && Shape(p, w')
    ensures PoppedClosed(p, w') && Components(p, w') && RequestsServed(p, w') && MembersOk(w') && Capabilities(w')
  {
  }

  /** The list without its first element. */
  lemma Shorter(w: World, w': World, rem: seq<nat>)
    requires Listed(w, rem) && Ordered(w, rem) && rem != [] && |w'.rs| == |w.rs|
    requires forall x :: 0 <= x < |w.rs| ==> w'.rs[x].asyncOrder == w.rs[x].asyncOrder
    requires forall x :: 0 <= x < |w.rs| ==> w'.rs[x].inExecutionList == (w.rs[x].inExecutionList && x != rem[0])
    ensures Listed(w', rem[1..]) && Ordered(w', rem[1..])
    ensures forall x :: x in rem <==> x in rem[1..] || x == rem[0]
    ensures rem[0] !in rem[1..]
  {
  }

  /** What the rest of the list needs to know about one step of the run. */
  ghost predicate Stepped(p: seq<Definition>, w: World, w': World, rem: seq<nat>)
    requires |p| == |w.rs|
  {
    && rem != [] && rem[0] < |w.rs| && |w'.rs| == |w.rs| && w'.popped == w.popped
    && w.finished <= w'.finished && w'.started <= w.started + {rem[0]} && w.started <= w'.started
    && (forall x :: 0 <= x < |w.rs| && x != rem[0] ==>
          w'.rs[x] == w.rs[x]
          || (w.rs[x].status == Async && w'.rs[x].hasError && w'.rs[x].status == Evaluated
              && w'.rs[x].pending == w.rs[x].pending))
    && (forall x :: 0 <= x < |w.rs| ==>
          && w'.rs[x].asyncOrder == w.rs[x].asyncOrder && w'.rs[x].asyncParents == w.rs[x].asyncParents
          && w'.rs[x].cycleRoot == w.rs[x].cycleRoot
          && (w.rs[x].hasError ==> w'.rs[x].hasError)
          && w'.rs[x].inExecutionList == (w.rs[x].inExecutionList && x != rem[0]))
    && w'.rs[rem[0]].pending == w.rs[rem[0]].pending
    && (w'.rs[rem[0]].status == Async ==> p[rem[0]].hasTla && rem[0] in w'.started)
    && (w'.rs[rem[0]].status == Async || rem[0] in w'.finished || w'.rs[rem[0]].hasError)
    && (p[rem[0]].hasTla ==> w'.rs[rem[0]].status == Async || w'.rs[rem[0]].hasError)
    && (w'.rs[rem[0]].asyncActive == (w'.rs[rem[0]].status == Async))
  }

  lemma SteppedWaits(p: seq<Definition>, w: World, w': World, rem: seq<nat>)
    requires RunOk(p, w, rem) && Base(p, w') && Stepped(p, w, w', rem)
    ensures ListedWaits(p, w', rem[1..])
    ensures forall q :: q in rem[1..] ==> q < |w'.rs| && RemOk(w', q)
  {
    Shorter(w, w', rem);
    forall q | q in rem[1..] ensures q < |w'.rs| && RemOk(w', q) { assert q in rem && RemOk(w, q); }
    forall y: nat, q: nat | y < |w'.rs| && q in rem[1..] && q < |w'.rs| && w'.rs[q].status == Async
    && q in w'.rs[y].asyncParents
      ensures WaitsOnlyForListed(p, w', rem[1..], y, q)
    {
      assert WaitsOnlyForListed(p, w, rem, y, q);
      assert RegistrationOk(w', y, q) && RecordOk(w', q);
    }
  }

  lemma SteppedHeld(p: seq<Definition>, w: World, w': World, rem: seq<nat>)
    requires RunOk(p, w, rem) && Stepped(p, w, w', rem)
    ensures Held(p, w', rem[1..]) == Held(p, w', rem)
  {
  }

  lemma SteppedCounts(p: seq<Definition>, w: World, w': World, rem: seq<nat>)
    requires RunOk(p, w, rem) && Base(p, w') && Stepped(p, w, w', rem)
    ensures PendingCounts(w', Held(p, w', rem[1..])) && ZeroMeansRunning(w', set q | q in rem[1..])
  {
    Shorter(w, w', rem);
    SteppedHeld(p, w, w', rem);
    forall m: nat | Live(w', m)
      ensures w'.rs[m].pending == Registrations(w'.rs, Held(p, w', rem), m, |w'.rs|)
      ensures w'.rs[m].pending == 0 ==> m in w'.started || m in rem[1..]
    {
      SteppedLive(p, w, w', rem, m);
      SteppedCount(p, w, w', rem, m);
    }
  }

  lemma SteppedLive(p: seq<Definition>, w: World, w': World, rem: seq<nat>, m: nat)
    requires RunOk(p, w, rem) && Base(p, w') && Stepped(p, w, w', rem) && Live(w', m)
    ensures Live(w, m) && w'.rs[m].pending == w.rs[m].pending
  {
    assert RemOk(w, rem[0]) && RecordOk(w', m);
  }

  lemma SteppedCount(p: seq<Definition>, w: World, w': World, rem: seq<nat>, m: nat)
    requires RunOk(p, w, rem) && Base(p, w') && Stepped(p, w, w', rem) && Live(w', m)
    ensures Registrations(w'.rs, Held(p, w', rem), m, |w'.rs|) == Registrations(w.rs, Held(p, w, rem), m, |w.rs|)
  {
    forall y | 0 <= y < |w.rs|
      ensures y in Held(p, w, rem) && m in w.rs[y].asyncParents <==> y in Held(p, w', rem) && m in w'.rs[y].asyncParents
    {
      if m in w.rs[y].asyncParents { SteppedHolder(p, w, w', rem, y, m); }
    }
    RegistrationsSame(w.rs, Held(p, w, rem), w'.rs, Held(p, w', rem), m, |w.rs|);
  }

  lemma SteppedHolder(p: seq<Definition>, w: World, w': World, rem: seq<nat>, y: nat, m: nat)
    requires RunOk(p, w, rem) && Base(p, w') && Stepped(p, w, w', rem) && Live(w', m) && y < |w.rs|
             && m in w.rs[y].asyncParents
    ensures y in Held(p, w, rem) <==> y in Held(p, w', rem)
  {
    assert RegistrationOk(w', y, m) && RecordOk(w', y) && RecordOk(w', m) && RecordOk(w, y);
    assert RemOk(w, rem[0]) && rem[0] in rem;
  }

  lemma RunStep(p: seq<Definition>, w: World, w': World, rem: seq<nat>)
    requires RunOk(p, w, rem) && Base(p, w') && Stepped(p, w, w', rem)
    ensures RunOk(p, w', rem[1..])
  {
    Shorter(w, w', rem);
    SteppedWaits(p, w, w', rem);
    SteppedCounts(p, w, w', rem);
  }

  // ------------------------------------------------- the four outcomes of a step

  /** Already failed: the module is passed over. */
  lemma RunSkip(p: seq<Definition>, w: World, rem: seq<nat>)
    requires RunOk(p, w, rem) && rem != [] && rem[0] < |w.rs| && w.rs[rem[0]].status == Evaluated
    ensures RunOk(p, UnlistedWorld(w, rem[0]), rem[1..])
  {
    var w' := UnlistedWorld(w, rem[0]);
    CountedBase(p, w, w');
    assert RemOk(w, rem[0]) && RecordOk(w, rem[0]);
    RunStep(p, w, w', rem);
  }

  /** The body awaits. */
  lemma RunAwait(p: seq<Definition>, w: World, rem: seq<nat>)
    requires RunOk(p, w, rem) && rem != [] && rem[0] < |w.rs| && w.rs[rem[0]].status == Async && p[rem[0]].hasTla
    ensures RunOk(p, StartedWorld(w, rem[0]), rem[1..])
  {
    StartBase(p, w, rem);
    assert RecordOk(w, rem[0]);
    RunStep(p, w, StartedWorld(w, rem[0]), rem);
  }

  /** The body runs to completion. */
  lemma RunFinish(p: seq<Definition>, w: World, rem: seq<nat>)
    requires RunOk(p, w, rem) && rem != [] && rem[0] < |w.rs| && w.rs[rem[0]].status == Async && !p[rem[0]].hasTla
    ensures RunOk(p, FinishedWorld(StartedWorld(w, rem[0]), rem[0]), rem[1..])
  {
    StartBase(p, w, rem);
    FinishBase(p, StartedWorld(w, rem[0]), rem[0]);
    RunStep(p, w, FinishedWorld(StartedWorld(w, rem[0]), rem[0]), rem);
  }

  /** The body throws. */
  lemma RunThrow(p: seq<Definition>, w: World, w': World, rem: seq<nat>, error: Value)
    requires RunOk(p, w, rem) && rem != [] && rem[0] < |w.rs| && w.rs[rem[0]].status == Async
    requires Fails(StartedWorld(w, rem[0]), w', error) && w'.rs[rem[0]].hasError
             && StartedAlone(StartedWorld(w, rem[0]), w', rem[0])
    ensures RunOk(p, w'.(inFlight := w.inFlight - {rem[0]}), rem[1..])
  {
    var s, w'' := StartedWorld(w, rem[0]), w'.(inFlight := w.inFlight - {rem[0]});
    StartBase(p, w, rem);
    assert RecordOk(s, rem[0]);
    FailBase(p, s, w', rem[0], error);
    assert Landed(w', rem[0]) == w'';
    ThrowStepped(p, w, w', rem, error);
    RunStep(p, w, w'', rem);
  }

  lemma ThrowStepped(p: seq<Definition>, w: World, w': World, rem: seq<nat>, error: Value)
    requires |p| == |w.rs| && rem != [] && rem[0] < |w.rs| && w.rs[rem[0]].status == Async && Listed(w, rem)
    requires Fails(StartedWorld(w, rem[0]), w', error) && w'.rs[rem[0]].hasError && w'.rs[rem[0]].status == Evaluated
             && !w'.rs[rem[0]].asyncActive
    ensures Stepped(p, w, w'.(inFlight := w.inFlight - {rem[0]}), rem)
  {
  }

  /** The body of a module that has failed with an open walk completes after that. */
  function LateWorld(w: World, m: nat): (w': World) {
    w.(finished := w.finished + {m}, inFlight := w.inFlight - {m})
  }

  lemma LateBase(p: seq<Definition>, w: World, m: nat)
    requires Base(p, w) && m < |w.rs| && m in w.inFlight && w.rs[m].status == Evaluated
    ensures Base(p, LateWorld(w, m))
  {
    var w' := LateWorld(w, m);
    assert RecordOk(w, m);
    forall x | 0 <= x < |w'.rs| ensures RecordOk(w', x) { assert RecordOk(w, x); }
    forall y, q | 0 <= y < |w'.rs| && q in w'.rs[y].asyncParents ensures RegistrationOk(w', y, q) {
      assert RegistrationOk(w, y, q);
    }
    assert KeepsLinks(w, w');
    LinksKept(p, w, w');
  }

  /** The list is done. */
  lemma RunEnd(p: seq<Definition>, w: World)
    requires RunOk(p, w, [])
    ensures Stable(p, w)
  {
    assert Held(p, w, []) == Active(w.rs);
    var none: seq<nat> := [];
    assert (set q | q in none) == {};
  }

  /** A rejected body outside any run. */
  lemma RejectKeeps(p: seq<Definition>, w: World, w': World, m: nat, error: Value)
    requires Stable(p, w) && m < |w.rs| && Fails(w, w', error) && StartedAlone(w, w', m) && w'.rs[m].status == Evaluated
    ensures Stable(p, Landed(w', m))
  {
    FailBase(p, w, w', m, error);
    var w'' := Landed(w', m);
    assert Held(p, w, []) == Active(w.rs) && Held(p, w', []) == Active(w'.rs);
    FailCounts(p, w, w', error, []);
    forall x: nat ensures Live(w'', x) <==> Live(w', x) {}
  }
}
