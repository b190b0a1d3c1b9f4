/**
The dynamic side: module records as `tsc_module.c` keeps them, the history of
body starts and finishes, and the invariant that holds whenever no call is in
progress.
*/
module ModuleState {
  import opened Options
  import opened Sealing
  import opened ModuleRequests

  type Value = int

  datatype Status = Linked | Evaluating | Async | Evaluated

  /** A top-level capability. */
  datatype Promise = Pending | Fulfilled | Rejected(reason: Value)

  datatype Record = Record(
    status: Status, dfsIndex: nat, ancestorIndex: nat, pending: nat, asyncOrder: nat,
    asyncActive: bool, hasError: bool, inExecutionList: bool,
    cycleRoot: nat, asyncParents: seq<nat>, topLevel: Option<Promise>, error: Value)

  /** What an observer sees of module bodies: a body starts, a body completes without error. */
  datatype Event = Start(m: nat) | Finish(m: nat)

  /**
  A snapshot for the proofs. Beside the records and the agent's order counter it holds
  what the code leaves implicit: which modules have left the search stack with their
  component, through which parent an awaiting member of a component is waited for,
  which bodies have started and finished, and which have a callback still to come.
  */
  datatype World = World(
    rs: seq<Record>, clock: nat, popped: set<nat>, via: seq<nat>,
    started: set<nat>, finished: set<nat>, inFlight: set<nat>)

  // ------------------------------------------------------------------ history

  /** Everything below each request that leaves m's component. */
  ghost predicate Ready(p: seq<Definition>, m: nat, finished: set<nat>) {
    m < |p| &&
    forall r, x :: r in p[m].requests && !SameComponent(p, m, r) && Reaches(p, r, x) ==> x in finished
  }

  ghost function StartedIn(log: seq<Event>): set<nat> {
    set e | e in log && e.Start? :: e.m
  }

  ghost function FinishedIn(log: seq<Event>): set<nat> {
    set e | e in log && e.Finish? :: e.m
  }

  /** No body starts twice, none starts early, and only a started body finishes. */
  ghost predicate WellOrdered(p: seq<Definition>, log: seq<Event>) {
    forall k :: 0 <= k < |log| ==> Admissible(p, log[..k], log[k])
  }

  ghost predicate Admissible(p: seq<Definition>, log: seq<Event>, e: Event) {
    match e
    case Start(m) => m !in StartedIn(log) && Ready(p, m, FinishedIn(log))
    case Finish(m) => m in StartedIn(log) && m !in FinishedIn(log)
  }

  lemma ExtendLog(p: seq<Definition>, log: seq<Event>, e: Event)
    requires WellOrdered(p, log) && Admissible(p, log, e)
    ensures WellOrdered(p, log + [e])
    ensures e.Start? ==> StartedIn(log + [e]) == StartedIn(log) + {e.m} && FinishedIn(log + [e]) == FinishedIn(log)
    ensures e.Finish? ==> FinishedIn(log + [e]) == FinishedIn(log) + {e.m} && StartedIn(log + [e]) == StartedIn(log)
  {
    var longer := log + [e];
    forall k | 0 <= k < |longer|
      ensures Admissible(p, longer[..k], longer[k])
    {
      assert longer[..k] == if k < |log| then log[..k] else log;
    }
    assert forall f :: f in longer <==> f in log || f == e;
  }

  /** A history in order, with the sets that tell what is in it; sealed. */
  ghost predicate History(p: seq<Definition>, log: seq<Event>, started: set<nat>, finished: set<nat>) {
    forall b {:trigger Unfold(b)} :: Unfold(b) ==>
      WellOrdered(p, log) && started == StartedIn(log) && finished == FinishedIn(log)
  }

  lemma LogStart(p: seq<Definition>, log: seq<Event>, started: set<nat>, finished: set<nat>, m: nat)
    requires History(p, log, started, finished) && m !in started && Ready(p, m, finished)
    ensures History(p, log + [Start(m)], started + {m}, finished)
  {
    assert Unfold(true);
    ExtendLog(p, log, Start(m));
  }

  lemma LogFinish(p: seq<Definition>, log: seq<Event>, started: set<nat>, finished: set<nat>, m: nat)
    requires History(p, log, started, finished) && m in started && m !in finished
    ensures History(p, log + [Finish(m)], started, finished + {m})
  {
    assert Unfold(true);
    ExtendLog(p, log, Finish(m));
  }

  // ------------------------------------------------- counting registrations

  /** How often q stands in the parent lists of the modules in `held`. */
  ghost function Registrations(rs: seq<Record>, held: set<nat>, q: nat, upto: nat): nat
    requires upto <= |rs|
  {
    if upto == 0 then 0
    else Registrations(rs, held, q, upto - 1) +
         if upto - 1 in held then multiset(rs[upto - 1].asyncParents)[q] else 0
  }

  ghost function Active(rs: seq<Record>): set<nat> {
    set y | 0 <= y < |rs| && rs[y].asyncActive :: y
  }

  lemma {:induction false} RegistrationsSame(rs: seq<Record>, held: set<nat>, rs': seq<Record>, held': set<nat>, q: nat,
                                             upto: nat)
    requires upto <= |rs| == |rs'|
    requires forall y :: 0 <= y < upto ==>
      (y in held && q in rs[y].asyncParents <==> y in held' && q in rs'[y].asyncParents)
    requires forall y :: 0 <= y < upto && y in held && y in held' ==>
      multiset(rs[y].asyncParents)[q] == multiset(rs'[y].asyncParents)[q]
    ensures Registrations(rs, held, q, upto) == Registrations(rs', held', q, upto)
  {
    if upto > 0 {
      RegistrationsSame(rs, held, rs', held', q, upto - 1);
    }
  }

  lemma {:induction false} RegistrationsRelease(rs: seq<Record>, held: set<nat>, y: nat, q: nat, upto: nat)
    requires upto <= |rs| && y < |rs| && y in held
    ensures Registrations(rs, held, q, upto) ==
      Registrations(rs, held - {y}, q, upto) + if y < upto then multiset(rs[y].asyncParents)[q] else 0
  {
    if upto > 0 {
      RegistrationsRelease(rs, held, y, q, upto - 1);
    }
  }

  lemma {:induction false} RegistrationsAppend(rs: seq<Record>, rs': seq<Record>, held: set<nat>, t: nat, u: nat,
                                               q: nat, upto: nat)
    requires upto <= |rs| == |rs'| && t < |rs| && t in held
    requires rs'[t].asyncParents == rs[t].asyncParents + [u]
    requires forall y :: 0 <= y < |rs| && y != t ==> rs'[y].asyncParents == rs[y].asyncParents
    ensures Registrations(rs', held, q, upto) ==
      Registrations(rs, held, q, upto) + if t < upto && q == u then 1 else 0
  {
    if upto > 0 {
      RegistrationsAppend(rs, rs', held, t, u, q, upto - 1);
    }
  }

  lemma {:induction false} RegistrationsZero(rs: seq<Record>, held: set<nat>, q: nat, upto: nat)
    requires upto <= |rs|
    ensures Registrations(rs, held, q, upto) == 0 <==>
      (forall y :: 0 <= y < upto && y in held ==> q !in rs[y].asyncParents)
  {
    if upto > 0 {
      RegistrationsZero(rs, held, q, upto - 1);
    }
  }

  // ------------------------------------------------------------- invariants

  ghost predicate Shape(p: seq<Definition>, w: World) {
    && Closed(p)
    && |w.rs| == |p| == |w.via|
    && (forall m :: m in w.popped || m in w.started || m in w.inFlight ==> m < |p|)
    && (forall m :: 0 <= m < |p| ==> w.rs[m].cycleRoot < |p|)
  }

  /** What each status says about one record. */
  ghost predicate RecordOk(w: World, m: nat)
    requires m < |w.rs|
  {
    var r := w.rs[m];
    && (m in w.finished ==> m in w.started)
    && (m in w.inFlight ==> m in w.started && m !in w.finished)
    && (m in w.inFlight && m in w.popped ==> r.status == Async)
    && (m !in w.popped ==> r.cycleRoot == m)
    && (r.hasError ==> r.status == Evaluated)
    && (r.asyncActive ==> m !in w.finished && r.asyncOrder < w.clock)
    && match r.status
       case Linked => m !in w.popped && !r.asyncActive && r.asyncParents == [] && m !in w.started
       case Evaluating => m !in w.popped
       case Async => m in w.popped && r.asyncActive && (m in w.started ==> m in w.inFlight)
       case Evaluated =>
         !r.asyncActive && (m in w.popped || r.hasError) && (m in w.popped ==> (m in w.finished <==> !r.hasError))
  }

  ghost predicate Statuses(w: World) {
    forall m :: 0 <= m < |w.rs| ==> RecordOk(w, m)
  }

  /** Popped modules request only popped modules. */
  ghost predicate PoppedClosed(p: seq<Definition>, w: World) {
    forall m, r :: m in w.popped && m < |p| && r in p[m].requests ==> r in w.popped
  }

  /** Popped modules with one cycle root are exactly one strongly connected component. */
  ghost predicate Components(p: seq<Definition>, w: World)
    requires |w.rs| == |p|
  {
    && (forall m :: m in w.popped && m < |p| ==>
          var c := w.rs[m].cycleRoot; c in w.popped && c < |p| && w.rs[c].cycleRoot == c)
    && (forall m, x ::
          m in w.popped && m < |p| && x in w.popped && x < |p| && w.rs[m].cycleRoot == w.rs[x].cycleRoot ==>
            SameComponent(p, m, x))
    && (forall m, x: nat :: m in w.popped && m < |p| && x < |p| && SameComponent(p, m, x) ==>
          x in w.popped && w.rs[x].cycleRoot == w.rs[m].cycleRoot)
  }

  /** One registration: q waits for y. */
  ghost predicate RegistrationOk(w: World, y: nat, q: nat)
    requires y < |w.rs|
  {
    && q < |w.rs| && w.rs[q].status != Linked
    && (q in w.started ==> y in w.finished)
    && (w.rs[y].hasError ==> w.rs[q].hasError)
    && (w.rs[y].status == Evaluating ==> w.rs[q].status == Evaluating && w.rs[q].ancestorIndex <= w.rs[y].dfsIndex)
    && (w.rs[q].status == Evaluating ==>
          w.rs[y].asyncActive && (w.rs[y].status == Evaluating || (y in w.popped && w.rs[y].cycleRoot == y)))
    && (q in w.popped ==> y in w.popped && (w.rs[y].cycleRoot == w.rs[q].cycleRoot || w.rs[y].cycleRoot == y))
    && (q in w.popped || w.rs[q].asyncActive ==> w.rs[y].asyncOrder < w.rs[q].asyncOrder)
    && w.rs[y].asyncOrder < w.clock
  }

  ghost predicate RegistrationsOk(w: World) {
    forall y, q :: 0 <= y < |w.rs| && q in w.rs[y].asyncParents ==> RegistrationOk(w, y, q)
  }

  /** u need not wait for c, or is registered with it. */
  ghost predicate Served(w: World, u: nat, c: nat)
    requires c < |w.rs|
  {
    c in w.finished || u in w.rs[c].asyncParents
  }

  ghost predicate RequestsServed(p: seq<Definition>, w: World)
    requires Shape(p, w)
  {
    forall u, r ::
      u in w.popped && u < |p| && r in p[u].requests && r < |p| && w.rs[r].cycleRoot != w.rs[u].cycleRoot ==>
      Served(w, u, w.rs[r].cycleRoot)
  }

  /** A member of a component that is not its root is waited for by an earlier member. */
  ghost predicate MemberOk(w: World, y: nat)
    requires y < |w.rs| == |w.via|
  {
    y in w.finished ||
    var v := w.via[y];
    v in w.popped && v < |w.rs| && v in w.rs[y].asyncParents &&
    w.rs[v].cycleRoot == w.rs[y].cycleRoot && w.rs[v].dfsIndex < w.rs[y].dfsIndex
  }

  ghost predicate MembersOk(w: World)
    requires |w.via| == |w.rs|
  {
    forall y :: y in w.popped && y < |w.rs| && w.rs[y].cycleRoot != y ==> MemberOk(w, y)
  }

  /** Two worlds with the same components and registrations, the second with at least as much finished. */
  ghost predicate KeepsLinks(w: World, w': World) {
    && |w'.rs| == |w.rs| && w'.via == w.via && w'.popped == w.popped && w.finished <= w'.finished
    && forall y :: 0 <= y < |w.rs| ==>
         w'.rs[y].cycleRoot == w.rs[y].cycleRoot && w'.rs[y].asyncParents == w.rs[y].asyncParents
         && w'.rs[y].dfsIndex == w.rs[y].dfsIndex
  }

  lemma LinksKept(p: seq<Definition>, w: World, w': World)
    requires Shape(p, w) && Shape(p, w') && Components(p, w) && RequestsServed(p, w) && MembersOk(w)
             && KeepsLinks(w, w')
    ensures Components(p, w') && RequestsServed(p, w') && MembersOk(w')
  {
  }

  /** The modules whose outcome is still open: awaiting, in a component that has not failed. */
  ghost predicate Live(w: World, m: nat)
  {
    m < |w.rs| && w.rs[m].status == Async && w.rs[m].cycleRoot < |w.rs| && !w.rs[w.rs[m].cycleRoot].hasError
  }

  ghost predicate PendingCounts(w: World, held: set<nat>) {
    forall m: nat :: Live(w, m) ==> w.rs[m].pending == Registrations(w.rs, held, m, |w.rs|)
  }

  ghost predicate ZeroMeansRunning(w: World, except: set<nat>) {
    forall m: nat :: Live(w, m) && w.rs[m].pending == 0 ==> m in w.started || m in except
  }

  /** A capability exists only on a cycle root and tells exactly how that root ended. */
  ghost predicate CapabilityOk(r: Record) {
    r.topLevel.Some? ==>
      && (r.status == Evaluated && !r.hasError ==> r.topLevel.value == Fulfilled)
      && (r.status == Evaluated && r.hasError ==> r.topLevel.value == Rejected(r.error))
      && (r.status != Evaluated ==> r.topLevel.value == Pending)
  }

  ghost predicate Capabilities(w: World) {
    forall m :: 0 <= m < |w.rs| ==>
      && CapabilityOk(w.rs[m])
      && (w.rs[m].topLevel.Some? ==> w.rs[m].cycleRoot == m && w.rs[m].status != Linked)
  }

  ghost predicate Quiet(w: World) {
    forall m :: 0 <= m < |w.rs| ==> w.rs[m].status != Evaluating && !w.rs[m].inExecutionList
  }

  /** Holds after construction and after every call. */
  ghost predicate Stable(p: seq<Definition>, w: World) {
    && Shape(p, w) && Statuses(w) && PoppedClosed(p, w) && Components(p, w)
    && RegistrationsOk(w) && RequestsServed(p, w) && MembersOk(w)
    && PendingCounts(w, Active(w.rs)) && ZeroMeansRunning(w, {})
    && Capabilities(w) && Quiet(w)
  }

  // ------------------------------------------------------------ consequences

  /** A component's root finishes last: once it has, every member has. */
  lemma {:induction false} MemberBeforeRoot(p: seq<Definition>, w: World, y: nat)
    requires Shape(p, w) && Statuses(w) && RegistrationsOk(w) && MembersOk(w)
    requires y in w.popped && w.rs[y].cycleRoot in w.finished
    ensures y in w.finished
    decreases w.rs[y].dfsIndex
  {
    if w.rs[y].cycleRoot != y && y !in w.finished {
      var v := w.via[y];
      assert MemberOk(w, y);
      assert RecordOk(w, v);
      assert RegistrationOk(w, y, v);
      MemberBeforeRoot(p, w, v);
    }
  }

  /** Once a component's root has finished, everything reachable from it has finished. */
  lemma BelowFinishedRoot(p: seq<Definition>, w: World, c: nat, x: nat)
    requires Shape(p, w) && Statuses(w) && PoppedClosed(p, w) && Components(p, w)
    requires RegistrationsOk(w) && RequestsServed(p, w) && MembersOk(w)
    requires c in w.popped && w.rs[c].cycleRoot in w.finished && Reaches(p, c, x)
    ensures x in w.finished
  {
    var done := set y | y in w.popped && w.rs[y].cycleRoot in w.finished;
    forall m, r | m in done && m < |p| && r in p[m].requests
      ensures r in done
    {
      assert r in w.popped;
      if w.rs[r].cycleRoot != w.rs[m].cycleRoot {
        var d := w.rs[r].cycleRoot;
        assert Served(w, m, d);
        if d !in w.finished {
          assert RecordOk(w, m);
          assert RegistrationOk(w, d, m);
          MemberBeforeRoot(p, w, m);
        }
      }
    }
    ReachStaysInside(p, done, c, x);
    MemberBeforeRoot(p, w, x);
  }

  /**
  No deadlock. While some awaiting module's component has not failed, some body is
  running that nothing holds back: waiting always leads to a smaller order.
  */
  lemma {:induction false} SomeBodyRuns(p: seq<Definition>, w: World, m: nat) returns (f: nat)
    requires Stable(p, w) && Live(w, m)
    ensures Live(w, f) && w.rs[f].pending == 0 && f in w.inFlight
    ensures w.rs[f].asyncOrder <= w.rs[m].asyncOrder
    decreases w.rs[m].asyncOrder
  {
    if w.rs[m].pending == 0 {
      f := m;
      assert RecordOk(w, m);
    } else {
      RegistrationsZero(w.rs, Active(w.rs), m, |w.rs|);
      var y :| 0 <= y < |w.rs| && y in Active(w.rs) && m in w.rs[y].asyncParents;
      assert RegistrationOk(w, y, m) && RecordOk(w, y) && RecordOk(w, m);
      f := SomeBodyRuns(p, w, y);
    }
  }

  /** When no callback is left to come, every capability handed out is settled. */
  lemma AllSettledWhenIdle(p: seq<Definition>, w: World, m: nat)
    requires Stable(p, w) && w.inFlight == {}
    requires m < |p| && w.rs[m].topLevel.Some?
    ensures w.rs[m].topLevel.value != Pending
  {
    assert RecordOk(w, m) && CapabilityOk(w.rs[m]);
    if w.rs[m].topLevel.value == Pending {
      var f := SomeBodyRuns(p, w, m);
      assert false;
    }
  }
}
