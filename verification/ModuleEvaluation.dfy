/**
Module evaluation as `tsc_module.c` performs it: an iterative depth-first walk with two
explicit worklists, and the callbacks that continue asynchronous bodies.
*/
module ModuleEvaluation {
  import opened Options
  import opened Sealing
  import opened ModuleRequests
  import opened ModuleState
  import opened ModuleWalk
  import opened ModuleWalkSteps
  import opened ModuleWalkWaits
  import opened ModuleWalkFinish
  import opened ModuleWalkClose
  import opened ModuleWalkSealed
  import opened ModuleAsync
  import opened ModuleAsyncRun
  import opened ModuleAsyncSealed
  import opened ModuleBodies
  import opened ModuleErrors

  function FreshRecord(m: nat): (r: Record) {
    Record(Linked, 0, 0, 0, 0, false, false, false, m, [], None, 0)
  }

  ghost function LinkedSet(rs: seq<Record>): set<nat> {
    set m | 0 <= m < |rs| && rs[m].status == Linked
  }

  /** Requests that the frames still have to make, and one unit for leaving each frame. */
  ghost function Work(p: seq<Definition>, frames: seq<Frame>): nat {
    if frames == [] then 0
    else
      var f := frames[|frames| - 1];
      Work(p, frames[..|frames| - 1]) +
      if f.m < |p| && f.next <= |p[f.m].requests| then |p[f.m].requests| - f.next + 1 else 1
  }

  /** Modules that no frame stands for yet. */
  ghost function Unvisited(rs: seq<Record>, frames: seq<Frame>): int {
    |LinkedSet(rs)| - if frames != [] && !frames[|frames| - 1].entered then 1 else 0
  }

  class ModuleGraph {
    const defs: seq<Definition>
    var records: seq<Record>
    /** The agent's counter of asynchronous evaluations. */
    var clock: nat
    ghost var popped: set<nat>
    ghost var via: seq<nat>
    /** The modules whose execution promise still has its callback to come. */
    var inFlight: set<nat>
    ghost var started: set<nat>
    ghost var finished: set<nat>
    /** Every start and every finish of a body, in order. */
    ghost var log: seq<Event>
    /** The bodies that have thrown or whose promise was rejected. */
    ghost var faults: set<Fault>

    /** What has become of the bodies. */
    ghost function Bodies(): (t: Tally)
      reads this
    {
      Tally(started, finished, inFlight, faults)
    }

    ghost function Snapshot(): World
      reads this
    {
      World(records, clock, popped, via, started, finished, inFlight)
    }

    /** The history is in order, and the sets tell what is in it. */
    ghost predicate Recorded()
      reads this
    {
      History(defs, log, started, finished)
    }

    ghost predicate Valid()
      reads this
    {
      && Resting(defs, Snapshot()) && Recorded() && |records| == |defs| && Sourced(defs, records, faults)
      && Fates(Bodies())
    }

    constructor (definitions: seq<Definition>)
      requires Closed(definitions)
      ensures Valid() && defs == definitions && log == [] && Bodies() == Tally({}, {}, {}, {})
      ensures clock == 0 && |records| == |defs|
      ensures forall m :: 0 <= m < |defs| ==>
        records[m] == Record(Linked, 0, 0, 0, 0, false, false, false, m, [], None, 0)
    {
      defs := definitions;
      records := seq(|definitions|, m requires 0 <= m => FreshRecord(m));
      clock := 0;
      popped, started, finished, inFlight, log, faults := {}, {}, {}, {}, [], {};
      via := seq(|definitions|, m requires 0 <= m => m);
      new;
      StartFates();
      forall m: nat | Live(Snapshot(), m) ensures false {}
    }

    ghost method ObserveStart(m: nat)
      requires Recorded() && m !in started && Ready(defs, m, finished)
      modifies this`log, this`started
      ensures Recorded() && log == old(log) + [Start(m)] && started == old(started) + {m}
    {
      LogStart(defs, log, started, finished, m);
      log, started := log + [Start(m)], started + {m};
    }

    ghost method ObserveFinish(m: nat)
      requires Recorded() && m in started && m !in finished
      modifies this`log, this`finished
      ensures Recorded() && log == old(log) + [Finish(m)] && finished == old(finished) + {m}
    {
      LogFinish(defs, log, started, finished, m);
      log, finished := log + [Finish(m)], finished + {m};
    }

    // ------------------------------------------------------- steps of the walk

    method Enter(ghost k: Walk, u: nat, index: nat)
      requires |k.frames| > 0 && u == Top(k).m < |records| && index == k.index
      modifies this`records
      ensures Snapshot() == old(EnteredWorld(Snapshot(), k)) && SameTrace(old(records), records)
    {
      records := records[u := records[u].(status := Evaluating, dfsIndex := index, ancestorIndex := index,
                                          pending := 0)];
    }

    /** How low u can go through its request r; the module to wait for. */
    method Lower(u: nat, r: nat) returns (required: nat)
      requires u < |records| && r < |records|
      modifies this`records
      ensures required == old(Target(Snapshot(), r)) && Snapshot() == old(LoweredWorld(Snapshot(), u, r))
    {
      required := r;
      if records[r].status == Evaluating {
        if records[r].ancestorIndex < records[u].ancestorIndex {
          records := records[u := records[u].(ancestorIndex := records[r].ancestorIndex)];
        }
      } else {
        required := records[r].cycleRoot;
      }
    }

    /** u waits for the module that its request r stands for, if that is still awaited. */
    method Register(u: nat, r: nat, required: nat)
      requires u < |records| == |via| && r < |records| && records[r].cycleRoot < |records| && !records[u].asyncActive
      requires required == Target(Snapshot(), r)
      modifies this`records, this`via
      ensures Snapshot() == old(RegisteredWorld(Snapshot(), u, r))
    {
      if records[required].asyncActive {
        if records[r].status == Evaluating && records[u].dfsIndex < records[r].dfsIndex {
          via := via[r := u];
        }
        records := records[u := records[u].(pending := records[u].pending + 1)];
        records := records[required := records[required].(asyncParents := records[required].asyncParents + [u])];
      }
    }

    /** What u learns from its request r that just returned; an error of the required module is its own. */
    method LookBack(u: nat, r: nat) returns (thrown: Option<Value>)
      requires u < |records| == |via| && r < |records| && records[r].cycleRoot < |records| && !records[u].asyncActive
      modifies this`records, this`via
      ensures thrown == old(var t := Target(Snapshot(), r);
                            if records[t].hasError then Some(records[t].error) else None)
      ensures Snapshot() == old(LookedWorld(Snapshot(), u, r))
    {
      var required := Lower(u, r);
      if records[required].hasError {
        return Some(records[required].error);
      }
      Register(u, r, required);
      thrown := None;
    }

    /** The body of u runs until it completes, throws or awaits; an error at once is handed to the caller. */
    method StartBody(u: nat, body: Outcome) returns (thrown: Option<Value>)
      requires u < |defs| && Recorded() && u !in started && u !in finished && Ready(defs, u, finished)
      modifies this`log, this`started, this`finished, this`inFlight, this`faults
      ensures Recorded() && log == old(log) + Lines(u, defs[u].hasTla, body)
      ensures Bodies() == Begun(old(Bodies()), u, defs[u].hasTla, body)
      ensures thrown == StartError(defs[u].hasTla, body)
    {
      ObserveStart(u);
      thrown := StartError(defs[u].hasTla, body);
      faults := faults + FaultOf(u, thrown);
      if thrown == None {
        if defs[u].hasTla { inFlight := inFlight + {u}; } else { ObserveFinish(u); }
      }
    }

    /** The promise of m's body has been settled. */
    method HearSettlement(m: nat, rejection: Option<Value>)
      requires m in inFlight && Recorded() && Fates(Bodies())
      modifies this`log, this`finished, this`inFlight, this`faults
      ensures Recorded() && Fates(Bodies()) && Bodies() == Heard(old(Bodies()), m, rejection)
      ensures log == old(log) + if rejection == None then [Finish(m)] else []
    {
      HeardFates(Bodies(), m, rejection);
      inFlight := inFlight - {m};
      if rejection == None { ObserveFinish(m); }
      faults := faults + FaultOf(m, rejection);
    }

    /** u goes on asynchronously; its body starts here when nothing is pending. */
    method GoAsync(u: nat, body: Outcome) returns (thrown: Option<Value>)
      requires u < |records| == |defs| && Recorded()
      requires records[u].pending == 0 ==>
        defs[u].hasTla && u !in started && u !in finished && Ready(defs, u, finished)
      modifies this`records, this`clock, this`inFlight, this`log, this`started, this`finished, this`faults
      ensures Recorded() && old(log) <= log && SameTrace(old(records), records)
      ensures Bodies() ==
        if old(records[u].pending) == 0 then Begun(old(Bodies()), u, defs[u].hasTla, body) else old(Bodies())
      ensures thrown == if old(records[u].pending) == 0 then StartError(defs[u].hasTla, body) else None
      ensures Snapshot() ==
        if thrown.Some? then old(ThrewWorld(Snapshot(), u, true)) else old(AwaitingWorld(Snapshot(), u))
    {
      records := records[u := records[u].(asyncActive := true, asyncOrder := clock)];
      clock := clock + 1;
      thrown := None;
      if records[u].pending == 0 { thrown := StartBody(u, body); }
    }

    /** The body of u runs here, to completion or to an error. */
    method RunBody(u: nat, body: Outcome) returns (thrown: Option<Value>)
      requires u < |records| == |defs| && Recorded() && !defs[u].hasTla
      requires u !in started && u !in finished && Ready(defs, u, finished)
      modifies this`log, this`started, this`finished, this`inFlight, this`faults
      ensures Recorded() && old(log) <= log && Bodies() == Begun(old(Bodies()), u, defs[u].hasTla, body)
      ensures thrown == StartError(defs[u].hasTla, body)
      ensures Snapshot() == if thrown.Some? then old(ThrewWorld(Snapshot(), u, false)) else old(RanWorld(Snapshot(), u))
    {
      thrown := StartBody(u, body);
    }

    /** Pops the stack down to u, whose component is now complete. */
    method CloseComponent(u: nat, stack: seq<nat>, ghost pos: nat) returns (rest: seq<nat>)
      requires Stacked(stack, |records|) && pos < |stack| && stack[pos] == u
      modifies this`records, this`popped
      ensures PoppedTo(old(records), records, stack, pos, u) && rest == stack[..pos]
      ensures popped == old(popped + MemberSet(Snapshot(), u)) && SameTrace(old(records), records)
    {
      popped := popped + MemberSet(Snapshot(), u);
      rest := stack;
      var member := u;
      while true
        invariant pos < |rest| <= |stack| && rest == stack[..|rest|]
        invariant SameTrace(old(records), records)
        invariant PoppedTo(old(records), records, stack, |rest|, u) && popped == old(popped + MemberSet(Snapshot(), u))
        decreases |rest|
      {
        member := rest[|rest| - 1];
        rest := rest[..|rest| - 1];
        ghost var before := records;
        records := records[member := records[member].(
          status := if records[member].asyncActive then Async else Evaluated, cycleRoot := u)];
        PopOne(old(records), before, records, stack, |rest|, u);
        if member == u { break; }
      }
    }

    /** Every module on the stack fails, then the root (which is on it) once more. */
    method Abort(ghost k: Walk, root: nat, stack: seq<nat>, error: Value)
      requires |records| == |defs| && StackOk(defs, Snapshot(), k) && stack == k.stack
      requires root < |records| && records[root].status == Evaluating
      modifies this`records
      ensures Aborts(old(Snapshot()), Snapshot(), error)
    {
      ghost var w := Snapshot();
      for item := 0 to |stack|
        invariant FailedTo(w.rs, records, stack, item, error)
      {
        ghost var before := records;
        records := records[stack[item] := FailedRecord(records[stack[item]], error)];
        FailOne(defs, w, k, before, records, item, error);
      }
      FailedAll(defs, w, k, records, error);
      records := records[root := FailedRecord(records[root], error)];
    }

    /** Enters the innermost frame unless it has been entered. */
    method EnterTop(frames: seq<Frame>, stack: seq<nat>, index: nat, ghost root: nat)
      returns (frames': seq<Frame>, stack': seq<nat>, index': nat)
      requires |frames| > 0 && Walking(defs, Snapshot(), Walk(frames, stack, index), root)
      modifies this`records
      ensures Walking(defs, Snapshot(), Walk(frames', stack', index'), root)
      ensures frames' == frames[|frames| - 1 := frames[|frames| - 1].(entered := true)]
      ensures Unvisited(records, frames') == old(Unvisited(records, frames)) && SameTrace(old(records), records)
      ensures if frames[|frames| - 1].entered then stack' == stack && index' == index
              else stack' == stack + [frames[|frames| - 1].m] && index' == index + 1
    {
      ghost var k := Walk(frames, stack, index);
      frames', stack', index' := frames, stack, index;
      var n := |frames| - 1;
      EnterStep(defs, Snapshot(), k, root);
      if !frames[n].entered {
        Enter(k, frames[n].m, index);
        index' := index + 1;
        frames' := frames[n := frames[n].(entered := true)];
        stack' := stack + [frames[n].m];
        assert Walk(frames', stack', index') == EnteredWalk(k);
        EnteredUnvisited(old(records), records, frames[n].m);
      } else {
        assert frames' == frames[n := frames[n].(entered := true)];
      }
    }

    /** Looks back at the request of the innermost frame, if it has made one. */
    method LookBackTop(frames: seq<Frame>, stack: seq<nat>, index: nat, ghost root: nat)
      returns (frames': seq<Frame>, thrown: Option<Value>)
      requires |frames| > 0 && frames[|frames| - 1].entered
               && Walking(defs, Snapshot(), Walk(frames, stack, index), root) && Sourced(defs, records, faults)
      modifies this`records, this`via
      ensures frames' == frames[|frames| - 1 := frames[|frames| - 1].(waiting := false)]
      ensures thrown.None? ==> Walking(defs, Snapshot(), Walk(frames', stack, index), root)
      ensures thrown.Some? ==> Failing(defs, Snapshot(), Walk(frames', stack, index), root)
      ensures LinkedSet(records) == old(LinkedSet(records)) && Sourced(defs, records, faults)
      ensures thrown.Some? ==> OpenBlame(defs, records, faults, thrown.value)
    {
      ghost var w, k := Snapshot(), Walk(frames, stack, index);
      var n := |frames| - 1;
      thrown := None;
      frames' := frames[n := frames[n].(waiting := false)];
      LookBackFacts(defs, w, k, root);
      if frames[n].waiting {
        LookBackStep(defs, w, k, root);
        var u := frames[n].m;
        OpenAbove(defs, w, k, root);
        TargetBelow(defs, w, k, root);
        LookedTraced(defs, w, u, Requested(defs, k), faults);
        thrown := LookBack(u, defs[u].requests[frames[n].next - 1]);
        assert Walk(frames', stack, index) == ForwardWalk(k);
        LookedStatuses(w, u, Requested(defs, k));
        SameLinked(w.rs, records);
        if thrown.Some? { TopBlames(defs, records, faults, u, thrown.value); }
      } else {
        assert frames' == frames;
      }
    }

    /** The innermost frame makes its next request; a linked module gets a frame of its own. */
    method RequestNext(frames: seq<Frame>, stack: seq<nat>, index: nat, ghost root: nat) returns (frames': seq<Frame>)
      requires |frames| > 0 && frames[|frames| - 1].entered && !frames[|frames| - 1].waiting
      requires Walking(defs, Snapshot(), Walk(frames, stack, index), root)
      requires frames[|frames| - 1].m < |defs| && frames[|frames| - 1].next < |defs[frames[|frames| - 1].m].requests|
      ensures Walking(defs, Snapshot(), Walk(frames', stack, index), root)
      ensures (var n := |frames| - 1; var r := defs[frames[n].m].requests[frames[n].next];
               var asked := frames[n := frames[n].(next := frames[n].next + 1, waiting := true)];
               && r < |records|
               && frames' == if records[r].status == Linked then asked + [Frame(r, 0, false, false)] else asked)
      ensures Unvisited(records, frames') < Unvisited(records, frames) ||
        (Unvisited(records, frames') == Unvisited(records, frames) && Work(defs, frames') < Work(defs, frames))
    {
      NextStep(defs, Snapshot(), Walk(frames, stack, index), root);
      var n := |frames| - 1;
      var r := defs[frames[n].m].requests[frames[n].next];
      frames' := frames[n := frames[n].(next := frames[n].next + 1, waiting := true)];
      if records[r].status == Linked {
        frames' := frames' + [Frame(r, 0, false, false)];
      }
      ghost var k' := NextWalk(defs, Snapshot(), Walk(frames, stack, index));
      assert k' == Walk(frames', stack, index);
      NextWork(defs, Snapshot(), Walk(frames, stack, index));
    }

    /** The innermost call has no request left: its body runs here, or it goes on asynchronously. */
    method Leave(ghost k: Walk, ghost root: nat, u: nat, body: Outcome) returns (thrown: Option<Value>)
      requires Walking(defs, Snapshot(), k, root) && Exhausted(defs, k) && u == Top(k).m && Recorded()
      modifies this
      ensures Recorded() && old(log) <= log && SameShape(old(Snapshot()), Snapshot())
      ensures SameTrace(old(records), records) && u < |old(records)| == |defs| && u !in old(started)
      ensures Bodies() ==
        if old(records[u].pending) == 0 then Begun(old(Bodies()), u, defs[u].hasTla, body) else old(Bodies())
      ensures thrown == if old(records[u].pending) == 0 then StartError(defs[u].hasTla, body) else None
      ensures thrown.None? ==> Done(defs, Snapshot(), k, root)
      ensures thrown.Some? ==> Failing(defs, Snapshot(), k, root)
    {
      ghost var w := Snapshot();
      LeaveFacts(defs, w, k, root);
      var async := records[u].pending > 0 || defs[u].hasTla;
      if async {
        thrown := GoAsync(u, body);
      } else {
        thrown := RunBody(u, body);
      }
      LeaveStep(defs, w, Snapshot(), k, root, thrown.Some?, async);
    }

    /** The innermost frame is exhausted: its body runs or waits, and its component closes if it heads one. */
    method FinishTop(frames: seq<Frame>, stack: seq<nat>, index: nat, ghost root: nat, body: Outcome)
      returns (frames': seq<Frame>, stack': seq<nat>, thrown: Option<Value>)
      requires Exhausted(defs, Walk(frames, stack, index))
               && Walking(defs, Snapshot(), Walk(frames, stack, index), root) && Recorded()
               && Sourced(defs, records, faults)
      modifies this
      ensures Recorded() && old(log) <= log && Sourced(defs, records, faults)
      ensures (var u := frames[|frames| - 1].m; var starts := u < |old(records)| && old(records[u].pending) == 0;
               && u < |old(records)| == |defs| && Reaches(defs, root, u) && u !in old(started)
               && Bodies() == (if starts then Begun(old(Bodies()), u, defs[u].hasTla, body) else old(Bodies()))
               && thrown == if starts then StartError(defs[u].hasTla, body) else None)
      ensures thrown.Some? ==> OpenBlame(defs, records, faults, thrown.value)
      ensures thrown.None? ==>
        Walking(defs, Snapshot(), Walk(frames', stack', index), root) && frames' == frames[..|frames| - 1]
      ensures thrown.None? ==>
        Unvisited(records, frames') == old(Unvisited(records, frames)) && Work(defs, frames') < Work(defs, frames)
      ensures thrown.Some? ==> Failing(defs, Snapshot(), Walk(frames', stack', index), root)
    {
      ghost var k := Walk(frames, stack, index);
      var n := |frames| - 1;
      var u := frames[n].m;
      LeaveFacts(defs, Snapshot(), k, root);
      OpenAbove(defs, Snapshot(), k, root);
      frames', stack' := frames, stack;
      thrown := Leave(k, root, u, body);
      Accused(defs, old(records), records, old(faults), faults, u, thrown);
      if thrown == None {
        ghost var w := Snapshot();
        DoneFacts(defs, w, k, root);
        if records[u].ancestorIndex == records[u].dfsIndex {
          ghost var pos :| 0 <= pos < |stack| && stack[pos] == u;
          stack' := CloseComponent(u, stack, pos);
          TraceKept(defs, w.rs, records, faults);
          CloseStep(defs, w, Snapshot(), k, pos, root);
        } else {
          StayStep(defs, w, k, root);
        }
        frames' := frames[..n];
        SameLinked(w.rs, records);
        SameLinked(old(records), w.rs);
      }
    }

    /** The innermost frame is entered, if it is new, and looks back at its last request. */
    method Prepare(frames: seq<Frame>, stack: seq<nat>, index: nat, ghost root: nat)
      returns (frames': seq<Frame>, stack': seq<nat>, index': nat, thrown: Option<Value>)
      requires |frames| > 0 && Sourced(defs, records, faults)
               && Walking(defs, Snapshot(), Walk(frames, stack, index), root)
      modifies this`records, this`via
      ensures Sourced(defs, records, faults)
      ensures frames' == frames[|frames| - 1 := frames[|frames| - 1].(entered := true, waiting := false)]
      ensures thrown.None? ==> Walking(defs, Snapshot(), Walk(frames', stack', index'), root)
      ensures Unvisited(records, frames') == old(Unvisited(records, frames))
              && Work(defs, frames') == Work(defs, frames)
      ensures thrown.Some? ==> Failing(defs, Snapshot(), Walk(frames', stack', index'), root)
      ensures thrown.Some? ==> OpenBlame(defs, records, faults, thrown.value)
    {
      frames', stack', index' := EnterTop(frames, stack, index, root);
      TraceKept(defs, old(records), records, faults);
      frames', thrown := LookBackTop(frames', stack', index', root);
      SameWork(defs, frames, frames');
    }

    /** One round of the walk: the innermost frame makes its next request or is finished. */
    method SearchOne(frames: seq<Frame>, stack: seq<nat>, index: nat, ghost root: nat, bodies: seq<Outcome>)
      returns (frames': seq<Frame>, stack': seq<nat>, thrown: Option<Value>)
      requires |frames| > 0 && frames[|frames| - 1].entered && !frames[|frames| - 1].waiting && |bodies| == |defs|
      requires Recorded() && Sourced(defs, records, faults)
               && Walking(defs, Snapshot(), Walk(frames, stack, index), root) && Fates(Bodies())
      modifies this
      ensures Recorded() && old(log) <= log && Sourced(defs, records, faults) && Fates(Bodies())
      ensures StartsBelow(defs, root, old(started), started) && Proceeds(defs, bodies, old(Bodies()), Bodies())
      ensures thrown.None? ==> Walking(defs, Snapshot(), Walk(frames', stack', index), root)
      ensures thrown.None? ==>
        || Unvisited(records, frames') < old(Unvisited(records, frames))
        || (Unvisited(records, frames') == old(Unvisited(records, frames)) && Work(defs, frames') < Work(defs, frames))
      ensures thrown.Some? ==> Failing(defs, Snapshot(), Walk(frames', stack', index), root)
      ensures thrown.Some? ==> OpenBlame(defs, records, faults, thrown.value)
    {
      var f := frames[|frames| - 1];
      TopFacts(defs, Snapshot(), Walk(frames, stack, index), root);
      NothingHappens(defs, bodies, Bodies());
      if f.next < |defs[f.m].requests| {
        stack', thrown := stack, None;
        frames' := RequestNext(frames, stack, index, root);
      } else {
        frames', stack', thrown := FinishTop(frames, stack, index, root, bodies[f.m]);
        BegunProceeds(defs, bodies, old(Bodies()), f.m);
        ProceedsFates(defs, bodies, old(Bodies()), Bodies());
      }
    }

    /** The walk from a linked root: two worklists, no recursion. */
    method Search(root: nat, bodies: seq<Outcome>)
      requires root < |defs| == |bodies| && Recorded() && Sourced(defs, records, faults)
      requires Walking(defs, Snapshot(), Walk([Frame(root, 0, false, false)], [], 0), root) && Fates(Bodies())
      modifies this
      ensures Valid() && old(log) <= log
      ensures |records| == |defs| && records[root].topLevel.Some?
      ensures StartsBelow(defs, root, old(started), started) && Proceeds(defs, bodies, old(Bodies()), Bodies())
    {
      NothingHappens(defs, bodies, Bodies());
      var frames, stack, index := [Frame(root, 0, false, false)], [], 0;
      var thrown: Option<Value> := None;
      while |frames| > 0
        invariant Walking(defs, Snapshot(), Walk(frames, stack, index), root)
        invariant Recorded() && old(log) <= log && thrown == None && Sourced(defs, records, faults)
        invariant StartsBelow(defs, root, old(started), started) && Fates(Bodies())
        invariant Proceeds(defs, bodies, old(Bodies()), Bodies())
        decreases Unvisited(records, frames), Work(defs, frames)
      {
        frames, stack, index, thrown := Prepare(frames, stack, index, root);
        if thrown.Some? { break; }
        ghost var t := Bodies();
        frames, stack, thrown := SearchOne(frames, stack, index, root, bodies);
        ProceedsFurther(defs, bodies, old(Bodies()), t, Bodies());
        if thrown.Some? { break; }
      }
      if thrown.Some? {
        Abandon(frames, stack, index, root, thrown.value);
      } else {
        SettleRoot(frames, stack, index, root);
      }
    }

    /** The walk has failed: every open module gets the error, and the root's capability is rejected. */
    method Abandon(ghost frames: seq<Frame>, stack: seq<nat>, ghost index: nat, root: nat, error: Value)
      requires Failing(defs, Snapshot(), Walk(frames, stack, index), root) && root < |defs| && Recorded()
      requires Sourced(defs, records, faults) && OpenBlame(defs, records, faults, error) && Fates(Bodies())
      modifies this`records
      ensures Valid() && records[root].topLevel.Some?
    {
      ghost var w, k := Snapshot(), Walk(frames, stack, index);
      FailingFacts(defs, w, k, root);
      Abort(k, root, stack, error);
      AbortStep(defs, w, Snapshot(), k, error, root);
      AbortTraced(defs, w, Snapshot(), faults, error);
    }

    /** The walk is complete: the root's capability is fulfilled unless the root goes on asynchronously. */
    method SettleRoot(ghost frames: seq<Frame>, ghost stack: seq<nat>, ghost index: nat, root: nat)
      requires frames == [] && Walking(defs, Snapshot(), Walk(frames, stack, index), root) && root < |defs|
               && Recorded()
      requires Sourced(defs, records, faults) && Fates(Bodies())
      modifies this`records
      ensures Valid() && records[root].topLevel.Some?
    {
      ghost var w := Snapshot();
      EndStep(defs, w, Walk(frames, stack, index), root);
      if !records[root].asyncActive {
        records := records[root := records[root].(topLevel := Settle(records[root].topLevel, Fulfilled))];
      }
      assert Snapshot() == EndedWorld(w, root);
      TraceKept(defs, w.rs, records, faults);
    }

    /** The entry point: the capability of the module's cycle root, after a walk if the module is still linked. */
    method Evaluate(index: nat, bodies: seq<Outcome>) returns (owner: Option<nat>)
      requires Valid() && |bodies| == |defs|
      modifies this
      ensures Valid() && old(log) <= log
      ensures StartsBelow(defs, index, old(started), started) && Proceeds(defs, bodies, old(Bodies()), Bodies())
      ensures index >= |defs| ==> owner == None && log == old(log) && records == old(records)
      ensures index < |defs| ==>
        owner.Some? && owner.value < |defs| && records[index].cycleRoot == owner.value
        && records[owner.value].topLevel.Some?
    {
      NothingHappens(defs, bodies, Bodies());
      if index >= |defs| { return None; }
      RestFacts(defs, Snapshot(), index);
      var root := index;
      if records[root].status == Async || records[root].status == Evaluated {
        root := records[root].cycleRoot;
      }
      owner := Some(root);
      if records[root].topLevel.Some? { return; }
      RestFacts(defs, Snapshot(), root);
      if records[root].status == Async || records[root].status == Evaluated {
        Grant(root);
        return;
      }
      ghost var w := Snapshot();
      records := records[root := records[root].(topLevel := Some(Pending))];
      WalkStart(defs, w, root);
      assert Snapshot() == WantedWorld(w, root);
      TraceKept(defs, w.rs, records, faults);
      Search(root, bodies);
      CapabilityOwner(defs, Snapshot(), root);
    }

    /** A module that has been walked gets a capability, settled at once if the module is evaluated. */
    method Grant(root: nat)
      requires Valid() && root < |defs| && records[root].topLevel.None? && records[root].cycleRoot == root
      requires records[root].status == Async || records[root].status == Evaluated
      modifies this`records
      ensures Valid()
              && records == old(records)[root := old(records[root]).(topLevel := Some(LateOutcome(old(records[root]))))]
    {
      ghost var w := Snapshot();
      GrantStep(defs, w, root);
      records := records[root := records[root].(topLevel := Some(Pending))];
      if records[root].status == Evaluated {
        records := records[root := records[root].(topLevel :=
          Settle(records[root].topLevel, if records[root].hasError then Rejected(records[root].error) else Fulfilled))];
      }
      assert Snapshot() == GrantedWorld(w, root);
      TraceKept(defs, w.rs, records, faults);
    }

    /** Spreads an error over everything that waits for m, with an explicit worklist. */
    method ExecutionRejected(m: nat, error: Value, ghost w: World)
      requires Spreading(defs, w) && w.rs == records && m < |records|
      requires records[m].status == Async || records[m].hasError
      modifies this`records
      ensures Fails(w, w.(rs := records), error) && records[m].hasError
              && FailsOnly(old(records), records, m, error) && WaitersFail(records)
    {
      SpreadStart(defs, w, m, error);
      var work := [m];
      while |work| > 0
        invariant SpreadTo(w, records, work, error, m)
        invariant records[m].hasError || m in work
        decreases |AsyncSet(records)|, |work|
      {
        var current := work[|work| - 1];
        if records[current].status == Evaluated {
          SpreadSkip(w, records, work, error, m);
          FailedStays(w, records, work, error, m);
          work := work[..|work| - 1];
        } else {
          SpreadFail(defs, w, records, work, error, m);
          ghost var before := AsyncSet(records);
          work := work[..|work| - 1];
          records := records[current := FailedRecord(records[current], error)];
          work := work + records[current].asyncParents;
          assert AsyncSet(records) == before - {current};
        }
      }
      SpreadEnd(w, records, error, m);
    }

    /** One parent of a released module: passed over, counted down, or listed for execution. */
    method CountParent(q: nat, available: seq<nat>, work: seq<nat>) returns (available': seq<nat>, work': seq<nat>)
      requires q < |records| == |defs| && records[q].cycleRoot < |records|
               && (!Skipped(Snapshot(), q) ==> records[q].pending > 0)
      modifies this`records
      ensures SameTrace(old(records), records) && SameOrders(old(records), records)
      ensures Counts(defs, old(Snapshot()), Snapshot(), available, available', work, work', q)
    {
      available', work' := available, work;
      if records[q].inExecutionList || records[records[q].cycleRoot].hasError || records[q].status == Evaluated {
        return;
      }
      records := records[q := records[q].(pending := records[q].pending - 1)];
      if records[q].pending > 0 { return; }
      records := records[q := records[q].(inExecutionList := true)];
      available' := available + [q];
      if !defs[q].hasTla { work' := work + [q]; }
    }

    /** Collects every module that nothing holds back once m is done, looking through modules that need no await. */
    method Gather(m: nat) returns (available: seq<nat>)
      requires m < |records| && Gathering(defs, Snapshot(), [], multiset(records[m].asyncParents))
      modifies this`records
      ensures Gathering(defs, Snapshot(), available, multiset{}) && SameTrace(old(records), records)
              && SameOrders(old(records), records)
    {
      available := [];
      var work: seq<nat> := [m];
      assert work[..0] == [];
      assert OwedBy(Snapshot(), work) == multiset(records[m].asyncParents);
      while |work| > 0
        invariant forall i :: 0 <= i < |work| ==> work[i] < |records|
        invariant SameTrace(old(records), records) && SameOrders(old(records), records)
        invariant Gathering(defs, Snapshot(), available, OwedBy(Snapshot(), work))
        decreases |Unlisted(records)|, |work|
      {
        var current := work[|work| - 1];
        ghost var free, size := Unlisted(records), |work|;
        work := work[..|work| - 1];
        available, work := Release(current, available, work);
        assert Unlisted(records) < free || (Unlisted(records) == free && |work| < size);
        if Unlisted(records) < free { Smaller(Unlisted(records), free); }
      }
    }

    /** The next parent of a released module; `rest` are the parents after it. */
    method ReleaseOne(current: nat, q: nat, ghost rest: seq<nat>, available: seq<nat>, work: seq<nat>)
      returns (available': seq<nat>, work': seq<nat>)
      requires current < |records| && q in records[current].asyncParents
               && (forall i :: 0 <= i < |work| ==> work[i] < |records|)
      requires Gathering(defs, Snapshot(), available, OwedBy(Snapshot(), work) + multiset([q] + rest))
      modifies this`records
      ensures SameParents(old(records), records) && (forall i :: 0 <= i < |work'| ==> work'[i] < |records|)
      ensures SameTrace(old(records), records) && SameOrders(old(records), records)
      ensures Gathering(defs, Snapshot(), available', OwedBy(Snapshot(), work') + multiset(rest))
      ensures Unlisted(records) < old(Unlisted(records))
              || (Unlisted(records) == old(Unlisted(records)) && work' == work)
    {
      ghost var w, debt := Snapshot(), OwedBy(Snapshot(), work) + multiset([q] + rest);
      assert q in [q] + rest;
      GatherFacts(defs, w, available, debt, current, q);
      available', work' := CountParent(q, available, work);
      CountsFrame(defs, w, Snapshot(), available, available', work, work', q);
      DebtAfter(defs, w, Snapshot(), available, available', work, work', rest, q);
      ReleaseStep(defs, w, Snapshot(), available, available', work, work', rest, current, q, debt);
    }

    /** All parents of one released module. */
    method Release(current: nat, available: seq<nat>, work: seq<nat>) returns (available': seq<nat>, work': seq<nat>)
      requires current < |records| && (forall i :: 0 <= i < |work| ==> work[i] < |records|)
      requires Gathering(defs, Snapshot(), available,
                         OwedBy(Snapshot(), work) + multiset(records[current].asyncParents))
      modifies this`records
      ensures |records| == old(|records|) && (forall i :: 0 <= i < |work'| ==> work'[i] < |records|)
      ensures SameTrace(old(records), records) && SameOrders(old(records), records)
      ensures Gathering(defs, Snapshot(), available', OwedBy(Snapshot(), work'))
      ensures Unlisted(records) < old(Unlisted(records))
              || (Unlisted(records) == old(Unlisted(records)) && work' == work)
    {
      available', work' := available, work;
      var parents := records[current].asyncParents;
      assert parents[0..] == parents;
      for index := 0 to |parents|
        invariant |records| == old(|records|) && (forall i :: 0 <= i < |work'| ==> work'[i] < |records|)
        invariant records[current].asyncParents == parents
        invariant SameTrace(old(records), records) && SameOrders(old(records), records)
        invariant Gathering(defs, Snapshot(), available', OwedBy(Snapshot(), work') + multiset(parents[index..]))
        invariant Unlisted(records) < old(Unlisted(records))
                  || (Unlisted(records) == old(Unlisted(records)) && work' == work)
      {
        assert parents[index..] == [parents[index]] + parents[index + 1..];
        available', work' := ReleaseOne(current, parents[index], parents[index + 1..], available', work');
      }
      assert parents[|parents|..] == [];
      assert OwedBy(Snapshot(), work') + multiset([]) == OwedBy(Snapshot(), work');
    }

    /** Puts x behind everything that is not ordered after it. */
    method InsertByOrder(sorted: seq<nat>, x: nat) returns (sorted': seq<nat>)
      requires Ordered(Snapshot(), sorted) && x < |records|
      ensures Ordered(Snapshot(), sorted') && multiset(sorted') == multiset(sorted) + multiset{x}
    {
      var at := |sorted|;
      while at > 0 && records[sorted[at - 1]].asyncOrder > records[x].asyncOrder
        invariant 0 <= at <= |sorted|
        invariant forall j :: at <= j < |sorted| ==> records[sorted[j]].asyncOrder > records[x].asyncOrder
      {
        at := at - 1;
      }
      Inserted(Snapshot(), sorted, at, x);
      InsertedOnce(sorted, at, x);
      sorted' := sorted[..at] + [x] + sorted[at..];
    }

    /** Sorts by the order in which the walk made the modules asynchronous. */
    method SortByOrder(list: seq<nat>) returns (sorted: seq<nat>)
      requires forall i :: 0 <= i < |list| ==> list[i] < |records|
      ensures multiset(sorted) == multiset(list) && Ordered(Snapshot(), sorted)
    {
      sorted := [];
      for i := 0 to |list|
        invariant multiset(sorted) == multiset(list[..i]) && Ordered(Snapshot(), sorted)
      {
        sorted := InsertByOrder(sorted, list[i]);
        assert list[..i + 1] == list[..i] + [list[i]];
      }
      assert list[..|list|] == list;
    }

    /**
    The body of m has completed; `w` is the world before that. What it held back is gathered, then run in order.
    */
    method ExecutionFulfilled(m: nat, bodies: seq<Outcome>, ghost w: World)
      requires Resting(defs, w) && m in w.inFlight && Snapshot() == LateWorld(w, m) && |defs| == |bodies|
      requires |records| == |defs| && Recorded() && Sourced(defs, records, faults) && Fates(Bodies())
      modifies this
      ensures Valid() && Proceeds(defs, bodies, old(Bodies()), Bodies())
      ensures old(log) <= log && StartsInOrder(old(records), log[|old(log)|..])
    {
      RestFacts(defs, w, m);
      NothingHappens(defs, bodies, Bodies());
      if records[m].status == Evaluated {
        RestLate(defs, w, m);
        return;
      }
      GatherStartStep(defs, w, m);
      records := records[m := records[m].(status := Evaluated, asyncActive := false,
                                          topLevel := Settle(records[m].topLevel, Fulfilled))];
      assert Snapshot() == FinishedWorld(w, m);
      TraceKept(defs, w.rs, records, faults);
      var sorted := GatherSorted(m);
      ghost var rs := records;
      RunAll(sorted, bodies);
      OrdersKept(old(records), rs, log[|old(log)|..]);
    }

    /** The modules that the end of m sets free, in the order in which they became asynchronous. */
    method GatherSorted(m: nat) returns (sorted: seq<nat>)
      requires m < |records| == |defs| && Sourced(defs, records, faults)
      requires Gathering(defs, Snapshot(), [], multiset(records[m].asyncParents))
      modifies this`records
      ensures Running(defs, Snapshot(), sorted) && Sourced(defs, records, faults) && SameOrders(old(records), records)
    {
      ghost var rs := records;
      var available := Gather(m);
      GatherListFacts(defs, Snapshot(), available, multiset{});
      sorted := SortByOrder(available);
      RunStartStep(defs, Snapshot(), available, sorted);
      TraceKept(defs, rs, records, faults);
    }

    /** Runs the listed modules in order. */
    method RunAll(sorted: seq<nat>, bodies: seq<Outcome>)
      requires Running(defs, Snapshot(), sorted) && |bodies| == |defs| && Recorded() && Sourced(defs, records, faults)
      requires Fates(Bodies())
      modifies this
      ensures Valid() && Proceeds(defs, bodies, old(Bodies()), Bodies())
      ensures old(log) <= log && StartsInOrder(old(records), log[|old(log)|..])
    {
      assert sorted[0..] == sorted;
      NothingHappens(defs, bodies, Bodies());
      RunOrdered(defs, Snapshot(), sorted);
      ghost var ran: seq<Event> := [];
      NothingRan(Snapshot(), sorted);
      for index := 0 to |sorted|
        invariant Running(defs, Snapshot(), sorted[index..]) && Recorded() && Sourced(defs, records, faults)
        invariant Fates(Bodies()) && Proceeds(defs, bodies, old(Bodies()), Bodies())
        invariant log == old(log) + ran && RanInOrder(old(Snapshot()), sorted, index, ran)
      {
        ghost var t := Bodies();
        ghost var lines := RunListed(sorted[index], sorted[index..], bodies);
        ProceedsFurther(defs, bodies, old(Bodies()), t, Bodies());
        OneMoreStart(old(Snapshot()), sorted, index, ran, lines);
        ran := ran + lines;
        assert sorted[index..][1..] == sorted[index + 1..];
      }
      assert sorted[|sorted|..] == [];
      RanAll(old(Snapshot()), sorted, ran);
      RunEndStep(defs, Snapshot());
    }

    /** One listed module: passed over if it has failed, otherwise its body starts. */
    method RunListed(q: nat, ghost rem: seq<nat>, bodies: seq<Outcome>) returns (ghost lines: seq<Event>)
      requires Running(defs, Snapshot(), rem) && rem != [] && q == rem[0] && |bodies| == |defs| && Recorded()
               && Sourced(defs, records, faults) && Fates(Bodies())
      modifies this
      ensures Running(defs, Snapshot(), rem[1..]) && Recorded() && Sourced(defs, records, faults) && Fates(Bodies())
      ensures q < |defs| == |old(records)| && log == old(log) + lines
      ensures if old(records[q].status) == Evaluated then lines == [] && Bodies() == old(Bodies())
              else lines == Lines(q, defs[q].hasTla, bodies[q])
                   && Bodies() == Begun(old(Bodies()), q, defs[q].hasTla, bodies[q])
      ensures Proceeds(defs, bodies, old(Bodies()), Bodies())
    {
      ghost var w := Snapshot();
      RunFacts(defs, w, rem);
      NothingHappens(defs, bodies, Bodies());
      records := records[q := records[q].(inExecutionList := false)];
      TraceKept(defs, w.rs, records, faults);
      lines := [];
      if records[q].status == Evaluated { return; }
      lines := Lines(q, defs[q].hasTla, bodies[q]);
      BegunProceeds(defs, bodies, Bodies(), q);
      var thrown := StartBody(q, bodies[q]);
      ProceedsFates(defs, bodies, old(Bodies()), Bodies());
      if thrown.Some? {
        MoreFaults(defs, records, old(faults), (q, thrown.value));
        FailListed(q, rem, w, thrown.value);
      } else {
        assert faults == old(faults);
        if !defs[q].hasTla { CompleteListed(q, w); }
      }
    }

    /** The body of a listed module has thrown. */
    method FailListed(q: nat, ghost rem: seq<nat>, ghost w: World, error: Value)
      requires Running(defs, w, rem) && rem != [] && q == rem[0] && q < |w.rs| == |defs| && w.rs[q].status == Async
      requires q !in w.inFlight && Snapshot() == Landed(StartedWorld(w, q), q) && Spreading(defs, StartedWorld(w, q))
      requires Sourced(defs, records, faults) && (q, error) in faults
      modifies this`records
      ensures Running(defs, Snapshot(), rem[1..]) && Sourced(defs, records, faults)
    {
      ghost var rs := records;
      ExecutionRejected(q, error, StartedWorld(w, q));
      SpreadTraced(defs, rs, records, faults, q, error);
      RunThrowStep(defs, w, StartedWorld(w, q).(rs := records), rem, error);
      assert inFlight == w.inFlight - {q};
    }

    /** The body of a listed module has completed. */
    method CompleteListed(q: nat, ghost w: World)
      requires q < |w.rs| && Snapshot() == LateWorld(StartedWorld(w, q), q) && Sourced(defs, records, faults)
      modifies this`records
      ensures Snapshot() == FinishedWorld(StartedWorld(w, q), q) && Sourced(defs, records, faults)
    {
      ghost var rs := records;
      records := records[q := records[q].(status := Evaluated, asyncActive := false,
                                          topLevel := Settle(records[q].topLevel, Fulfilled))];
      TraceKept(defs, rs, records, faults);
    }

    /** The microtask that continues an asynchronous body, once its promise is settled. */
    method ExecutionCallback(m: nat, rejection: Option<Value>, bodies: seq<Outcome>)
      requires Valid() && m in inFlight && |bodies| == |defs|
      modifies this
      ensures Valid() && Proceeds(defs, bodies, Heard(old(Bodies()), m, rejection), Bodies())
      ensures rejection.Some? ==>
        && m < |records| && records[m].hasError && FailsOnly(old(records), records, m, rejection.value)
        && WaitersFail(records)
      ensures old(log) <= log && StartsInOrder(old(records), log[|old(log)|..])
    {
      ghost var w := Snapshot();
      RestFacts(defs, w, m);
      HearSettlement(m, rejection);
      ghost var heard := log;
      if rejection == None {
        assert faults == old(faults);
        ExecutionFulfilled(m, bodies, w);
        assert log[|old(log)|..] == [Finish(m)] + log[|heard|..];
      } else {
        NothingHappens(defs, bodies, Bodies());
        Reject(m, rejection.value, w, old(faults));
      }
    }

    /** The body of m has failed; `w` is the world before that. */
    method Reject(m: nat, error: Value, ghost w: World, ghost before: set<Fault>)
      requires Resting(defs, w) && m in w.inFlight && Snapshot() == Landed(w, m) && |records| == |defs| && Recorded()
      requires Fates(Bodies()) && faults == before + {(m, error)} && Sourced(defs, records, before)
      modifies this`records
      ensures Valid() && m < |records| && records[m].hasError
              && FailsOnly(old(records), records, m, error) && WaitersFail(records)
    {
      RestFacts(defs, w, m);
      RestSpreads(defs, w);
      MoreFaults(defs, records, before, (m, error));
      ExecutionRejected(m, error, w);
      SpreadTraced(defs, w.rs, records, faults, m, error);
      ghost var w' := w.(rs := records);
      FailedEvaluated(w, w', m, error);
      RejectStep(defs, w, w', m, error);
    }
  }

  /** A request either adds a frame for a module that had none, or leaves one request less to make. */
  lemma NextWork(p: seq<Definition>, w: World, k: Walk)
    requires Closed(p) && |p| == |w.rs| && |k.frames| > 0 && Top(k).entered && Top(k).m < |p|
             && Top(k).next < |p[Top(k).m].requests|
    ensures var k' := NextWalk(p, w, k);
      Unvisited(w.rs, k'.frames) < Unvisited(w.rs, k.frames) ||
      (Unvisited(w.rs, k'.frames) == Unvisited(w.rs, k.frames) && Work(p, k'.frames) < Work(p, k.frames))
  {
  }

  lemma EnteredUnvisited(rs: seq<Record>, rs': seq<Record>, u: nat)
    requires u < |rs| == |rs'| && rs[u].status == Linked && rs'[u].status != Linked && rs' == rs[u := rs'[u]]
    ensures |LinkedSet(rs')| == |LinkedSet(rs)| - 1
  {
    assert LinkedSet(rs) == LinkedSet(rs') + {u};
  }

  lemma SameLinked(rs: seq<Record>, rs': seq<Record>)
    requires |rs'| == |rs| && forall y :: 0 <= y < |rs| ==> (rs'[y].status == Linked <==> rs[y].status == Linked)
    ensures LinkedSet(rs') == LinkedSet(rs)
  {
  }

  /** Entering a frame and looking back leave its requests alone. */
  lemma SameWork(p: seq<Definition>, frames: seq<Frame>, frames': seq<Frame>)
    requires |frames| > 0 && |frames'| == |frames| && frames'[..|frames| - 1] == frames[..|frames| - 1]
    requires frames'[|frames| - 1].m == frames[|frames| - 1].m
             && frames'[|frames| - 1].next == frames[|frames| - 1].next
    ensures Work(p, frames') == Work(p, frames)
  {
  }

  ghost predicate FailedTo(rs: seq<Record>, rs': seq<Record>, stack: seq<nat>, top: nat, error: Value) {
    && |rs'| == |rs| && top <= |stack| && (forall i :: 0 <= i < |stack| ==> stack[i] < |rs|)
    && (forall i :: 0 <= i < top ==> rs'[stack[i]] == FailedRecord(rs[stack[i]], error))
    && (forall i :: top <= i < |stack| ==> rs'[stack[i]] == rs[stack[i]])
    && (forall y: nat :: y < |rs| && y !in stack ==> rs'[y] == rs[y])
  }

  lemma FailOne(p: seq<Definition>, w: World, k: Walk, rs: seq<Record>, rs': seq<Record>, top: nat, error: Value)
    requires |w.rs| == |p| && StackOk(p, w, k) && top < |k.stack| && FailedTo(w.rs, rs, k.stack, top, error)
    requires rs' == rs[k.stack[top] := FailedRecord(rs[k.stack[top]], error)]
    ensures FailedTo(w.rs, rs', k.stack, top + 1, error)
  {
  }

  lemma FailedAll(p: seq<Definition>, w: World, k: Walk, rs': seq<Record>, error: Value)
    requires |w.rs| == |p| && StackOk(p, w, k) && FailedTo(w.rs, rs', k.stack, |k.stack|, error)
    ensures Aborts(w, w.(rs := rs'), error)
  {
  }

  ghost function AsyncSet(rs: seq<Record>): set<nat> {
    set y | 0 <= y < |rs| && rs[y].status == Async
  }

  /** The order that the walk gave to each module. */
  ghost predicate SameOrders(rs: seq<Record>, rs': seq<Record>) {
    |rs'| == |rs| && forall y :: 0 <= y < |rs| ==> rs'[y].asyncOrder == rs[y].asyncOrder
  }

  /** Bodies start in the order in which the walk made their modules asynchronous. */
  ghost predicate StartsInOrder(rs: seq<Record>, events: seq<Event>) {
    forall i, j :: 0 <= i < j < |events| && events[i].Start? && events[j].Start? ==>
      events[i].m < |rs| && events[j].m < |rs| && rs[events[i].m].asyncOrder <= rs[events[j].m].asyncOrder
  }

  ghost predicate StartsAmong(events: seq<Event>, list: seq<nat>) {
    forall e :: e in events && e.Start? ==> e.m in list
  }

  lemma OrdersKept(rs: seq<Record>, rs': seq<Record>, events: seq<Event>)
    requires SameOrders(rs, rs') && StartsInOrder(rs', events)
    ensures StartsInOrder(rs, events)
  {
  }

  /** The first modules of the list have been run, and their bodies started in order. */
  ghost predicate RanInOrder(w: World, sorted: seq<nat>, index: nat, ran: seq<Event>) {
    forall b {:trigger Unfold(b)} :: Unfold(b) ==>
      index <= |sorted| && StartsInOrder(w.rs, ran) && StartsAmong(ran, sorted[..index])
  }

  lemma NothingRan(w: World, sorted: seq<nat>)
    ensures RanInOrder(w, sorted, 0, [])
  {
  }

  lemma RanAll(w: World, sorted: seq<nat>, ran: seq<Event>)
    requires RanInOrder(w, sorted, |sorted|, ran)
    ensures StartsInOrder(w.rs, ran)
  {
    assert Unfold(true);
  }

  lemma OneMoreStart(w: World, sorted: seq<nat>, index: nat, ran: seq<Event>, lines: seq<Event>)
    requires Ordered(w, sorted) && index < |sorted| && RanInOrder(w, sorted, index, ran)
    requires |lines| > 0 ==> lines[0] == Start(sorted[index])
    requires forall i :: 0 < i < |lines| ==> lines[i].Finish?
    ensures RanInOrder(w, sorted, index + 1, ran + lines)
  {
    assert Unfold(true);
    var longer := ran + lines;
    forall i, j | 0 <= i < j < |longer| && longer[i].Start? && longer[j].Start?
      ensures longer[i].m < |w.rs| && longer[j].m < |w.rs|
      ensures w.rs[longer[i].m].asyncOrder <= w.rs[longer[j].m].asyncOrder
    {
      if j >= |ran| {
        assert longer[j] == Start(sorted[index]) && longer[i] in ran;
        var k :| 0 <= k < index && sorted[k] == longer[i].m;
      }
    }
    assert sorted[..index + 1] == sorted[..index] + [sorted[index]];
  }

  /** Bodies that have been started since are below the root. */
  ghost predicate StartsBelow(p: seq<Definition>, root: nat, before: set<nat>, after: set<nat>) {
    before <= after && forall y :: y in after && y !in before ==> Reaches(p, root, y)
  }

  /** A body that has thrown is to blame for what happens to the open modules. */
  lemma Accused(p: seq<Definition>, rs: seq<Record>, rs': seq<Record>, faults: set<Fault>, faults': set<Fault>, u: nat,
                thrown: Option<Value>)
    requires Sourced(p, rs, faults) && SameTrace(rs, rs') && faults' == faults + FaultOf(u, thrown) && u < |p|
    requires forall y: nat :: y < |rs'| && rs'[y].status == Evaluating ==> Reaches(p, y, u)
    ensures Sourced(p, rs', faults') && (thrown.Some? ==> OpenBlame(p, rs', faults', thrown.value))
  {
    TraceKept(p, rs, rs', faults);
    if thrown.Some? {
      MoreFaults(p, rs', faults, (u, thrown.value));
      ReachesSelf(p, u);
      assert Blames(p, faults', u, thrown.value);
      TopBlames(p, rs', faults', u, thrown.value);
    } else {
      assert faults' == faults;
    }
  }

  /** What the worklist loses by passing over a failed module is not m, unless m has failed. */
  lemma FailedStays(w: World, rs: seq<Record>, work: seq<nat>, error: Value, m: nat)
    requires SpreadTo(w, rs, work, error, m) && work != [] && m < |rs| && (rs[m].hasError || m in work)
    requires rs[work[|work| - 1]].status == Evaluated
    ensures rs[m].hasError || m in work[..|work| - 1]
  {
  }

  lemma Smaller(a: set<nat>, b: set<nat>)
    requires a < b
    ensures |a| < |b|
  {
    var x :| x in b && x !in a;
    assert a <= b - {x};
    SubsetSize(a, b - {x});
  }

  lemma {:induction false} SubsetSize(a: set<nat>, b: set<nat>)
    requires a <= b
    ensures |a| <= |b|
    decreases a
  {
    if a != {} {
      var x :| x in a;
      SubsetSize(a - {x}, b - {x});
    }
  }

  lemma Inserted(w: World, sorted: seq<nat>, at: nat, x: nat)
    requires Ordered(w, sorted) && at <= |sorted| && x < |w.rs|
    requires forall j :: at <= j < |sorted| ==> w.rs[sorted[j]].asyncOrder > w.rs[x].asyncOrder
    requires at > 0 ==> w.rs[sorted[at - 1]].asyncOrder <= w.rs[x].asyncOrder
    ensures Ordered(w, sorted[..at] + [x] + sorted[at..])
  {
    var t := sorted[..at] + [x] + sorted[at..];
    forall j | 0 <= j < at ensures w.rs[sorted[j]].asyncOrder <= w.rs[x].asyncOrder {
      assert j < at - 1 ==> w.rs[sorted[j]].asyncOrder <= w.rs[sorted[at - 1]].asyncOrder;
    }
    forall i, j | 0 <= i < j < |t|
      ensures t[i] < |w.rs| && t[j] < |w.rs| && w.rs[t[i]].asyncOrder <= w.rs[t[j]].asyncOrder
    {
      InsertedPair(w, sorted, at, x, i, j);
    }
  }

  lemma InsertedOnce(sorted: seq<nat>, at: nat, x: nat)
    requires at <= |sorted|
    ensures multiset(sorted[..at] + [x] + sorted[at..]) == multiset(sorted) + multiset{x}
  {
    assert sorted == sorted[..at] + sorted[at..];
  }

  lemma InsertedPair(w: World, sorted: seq<nat>, at: nat, x: nat, i: nat, j: nat)
    requires Ordered(w, sorted) && at <= |sorted| && x < |w.rs| && i < j <= |sorted|
    requires forall j :: at <= j < |sorted| ==> w.rs[sorted[j]].asyncOrder > w.rs[x].asyncOrder
    requires forall j :: 0 <= j < at ==> w.rs[sorted[j]].asyncOrder <= w.rs[x].asyncOrder
    ensures var t := sorted[..at] + [x] + sorted[at..];
      t[i] < |w.rs| && t[j] < |w.rs| && w.rs[t[i]].asyncOrder <= w.rs[t[j]].asyncOrder
  {
  }

  lemma FailedEvaluated(w: World, w': World, m: nat, error: Value)
    requires Fails(w, w', error) && m < |w.rs| && w'.rs[m].hasError
             && (w.rs[m].status == Async || w.rs[m].status == Evaluated)
    requires w.rs[m].hasError ==> w.rs[m].status == Evaluated
    ensures w'.rs[m].status == Evaluated
  {
  }

  // ------------------------------------------------------------- whole runs

  /** A graph for these definitions, unless one of them requests something outside. */
  method NewGraph(definitions: seq<Definition>) returns (g: Option<ModuleGraph>)
    ensures g.None? <==> !Closed(definitions)
    ensures g.Some? ==>
      fresh(g.value) && g.value.Valid() && g.value.defs == definitions && g.value.log == []
      && g.value.Bodies() == Tally({}, {}, {}, {})
  {
    for m := 0 to |definitions|
      invariant forall x, k :: 0 <= x < m && 0 <= k < |definitions[x].requests| ==>
        definitions[x].requests[k] < |definitions|
    {
      for edge := 0 to |definitions[m].requests|
        invariant forall i :: 0 <= i < edge ==> definitions[m].requests[i] < |definitions|
      {
        if definitions[m].requests[edge] >= |definitions| {
          return None;
        }
      }
    }
    var graph := new ModuleGraph(definitions);
    g := Some(graph);
  }

  /**
  Any sequence of calls and deliveries, with any behaviour of the bodies. What has become of a body is what it and its
  promise have done.
  */
  method Run(definitions: seq<Definition>, script: seq<Command>, bodies: seq<Outcome>) returns (r: Option<ModuleGraph>)
    requires |bodies| == |definitions|
    ensures r.None? <==> !Closed(definitions)
    ensures r.Some? ==>
      r.value.Valid() && r.value.defs == definitions && AllDeserved(definitions, bodies, script, r.value.Bodies())
  {
    r := NewGraph(definitions);
    if r == None { return; }
    var g := r.value;
    StartDeserved(definitions, bodies, script);
    for i := 0 to |script|
      invariant g.Valid() && g.defs == definitions && fresh(g) && AllDeserved(definitions, bodies, script, g.Bodies())
    {
      ghost var t := g.Bodies();
      match script[i] {
        case Ask(index) =>
          var _ := g.Evaluate(index, bodies);
          ProceedsDeserved(definitions, bodies, script, t, g.Bodies());
        case Deliver(m, rejection) =>
          if m in g.inFlight {
            assert script[i] in script;
            HeardDeserved(definitions, bodies, script, t, m, rejection);
            g.ExecutionCallback(m, rejection, bodies);
            ProceedsDeserved(definitions, bodies, script, Heard(t, m, rejection), g.Bodies());
          }
      }
    }
  }

  /**
  A module has failed only with the error of a body that it reaches, and its capability is rejected only with that.
  */
  lemma ErrorsComeFromBelow(g: ModuleGraph, y: nat)
    requires g.Valid() && y < |g.records|
    ensures g.records[y].hasError ==> Blames(g.defs, g.faults, y, g.records[y].error)
    ensures g.records[y].topLevel.Some? && g.records[y].topLevel.value.Rejected? ==>
      Blames(g.defs, g.faults, y, g.records[y].topLevel.value.reason)
  {
    assert Unfold(true);
    assert CapabilityOk(g.records[y]);
    if g.records[y].hasError { assert Blames(g.defs, g.faults, y, g.records[y].error); }
  }

  /** The error is what the body of x threw, the TypeError for want of its promise, or what that was rejected with. */
  ghost predicate Raised(g: ModuleGraph, bodies: seq<Outcome>, script: seq<Command>, x: nat, error: Value)
    reads g
  {
    && x < |g.defs| == |bodies| && x in g.started
    && (|| bodies[x] == Throws(error)
        || (bodies[x] == Returns && g.defs[x].hasTla && error == NOT_A_PROMISE)
        || (bodies[x] == Suspends && g.defs[x].hasTla && Deliver(x, Some(error)) in script))
  }

  /** After any run: the error of a module, and the reason of its capability, is what a body that it reaches raised. */
  lemma ReasonsAreRaised(g: ModuleGraph, bodies: seq<Outcome>, script: seq<Command>, y: nat)
    requires g.Valid() && AllDeserved(g.defs, bodies, script, g.Bodies()) && y < |g.records|
    ensures g.records[y].hasError ==>
      exists x :: Reaches(g.defs, y, x) && Raised(g, bodies, script, x, g.records[y].error)
    ensures g.records[y].topLevel.Some? && g.records[y].topLevel.value.Rejected? ==>
      exists x :: Reaches(g.defs, y, x) && Raised(g, bodies, script, x, g.records[y].topLevel.value.reason)
  {
    ErrorsComeFromBelow(g, y);
    forall x, e | (x, e) in g.faults ensures Raised(g, bodies, script, x, e) {
      FailedWith(g.Bodies(), x, e);
      assert Unfold(true);
      assert Fate(g.Bodies(), x) && Deserved(g.defs, bodies, script, g.Bodies(), x);
    }
  }

  /** A body that has failed leaves its module with an error. */
  lemma FailedBodyFailsModule(g: ModuleGraph, m: nat)
    requires g.Valid() && Failed(g.Bodies(), m)
    ensures m < |g.records| && g.records[m].status == Evaluated && g.records[m].hasError
  {
    assert Unfold(true);
    assert Fate(g.Bodies(), m);
    assert RecordOk(g.Snapshot(), m);
  }

  /** A capability that is settled is rejected if and only if some body that its module reaches has failed. */
  lemma RejectedExactlyOnFailure(g: ModuleGraph, m: nat)
    requires g.Valid() && m < |g.records| && g.records[m].topLevel.Some? && g.records[m].topLevel.value != Pending
    ensures g.records[m].topLevel.value.Rejected? <==> exists x :: Reaches(g.defs, m, x) && Failed(g.Bodies(), x)
  {
    SettledEnds(g, m);
    if g.records[m].topLevel.value.Rejected? {
      ErrorsComeFromBelow(g, m);
      var x: nat :| (x, g.records[m].topLevel.value.reason) in g.faults && Reaches(g.defs, m, x);
      FailedWith(g.Bodies(), x, g.records[m].topLevel.value.reason);
    } else {
      forall x | Reaches(g.defs, m, x) ensures !Failed(g.Bodies(), x) {
        RootEndsLast(g.defs, g.Snapshot(), m, x);
        Exclusive(g.Bodies(), x);
      }
    }
  }

  lemma SettledEnds(g: ModuleGraph, m: nat)
    requires g.Valid() && m < |g.records| && g.records[m].topLevel.Some? && g.records[m].topLevel.value != Pending
    ensures g.records[m].cycleRoot == m && g.records[m].status == Evaluated
    ensures g.records[m].hasError <==> g.records[m].topLevel.value.Rejected?
  {
    assert Unfold(true);
    assert CapabilityOk(g.records[m]);
  }

  /**
  A body starts only after the bodies of everything that is reachable through its requests outside its component have
  completed: none of them threw, and the promise of each that awaits was fulfilled.
  */
  lemma StartsAfterSuccess(g: ModuleGraph, bodies: seq<Outcome>, script: seq<Command>, k: nat, r: nat, x: nat)
    requires g.Valid() && AllDeserved(g.defs, bodies, script, g.Bodies())
    requires k < |g.log| && g.log[k].Start? && g.log[k].m < |g.defs| && r in g.defs[g.log[k].m].requests
    requires !SameComponent(g.defs, g.log[k].m, r) && Reaches(g.defs, r, x)
    ensures Finish(x) in g.log[..k] && x < |g.defs| == |bodies|
    ensures !bodies[x].Throws? && (g.defs[x].hasTla ==> bodies[x].Suspends?) && !Failed(g.Bodies(), x)
    ensures g.defs[x].hasTla ==> Deliver(x, None) in script
  {
    StartsOnceAndLate(g.defs, g.log, g.started, g.finished, g.log[k].m, k);
    assert Unfold(true);
    assert Finish(x) in g.log && x in g.finished;
    assert Fate(g.Bodies(), x) && Deserved(g.defs, bodies, script, g.Bodies(), x);
  }

  /** A pending capability waits for a body that has suspended, and whose promise has not been settled. */
  lemma PendingMeansAwaiting(g: ModuleGraph, bodies: seq<Outcome>, script: seq<Command>, m: nat)
    requires g.Valid() && AllDeserved(g.defs, bodies, script, g.Bodies())
    requires m < |g.records| && g.records[m].topLevel == Some(Pending)
    ensures exists f :: f in g.inFlight && f < |g.records| == |g.defs| == |bodies| && g.records[f].pending == 0
                        && g.defs[f].hasTla && bodies[f] == Suspends && f !in g.finished && !Failed(g.Bodies(), f)
  {
    PendingMeansRunning(g.defs, g.Snapshot(), m);
    var f :| f in g.inFlight && f < |g.records| && g.records[f].status == Async && g.records[f].pending == 0;
    assert Unfold(true);
    assert Fate(g.Bodies(), f) && Deserved(g.defs, bodies, script, g.Bodies(), f);
  }

  /** If no body that it reaches has failed, a module has no error and its capability is not rejected. */
  lemma NoFaultNoRejection(g: ModuleGraph, y: nat)
    requires g.Valid() && y < |g.records| && forall f :: f in g.faults ==> !Reaches(g.defs, y, f.0)
    ensures !g.records[y].hasError && (g.records[y].topLevel.Some? ==> !g.records[y].topLevel.value.Rejected?)
  {
    ErrorsComeFromBelow(g, y);
  }

  /**
  In the history of every run: a body starts at most once, and when it starts, everything that
  is reachable through one of its requests outside its component has completed without error.
  */
  lemma StartsOnceAndLate(p: seq<Definition>, log: seq<Event>, started: set<nat>, finished: set<nat>, m: nat, k: nat)
    requires History(p, log, started, finished) && k < |log| && log[k] == Start(m)
    ensures m < |p| && (forall j :: 0 <= j < |log| && log[j] == Start(m) ==> j == k)
    ensures forall r, x :: r in p[m].requests && !SameComponent(p, m, r) && Reaches(p, r, x) ==> Finish(x) in log[..k]
  {
    assert Unfold(true);
    assert Admissible(p, log[..k], log[k]);
    forall j | 0 <= j < |log| && log[j] == Start(m) ensures j == k {
      assert Admissible(p, log[..j], log[j]);
    }
    forall r, x | r in p[m].requests && !SameComponent(p, m, r) && Reaches(p, r, x) ensures Finish(x) in log[..k] {
      assert x in FinishedIn(log[..k]);
    }
  }

  /**
  Records that have left the stack with their component share a cycle root exactly when they are mutually reachable.
  These are the awaiting ones, the ones that completed, and those that failed after that.
  */
  lemma CycleRootsAreComponents(p: seq<Definition>, w: World, m: nat, x: nat)
    requires Resting(p, w) && m < |p| && x < |p| && |w.rs| == |p|
    ensures w.rs[m].status == Async || (w.rs[m].status == Evaluated && !w.rs[m].hasError) ==> m in w.popped
    ensures m in w.popped && x in w.popped ==> (SameComponent(p, m, x) <==> w.rs[m].cycleRoot == w.rs[x].cycleRoot)
    ensures m in w.popped && SameComponent(p, m, x) ==> x in w.popped
  {
    assert Unfold(true);
    assert RecordOk(w, m) && RecordOk(w, x);
  }

  /** Nothing is stuck: a pending capability means that some body with nothing pending is still running. */
  lemma PendingMeansRunning(p: seq<Definition>, w: World, m: nat)
    requires Resting(p, w) && m < |w.rs| && w.rs[m].topLevel == Some(Pending)
    ensures exists f :: f in w.inFlight && f < |w.rs| && w.rs[f].status == Async && w.rs[f].pending == 0
  {
    assert Unfold(true);
    assert RecordOk(w, m) && CapabilityOk(w.rs[m]);
    var f := SomeBodyRuns(p, w, m);
  }

  /** A cycle root that ended well has a component, and everything below it, that ended well. */
  lemma RootEndsLast(p: seq<Definition>, w: World, c: nat, x: nat)
    requires Resting(p, w) && c < |w.rs| == |p| && w.rs[c].cycleRoot == c && w.rs[c].status == Evaluated
             && !w.rs[c].hasError
    requires Reaches(p, c, x)
    ensures x < |p| && w.rs[x].status == Evaluated && !w.rs[x].hasError && x in w.finished
  {
    assert Unfold(true);
    assert RecordOk(w, c);
    BelowFinishedRoot(p, w, c, x);
    ReachStaysInside(p, w.popped, c, x);
    assert RecordOk(w, x);
  }
}
