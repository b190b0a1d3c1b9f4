/**
What module bodies do: they start, and then complete, fail, or await. It is told by the outcomes of the bodies
and the settlements of their promises alone, whatever the records say.
*/
module ModuleBodies {
  import opened Options
  import opened Sealing
  import opened ModuleRequests
  import opened ModuleState

  /** What running a body comes to: it completes, it throws, or it hands back a promise. */
  datatype Outcome = Returns | Throws(error: Value) | Suspends

  /** The TypeError for an awaiting body that hands back something else than a promise. */
  const NOT_A_PROMISE: Value := -1

  /** The error, if any, that starting a body raises at once. */
  function StartError(hasTla: bool, body: Outcome): (e: Option<Value>)
    ensures forall x :: e == Some(x) <==> Raises(hasTla, body, x)
  {
    match body
    case Throws(error) => Some(error)
    case Returns => if hasTla then Some(NOT_A_PROMISE) else None
    case Suspends => None
  }

  /** A body raises what it throws; one that awaits and completes has not handed back the promise that it must. */
  ghost predicate Raises(hasTla: bool, body: Outcome, x: Value) {
    body == Throws(x) || (body == Returns && hasTla && x == NOT_A_PROMISE)
  }

  /** A body completes where it starts if it does not await and does not throw. */
  ghost predicate Completes(hasTla: bool, body: Outcome) {
    !hasTla && (body == Returns || body == Suspends)
  }

  /** An awaiting body is in flight as long as its promise is not settled. */
  ghost predicate Awaits(hasTla: bool, body: Outcome) {
    hasTla && body == Suspends
  }

  /** A body that threw or whose promise was rejected, with its error. */
  type Fault = (nat, Value)

  ghost function FaultOf(m: nat, thrown: Option<Value>): (f: set<Fault>) {
    if thrown.Some? then {(m, thrown.value)} else {}
  }

  datatype Tally = Tally(started: set<nat>, finished: set<nat>, inFlight: set<nat>, faults: set<Fault>)

  /** The body of m starts: it fails or completes at once, or awaits. */
  ghost function Begun(t: Tally, m: nat, hasTla: bool, body: Outcome): (t': Tally) {
    Tally(
      t.started + {m},
      if Completes(hasTla, body) then t.finished + {m} else t.finished,
      if Awaits(hasTla, body) then t.inFlight + {m} else t.inFlight,
      match body
      case Throws(error) => t.faults + {(m, error)}
      case Returns => if hasTla then t.faults + {(m, NOT_A_PROMISE)} else t.faults
      case Suspends => t.faults)
  }

  /** The promise of m is settled. */
  ghost function Heard(t: Tally, m: nat, rejection: Option<Value>): (t': Tally) {
    Tally(t.started, if rejection.None? then t.finished + {m} else t.finished, t.inFlight - {m},
          t.faults + FaultOf(m, rejection))
  }

  /** What an observer notes of the start of a body. */
  ghost function Lines(m: nat, hasTla: bool, body: Outcome): (events: seq<Event>) {
    [Start(m)] + if Completes(hasTla, body) then [Finish(m)] else []
  }

  ghost predicate Failed(t: Tally, m: nat) {
    exists e :: (m, e) in t.faults
  }

  /** A body that has started has completed, or failed with one error, or awaits, and only one of these. */
  ghost predicate Fate(t: Tally, m: nat) {
    && (m in t.started <==> m in t.finished || m in t.inFlight || Failed(t, m))
    && (m in t.finished ==> m !in t.inFlight && !Failed(t, m)) && (m in t.inFlight ==> !Failed(t, m))
    && (forall e, f :: (m, e) in t.faults && (m, f) in t.faults ==> e == f)
  }

  ghost predicate Fates(t: Tally) {
    forall b {:trigger Unfold(b)} :: Unfold(b) ==> forall m: nat :: Fate(t, m)
  }

  ghost predicate SameFate(t: Tally, t': Tally, m: nat) {
    && (m in t'.started <==> m in t.started) && (m in t'.finished <==> m in t.finished)
    && (m in t'.inFlight <==> m in t.inFlight) && (forall e :: (m, e) in t'.faults <==> (m, e) in t.faults)
  }

  /** The body of m has started, with nothing heard of it since. */
  ghost predicate JustStarted(p: seq<Definition>, bodies: seq<Outcome>, t: Tally, m: nat) {
    && m < |p| == |bodies| && m in t.started
    && (m in t.finished <==> Completes(p[m].hasTla, bodies[m])) && (m in t.inFlight <==> Awaits(p[m].hasTla, bodies[m]))
    && (forall e :: (m, e) in t.faults <==> Raises(p[m].hasTla, bodies[m], e))
  }

  /** Some bodies have started, and nothing else has happened. */
  ghost predicate Proceeds(p: seq<Definition>, bodies: seq<Outcome>, t: Tally, t': Tally) {
    forall b {:trigger Unfold(b)} :: Unfold(b) ==>
      forall m: nat :: SameFate(t, t', m) || (m !in t.started && JustStarted(p, bodies, t', m))
  }

  lemma NothingHappens(p: seq<Definition>, bodies: seq<Outcome>, t: Tally)
    ensures Proceeds(p, bodies, t, t)
  {
    forall m: nat ensures SameFate(t, t, m) {}
  }

  lemma ProceedsFurther(p: seq<Definition>, bodies: seq<Outcome>, t: Tally, t1: Tally, t2: Tally)
    requires Proceeds(p, bodies, t, t1) && Proceeds(p, bodies, t1, t2)
    ensures Proceeds(p, bodies, t, t2)
  {
    assert Unfold(true);
    forall m: nat ensures SameFate(t, t2, m) || (m !in t.started && JustStarted(p, bodies, t2, m)) {
      assert SameFate(t, t1, m) || JustStarted(p, bodies, t1, m);
      assert SameFate(t1, t2, m) || (m !in t1.started && JustStarted(p, bodies, t2, m));
    }
  }

  /** One body starts. */
  lemma BegunProceeds(p: seq<Definition>, bodies: seq<Outcome>, t: Tally, m: nat)
    requires Fates(t) && m !in t.started && m < |p| == |bodies|
    ensures Proceeds(p, bodies, t, Begun(t, m, p[m].hasTla, bodies[m]))
  {
    assert Unfold(true);
    assert Fate(t, m);
    var t' := Begun(t, m, p[m].hasTla, bodies[m]);
    forall x: nat ensures SameFate(t, t', x) || (x !in t.started && JustStarted(p, bodies, t', x)) {
      if x == m {
        assert !Failed(t, m);
        assert JustStarted(p, bodies, t', m);
      } else {
        assert SameFate(t, t', x);
      }
    }
  }

  lemma FailedWith(t: Tally, m: nat, error: Value)
    requires (m, error) in t.faults
    ensures Failed(t, m)
  {
  }

  /** A body that has completed has not failed. */
  lemma Exclusive(t: Tally, m: nat)
    requires Fates(t) && m in t.finished
    ensures m in t.started && m !in t.inFlight && !Failed(t, m)
  {
    assert Unfold(true);
    assert Fate(t, m);
  }

  lemma SameFailed(t: Tally, t': Tally, m: nat)
    requires SameFate(t, t', m)
    ensures Failed(t', m) <==> Failed(t, m)
  {
    if Failed(t, m) {
      var e :| (m, e) in t.faults;
      assert (m, e) in t'.faults;
    }
  }

  lemma ProceedsFates(p: seq<Definition>, bodies: seq<Outcome>, t: Tally, t': Tally)
    requires Fates(t) && Proceeds(p, bodies, t, t')
    ensures Fates(t')
  {
    assert Unfold(true);
    forall m: nat ensures Fate(t', m) {
      assert Fate(t, m);
      if SameFate(t, t', m) {
        SameFailed(t, t', m);
      } else {
        assert JustStarted(p, bodies, t', m);
        if bodies[m].Throws? {
          FailedWith(t', m, bodies[m].error);
        } else if bodies[m].Returns? && p[m].hasTla {
          FailedWith(t', m, NOT_A_PROMISE);
        }
      }
    }
  }

  lemma HeardFates(t: Tally, m: nat, rejection: Option<Value>)
    requires Fates(t) && m in t.inFlight
    ensures Fates(Heard(t, m, rejection)) && m in t.started && m !in t.finished
  {
    assert Unfold(true);
    var t' := Heard(t, m, rejection);
    assert Fate(t, m);
    forall x: nat ensures Fate(t', x) {
      assert Fate(t, x);
      if x == m {
        assert !Failed(t, m);
        if rejection.Some? {
          FailedWith(t', m, rejection.value);
        } else {
          assert t'.faults == t.faults;
        }
      } else {
        SameFailed(t, t', x);
      }
    }
  }

  lemma StartFates()
    ensures Fates(Tally({}, {}, {}, {}))
  {
    forall m: nat ensures Fate(Tally({}, {}, {}, {}), m) {}
  }

  // ------------------------------------------------------------- whole runs

  /** What the host may do next: evaluate a module, or deliver the settlement of an execution promise. */
  datatype Command = Ask(index: nat) | Deliver(m: nat, rejection: Option<Value>)

  /**
  What has become of the body of m is what it and its promise have done: it has failed with what it threw, or for want
  of a promise, or with what its promise was rejected with; or it has completed, or it awaits.
  */
  ghost predicate Deserved(p: seq<Definition>, bodies: seq<Outcome>, script: seq<Command>, t: Tally, m: nat) {
    m in t.started ==>
      && m < |p| == |bodies|
      && match bodies[m]
         case Throws(error) => m !in t.finished && m !in t.inFlight && forall e :: (m, e) in t.faults <==> e == error
         case Returns =>
           && m !in t.inFlight && (m in t.finished <==> !p[m].hasTla)
           && forall e :: (m, e) in t.faults <==> p[m].hasTla && e == NOT_A_PROMISE
         case Suspends =>
           if p[m].hasTla then
             && (m in t.finished ==> Deliver(m, None) in script)
             && forall e :: (m, e) in t.faults ==> Deliver(m, Some(e)) in script
           else
             m in t.finished && m !in t.inFlight && forall e :: (m, e) !in t.faults
  }

  ghost predicate AllDeserved(p: seq<Definition>, bodies: seq<Outcome>, script: seq<Command>, t: Tally) {
    forall b {:trigger Unfold(b)} :: Unfold(b) ==> forall m: nat :: Deserved(p, bodies, script, t, m)
  }

  lemma ProceedsDeserved(p: seq<Definition>, bodies: seq<Outcome>, script: seq<Command>, t: Tally, t': Tally)
    requires AllDeserved(p, bodies, script, t) && Proceeds(p, bodies, t, t')
    ensures AllDeserved(p, bodies, script, t')
  {
    assert Unfold(true);
    forall m: nat ensures Deserved(p, bodies, script, t', m) {
      assert Deserved(p, bodies, script, t, m) && (SameFate(t, t', m) || JustStarted(p, bodies, t', m));
    }
  }

  lemma HeardDeserved(p: seq<Definition>, bodies: seq<Outcome>, script: seq<Command>, t: Tally, m: nat,
                      rejection: Option<Value>)
    requires AllDeserved(p, bodies, script, t) && Fates(t) && m in t.inFlight && Deliver(m, rejection) in script
    ensures AllDeserved(p, bodies, script, Heard(t, m, rejection))
  {
    assert Unfold(true);
    var t' := Heard(t, m, rejection);
    forall x: nat ensures Deserved(p, bodies, script, t', x) {
      assert Deserved(p, bodies, script, t, x) && Fate(t, x);
    }
  }

  lemma StartDeserved(p: seq<Definition>, bodies: seq<Outcome>, script: seq<Command>)
    ensures AllDeserved(p, bodies, script, Tally({}, {}, {}, {}))
  {
    forall m: nat ensures Deserved(p, bodies, script, Tally({}, {}, {}, {}), m) {}
  }
}
