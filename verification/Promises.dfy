/**
Promises, their reactions and the microtask queue (`tsc_promise.c`, `tsc_core.c`). Wherever user code
runs, a plan says which operations it performs and how it ends.
*/
module Promises {
  import opened Sealing

  datatype State = Pending | Fulfilled(value: Value) | Rejected(reason: Value)

  /** A value: not an object, an object, or a promise. */
  datatype Value = Plain(id: nat) | Object(id: nat) | PromiseValue(promise: nat) | TypeError

  /** A microtask: a reaction or an adoption that waited for a promise, a call of `then`, or other work. */
  datatype Job =
    | Reaction(promise: nat, id: nat)
    | Adoption(dest: nat, source: nat)
    | ThenCall(target: nat, thenable: Value)
    | Work(id: nat)

  datatype Promise = Promise(state: State, callbacks: seq<Job>)

  /** A pair of resolving functions. */
  datatype Gate = Gate(promise: nat, alreadyResolved: bool)

  /** How user code ends: it throws, or it gives a callable or some other `then`. */
  datatype Ending = Throws(error: Value) | Callable | NotCallable

  datatype Action =
    | New
    | Then(promise: nat, id: nat)
    | Fulfill(promise: nat, value: Value)
    | Reject(promise: nat, reason: Value)
    | Adopt(dest: nat, source: nat)
    | CallResolve(gate: nat, value: Value)
    | CallReject(gate: nat, reason: Value)
    | Resolve(promise: nat, value: Value)
    | Queue(id: nat)

  datatype Turn = Turn(actions: seq<Action>, ending: Ending)

  // --------------------------------------------------------------------- history

  function Source(j: Job): (p: int) {
    match j
    case Reaction(p, _) => p
    case Adoption(_, s) => s
    case _ => -1
  }

  /** The jobs of a log that waited for a promise. */
  ghost function Of(log: seq<Job>, p: nat): (r: seq<Job>) {
    if log == [] then [] else Of(log[..|log| - 1], p) + (if Source(log[|log| - 1]) == p then [log[|log| - 1]] else [])
  }

  lemma OfAppend(log: seq<Job>, j: Job, p: nat)
    ensures Of(log + [j], p) == Of(log, p) + (if Source(j) == p then [j] else [])
  {
  }

  lemma {:induction false} OfConcat(log: seq<Job>, jobs: seq<Job>, p: nat, q: nat)
    requires forall i :: 0 <= i < |jobs| ==> Source(jobs[i]) == p
    ensures Of(log + jobs, q) == Of(log, q) + (if q == p then jobs else [])
    decreases |jobs|
  {
    if jobs == [] {
      assert log + jobs == log;
    } else {
      var last := |jobs| - 1;
      OfConcat(log, jobs[..last], p, q);
      OfAppend(log + jobs[..last], jobs[last], q);
      assert log + jobs == log + jobs[..last] + [jobs[last]];
      assert jobs == jobs[..last] + [jobs[last]];
    }
  }

  /** A pending promise keeps its reactions; a settled one has queued each once, in the order of registration. */
  ghost predicate KeepsOrder(p: nat, promise: Promise, registered: seq<Job>, queued: seq<Job>) {
    if promise.state.Pending? then promise.callbacks == registered && Of(queued, p) == []
    else promise.callbacks == [] && Of(queued, p) == registered
  }

  ghost predicate Belongs(p: nat, callbacks: seq<Job>, size: nat) {
    forall i :: 0 <= i < |callbacks| ==>
      Source(callbacks[i]) == p && (callbacks[i].Adoption? ==> callbacks[i].dest < size)
  }

  ghost predicate Pends(ps: seq<Promise>, p: nat) {
    p < |ps| && ps[p].state.Pending?
  }

  /** A settled promise stays as it is. */
  ghost predicate Forward(ps: seq<Promise>, ps': seq<Promise>) {
    |ps| <= |ps'| && forall p :: 0 <= p < |ps| && !ps[p].state.Pending? ==> ps'[p].state == ps[p].state
  }

  ghost predicate JobOk(j: Job, ps: seq<Promise>) {
    match j
    case Adoption(d, s) => d < |ps| && s < |ps| && !ps[s].state.Pending?
    case Reaction(p, _) => p < |ps| && !ps[p].state.Pending?
    case ThenCall(p, _) => p < |ps|
    case Work(_) => true
  }

  /**
  What has been queued has run, is about to run, or waits, in this order; what waits for a promise is queued late.
  */
  ghost predicate JobsOk(ps: seq<Promise>, queue: seq<Job>, done: nat, current: seq<Job>, queued: seq<Job>,
                         ran: seq<Job>) {
    && done <= |queue| && queued == ran + (current + queue[done..])
    && (forall i :: done <= i < |queue| ==> JobOk(queue[i], ps))
    && (forall i :: 0 <= i < |queued| ==> Source(queued[i]) < |ps|)
  }

  lemma MoreJobs(ps: seq<Promise>, ps': seq<Promise>, queue: seq<Job>, done: nat, current: seq<Job>, queued: seq<Job>,
                 ran: seq<Job>, jobs: seq<Job>)
    requires JobsOk(ps, queue, done, current, queued, ran) && Forward(ps, ps')
    requires forall i :: 0 <= i < |jobs| ==> JobOk(jobs[i], ps') && Source(jobs[i]) < |ps'|
    ensures JobsOk(ps', queue + jobs, done, current, queued + jobs, ran)
    ensures current + (queue + jobs)[done..] == (current + queue[done..]) + jobs
  {
    var longer := queue + jobs;
    forall i | done <= i < |longer| ensures JobOk(longer[i], ps') {
      assert i < |queue| ==> JobOk(queue[i], ps);
    }
  }

  /** What is queued is the same for promises in the same states. */
  lemma SameJobs(ps: seq<Promise>, ps': seq<Promise>, queue: seq<Job>, done: nat, current: seq<Job>, queued: seq<Job>,
                 ran: seq<Job>)
    requires JobsOk(ps, queue, done, current, queued, ran) && Forward(ps, ps')
    ensures JobsOk(ps', queue, done, current, queued, ran)
  {
    assert queue + [] == queue && queued + [] == queued;
    MoreJobs(ps, ps', queue, done, current, queued, ran, []);
  }

  /** The next job leaves the queue. */
  lemma NextJob(ps: seq<Promise>, queue: seq<Job>, done: nat, queued: seq<Job>, ran: seq<Job>)
    requires JobsOk(ps, queue, done, [], queued, ran) && done < |queue|
    ensures JobOk(queue[done], ps) && JobsOk(ps, queue, done + 1, [queue[done]], queued, ran)
    ensures [queue[done]] + queue[done + 1..] == [] + queue[done..]
  {
  }

  /** An adoption is settled, or waits for its source, or is queued. */
  ghost predicate Linked(link: (nat, nat), ps: seq<Promise>, waiting: seq<Job>) {
    && link.0 < |ps| && link.1 < |ps|
    && (|| !ps[link.0].state.Pending? || Adoption(link.0, link.1) in ps[link.1].callbacks
        || Adoption(link.0, link.1) in waiting)
  }

  ghost predicate LinksOk(links: set<(nat, nat)>, ps: seq<Promise>, waiting: seq<Job>) {
    forall link :: link in links ==> Linked(link, ps, waiting)
  }

  /** What settled a promise: an adoption of another one, or a state given to it. */
  datatype Cause = Adopted(source: nat) | Given(state: State)

  /** Exactly the settled promises have been settled by something, and their state is the one adopted or given. */
  ghost predicate CausesOk(causes: map<nat, Cause>, ps: seq<Promise>) {
    forall p: nat :: p < |ps| ==>
      && (p in causes <==> !ps[p].state.Pending?)
      && (p in causes ==> Explains(causes[p], ps[p].state, ps))
  }

  ghost predicate Explains(cause: Cause, state: State, ps: seq<Promise>) {
    match cause
    case Adopted(source) => source < |ps| && ps[source].state == state
    case Given(given) => state == given
  }

  lemma SameCauses(causes: map<nat, Cause>, ps: seq<Promise>, ps': seq<Promise>)
    requires CausesOk(causes, ps) && |ps| <= |ps'| && forall p: nat :: p in causes ==> p < |ps|
    requires forall q :: 0 <= q < |ps'| ==> ps'[q].state == if q < |ps| then ps[q].state else Pending
    ensures CausesOk(causes, ps')
  {
  }

  ghost function Registered(ps: seq<Promise>): (n: nat) {
    if ps == [] then 0 else Registered(ps[..|ps| - 1]) + |ps[|ps| - 1].callbacks|
  }

  lemma {:induction false} RegisteredUpdate(ps: seq<Promise>, p: nat, promise: Promise)
    requires p < |ps|
    ensures Registered(ps[p := promise]) == Registered(ps) - |ps[p].callbacks| + |promise.callbacks|
    decreases |ps|
  {
    var last := |ps| - 1;
    if p < last {
      assert ps[p := promise][..last] == ps[..last][p := promise];
      RegisteredUpdate(ps[..last], p, promise);
    } else {
      assert ps[p := promise][..last] == ps[..last];
    }
  }

  ghost predicate PromiseAt(p: nat, ps: seq<Promise>, registered: seq<seq<Job>>, queued: seq<Job>) {
    p < |ps| == |registered| ==> KeepsOrder(p, ps[p], registered[p], queued) && Belongs(p, registered[p], |ps|)
  }

  ghost predicate AllOrdered(ps: seq<Promise>, registered: seq<seq<Job>>, queued: seq<Job>) {
    forall p: nat {:trigger PromiseAt(p, ps, registered, queued)} :: PromiseAt(p, ps, registered, queued)
  }

  /** A job that is registered with a settled promise is queued after the earlier ones. */
  lemma StillOrdered(q: nat, p: nat, ps: seq<Promise>, registered: seq<seq<Job>>, queued: seq<Job>, j: Job)
    requires PromiseAt(q, ps, registered, queued) && p < |ps| == |registered| && !ps[p].state.Pending?
    requires Source(j) == p && (j.Adoption? ==> j.dest < |ps|)
    ensures PromiseAt(q, ps, registered[p := registered[p] + [j]], queued + [j])
  {
  }

  /**
  What resolving a pending promise with a value comes to; an object is asked for its `then` in a turn of user code.
  */
  ghost predicate ResolvedAs(p: nat, value: Value, turn: Turn, queue: seq<Job>, ps': seq<Promise>, queue': seq<Job>) {
    && p < |ps'|
    && (if value == PromiseValue(p) then ps'[p].state == Rejected(TypeError)
        else if value.Plain? then ps'[p].state == Fulfilled(value)
        else turn.actions == [] ==>
               match turn.ending
               case Throws(error) => ps'[p].state == Rejected(error)
               case NotCallable => ps'[p].state == Fulfilled(value)
               case Callable => ps'[p].state.Pending? && queue' == queue + [ThenCall(p, value)])
  }

  /** What one promise's adoption of another comes to at once: nothing else changes. */
  ghost predicate AdoptsNow(dest: nat, source: nat, ps: seq<Promise>, queue: seq<Job>, ps': seq<Promise>,
                            queue': seq<Job>)
    requires dest < |ps| && source < |ps|
  {
    if !ps[dest].state.Pending? then
      ps' == ps && queue' == queue
    else if ps[source].state.Pending? then
      && ps' == ps[source := ps[source].(callbacks := ps[source].callbacks + [Adoption(dest, source)])]
      && queue' == queue
    else
      ps' == ps[dest := Promise(ps[source].state, [])] && queue' == queue + ps[dest].callbacks
  }

  class Runtime {
    var promises: seq<Promise>
    var gates: seq<Gate>
    var queue: seq<Job>
    var plan: seq<Turn>
    /** How many jobs of the queue have been run by the drain in progress. */
    ghost var done: nat
    /** The job that has left the queue and has not run yet. */
    ghost var current: seq<Job>
    ghost var queued: seq<Job>
    /** The jobs for which user code has been given control, and the adoptions made, in order. */
    ghost var ran: seq<Job>
    ghost var registered: seq<seq<Job>>
    ghost var links: set<(nat, nat)>
    ghost var causes: map<nat, Cause>

    /** The jobs that have been queued and have not run. */
    ghost function Waiting(): (jobs: seq<Job>)
      reads this
    {
      if done <= |queue| then current + queue[done..] else []
    }

    ghost predicate Jobs()
      reads this
    {
      JobsOk(promises, queue, done, current, queued, ran)
    }

    ghost predicate Valid()
      reads this
    {
      && |promises| == |registered| && (forall g :: 0 <= g < |gates| ==> gates[g].promise < |promises|)
      && forall b {:trigger Unfold(b)} :: Unfold(b) ==> Consistent()
    }

    ghost predicate Consistent()
      reads this
    {
      && Jobs()
      && AllOrdered(promises, registered, queued)
      && LinksOk(links, promises, Waiting())
      && CausesOk(causes, promises) && (forall p: nat :: p in causes ==> p < |promises|)
    }

    constructor (plan: seq<Turn>)
      ensures Valid() && promises == [] && queue == [] && queued == [] && ran == [] && done == 0 && current == []
    {
      promises, gates, queue, this.plan := [], [], [], plan;
      done, current, queued, ran, registered, links, causes := 0, [], [], [], [], {}, map[];
    }

    /** A job goes to the end of the queue. */
    method Enqueue(j: Job)
      requires Valid() && JobOk(j, promises) && Source(j) < 0
      modifies this`queue, this`queued
      ensures Valid() && queue == old(queue) + [j] && queued == old(queued) + [j]
    {
      assert Unfold(true);
      MoreJobs(promises, promises, queue, done, current, queued, ran, [j]);
      queue := queue + [j];
      queued := queued + [j];
      forall p: nat ensures PromiseAt(p, promises, registered, queued) {
        assert PromiseAt(p, old(promises), old(registered), old(queued));
        OfAppend(old(queued), j, p);
      }
    }

    /** The reactions of a settled promise are queued, in order. */
    method Trigger(p: nat)
      requires p < |promises| && done <= |queue|
      modifies this`promises, this`queue, this`queued
      ensures promises == old(promises)[p := old(promises[p]).(callbacks := [])]
      ensures queue == old(queue) + old(promises[p]).callbacks && queued == old(queued) + old(promises[p]).callbacks
    {
      var callbacks := promises[p].callbacks;
      for i := 0 to |callbacks|
        invariant promises == old(promises) && queue == old(queue) + callbacks[..i]
                  && queued == old(queued) + callbacks[..i]
      {
        assert callbacks[..i + 1] == callbacks[..i] + [callbacks[i]];
        queue := queue + [callbacks[i]];
        queued := queued + [callbacks[i]];
      }
      assert callbacks[..|callbacks|] == callbacks;
      promises := promises[p := promises[p].(callbacks := [])];
    }

    /** A pending promise is settled and its reactions are queued. */
    method SettleNow(p: nat, state: State, ghost cause: Cause)
      requires Valid() && p < |promises| && promises[p].state.Pending? && !state.Pending?
      requires Explains(cause, state, promises)
      modifies this`promises, this`queue, this`queued, this`causes
      ensures Valid() && Forward(old(promises), promises) && |promises| == |old(promises)|
      ensures promises == old(promises)[p := Promise(state, [])] && causes == old(causes)[p := cause]
      ensures registered[p] == old(promises[p]).callbacks
      ensures queue == old(queue) + registered[p] && queued == old(queued) + registered[p]
      ensures Registered(promises) + |queue| == Registered(old(promises)) + |old(queue)|
    {
      assert Unfold(true);
      ghost var ps := promises;
      assert PromiseAt(p, ps, registered, queued);
      Settled(ps, p, state, registered, queue, done, current, queued, ran, links, causes, cause);
      promises := promises[p := promises[p].(state := state)];
      Trigger(p);
      assert promises == ps[p := Promise(state, [])];
      causes := causes[p := cause];
    }

    /** A pending promise is settled and its reactions are queued; a settled one is left alone. */
    method SettleBy(p: nat, state: State, ghost cause: Cause)
      requires Valid() && p < |promises| && !state.Pending? && Explains(cause, state, promises)
      modifies this`promises, this`queue, this`queued, this`causes
      ensures Valid() && Forward(old(promises), promises) && |promises| == |old(promises)|
              && !promises[p].state.Pending?
      ensures old(promises[p]).state.Pending? ==>
        && promises == old(promises)[p := Promise(state, [])] && registered[p] == old(promises[p]).callbacks
        && queue == old(queue) + registered[p] && queued == old(queued) + registered[p]
        && causes == old(causes)[p := cause]
      ensures !old(promises[p]).state.Pending? ==>
        promises == old(promises) && queue == old(queue) && queued == old(queued) && causes == old(causes)
      ensures Registered(promises) + |queue| == Registered(old(promises)) + |old(queue)|
    {
      if promises[p].state == Pending { SettleNow(p, state, cause); }
    }

    /** A promise is given a state. */
    method Settle(p: nat, state: State)
      requires Valid() && p < |promises| && !state.Pending?
      modifies this`promises, this`queue, this`queued, this`causes
      ensures Valid() && Forward(old(promises), promises) && |promises| == |old(promises)|
              && !promises[p].state.Pending?
      ensures old(promises[p]).state.Pending? ==>
        && promises == old(promises)[p := Promise(state, [])] && registered[p] == old(promises[p]).callbacks
        && queue == old(queue) + registered[p] && queued == old(queued) + registered[p]
        && causes == old(causes)[p := Given(state)]
      ensures !old(promises[p]).state.Pending? ==>
        promises == old(promises) && queue == old(queue) && queued == old(queued) && causes == old(causes)
      ensures Registered(promises) + |queue| == Registered(old(promises)) + |old(queue)|
    {
      SettleBy(p, state, Given(state));
    }

    method KeepCallback(p: nat, j: Job)
      requires Valid() && p < |promises| && promises[p].state.Pending? && Source(j) == p
               && (j.Adoption? ==> j.dest < |promises|)
      modifies this`promises, this`registered
      ensures Valid()
              && promises == old(promises)[p := old(promises[p]).(callbacks := old(promises[p]).callbacks + [j])]
      ensures registered == old(registered)[p := old(registered[p]) + [j]]
      ensures Registered(promises) == Registered(old(promises)) + 1
    {
      assert Unfold(true);
      assert PromiseAt(p, promises, registered, queued);
      registered := registered[p := registered[p] + [j]];
      promises := promises[p := promises[p].(callbacks := promises[p].callbacks + [j])];
      RegisteredUpdate(old(promises), p, promises[p]);
      SameJobs(old(promises), promises, queue, done, current, queued, ran);
      forall q: nat ensures PromiseAt(q, promises, registered, queued) {
        assert PromiseAt(q, old(promises), old(registered), old(queued));
      }
      MoreCallbacks(links, old(promises), promises, Waiting(), Waiting());
      SameCauses(causes, old(promises), promises);
    }

    method QueueCallback(p: nat, j: Job)
      requires Valid() && p < |promises| && !promises[p].state.Pending? && Source(j) == p
               && (j.Adoption? ==> j.dest < |promises|)
      modifies this`queue, this`queued, this`registered
      ensures Valid() && queue == old(queue) + [j] && queued == old(queued) + [j]
              && registered == old(registered)[p := old(registered[p]) + [j]]
    {
      assert Unfold(true);
      ghost var waiting := Waiting();
      assert PromiseAt(p, promises, registered, queued);
      registered := registered[p := registered[p] + [j]];
      MoreJobs(promises, promises, queue, done, current, queued, ran, [j]);
      queue := queue + [j];
      queued := queued + [j];
      forall q: nat ensures PromiseAt(q, promises, registered, queued) {
        StillOrdered(q, p, promises, old(registered), old(queued), j);
      }
      MoreCallbacks(links, promises, promises, waiting, Waiting());
    }

    /** A job waits for a promise, or is queued at once if the promise is settled. */
    method AddCallback(p: nat, j: Job)
      requires Valid() && p < |promises| && Source(j) == p && (j.Adoption? ==> j.dest < |promises|)
      modifies this`promises, this`queue, this`queued, this`registered
      ensures Valid() && |promises| == |old(promises)| && registered == old(registered)[p := old(registered[p]) + [j]]
      ensures if old(promises[p]).state.Pending?
              then queue == old(queue)
                   && promises == old(promises)[p := old(promises[p]).(callbacks := old(promises[p]).callbacks + [j])]
              else queue == old(queue) + [j] && promises == old(promises)
      ensures old(queued) <= queued
      ensures Registered(promises) + |queue| == Registered(old(promises)) + |old(queue)| + 1
      ensures forall q :: 0 <= q < |promises| ==> promises[q].state == old(promises[q]).state
    {
      if promises[p].state != Pending {
        QueueCallback(p, j);
      } else {
        KeepCallback(p, j);
      }
    }

    /** One promise takes over the state of another, now or when that is settled. */
    method AdoptInto(dest: nat, source: nat)
      requires Valid() && dest < |promises| && source < |promises|
      modifies this`promises, this`queue, this`queued, this`registered, this`links, this`causes
      ensures Valid() && Forward(old(promises), promises) && |promises| == |old(promises)|
      ensures AdoptsNow(dest, source, old(promises), old(queue), promises, queue)
      ensures old(promises[dest]).state.Pending? ==>
        if old(promises[source]).state.Pending? then links == old(links) + {(dest, source)} && causes == old(causes)
        else causes == old(causes)[dest := Adopted(source)] && links == old(links)
      ensures !old(promises[dest]).state.Pending? ==> links == old(links) && causes == old(causes)
      ensures old(queue) <= queue && old(queued) <= queued
      ensures !old(promises[source]).state.Pending? ==>
        Registered(promises) + |queue| == Registered(old(promises)) + |old(queue)| && !promises[dest].state.Pending?
    {
      if promises[dest].state != Pending { return; }
      if promises[source].state != Pending {
        SettleBy(dest, promises[source].state, Adopted(source));
      } else {
        AddCallback(source, Adoption(dest, source));
        Link(dest, source);
      }
    }

    ghost method Link(dest: nat, source: nat)
      requires Valid() && dest < |promises| && source < |promises|
      requires Adoption(dest, source) in promises[source].callbacks
      modifies this`links
      ensures Valid() && links == old(links) + {(dest, source)}
    {
      assert Unfold(true);
      assert Linked((dest, source), promises, Waiting());
      links := links + {(dest, source)};
    }

    /** A new pair of resolving functions. */
    method AddGate(p: nat) returns (g: nat)
      requires Valid() && p < |promises|
      modifies this`gates
      ensures Valid() && g == |old(gates)| && gates == old(gates) + [Gate(p, false)]
    {
      assert Unfold(true);
      g := |gates|;
      gates := gates + [Gate(p, false)];
    }

    /** One of the functions of a pair has been called; the promise that they are for. */
    method UseGate(g: nat) returns (p: nat)
      requires Valid() && g < |gates|
      modifies this`gates
      ensures Valid() && p == old(gates)[g].promise < |promises| && gates == old(gates)[g := Gate(p, true)]
    {
      assert Unfold(true);
      p := gates[g].promise;
      gates := gates[g := gates[g].(alreadyResolved := true)];
    }

    method NewPromise() returns (p: nat, g: nat)
      requires Valid()
      modifies this`promises, this`registered, this`gates
      ensures Valid() && Forward(old(promises), promises) && p == |old(promises)|
              && promises == old(promises) + [Promise(Pending, [])]
      ensures gates == old(gates) + [Gate(p, false)] && g == |old(gates)|
    {
      assert Unfold(true);
      p, g := |promises|, |gates|;
      promises := promises + [Promise(Pending, [])];
      registered := registered + [[]];
      gates := gates + [Gate(p, false)];
      SameJobs(old(promises), promises, queue, done, current, queued, ran);
      forall q: nat ensures PromiseAt(q, promises, registered, queued) {
        assert PromiseAt(q, old(promises), old(registered), old(queued));
        if q == p { NothingYet(queued, p); }
      }
      assert promises[..p] == old(promises);
      MoreCallbacks(links, old(promises), promises, Waiting(), Waiting());
      SameCauses(causes, old(promises), promises);
    }

    // ------------------------------------------------------------ user code

    /** User code runs, for a job or otherwise: it performs its operations, and ends. */
    method Interject(ghost job: seq<Job>) returns (ending: Ending)
      requires Valid() && (job == [] || job == current) && forall i :: 0 <= i < |job| ==> !job[i].Adoption?
      modifies this
      ensures Valid() && Forward(old(promises), promises) && Continues()
      ensures ran == old(ran) + job && current == if job == [] then old(current) else []
      ensures if |old(plan)| == 0 then plan == old(plan) && ending == NotCallable
              else |plan| < |old(plan)| && ending == old(plan)[0].ending
      ensures |old(plan)| == 0 || old(plan)[0].actions == [] ==>
        promises == old(promises) && queue == old(queue) && gates == old(gates)
      decreases |plan|, 1
    {
      if job != [] { TakeUp(); }
      if |plan| == 0 { return NotCallable; }
      var turn := plan[0];
      plan := plan[1..];
      ending := turn.ending;
      for i := 0 to |turn.actions|
        invariant Valid() && Forward(old(promises), promises) && Continues() && |plan| < |old(plan)|
        invariant ran == old(ran) + job && current == if job == [] then old(current) else []
        invariant i == 0 ==> promises == old(promises) && queue == old(queue) && gates == old(gates)
      {
        ghost var before := promises;
        Perform(turn.actions[i]);
        ForwardTwice(old(promises), before, promises);
      }
    }

    /** The job that has left the queue runs. */
    ghost method TakeUp()
      requires Valid()
      requires forall i :: 0 <= i < |current| && current[i].Adoption? ==>
        current[i].dest < |promises| && !promises[current[i].dest].state.Pending?
      modifies this`ran, this`current
      ensures Valid() && ran == old(ran) + old(current) && current == []
    {
      assert Unfold(true);
      ghost var waiting := Waiting();
      ran, current := ran + current, [];
      assert waiting == old(current) + Waiting();
      LinksAfter(links, promises, old(current), Waiting());
    }

    /** Nothing that has been queued is taken back, and gates stay used. */
    twostate predicate Continues()
      reads this
    {
      && done == old(done) && old(queue) <= queue && old(queued) <= queued
      && |old(gates)| <= |gates|
      && forall g :: 0 <= g < |old(gates)| ==>
           && gates[g].promise == old(gates)[g].promise
           && (old(gates)[g].alreadyResolved ==> gates[g].alreadyResolved)
    }

    /** The same, while no job begins to run. */
    twostate predicate GoesOn()
      reads this
    {
      Continues() && ran == old(ran) && current == old(current)
    }

    method RejectGate(g: nat, reason: Value)
      requires Valid() && g < |gates|
      modifies this`promises, this`queue, this`queued, this`gates, this`causes
      ensures Valid() && Forward(old(promises), promises) && GoesOn() && |promises| == |old(promises)|
              && gates[g].alreadyResolved
      ensures old(gates[g]).alreadyResolved ==> promises == old(promises) && queue == old(queue)
      ensures !old(gates[g]).alreadyResolved && old(promises[gates[g].promise].state).Pending? ==>
        promises == old(promises)[old(gates)[g].promise := Promise(Rejected(reason), [])]
      ensures Registered(promises) + |queue| == Registered(old(promises)) + |old(queue)|
    {
      if gates[g].alreadyResolved { return; }
      var p := UseGate(g);
      Settle(p, Rejected(reason));
    }

    /** A promise is resolved through a gate; only the first use of a gate does anything. */
    method ResolveGate(g: nat, value: Value)
      requires Valid() && g < |gates|
      modifies this
      ensures Valid() && Forward(old(promises), promises) && GoesOn() && gates[g].alreadyResolved
              && |plan| <= |old(plan)|
      ensures old(gates[g]).alreadyResolved ==> promises == old(promises) && queue == old(queue) && plan == old(plan)
      ensures !old(gates[g]).alreadyResolved && old(promises[gates[g].promise].state).Pending? ==>
        ResolvedAs(old(gates[g].promise), value, if |old(plan)| == 0 then Turn([], NotCallable) else old(plan)[0],
                   old(queue), promises, queue)
      decreases |plan|, 3
    {
      if gates[g].alreadyResolved { return; }
      var p := UseGate(g);
      if value == PromiseValue(p) {
        Settle(p, Rejected(TypeError));
      } else if value.Plain? {
        Settle(p, Fulfilled(value));
      } else {
        AskThen(p, value);
      }
    }

    /** An object is asked for its `then`. */
    method AskThen(p: nat, value: Value)
      requires Valid() && p < |promises|
      modifies this
      ensures Valid() && Forward(old(promises), promises) && GoesOn() && |plan| <= |old(plan)|
      ensures old(promises[p].state).Pending? && value != PromiseValue(p) && !value.Plain? ==>
        ResolvedAs(p, value, if |old(plan)| == 0 then Turn([], NotCallable) else old(plan)[0], old(queue), promises,
                   queue)
      decreases |plan|, 2
    {
      ghost var before := promises;
      var ending := Interject([]);
      ghost var between := promises;
      TakeThen(p, value, ending);
      ForwardTwice(before, between, promises);
    }

    /** What the reading of `then` has come to. */
    method TakeThen(p: nat, value: Value, ending: Ending)
      requires Valid() && p < |promises|
      modifies this`promises, this`queue, this`queued, this`causes
      ensures Valid() && Forward(old(promises), promises) && GoesOn() && |promises| == |old(promises)|
      ensures old(promises[p].state).Pending? ==>
        match ending
        case Throws(error) => promises[p].state == Rejected(error)
        case NotCallable => promises[p].state == Fulfilled(value)
        case Callable => promises == old(promises) && queue == old(queue) + [ThenCall(p, value)]
    {
      match ending {
        case Throws(error) => Settle(p, Rejected(error));
        case NotCallable => Settle(p, Fulfilled(value));
        case Callable => Enqueue(ThenCall(p, value));
      }
    }

    /** A pending promise is resolved through a gate of its own. */
    method ResolveInto(p: nat, value: Value)
      requires Valid() && p < |promises| && promises[p].state.Pending?
      modifies this
      ensures Valid() && Forward(old(promises), promises) && GoesOn() && |plan| <= |old(plan)|
      ensures ResolvedAs(p, value, if |old(plan)| == 0 then Turn([], NotCallable) else old(plan)[0], old(queue),
                         promises, queue)
      decreases |plan|, 4
    {
      var g := AddGate(p);
      ResolveGate(g, value);
    }

    /** One operation of user code; what refers to nothing is passed over. */
    method Perform(action: Action)
      requires Valid()
      modifies this
      ensures Valid() && Forward(old(promises), promises) && GoesOn() && |plan| <= |old(plan)|
      ensures match action
              case New => promises == old(promises) + [Promise(Pending, [])]
              case Then(p, id) =>
                p < |old(promises)| ==>
                  && registered == old(registered)[p := old(registered)[p] + [Reaction(p, id)]]
                  && if old(promises)[p].state.Pending? then queue == old(queue)
                     else queue == old(queue) + [Reaction(p, id)] && promises == old(promises)
              case Fulfill(p, value) =>
                if Pends(old(promises), p) then promises == old(promises)[p := Promise(Fulfilled(value), [])]
                else promises == old(promises) && queue == old(queue)
              case Reject(p, reason) =>
                if Pends(old(promises), p) then promises == old(promises)[p := Promise(Rejected(reason), [])]
                else promises == old(promises) && queue == old(queue)
              case Adopt(d, s) =>
                d < |old(promises)| && s < |old(promises)| ==>
                  && AdoptsNow(d, s, old(promises), old(queue), promises, queue)
                  && (Pends(old(promises), d) && Pends(old(promises), s) ==> (d, s) in links)
              case CallResolve(g, value) =>
                g < |old(gates)| ==>
                  && gates[g].alreadyResolved
                  && (old(gates)[g].alreadyResolved ==> promises == old(promises) && queue == old(queue))
                  && (!old(gates)[g].alreadyResolved && Pends(old(promises), old(gates)[g].promise) ==>
                        var turn := if |old(plan)| == 0 then Turn([], NotCallable) else old(plan)[0];
                        ResolvedAs(old(gates)[g].promise, value, turn, old(queue), promises, queue))
              case CallReject(g, reason) =>
                g < |old(gates)| ==>
                  && gates[g].alreadyResolved
                  && (old(gates)[g].alreadyResolved ==> promises == old(promises) && queue == old(queue))
                  && (!old(gates)[g].alreadyResolved && Pends(old(promises), old(gates)[g].promise) ==>
                        promises == old(promises)[old(gates)[g].promise := Promise(Rejected(reason), [])])
              case Resolve(p, value) =>
                Pends(old(promises), p) ==>
                  var turn := if |old(plan)| == 0 then Turn([], NotCallable) else old(plan)[0];
                  ResolvedAs(p, value, turn, old(queue), promises, queue)
              case Queue(id) => queue == old(queue) + [Work(id)]
      decreases |plan|, 5
    {
      match action {
        case New => var _, _ := NewPromise();
        case Then(p, id) =>
          if p < |promises| { AddCallback(p, Reaction(p, id)); }
        case Fulfill(p, value) =>
          if p < |promises| { Settle(p, Fulfilled(value)); }
        case Reject(p, reason) =>
          if p < |promises| { Settle(p, Rejected(reason)); }
        case Adopt(d, s) =>
          if d < |promises| && s < |promises| { AdoptInto(d, s); }
        case CallResolve(g, value) =>
          if g < |gates| { ResolveGate(g, value); }
        case CallReject(g, reason) =>
          if g < |gates| { RejectGate(g, reason); }
        case Resolve(p, value) =>
          if p < |promises| && promises[p].state == Pending { ResolveInto(p, value); }
        case Queue(id) => Enqueue(Work(id));
      }
    }

    // ----------------------------------------------------------------- the drain

    /**
    A microtask runs: user code gets control, or a state is taken over. An error of a `then` that is called rejects its
    target through the pair that it was given; `between` is the state in which it threw.
    */
    method RunJob(j: Job) returns (ghost between: Moment)
      requires Valid() && JobOk(j, promises) && current == [j]
      modifies this
      ensures Valid() && Forward(old(promises), promises) && Continues() && ran == old(ran) + [j] && current == []
      ensures |plan| < |old(plan)|
              || (plan == old(plan) && Registered(promises) + |queue| == Registered(old(promises)) + |old(queue)|)
      ensures !j.Adoption? && |old(plan)| > 0 ==> |plan| < |old(plan)|
      ensures j.Adoption? ==>
        promises[j.dest].state ==
          if old(promises[j.dest].state).Pending? then old(promises[j.source].state) else old(promises[j.dest].state)
      ensures j.ThenCall? ==>
        Called(j.target, |old(gates)|, if |old(plan)| == 0 then NotCallable else old(plan)[0].ending, between, Now())
    {
      between := Now();
      match j {
        case Adoption(dest, source) =>
          AdoptInto(dest, source);
          TakeUp();
        case ThenCall(p, _) => between := CallThen(p, j);
        case _ => var _ := Interject([j]);
      }
    }

    ghost function Now(): (m: Moment)
      reads this
    {
      Moment(promises, gates)
    }

    /** A `then` is called with a new pair of resolving functions. */
    method CallThen(p: nat, ghost j: Job) returns (ghost between: Moment)
      requires Valid() && p < |promises| && current == [j] && j.ThenCall?
      modifies this
      ensures Valid() && Forward(old(promises), promises) && Continues() && ran == old(ran) + [j] && current == []
      ensures if |old(plan)| > 0 then |plan| < |old(plan)|
              else plan == old(plan) && Registered(promises) + |queue| == Registered(old(promises)) + |old(queue)|
      ensures Called(p, |old(gates)|, if |old(plan)| == 0 then NotCallable else old(plan)[0].ending, between, Now())
    {
      var g := AddGate(p);
      var ending := Interject([j]);
      between := Now();
      if ending.Throws? {
        RejectGate(g, ending.error);
        ForwardTwice(old(promises), between.promises, promises);
      }
    }

    /** The next job leaves the queue and runs. */
    method RunNext(index: nat)
      requires Valid() && index == done < |queue| && current == []
      modifies this
      ensures Valid() && Forward(old(promises), promises) && done == index + 1 && ran == old(ran) + [old(queue)[index]]
              && old(queue) <= queue && old(queued) <= queued && current == []
      ensures |plan| < |old(plan)|
              || (plan == old(plan) && Registered(promises) + |queue| == Registered(old(promises)) + |old(queue)|)
    {
      var j := queue[index];
      TakeNext(j);
      ghost var _ := RunJob(j);
    }

    ghost method TakeNext(j: Job)
      requires Valid() && done < |queue| && j == queue[done] && current == []
      modifies this`done, this`current
      ensures Valid() && JobOk(j, promises) && done == old(done) + 1 && current == [j]
    {
      assert Unfold(true);
      ghost var waiting := Waiting();
      NextJob(promises, queue, done, queued, ran);
      done, current := done + 1, [j];
      assert Waiting() == waiting;
      assert Consistent();
    }

    /** Runs the jobs of the queue in order, with those that are queued meanwhile, until none is left. */
    method Drain()
      requires Valid() && done == 0 && current == []
      modifies this
      ensures Valid() && Forward(old(promises), promises) && queue == [] && done == 0 && current == [] && ran == queued
              && old(queued) <= queued
    {
      var index := 0;
      while index < |queue|
        invariant Valid() && Forward(old(promises), promises) && index == done <= |queue| && old(queued) <= queued
        invariant current == []
        decreases |plan|, Registered(promises) + |queue| - index
      {
        ghost var before := promises;
        RunNext(index);
        ForwardTwice(old(promises), before, promises);
        index := index + 1;
      }
      Clear();
    }

    method Clear()
      requires Valid() && done == |queue| && current == []
      modifies this`queue, this`done
      ensures Valid() && queue == [] && done == 0 && ran == queued
    {
      assert Unfold(true);
      assert queue[done..] == [];
      queue, done := [], 0;
    }
  }

  datatype Moment = Moment(promises: seq<Promise>, gates: seq<Gate>)

  /** What the call of a `then` with the pair `g` for the promise p has come to, once it has ended. */
  ghost predicate Called(p: nat, g: nat, ending: Ending, between: Moment, after: Moment) {
    && g < |between.gates| && between.gates[g].promise == p < |between.promises|
    && g < |after.gates| && p < |after.promises|
    && (ending.Throws? ==>
          && after.gates[g].alreadyResolved
          && after.promises[p].state ==
             if !between.gates[g].alreadyResolved && between.promises[p].state.Pending? then Rejected(ending.error)
             else between.promises[p].state)
    && (!ending.Throws? ==> after == between)
  }

  /** A job that leaves takes no link with it, if it is no adoption or its promise has been settled. */
  lemma LinksAfter(links: set<(nat, nat)>, ps: seq<Promise>, jobs: seq<Job>, rest: seq<Job>)
    requires LinksOk(links, ps, jobs + rest)
    requires forall i :: 0 <= i < |jobs| && jobs[i].Adoption? ==>
      jobs[i].dest < |ps| && !ps[jobs[i].dest].state.Pending?
    ensures LinksOk(links, ps, rest)
  {
  }

  lemma ForwardTwice(ps: seq<Promise>, ps1: seq<Promise>, ps2: seq<Promise>)
    requires Forward(ps, ps1) && Forward(ps1, ps2)
    ensures Forward(ps, ps2)
  {
  }

  /** No job of a log waited for a promise that does not exist yet. */
  lemma {:induction false} NothingYet(log: seq<Job>, p: nat)
    requires forall i :: 0 <= i < |log| ==> Source(log[i]) < p
    ensures Of(log, p) == []
    decreases |log|
  {
    if log != [] { NothingYet(log[..|log| - 1], p); }
  }

  lemma MoreCallbacks(links: set<(nat, nat)>, ps: seq<Promise>, ps': seq<Promise>, waiting: seq<Job>,
                      waiting': seq<Job>)
    requires LinksOk(links, ps, waiting) && |ps| <= |ps'| && waiting <= waiting'
    requires forall q :: 0 <= q < |ps| ==> ps'[q].state == ps[q].state && ps[q].callbacks <= ps'[q].callbacks
    ensures LinksOk(links, ps', waiting')
  {
  }

  /** Everything that settling a pending promise keeps. */
  lemma Settled(ps: seq<Promise>, p: nat, state: State, registered: seq<seq<Job>>, queue: seq<Job>, done: nat,
                current: seq<Job>, queued: seq<Job>, ran: seq<Job>, links: set<(nat, nat)>, causes: map<nat, Cause>,
                cause: Cause)
    requires p < |ps| == |registered| && ps[p].state.Pending? && !state.Pending? && Explains(cause, state, ps)
    requires JobsOk(ps, queue, done, current, queued, ran) && AllOrdered(ps, registered, queued)
    requires LinksOk(links, ps, current + queue[done..]) && CausesOk(causes, ps)
    ensures var ps', jobs := ps[p := Promise(state, [])], registered[p];
      && JobsOk(ps', queue + jobs, done, current, queued + jobs, ran) && AllOrdered(ps', registered, queued + jobs)
      && LinksOk(links, ps', current + (queue + jobs)[done..]) && CausesOk(causes[p := cause], ps')
      && Registered(ps') + |queue + jobs| == Registered(ps) + |queue|
  {
    var ps', jobs := ps[p := Promise(state, [])], registered[p];
    assert PromiseAt(p, ps, registered, queued);
    RegisteredUpdate(ps, p, ps'[p]);
    MoreJobs(ps, ps', queue, done, current, queued, ran, jobs);
    SettledOrder(ps, ps', registered, queued, queued + jobs, p);
    SettledLinks(links, ps, ps', p, current + queue[done..], jobs);
    SettledCauses(causes, ps, ps', p, cause);
  }

  lemma SettledOrder(ps: seq<Promise>, ps': seq<Promise>, registered: seq<seq<Job>>, queued: seq<Job>,
                     queued': seq<Job>, p: nat)
    requires p < |ps| == |ps'| == |registered| && ps[p].state.Pending? && queued' == queued + registered[p]
    requires AllOrdered(ps, registered, queued)
    requires !ps'[p].state.Pending? && ps'[p].callbacks == [] && ps' == ps[p := ps'[p]]
    ensures AllOrdered(ps', registered, queued')
  {
    assert PromiseAt(p, ps, registered, queued);
    forall q: nat ensures PromiseAt(q, ps', registered, queued') {
      assert PromiseAt(q, ps, registered, queued);
      OfConcat(queued, registered[p], p, q);
    }
  }

  lemma SettledCauses(causes: map<nat, Cause>, ps: seq<Promise>, ps': seq<Promise>, p: nat, cause: Cause)
    requires CausesOk(causes, ps) && p < |ps| == |ps'| && ps' == ps[p := ps'[p]]
    requires ps[p].state.Pending? && !ps'[p].state.Pending? && Explains(cause, ps'[p].state, ps)
    ensures CausesOk(causes[p := cause], ps')
  {
  }

  lemma SettledLinks(links: set<(nat, nat)>, ps: seq<Promise>, ps': seq<Promise>, p: nat, waiting: seq<Job>,
                     callbacks: seq<Job>)
    requires LinksOk(links, ps, waiting) && p < |ps| == |ps'| && callbacks == ps[p].callbacks && !ps'[p].state.Pending?
    requires forall q :: 0 <= q < |ps| && q != p ==> ps'[q] == ps[q]
    ensures LinksOk(links, ps', waiting + callbacks)
  {
  }

  /** Every run: user code performs its operations and the queue is drained, again and again. */
  method Run(plan: seq<Turn>, rounds: nat) returns (r: Runtime)
    ensures r.Valid() && r.queue == [] && r.done == 0 && r.current == [] && r.ran == r.queued
  {
    r := new Runtime(plan);
    for i := 0 to rounds
      invariant r.Valid() && r.queue == [] && r.done == 0 && r.current == [] && r.ran == r.queued
    {
      var _ := r.Interject([]);
      r.Drain();
    }
  }

  /** After a drain, the reactions of a settled promise have run once each, in the order of registration. */
  lemma ReactionsHaveRun(r: Runtime, p: nat)
    requires r.Valid() && r.queue == [] && r.current == [] && p < |r.promises|
    ensures r.promises[p].state.Pending? ==> Of(r.ran, p) == [] && r.promises[p].callbacks == r.registered[p]
    ensures !r.promises[p].state.Pending? ==> Of(r.ran, p) == r.registered[p]
  {
    assert Unfold(true);
    assert PromiseAt(p, r.promises, r.registered, r.queued);
    assert r.Waiting() == [];
    assert r.queued == r.ran;
  }

  /**
  After a drain, a promise that adopted a settled one is settled too: with the state of that one, unless it was
  settled by something else first, in which case it has the state given or that of the other source.
  */
  lemma AdoptionsAreDone(r: Runtime, link: (nat, nat))
    requires r.Valid() && r.queue == [] && r.current == [] && link in r.links
    ensures link.0 < |r.promises| && link.1 < |r.promises|
    ensures !r.promises[link.1].state.Pending? ==>
      && !r.promises[link.0].state.Pending? && link.0 in r.causes
      && Explains(r.causes[link.0], r.promises[link.0].state, r.promises)
  {
    assert Unfold(true);
    assert Linked(link, r.promises, r.Waiting());
    assert PromiseAt(link.1, r.promises, r.registered, r.queued);
  }
}
