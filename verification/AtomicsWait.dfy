/**
The waiter lists of `Atomics.wait`, `Atomics.waitAsync` and `Atomics.notify` (`tsc_atomics_wait.c`), shared by
agents. A method is one critical section.
*/
module AtomicsWait {
  import opened Options
  import opened Sealing
  import opened Lists
  import opened Chains

  datatype Status = Pending | Ok | NotEqual | TimedOut

  /** `promise` tells an asynchronous waiter; `started` one that was put on the list. */
  datatype Waiter = Waiter(block: Option<nat>, offset: nat, expected: nat, noTimeout: bool, agent: nat, promise: bool,
                           status: Status, started: bool)

  /** What becomes of a waiter: it only moves forward through these. */
  datatype Stage = New | Refused | Waiting | Awake | Ready | Scheduled | Resolved | Dropped

  function Rank(s: Stage): (r: nat) {
    match s
    case New => 0
    case Refused => 5
    case Waiting => 1
    case Awake => 5
    case Ready => 2
    case Scheduled => 3
    case Resolved => 5
    case Dropped => 5
  }

  datatype Count = Unlimited | Limited(n: nat)

  /** Which waiters an operation is about: those at an address, or those of an agent. */
  datatype Test = AtAddress(block: nat, offset: nat) | OfAgent(agent: nat)

  predicate Selects(t: Test, w: Waiter) {
    match t
    case AtAddress(block, offset) => w.block == Some(block) && w.offset == offset
    case OfAgent(agent) => w.agent == agent
  }

  // ------------------------------------------------------------ what is selected

  ghost predicate InRange(ws: seq<Waiter>, list: seq<nat>) {
    forall i :: 0 <= i < |list| ==> list[i] < |ws|
  }

  /** A list divided into what stays and what is taken. */
  datatype Split = Split(kept: seq<nat>, taken: seq<nat>)

  /** The first `k` entries of the list, with the first `n` selected ones taken out. */
  ghost function Sift(ws: seq<Waiter>, list: seq<nat>, t: Test, n: nat, k: nat): (s: Split)
    requires InRange(ws, list) && k <= |list|
    ensures |s.taken| <= n && |s.kept| + |s.taken| == k
    ensures InRange(ws, s.taken)
  {
    if k == 0 then Split([], [])
    else
      var s := Sift(ws, list, t, n, k - 1);
      if |s.taken| < n && Selects(t, ws[list[k - 1]]) then s.(taken := s.taken + [list[k - 1]])
      else s.(kept := s.kept + [list[k - 1]])
  }

  /** The selected waiters, in the order of the list. */
  ghost function Matching(ws: seq<Waiter>, list: seq<nat>, t: Test, k: nat): (r: seq<nat>)
    requires InRange(ws, list) && k <= |list|
  {
    if k == 0 then [] else Matching(ws, list, t, k - 1) + (if Selects(t, ws[list[k - 1]]) then [list[k - 1]] else [])
  }

  /** The sift takes the first `n` selected waiters, in order, or all of them if there are fewer. */
  lemma {:induction false} TakesTheFirst(ws: seq<Waiter>, list: seq<nat>, t: Test, n: nat, k: nat)
    requires InRange(ws, list) && k <= |list|
    ensures Sift(ws, list, t, n, k).taken == First(Matching(ws, list, t, k), n)
  {
    if k > 0 {
      TakesTheFirst(ws, list, t, n, k - 1);
      if Selects(t, ws[list[k - 1]]) { FirstOfMore(Matching(ws, list, t, k - 1), list[k - 1], n); }
    }
  }

  ghost function First(list: seq<nat>, n: nat): (r: seq<nat>) {
    if |list| <= n then list else list[..n]
  }

  lemma FirstOfMore(list: seq<nat>, x: nat, n: nat)
    ensures First(list + [x], n) == if |First(list, n)| < n then First(list, n) + [x] else First(list, n)
  {
  }

  /** Whatever is not taken stays, and the other way round. */
  lemma {:induction false} SiftMembers(ws: seq<Waiter>, list: seq<nat>, t: Test, n: nat, k: nat, i: nat)
    requires InRange(ws, list) && Distinct(list) && k <= |list| && i < |list|
    ensures var s := Sift(ws, list, t, n, k);
            && (i < k ==> (list[i] in s.kept <==> list[i] !in s.taken))
            && (i >= k ==> list[i] !in s.taken && list[i] !in s.kept)
            && (list[i] in s.taken ==> Selects(t, ws[list[i]]))
  {
    if k > 0 {
      SiftMembers(ws, list, t, n, k - 1, i);
      assert i != k - 1 ==> list[i] != list[k - 1];
    }
  }

  /** Once enough have been taken, the rest of the list stays as it is. */
  lemma {:induction false} SiftEnough(ws: seq<Waiter>, list: seq<nat>, t: Test, n: nat, k: nat, m: nat)
    requires InRange(ws, list) && k <= m <= |list| && |Sift(ws, list, t, n, k).taken| == n
    ensures Sift(ws, list, t, n, m).taken == Sift(ws, list, t, n, k).taken
            && Sift(ws, list, t, n, m).kept == Sift(ws, list, t, n, k).kept + list[k..m]
    decreases m
  {
    if m > k {
      SiftEnough(ws, list, t, n, k, m - 1);
      assert list[k..m] == list[k..m - 1] + [list[m - 1]];
    }
  }

  /** Enough for all: every selected waiter of the list is taken. */
  lemma {:induction false} NotifyAllReachesAll(ws: seq<Waiter>, list: seq<nat>, t: Test, n: nat, k: nat, i: nat)
    requires InRange(ws, list) && i < k <= |list| && k <= n && Selects(t, ws[list[i]])
    ensures list[i] in Sift(ws, list, t, n, k).taken
  {
    if i < k - 1 { NotifyAllReachesAll(ws, list, t, n, k - 1, i); }
  }

  /** A count that is greater than the number of selected waiters before one reaches that one. */
  lemma {:induction false} ReachedByCount(ws: seq<Waiter>, list: seq<nat>, t: Test, n: nat, k: nat, i: nat)
    requires InRange(ws, list) && i < k <= |list| && Selects(t, ws[list[i]]) && |Matching(ws, list, t, i)| < n
    ensures list[i] in Sift(ws, list, t, n, k).taken
    decreases k
  {
    if k == i + 1 { TakesTheFirst(ws, list, t, n, i); } else { ReachedByCount(ws, list, t, n, k - 1, i); }
  }

  /** Which of the first `k` positions of the list hold a waiter at this place in memory. */
  ghost function Standing(ws: seq<Waiter>, list: seq<nat>, block: nat, offset: nat, k: nat): (positions: set<nat>)
    requires InRange(ws, list) && k <= |list|
  {
    set i: nat | i < k && ws[list[i]].block == Some(block) && ws[list[i]].offset == offset
  }

  lemma {:induction false} MatchingCounts(ws: seq<Waiter>, list: seq<nat>, block: nat, offset: nat, k: nat)
    requires InRange(ws, list) && k <= |list|
    ensures |Matching(ws, list, AtAddress(block, offset), k)| == |Standing(ws, list, block, offset, k)|
  {
    if k > 0 {
      MatchingCounts(ws, list, block, offset, k - 1);
      assert Standing(ws, list, block, offset, k) ==
             Standing(ws, list, block, offset, k - 1) +
             if ws[list[k - 1]].block == Some(block) && ws[list[k - 1]].offset == offset then {k - 1} else {};
    }
  }

  /** A limited count reaches a waiter at the place exactly if fewer than so many stand there before it. */
  predicate Reaches(count: Count, before: nat) {
    count.Unlimited? || before < count.n
  }

  /** What a notification does to one waiter of the list. */
  ghost predicate NotifiedAt(ws: seq<Waiter>, stage: seq<Stage>, list: seq<nat>, ws': seq<Waiter>, stage': seq<Stage>,
                             block: nat, offset: nat, count: Count, i: nat)
    requires InRange(ws, list) && i < |list| && |ws| == |stage| == |ws'| == |stage'|
  {
    var x := list[i];
    if ws[x].block == Some(block) && ws[x].offset == offset && Reaches(count, |Standing(ws, list, block, offset, i)|)
    then ws'[x] == ws[x].(status := Ok, block := None) && stage'[x] == if ws[x].promise then Ready else Awake
    else ws'[x] == ws[x] && stage'[x] == stage[x]
  }

  /** Whatever stands elsewhere, or behind those that are woken, stays as it was. */
  ghost predicate Notified(ws: seq<Waiter>, stage: seq<Stage>, list: seq<nat>, ws': seq<Waiter>, stage': seq<Stage>,
                           block: nat, offset: nat, count: Count)
    requires InRange(ws, list)
  {
    && |ws| == |stage| == |ws'| == |stage'|
    && (forall i: nat :: i < |list| ==> NotifiedAt(ws, stage, list, ws', stage', block, offset, count, i))
    && (forall x: nat :: x < |ws| && x !in list ==> ws'[x] == ws[x] && stage'[x] == stage[x])
  }

  lemma ChangedNotifies(ws: seq<Waiter>, stage: seq<Stage>, list: seq<nat>, ws': seq<Waiter>, stage': seq<Stage>,
                        block: nat, offset: nat, count: Count)
    requires InRange(ws, list) && Distinct(list)
    requires Changed(ws, stage, ws', stage',
                     Sift(ws, list, AtAddress(block, offset), Limit(count, |list|), |list|).taken, Ok)
    ensures Notified(ws, stage, list, ws', stage', block, offset, count)
  {
    var t, n := AtAddress(block, offset), Limit(count, |list|);
    var taken := Sift(ws, list, t, n, |list|).taken;
    TakenFromList(ws, list, t, n, |list|);
    forall i: nat | i < |list| ensures NotifiedAt(ws, stage, list, ws', stage', block, offset, count, i) {
      MatchingCounts(ws, list, block, offset, i);
      if Selects(t, ws[list[i]]) { TakenIfReached(ws, list, t, n, i); }
      MatchingFits(ws, list, t, i);
    }
  }

  lemma {:induction false} MatchingFits(ws: seq<Waiter>, list: seq<nat>, t: Test, k: nat)
    requires InRange(ws, list) && k <= |list|
    ensures |Matching(ws, list, t, k)| <= k
  {
    if k > 0 { MatchingFits(ws, list, t, k - 1); }
  }

  /** A selected waiter is taken exactly if fewer than the limit stand before it. */
  lemma TakenIfReached(ws: seq<Waiter>, list: seq<nat>, t: Test, n: nat, i: nat)
    requires InRange(ws, list) && Distinct(list) && i < |list| && Selects(t, ws[list[i]])
    ensures list[i] in Sift(ws, list, t, n, |list|).taken <==> |Matching(ws, list, t, i)| < n
  {
    TakesTheFirst(ws, list, t, n, i);
    if |Matching(ws, list, t, i)| < n {
      ReachedByCount(ws, list, t, n, |list|, i);
    } else {
      SiftEnough(ws, list, t, n, i, |list|);
      SiftMembers(ws, list, t, n, i, i);
    }
  }

  // --------------------------------------------------------------------- stages

  /** Where a waiter is, and what its record says. */
  ghost predicate Placed(ws: seq<Waiter>, stage: seq<Stage>, waiting: seq<nat>, ready: seq<nat>, scheduled: seq<nat>,
                         resolved: seq<nat>, w: nat) {
    w < |ws| == |stage| ==>
      && (w in waiting <==> stage[w] == Waiting) && (w in ready <==> stage[w] == Ready)
      && (w in scheduled <==> stage[w] == Scheduled) && (w in resolved <==> stage[w] == Resolved)
      && (ws[w].status.Pending? <==> stage[w] == New || stage[w] == Waiting)
      && (stage[w] == New || stage[w] == Waiting ==> ws[w].block.Some?) && (stage[w] == New ==> !ws[w].started)
      && (stage[w] == Waiting ==> ws[w].started)
      && (stage[w] in {Ready, Scheduled, Resolved, Dropped} ==> ws[w].promise && ws[w].status in {Ok, TimedOut})
      && (stage[w] == Awake ==> !ws[w].promise && ws[w].status in {Ok, TimedOut})
  }

  ghost predicate AllPlaced(ws: seq<Waiter>, stage: seq<Stage>, waiting: seq<nat>, ready: seq<nat>, scheduled: seq<nat>,
                            resolved: seq<nat>) {
    forall w: nat {:trigger Placed(ws, stage, waiting, ready, scheduled, resolved, w)} ::
      Placed(ws, stage, waiting, ready, scheduled, resolved, w)
  }

  /** Nothing moves back, and a status that is no longer pending never changes. */
  ghost predicate Forward(ws: seq<Waiter>, stage: seq<Stage>, ws': seq<Waiter>, stage': seq<Stage>) {
    && |ws| == |stage| <= |ws'| == |stage'|
    && (forall w :: 0 <= w < |ws| ==> stage[w] == stage'[w] || Rank(stage[w]) < Rank(stage'[w]))
    && (forall w :: 0 <= w < |ws| && !ws[w].status.Pending? ==> ws'[w].status == ws[w].status)
  }

  ghost function Done(w: Waiter, result: Status): (r: Waiter) { w.(status := result, block := None) }

  ghost function DoneStage(w: Waiter): (s: Stage) { if w.promise then Ready else Awake }

  /** Exactly these waiters have been completed. */
  ghost predicate Changed(ws: seq<Waiter>, stage: seq<Stage>, ws': seq<Waiter>, stage': seq<Stage>, done: seq<nat>,
                          result: Status) {
    && |ws'| == |ws| == |stage| == |stage'|
    && (forall x: nat :: x < |ws| ==> ws'[x] == if x in done then Done(ws[x], result) else ws[x])
    && (forall x: nat :: x < |ws| ==> stage'[x] == if x in done then DoneStage(ws[x]) else stage[x])
  }

  ghost function Promised(ws: seq<Waiter>, list: seq<nat>): (r: seq<nat>)
    requires InRange(ws, list)
  {
    if list == [] then []
    else Promised(ws, list[..|list| - 1]) + (if ws[list[|list| - 1]].promise then [list[|list| - 1]] else [])
  }

  ghost function Limit(count: Count, size: nat): (r: nat) {
    if count.Unlimited? then size else count.n
  }

  lemma Suffix(pre: seq<nat>, list: seq<nat>, k: nat)
    requires k < |list|
    ensures list[k..][1..] == list[k + 1..] && list[k..][0] == list[k]
            && pre + list[k..] == (pre + [list[k]]) + list[k + 1..]
  {
  }

  lemma TakenOut(pre: seq<nat>, rest: seq<nat>, i: nat)
    requires Distinct(pre + rest) && rest != [] && i < |pre + rest| && (pre + rest)[i] == rest[0]
    ensures Without(pre + rest, i) == pre + rest[1..]
  {
    assert (pre + rest)[|pre|] == rest[0];
    assert i == |pre|;
  }

  /** The sifted waiters were on the list, so they were waiting. */
  lemma {:induction false} TakenFromList(ws: seq<Waiter>, list: seq<nat>, t: Test, n: nat, k: nat)
    requires InRange(ws, list) && k <= |list|
    ensures forall x :: x in Sift(ws, list, t, n, k).taken ==> x in list && Selects(t, ws[x])
    ensures forall x :: x in Sift(ws, list, t, n, k).kept ==> x in list
    ensures forall x :: x in list[..k] ==> x in Sift(ws, list, t, n, k).taken || x in Sift(ws, list, t, n, k).kept
  {
    if k > 0 {
      TakenFromList(ws, list, t, n, k - 1);
      assert list[..k] == list[..k - 1] + [list[k - 1]];
    }
  }

  /** Sifting divides a list without repetitions into two such lists with nothing in common. */
  lemma {:induction false} SiftDistinct(ws: seq<Waiter>, list: seq<nat>, t: Test, n: nat, k: nat)
    requires InRange(ws, list) && Distinct(list) && k <= |list|
    ensures Distinct(Sift(ws, list, t, n, k).taken) && Distinct(Sift(ws, list, t, n, k).kept)
    ensures forall x :: x in Sift(ws, list, t, n, k).taken ==> x !in Sift(ws, list, t, n, k).kept
  {
    if k > 0 {
      SiftDistinct(ws, list, t, n, k - 1);
      SiftMembers(ws, list, t, n, k - 1, k - 1);
    }
  }

  lemma ChangedMore(ws: seq<Waiter>, stage: seq<Stage>, ws1: seq<Waiter>, stage1: seq<Stage>, ws2: seq<Waiter>,
                    stage2: seq<Stage>, done: seq<nat>, x: nat, result: Status)
    requires Changed(ws, stage, ws1, stage1, done, result) && x < |ws| && x !in done && InRange(ws, done)
    requires ws2 == ws1[x := Done(ws1[x], result)] && stage2 == stage1[x := DoneStage(ws1[x])]
    ensures Changed(ws, stage, ws2, stage2, done + [x], result)
    ensures InRange(ws, done + [x])
    ensures forall ready ::
      ready + Promised(ws, done + [x]) == (ready + Promised(ws, done)) + (if ws1[x].promise then [x] else [])
  {
  }

  lemma Successor(next: seq<int>, head: int, tail: int, pre: seq<nat>, list: seq<nat>, k: nat)
    requires k < |list| && Chain(next, head, tail, pre + list[k..])
    ensures list[k] < |next| && next[list[k]] == At(list, k + 1)
  {
    assert Hop(next, pre + list[k..], |pre|) && (pre + list[k..])[|pre|] == list[k];
  }

  /** Completing waiters moves them forward. */
  lemma ChangedForward(ws: seq<Waiter>, stage: seq<Stage>, ws': seq<Waiter>, stage': seq<Stage>, done: seq<nat>,
                       result: Status)
    requires Changed(ws, stage, ws', stage', done, result)
    requires forall x: nat :: x < |ws| && x in done ==> stage[x] == Waiting && ws[x].status.Pending?
    ensures Forward(ws, stage, ws', stage')
  {
  }

  /** A record that is not on the list has no successor. */
  ghost predicate Loose(next: seq<int>, list: seq<nat>) {
    forall w: nat :: w < |next| && w !in list ==> next[w] == NONE
  }

  lemma KeptLast(pre: seq<nat>, list: seq<nat>, k: nat)
    requires k < |list|
    ensures Without(pre + list[k..], |pre|) == pre + list[k + 1..]
    ensures At(pre + list[k..], |pre| - 1) == At(pre, |pre| - 1) && At(pre + list[k..], |pre| + 1) == At(list, k + 1)
  {
  }

  /** What a sweep has kept ends right before the record that it takes out. */
  lemma TakenOff(next: seq<int>, head: int, tail: int, pre: seq<nat>, list: seq<nat>, k: nat)
    requires k < |list| && Chain(next, head, tail, pre + list[k..])
    ensures list[k] < |next| && next[list[k]] == At(list, k + 1) && (pre != [] ==> pre[|pre| - 1] < |next|)
    ensures var next' := (if pre != [] then next[pre[|pre| - 1] := At(list, k + 1)] else next)[list[k] := NONE];
            Chain(next', if pre == [] then At(list, k + 1) else head,
                  if tail == list[k] then At(pre, |pre| - 1) else tail, pre + list[k + 1..])
  {
    var all, i := pre + list[k..], |pre|;
    assert all[i] == list[k] && (i > 0 ==> all[i - 1] == pre[i - 1]);
    assert Hop(next, all, i) && (i > 0 ==> Hop(next, all, i - 1));
    KeptLast(pre, list, k);
    Unlinked(next, head, tail, all, i,
             (if pre != [] then next[pre[|pre| - 1] := At(list, k + 1)] else next)[list[k] := NONE]);
  }

  lemma StaysLoose(next: seq<int>, pre: seq<nat>, list: seq<nat>, k: nat, next': seq<int>)
    requires k < |list| && Loose(next, pre + list[k..]) && list[k] < |next| && (pre != [] ==> pre[|pre| - 1] < |next|)
    requires next' == (if pre != [] then next[pre[|pre| - 1] := At(list, k + 1)] else next)[list[k] := NONE]
    ensures Loose(next', pre + list[k + 1..])
  {
  }

  /** The waiters of a list are given a new stage. */
  ghost function Restaged(stage: seq<Stage>, list: seq<nat>, s: Stage): (r: seq<Stage>)
    ensures |r| == |stage| && forall x :: 0 <= x < |stage| ==> r[x] == if x in list then s else stage[x]
  {
    seq(|stage|, x requires 0 <= x < |stage| => if x in list then s else stage[x])
  }

  /** Completing one waiter leaves every waiter where its stage says. */
  lemma CompletePlaced(ws: seq<Waiter>, stage: seq<Stage>, waiting: seq<nat>, ready: seq<nat>, scheduled: seq<nat>,
                       resolved: seq<nat>,
                       w: nat, result: Status, waiting': seq<nat>, ready': seq<nat>)
    requires w < |ws| == |stage| && stage[w] == Waiting && result in {Ok, TimedOut}
    requires AllPlaced(ws, stage, waiting, ready, scheduled, resolved)
    requires forall x :: x in waiting' <==> x in waiting && x != w
    requires ready' == ready + if ws[w].promise then [w] else []
    ensures AllPlaced(ws[w := Done(ws[w], result)], stage[w := DoneStage(ws[w])], waiting', ready', scheduled, resolved)
  {
    var ws', stage' := ws[w := Done(ws[w], result)], stage[w := DoneStage(ws[w])];
    forall x: nat ensures Placed(ws', stage', waiting', ready', scheduled, resolved, x) {
      assert Placed(ws, stage, waiting, ready, scheduled, resolved, x);
    }
  }

  class WaiterLists {
    var waiters: seq<Waiter>
    var next: seq<int>
    var readyNext: seq<int>
    var waitingHead: int
    var waitingTail: int
    var readyHead: int
    var readyTail: int
    /** The microtasks that will resolve a promise. */
    var scheduled: seq<nat>
    ghost var waiting: seq<nat>
    ghost var ready: seq<nat>
    ghost var resolved: seq<nat>
    ghost var stage: seq<Stage>

    ghost predicate Lists()
      reads this
    {
      && |next| == |readyNext| == |waiters| == |stage|
      && Chain(next, waitingHead, waitingTail, waiting) && Chain(readyNext, readyHead, readyTail, ready)
      && Loose(next, waiting) && Loose(readyNext, ready)
      && InRange(waiters, waiting) && InRange(waiters, ready) && Distinct(scheduled) && Distinct(resolved)
      && InRange(waiters, scheduled) && InRange(waiters, resolved)
    }

    ghost predicate Valid()
      reads this
    {
      Lists() && AllPlaced(waiters, stage, waiting, ready, scheduled, resolved)
    }

    constructor ()
      ensures Valid() && waiters == [] && waiting == [] && resolved == []
    {
      waiters, next, readyNext, scheduled := [], [], [], [];
      waitingHead, waitingTail, readyHead, readyTail := NONE, NONE, NONE, NONE;
      waiting, ready, resolved, stage := [], [], [], [];
    }

    /** A new record, not on any list. */
    method Create(block: nat, offset: nat, expected: nat, noTimeout: bool, agent: nat, promise: bool) returns (w: nat)
      requires Valid()
      modifies this`waiters, this`next, this`readyNext, this`stage
      ensures Valid() && w == |old(waiters)| && stage == old(stage) + [New]
      ensures waiters == old(waiters) + [Waiter(Some(block), offset, expected, noTimeout, agent, promise, Pending,
                                                false)]
    {
      w := |waiters|;
      waiters := waiters + [Waiter(Some(block), offset, expected, noTimeout, agent, promise, Pending, false)];
      next, readyNext, stage := next + [NONE], readyNext + [NONE], stage + [New];
      assert forall i: nat {:trigger Hop(next, waiting, i)} :: Hop(old(next), waiting, i) ==> Hop(next, waiting, i);
      assert forall i: nat {:trigger Hop(readyNext, ready, i)} ::
        Hop(old(readyNext), ready, i) ==> Hop(readyNext, ready, i);
      forall x: nat ensures Placed(waiters, stage, waiting, ready, scheduled, resolved, x) {
        assert Placed(old(waiters), old(stage), waiting, ready, scheduled, resolved, x);
      }
    }

    method AppendWaiting(w: nat)
      requires Chain(next, waitingHead, waitingTail, waiting) && w < |next| && w !in waiting && Loose(next, waiting)
      modifies this`next, this`waitingHead, this`waitingTail, this`waiting
      ensures Chain(next, waitingHead, waitingTail, waiting) && waiting == old(waiting) + [w] && |next| == |old(next)|
              && Loose(next, waiting)
    {
      ghost var next0, head0, tail0 := next, waitingHead, waitingTail;
      LastInRange(next, head0, tail0, waiting);
      if waitingTail != NONE {
        next := next[waitingTail := w];
      } else {
        waitingHead := w;
      }
      waitingTail := w;
      Appended(next0, head0, tail0, waiting, w, next);
      waiting := waiting + [w];
    }

    method AppendReady(w: nat)
      requires Chain(readyNext, readyHead, readyTail, ready) && w < |readyNext| && w !in ready
               && Loose(readyNext, ready)
      modifies this`readyNext, this`readyHead, this`readyTail, this`ready
      ensures Chain(readyNext, readyHead, readyTail, ready) && ready == old(ready) + [w]
              && |readyNext| == |old(readyNext)| && Loose(readyNext, ready)
    {
      ghost var next0, head0, tail0 := readyNext, readyHead, readyTail;
      LastInRange(next0, head0, tail0, ready);
      if readyTail != NONE {
        readyNext := readyNext[readyTail := w];
      } else {
        readyHead := w;
      }
      readyTail := w;
      Appended(next0, head0, tail0, ready, w, readyNext);
      ready := ready + [w];
    }

    /** Takes a record off the waiting list. */
    method UnlinkWaiting(w: nat) returns (ghost i: nat)
      requires Chain(next, waitingHead, waitingTail, waiting) && w in waiting && Loose(next, waiting)
      modifies this`next, this`waitingHead, this`waitingTail, this`waiting
      ensures i < |old(waiting)| && old(waiting)[i] == w && waiting == Without(old(waiting), i)
      ensures Chain(next, waitingHead, waitingTail, waiting) && |next| == |old(next)| && Loose(next, waiting)
    {
      ghost var next0, head0, tail0 := next, waitingHead, waitingTail;
      var previous, cursor := NONE, waitingHead;
      i := 0;
      while cursor != NONE && cursor != w
        invariant i < |waiting| && cursor == waiting[i] && previous == At(waiting, i - 1) && w !in waiting[..i]
        decreases |waiting| - i
      {
        assert Hop(next, waiting, i);
        previous := cursor;
        cursor := next[cursor];
        i := i + 1;
        assert waiting[..i] == waiting[..i - 1] + [waiting[i - 1]];
      }
      assert Hop(next, waiting, i) && (i > 0 ==> Hop(next, waiting, i - 1));
      if previous != NONE {
        next := next[previous := next[cursor]];
      } else {
        waitingHead := next[cursor];
      }
      if waitingTail == cursor { waitingTail := previous; }
      next := next[w := NONE];
      Unlinked(next0, head0, tail0, waiting, i, next);
      WithoutMembers(waiting, i);
      waiting := Without(waiting, i);
    }

    /** The one way out of waiting. */
    method CompleteLocked(w: nat, result: Status) returns (ghost i: nat)
      requires Valid() && w < |waiters| && stage[w] != New && result in {Ok, TimedOut}
      modifies this`waiters, this`next, this`waitingHead, this`waitingTail, this`waiting, this`readyNext,
               this`readyHead, this`readyTail, this`ready, this`stage
      ensures Valid()
      ensures old(stage[w]) != Waiting ==>
        waiters == old(waiters) && stage == old(stage) && waiting == old(waiting) && ready == old(ready)
      ensures old(stage[w]) == Waiting ==>
        && waiters == old(waiters)[w := Done(old(waiters[w]), result)]
        && stage == old(stage)[w := DoneStage(old(waiters[w]))]
        && i < |old(waiting)| && old(waiting)[i] == w && waiting == Without(old(waiting), i)
        && ready == old(ready) + (if old(waiters[w]).promise then [w] else [])
    {
      assert Placed(waiters, stage, waiting, ready, scheduled, resolved, w);
      if waiters[w].status != Pending { return 0; }
      ghost var waiting0 := waiting;
      i := UnlinkWaiting(w);
      WithoutMembers(waiting0, i);
      waiters := waiters[w := waiters[w].(status := result, block := None)];
      stage := stage[w := DoneStage(waiters[w])];
      if waiters[w].promise { AppendReady(w); }
      CompletePlaced(old(waiters), old(stage), old(waiting), old(ready), scheduled, resolved, w, result, waiting,
                     ready);
    }

    /** The first of the waiters that are still to come is completed. */
    method CompleteNext(ghost pre: seq<nat>, ghost rest: seq<nat>, w: nat, result: Status)
      requires Valid() && result in {Ok, TimedOut} && waiting == pre + rest && rest != [] && w == rest[0]
               && w < |waiters|
      modifies this`waiters, this`next, this`waitingHead, this`waitingTail, this`waiting, this`readyNext,
               this`readyHead, this`readyTail, this`ready, this`stage
      ensures Valid() && waiting == pre + rest[1..]
      ensures waiters == old(waiters)[w := Done(old(waiters[w]), result)]
              && stage == old(stage)[w := DoneStage(old(waiters[w]))]
      ensures ready == old(ready) + (if old(waiters[w]).promise then [w] else [])
    {
      assert w == waiting[|pre|] && Placed(waiters, stage, waiting, ready, scheduled, resolved, w);
      ghost var i := CompleteLocked(w, result);
      TakenOut(pre, rest, i);
    }

    /** How far a sweep of the waiting list has come. */
    ghost predicate Progress(ws: seq<Waiter>, stage0: seq<Stage>, ready0: seq<nat>, list: seq<nat>, s: Split, k: nat,
                             result: Status)
      reads this
    {
      && Valid() && k <= |list| && InRange(ws, s.taken) && waiting == s.kept + list[k..]
      && Changed(ws, stage0, waiters, stage, s.taken, result) && ready == ready0 + Promised(ws, s.taken)
    }

    /** The same, folded away where only its steps matter. */
    ghost predicate Sweeping(ws: seq<Waiter>, stage0: seq<Stage>, ready0: seq<nat>, list: seq<nat>, s: Split, k: nat,
                             result: Status)
      reads this
    {
      forall b {:trigger Unfold(b)} :: Unfold(b) ==> Progress(ws, stage0, ready0, list, s, k, result)
    }

    /** One waiter is passed or completed. */
    method SweepOne(t: Test, cursor: nat, result: Status, ghost ws: seq<Waiter>, ghost stage0: seq<Stage>,
                    ghost ready0: seq<nat>, ghost list: seq<nat>,
                    ghost n: nat, ghost k: nat, ghost s: Split)
      returns (following: int, taken: bool, ghost s': Split)
      requires InRange(ws, list) && Distinct(list) && k < |list| && result in {Ok, TimedOut}
               && s == Sift(ws, list, t, n, k)
      requires Sweeping(ws, stage0, ready0, list, s, k, result) && |s.taken| < n && cursor == list[k]
      modifies this`waiters, this`next, this`waitingHead, this`waitingTail, this`waiting, this`readyNext,
               this`readyHead, this`readyTail, this`ready, this`stage
      ensures following == At(list, k + 1) && s' == Sift(ws, list, t, n, k + 1)
              && Sweeping(ws, stage0, ready0, list, s', k + 1, result)
      ensures |s'.taken| == |s.taken| + (if taken then 1 else 0)
    {
      assert Unfold(true);
      Successor(next, waitingHead, waitingTail, s.kept, list, k);
      Suffix(s.kept, list, k);
      SiftMembers(ws, list, t, n, k, k);
      following := next[cursor];
      taken := Selects(t, waiters[cursor]);
      s' := Sift(ws, list, t, n, k + 1);
      if taken {
        ghost var w1, s1 := waiters, stage;
        CompleteNext(s.kept, list[k..], cursor, result);
        ChangedMore(ws, stage0, w1, s1, waiters, stage, s.taken, list[k], result);
      }
    }

    lemma SweepIsOver(t: Test, result: Status, ws: seq<Waiter>, stage0: seq<Stage>, ready0: seq<nat>, list: seq<nat>,
                      n: nat, k: nat, s: Split, f: Split)
      requires InRange(ws, list) && k <= |list| && s == Sift(ws, list, t, n, k) && f == Sift(ws, list, t, n, |list|)
      requires Sweeping(ws, stage0, ready0, list, s, k, result) && (k == |list| || |s.taken| == n)
      ensures f.taken == s.taken && Valid() && waiting == f.kept && Changed(ws, stage0, waiters, stage, f.taken, result)
              && ready == ready0 + Promised(ws, f.taken)
    {
      assert Unfold(true);
      if k < |list| { SiftEnough(ws, list, t, n, k, |list|); }
      assert list[k..|list|] == list[k..];
    }

    method Sweep(t: Test, count: Count, result: Status, ghost ws: seq<Waiter>, ghost stage0: seq<Stage>,
                 ghost ready0: seq<nat>, ghost list: seq<nat>, ghost n: nat)
      returns (notified: nat, ghost k: nat, ghost s: Split)
      requires InRange(ws, list) && Distinct(list) && result in {Ok, TimedOut} && n == Limit(count, |list|)
               && waitingHead == At(list, 0)
      requires Sweeping(ws, stage0, ready0, list, Split([], []), 0, result)
      modifies this`waiters, this`next, this`waitingHead, this`waitingTail, this`waiting, this`readyNext,
               this`readyHead, this`readyTail, this`ready, this`stage
      ensures k <= |list| && s == Sift(ws, list, t, n, k) && Sweeping(ws, stage0, ready0, list, s, k, result)
              && notified == |s.taken| && (k == |list| || |s.taken| == n)
    {
      k, s, notified := 0, Split([], []), 0;
      var cursor := waitingHead;
      while cursor != NONE && (count.Unlimited? || notified < count.n)
        invariant k <= |list| && s == Sift(ws, list, t, n, k) && Sweeping(ws, stage0, ready0, list, s, k, result)
        invariant notified == |s.taken| && cursor == At(list, k)
        decreases |list| - k
      {
        var taken;
        cursor, taken, s := SweepOne(t, cursor, result, ws, stage0, ready0, list, n, k, s);
        notified := if taken then notified + 1 else notified;
        k := k + 1;
      }
    }

    /** Completes the selected waiters of the list in order, up to a count. */
    method CompleteAll(t: Test, count: Count, result: Status) returns (notified: nat)
      requires Valid() && result in {Ok, TimedOut}
      modifies this`waiters, this`next, this`waitingHead, this`waitingTail, this`waiting, this`readyNext,
               this`readyHead, this`readyTail, this`ready, this`stage
      ensures Valid()
      ensures (ghost var s := Sift(old(waiters), old(waiting), t, Limit(count, |old(waiting)|), |old(waiting)|);
               waiting == s.kept && notified == |s.taken|
               && Changed(old(waiters), old(stage), waiters, stage, s.taken, result)
               && ready == old(ready) + Promised(old(waiters), s.taken))
    {
      ghost var ws, list, n := waiters, waiting, Limit(count, |waiting|);
      ghost var k: nat, s: Split;
      assert list[0..] == list;
      notified, k, s := Sweep(t, count, result, ws, stage, ready, list, n);
      SweepIsOver(t, result, ws, old(stage), old(ready), list, n, k, s, Sift(ws, list, t, n, |list|));
    }

    /** The sifted ready list, while its agent takes its own waiters off it. */
    ghost predicate Sifted(list: seq<nat>, s: Split, k: nat)
      reads this
    {
      && k <= |list| && ready == s.kept + list[k..] && |readyNext| == |waiters|
      && Chain(readyNext, readyHead, readyTail, ready) && Loose(readyNext, ready)
    }

    /** The same, folded away where only its steps matter. */
    ghost predicate Taking(list: seq<nat>, s: Split, k: nat)
      reads this
    {
      forall b {:trigger Unfold(b)} :: Unfold(b) ==> Sifted(list, s, k)
    }

    method TakeOne(cursor: nat, previous: int, ghost list: seq<nat>, ghost s: Split, ghost s': Split,
                   ghost k: nat) returns (following: int)
      requires k < |list| && Taking(list, s, k) && cursor == list[k] && previous == At(s.kept, |s.kept| - 1)
               && s'.kept == s.kept
      modifies this`readyNext, this`readyHead, this`readyTail, this`ready
      ensures Taking(list, s', k + 1) && following == At(list, k + 1)
    {
      assert Unfold(true);
      TakenOff(readyNext, readyHead, readyTail, s.kept, list, k);
      following := readyNext[cursor];
      ghost var next0 := readyNext;
      if previous != NONE {
        readyNext := readyNext[previous := following];
      } else {
        readyHead := following;
      }
      if readyTail == cursor { readyTail := previous; }
      readyNext := readyNext[cursor := NONE];
      StaysLoose(next0, s.kept, list, k, readyNext);
      ready := s.kept + list[k + 1..];
    }

    method PassOne(cursor: nat, ghost list: seq<nat>, ghost s: Split, ghost s': Split,
                   ghost k: nat) returns (following: int)
      requires k < |list| && Taking(list, s, k) && cursor == list[k] && s'.kept == s.kept + [list[k]]
      ensures Taking(list, s', k + 1) && following == At(list, k + 1)
    {
      assert Unfold(true);
      Successor(readyNext, readyHead, readyTail, s.kept, list, k);
      Suffix(s.kept, list, k);
      following := readyNext[cursor];
    }

    method TakeAll(agent: nat, ghost list: seq<nat>) returns (mine: seq<nat>, ghost s: Split)
      requires InRange(waiters, list) && Taking(list, Split([], []), 0) && readyHead == At(list, 0)
      modifies this`readyNext, this`readyHead, this`readyTail, this`ready
      ensures s == Sift(waiters, list, OfAgent(agent), |list|, |list|) && mine == s.taken && Taking(list, s, |list|)
    {
      ghost var k := 0;
      s := Split([], []);
      mine := [];
      var previous, cursor := NONE, readyHead;
      while cursor != NONE
        invariant k <= |list| && s == Sift(waiters, list, OfAgent(agent), |list|, k) && Taking(list, s, k)
        invariant mine == s.taken && cursor == At(list, k) && previous == At(s.kept, |s.kept| - 1)
        decreases |list| - k
      {
        ghost var s' := Sift(waiters, list, OfAgent(agent), |list|, k + 1);
        if waiters[cursor].agent == agent {
          mine := mine + [cursor];
          cursor := TakeOne(cursor, previous, list, s, s', k);
        } else {
          previous := cursor;
          cursor := PassOne(cursor, list, s, s', k);
        }
        k, s := k + 1, s';
      }
    }

    /** Takes the waiters of an agent off the ready list, in order. */
    method TakeReady(agent: nat) returns (mine: seq<nat>)
      requires Lists()
      modifies this`readyNext, this`readyHead, this`readyTail, this`ready
      ensures (ghost var s := Sift(waiters, old(ready), OfAgent(agent), |old(ready)|, |old(ready)|);
               mine == s.taken && ready == s.kept)
      ensures Chain(readyNext, readyHead, readyTail, ready) && Loose(readyNext, ready) && |readyNext| == |waiters|
    {
      ghost var list, s := ready, Split([], []);
      assert list[0..] == list;
      mine, s := TakeAll(agent, list);
      assert Unfold(true);
      assert s.kept + list[|list|..] == s.kept;
    }

    method Refuse(w: nat, status: Status)
      requires Valid() && w < |waiters| && stage[w] == New && status in {NotEqual, TimedOut}
      modifies this`waiters, this`stage
      ensures Valid() && Forward(old(waiters), old(stage), waiters, stage)
      ensures waiters == old(waiters)[w := old(waiters[w]).(status := status)] && stage == old(stage)[w := Refused]
    {
      assert Placed(waiters, stage, waiting, ready, scheduled, resolved, w);
      waiters := waiters[w := waiters[w].(status := status)];
      stage := stage[w := Refused];
      forall x: nat ensures Placed(waiters, stage, waiting, ready, scheduled, resolved, x) {
        assert Placed(old(waiters), old(stage), waiting, ready, scheduled, resolved, x);
      }
    }

    method Enter(w: nat)
      requires Valid() && w < |waiters| && stage[w] == New
      modifies this`waiters, this`next, this`waitingHead, this`waitingTail, this`waiting, this`stage
      ensures Valid() && Forward(old(waiters), old(stage), waiters, stage)
      ensures waiters == old(waiters)[w := old(waiters[w]).(started := true)] && stage == old(stage)[w := Waiting]
              && waiting == old(waiting) + [w]
      ensures waiters[w].status == Pending
    {
      assert Placed(waiters, stage, waiting, ready, scheduled, resolved, w);
      waiters := waiters[w := waiters[w].(started := true)];
      stage := stage[w := Waiting];
      AppendWaiting(w);
      forall x: nat ensures Placed(waiters, stage, waiting, ready, scheduled, resolved, x) {
        assert Placed(old(waiters), old(stage), old(waiting), ready, scheduled, resolved, x);
      }
    }

    /** Compares and enters the list in one critical section; `read` is the word in memory at that moment. */
    method Begin(w: nat, read: nat) returns (status: Status)
      requires Valid() && w < |waiters| && stage[w] == New
      modifies this`waiters, this`next, this`waitingHead, this`waitingTail, this`waiting, this`stage
      ensures Valid() && Forward(old(waiters), old(stage), waiters, stage) && |waiters| == |old(waiters)|
              && status == waiters[w].status
      ensures status == (if read != old(waiters[w]).expected then NotEqual
                         else if old(waiters[w]).promise && old(waiters[w]).noTimeout then TimedOut else Pending)
      ensures waiting == old(waiting) + (if status == Pending then [w] else [])
              && stage == old(stage)[w := if status == Pending then Waiting else Refused]
      ensures waiters == old(waiters)[w := old(waiters[w]).(status := status, started := status == Pending)]
    {
      assert Placed(waiters, stage, waiting, ready, scheduled, resolved, w);
      if read != waiters[w].expected {
        Refuse(w, NotEqual);
      } else if waiters[w].promise && waiters[w].noTimeout {
        Refuse(w, TimedOut);
      } else {
        Enter(w);
      }
      status := waiters[w].status;
    }

    /** Wakes the first waiters at an address, up to a count. */
    method Notify(block: nat, offset: nat, count: Count) returns (notified: nat)
      requires Valid()
      modifies this`waiters, this`next, this`waitingHead, this`waitingTail, this`waiting, this`readyNext,
               this`readyHead, this`readyTail, this`ready, this`stage
      ensures Valid() && Forward(old(waiters), old(stage), waiters, stage)
      ensures (ghost var m := Matching(old(waiters), old(waiting), AtAddress(block, offset), |old(waiting)|);
               ghost var woken := First(m, Limit(count, |old(waiting)|));
               && notified == |woken| && InRange(old(waiters), woken)
               && Changed(old(waiters), old(stage), waiters, stage, woken, Ok)
               && ready == old(ready) + Promised(old(waiters), woken))
      ensures InRange(old(waiters), old(waiting))
              && Notified(old(waiters), old(stage), old(waiting), waiters, stage, block, offset, count)
      ensures (ghost var standing := |Standing(old(waiters), old(waiting), block, offset, |old(waiting)|)|;
               notified == if Reaches(count, standing) then standing else count.n)
      ensures waiting == Sift(old(waiters), old(waiting), AtAddress(block, offset), Limit(count, |old(waiting)|),
                              |old(waiting)|).kept
    {
      ghost var ws, list, n := waiters, waiting, Limit(count, |waiting|);
      var t := AtAddress(block, offset);
      WaitingIsPending();
      notified := CompleteAll(t, count, Ok);
      TakenFromList(ws, list, t, n, |list|);
      TakesTheFirst(ws, list, t, n, |list|);
      ChangedForward(ws, old(stage), waiters, stage, Sift(ws, list, t, n, |list|).taken, Ok);
      ChangedNotifies(ws, old(stage), list, waiters, stage, block, offset, count);
      MatchingCounts(ws, list, block, offset, |list|);
      MatchingFits(ws, list, t, |list|);
    }

    lemma WaitingIsPending()
      requires Valid()
      ensures forall x :: x in waiting ==> x < |waiters| && stage[x] == Waiting && waiters[x].status.Pending?
    {
      forall x | x in waiting ensures x < |waiters| && stage[x] == Waiting && waiters[x].status.Pending? {
        assert Placed(waiters, stage, waiting, ready, scheduled, resolved, x);
      }
    }

    lemma WaitingHasStarted()
      requires Valid()
      ensures forall x: nat :: x < |waiters| && stage[x] == Waiting ==> waiters[x].started
    {
      forall x: nat | x < |waiters| && stage[x] == Waiting ensures waiters[x].started {
        assert Placed(waiters, stage, waiting, ready, scheduled, resolved, x);
      }
    }

    lemma StagesOfLists()
      requires Valid()
      ensures forall x: nat :: x < |waiters| ==>
        (x in waiting <==> stage[x] == Waiting) && (x in ready <==> stage[x] == Ready)
      ensures forall x: nat :: x < |waiters| && stage[x] == Ready ==> waiters[x].promise
    {
      forall x: nat | x < |waiters|
        ensures (x in waiting <==> stage[x] == Waiting) && (x in ready <==> stage[x] == Ready)
                && (stage[x] == Ready ==> waiters[x].promise)
      {
        assert Placed(waiters, stage, waiting, ready, scheduled, resolved, x);
      }
    }

    /** The ready list without one agent's waiters, which get a new stage. */
    lemma Restage(ready0: seq<nat>, stage0: seq<Stage>, scheduled0: seq<nat>, mine: seq<nat>, s: Stage)
      requires Lists() && InRange(waiters, ready0) && |stage0| == |waiters| && Divides(ready0, mine, ready)
      requires AllPlaced(waiters, stage0, waiting, ready0, scheduled0, resolved)
      requires stage == Restaged(stage0, mine, s) && (s == Scheduled || s == Dropped)
      requires scheduled == if s == Scheduled then scheduled0 + mine else scheduled0
      ensures Valid() && Forward(waiters, stage0, waiters, stage)
    {
      forall x: nat
        ensures Placed(waiters, stage, waiting, ready, scheduled, resolved, x)
        ensures x < |waiters| ==> stage0[x] == stage[x] || Rank(stage0[x]) < Rank(stage[x])
      {
        assert Placed(waiters, stage0, waiting, ready0, scheduled0, resolved, x);
        if x < |waiters| {
          RestageOne(waiters, stage0, stage, waiting, ready0, ready, scheduled0, scheduled, resolved, mine, s, x);
        }
      }
    }

    /** Each completed waiter of the agent becomes a microtask that will resolve its promise. */
    method ScheduleCompletions(agent: nat)
      requires Valid()
      modifies this`readyNext, this`readyHead, this`readyTail, this`ready, this`scheduled, this`stage
      ensures Valid() && Forward(waiters, old(stage), waiters, stage)
      ensures (ghost var mine := Sift(waiters, old(ready), OfAgent(agent), |old(ready)|, |old(ready)|).taken;
               scheduled == old(scheduled) + mine && stage == Restaged(old(stage), mine, Scheduled))
    {
      ghost var ready0 := ready;
      var mine := TakeReady(agent);
      SiftIsPart(ready0, agent);
      DisjointFrom(old(ready), old(stage), mine);
      scheduled := scheduled + mine;
      stage := Restaged(stage, mine, Scheduled);
      Restage(ready0, old(stage), old(scheduled), mine, Scheduled);
    }

    lemma SiftIsPart(ready0: seq<nat>, agent: nat)
      requires InRange(waiters, ready0) && Distinct(ready0)
      ensures (var s := Sift(waiters, ready0, OfAgent(agent), |ready0|, |ready0|);
               Distinct(s.taken) && InRange(waiters, s.kept) && Divides(ready0, s.taken, s.kept))
    {
      TakenFromList(waiters, ready0, OfAgent(agent), |ready0|, |ready0|);
      SiftDistinct(waiters, ready0, OfAgent(agent), |ready0|, |ready0|);
      var s := Sift(waiters, ready0, OfAgent(agent), |ready0|, |ready0|);
      assert ready0[..|ready0|] == ready0;
      forall i | 0 <= i < |s.kept| ensures s.kept[i] < |waiters| {
        assert s.kept[i] in s.kept;
      }
    }

    /** No waiter is ready and scheduled at once. */
    lemma DisjointFrom(ready0: seq<nat>, stage0: seq<Stage>, mine: seq<nat>)
      requires |stage0| == |waiters| && InRange(waiters, ready0) && Distinct(scheduled) && Distinct(mine)
               && InRange(waiters, scheduled)
      requires forall x :: x in mine ==> x in ready0
      requires AllPlaced(waiters, stage0, waiting, ready0, scheduled, resolved)
      ensures Distinct(scheduled + mine) && InRange(waiters, scheduled + mine)
    {
      forall i, j | 0 <= i < |scheduled| && 0 <= j < |mine| ensures scheduled[i] != mine[j] && mine[j] < |waiters| {
        assert mine[j] in mine && scheduled[i] in scheduled;
        assert Placed(waiters, stage0, waiting, ready0, scheduled, resolved, mine[j]);
      }
      forall j | 0 <= j < |mine| ensures mine[j] < |waiters| {
        assert mine[j] in mine;
      }
    }

    /** A microtask resolves the promise of its waiter. */
    method Resolve(k: nat)
      requires Valid() && k < |scheduled|
      modifies this`scheduled, this`resolved, this`stage
      ensures Valid() && Forward(waiters, old(stage), waiters, stage)
      ensures resolved == old(resolved) + [old(scheduled)[k]] && scheduled == Without(old(scheduled), k)
              && stage == old(stage)[old(scheduled)[k] := Resolved]
    {
      var w := scheduled[k];
      assert Placed(waiters, stage, waiting, ready, scheduled, resolved, w);
      WithoutMembers(scheduled, k);
      scheduled := Without(scheduled, k);
      resolved := resolved + [w];
      stage := stage[w := Resolved];
      forall x: nat ensures Placed(waiters, stage, waiting, ready, scheduled, resolved, x) {
        assert Placed(waiters, old(stage), waiting, ready, old(scheduled), old(resolved), x);
      }
    }

    /** The completed waiters of an agent are dropped. */
    method DropReady(agent: nat)
      requires Valid()
      modifies this`readyNext, this`readyHead, this`readyTail, this`ready, this`stage
      ensures Valid() && Forward(waiters, old(stage), waiters, stage)
      ensures (ghost var s := Sift(waiters, old(ready), OfAgent(agent), |old(ready)|, |old(ready)|);
               ready == s.kept && stage == Restaged(old(stage), s.taken, Dropped))
    {
      ghost var ready0, stage0 := ready, stage;
      var mine := TakeReady(agent);
      SiftIsPart(ready0, agent);
      stage := Restaged(stage, mine, Dropped);
      Restage(ready0, stage0, scheduled, mine, Dropped);
    }

    /** The waiters of an agent time out, wherever they stand in the list. */
    method ExpireAgent(agent: nat) returns (ghost s: Split)
      requires Valid()
      modifies this`waiters, this`next, this`waitingHead, this`waitingTail, this`waiting
      modifies this`readyNext, this`readyHead, this`readyTail, this`ready, this`stage
      ensures Valid() && Forward(old(waiters), old(stage), waiters, stage)
      ensures s == Sift(old(waiters), old(waiting), OfAgent(agent), |old(waiting)|, |old(waiting)|) && waiting == s.kept
      ensures Changed(old(waiters), old(stage), waiters, stage, s.taken, TimedOut)
      ensures ready == old(ready) + Promised(old(waiters), s.taken)
    {
      ghost var ws, list := waiters, waiting;
      WaitingIsPending();
      s := Sift(ws, list, OfAgent(agent), |list|, |list|);
      TakenFromList(ws, list, OfAgent(agent), |list|, |list|);
      var _ := CompleteAll(OfAgent(agent), Unlimited, TimedOut);
      ChangedForward(ws, old(stage), waiters, stage, s.taken, TimedOut);
    }

    /** The agent is gone: its waiters time out, and none of its promises will be resolved. */
    method AbandonAgent(agent: nat)
      requires Valid()
      modifies this`waiters, this`next, this`waitingHead, this`waitingTail, this`waiting
      modifies this`readyNext, this`readyHead, this`readyTail, this`ready, this`stage
      ensures Valid() && Forward(old(waiters), old(stage), waiters, stage)
      ensures Abandoned(old(waiters), old(stage), waiters, stage, agent)
      ensures waiting == Sift(old(waiters), old(waiting), OfAgent(agent), |old(waiting)|, |old(waiting)|).kept
      ensures ready == Sift(old(waiters), old(ready), OfAgent(agent), |old(ready)|, |old(ready)|).kept
    {
      ghost var ws, list, ready0, stage0 := waiters, waiting, ready, stage;
      StagesOfLists();
      ghost var s := ExpireAgent(agent);
      ghost var ws1, stage1, ready1 := waiters, stage, ready;
      DropReady(agent);
      ForwardTwice(ws, stage0, ws1, stage1, waiters, stage);
      OthersStayReady(ws, stage0, list, ready0, ws1, stage1, s.taken, agent);
      AbandonedOnly(ws, stage0, list, ready0, ws1, stage1, s.taken, ready1, stage, agent);
    }

    /** The timer of an asynchronous waiter fires. */
    method TimeoutWaiter(w: nat, agent: nat) returns (ghost i: nat)
      requires Valid() && w < |waiters| && waiters[w].started
      modifies this`waiters, this`next, this`waitingHead, this`waitingTail, this`waiting, this`readyNext,
               this`readyHead, this`readyTail, this`ready, this`scheduled, this`stage
      ensures Valid() && Forward(old(waiters), old(stage), waiters, stage) && |waiters| == |old(waiters)|
      ensures waiters ==
        if old(stage[w]) == Waiting then old(waiters)[w := Done(old(waiters[w]), TimedOut)] else old(waiters)
      ensures old(stage[w]) == Waiting ==>
        i < |old(waiting)| && old(waiting)[i] == w && waiting == Without(old(waiting), i)
      ensures old(stage[w]) != Waiting ==> waiting == old(waiting)
      ensures (ghost var late := old(stage[w]) != Waiting;
               ghost var stage1 := if late then old(stage) else old(stage)[w := DoneStage(old(waiters[w]))];
               ghost var ready1 := old(ready) + (if late || !old(waiters[w]).promise then [] else [w]);
               && InRange(waiters, ready1)
               && (ghost var mine := Sift(waiters, ready1, OfAgent(agent), |ready1|, |ready1|).taken;
                   scheduled == old(scheduled) + mine && stage == Restaged(stage1, mine, Scheduled)))
    {
      i := Expire(w);
      ghost var ws1, stage1 := waiters, stage;
      assert old(ready) + [] == old(ready);
      ScheduleCompletions(agent);
      ForwardTwice(old(waiters), old(stage), ws1, stage1, waiters, stage);
    }

    method Expire(w: nat) returns (ghost i: nat)
      requires Valid() && w < |waiters| && waiters[w].started
      modifies this`waiters, this`next, this`waitingHead, this`waitingTail, this`waiting, this`readyNext,
               this`readyHead, this`readyTail, this`ready, this`stage
      ensures Valid() && Forward(old(waiters), old(stage), waiters, stage) && |waiters| == |old(waiters)|
      ensures old(stage[w]) == Waiting ==>
        && waiters == old(waiters)[w := Done(old(waiters[w]), TimedOut)]
        && stage == old(stage)[w := DoneStage(old(waiters[w]))]
        && i < |old(waiting)| && old(waiting)[i] == w && waiting == Without(old(waiting), i)
        && ready == old(ready) + (if old(waiters[w]).promise then [w] else [])
      ensures old(stage[w]) != Waiting ==>
        waiters == old(waiters) && stage == old(stage) && waiting == old(waiting) && ready == old(ready)
        && stage[w] != New
    {
      assert Placed(waiters, stage, waiting, ready, scheduled, resolved, w);
      i := CompleteLocked(w, TimedOut);
    }

    /** One round of a suspended synchronous waiter: its result, or nothing while it sleeps on. */
    method SuspendRound(w: nat, elapsed: bool) returns (result: Option<Status>)
      requires Valid() && w < |waiters| && waiters[w].started
      modifies this`waiters, this`next, this`waitingHead, this`waitingTail, this`waiting, this`readyNext,
               this`readyHead, this`readyTail, this`ready, this`stage
      ensures Valid() && Forward(old(waiters), old(stage), waiters, stage) && |waiters| == |old(waiters)|
      ensures (result.None? <==> stage[w] == Waiting) && (result.Some? ==> result.value == waiters[w].status != Pending)
      ensures if old(stage[w]) == Waiting && elapsed
              then waiters == old(waiters)[w := Done(old(waiters[w]), TimedOut)]
                   && stage == old(stage)[w := DoneStage(old(waiters[w]))]
              else waiters == old(waiters) && stage == old(stage)
      ensures old(stage[w]) != Waiting ==> result == Some(old(waiters[w].status))
    {
      assert Placed(waiters, stage, waiting, ready, scheduled, resolved, w);
      if waiters[w].status == Pending && elapsed { var _ := Expire(w); }
      assert Placed(waiters, stage, waiting, ready, scheduled, resolved, w);
      result := if waiters[w].status == Pending then None else Some(waiters[w].status);
    }

    /** How many waiters there are at an address. */
    method Count(block: nat, offset: nat) returns (count: nat)
      requires Valid()
      ensures count == |Standing(waiters, waiting, block, offset, |waiting|)|
    {
      ghost var k := 0;
      count := 0;
      var cursor := waitingHead;
      while cursor != NONE
        invariant k <= |waiting| && cursor == At(waiting, k)
                  && count == |Matching(waiters, waiting, AtAddress(block, offset), k)|
        decreases |waiting| - k
      {
        assert Hop(next, waiting, k);
        if Selects(AtAddress(block, offset), waiters[cursor]) { count := count + 1; }
        k, cursor := k + 1, next[cursor];
      }
      MatchingCounts(waiters, waiting, block, offset, k);
    }

    /** A waiter that has compared and not left is reached exactly by a notification of more than stand before it. */
    lemma SeenByNotify(w: nat, n: nat)
      requires Valid() && w < |waiters| && stage[w] == Waiting
      ensures waiters[w].block.Some?
      ensures (var block, offset := waiters[w].block.value, waiters[w].offset;
               exists i: nat ::
                 && i < |waiting| && waiting[i] == w
                 && (w in Sift(waiters, waiting, AtAddress(block, offset), n, |waiting|).taken <==>
                       |Standing(waiters, waiting, block, offset, i)| < n))
    {
      assert Placed(waiters, stage, waiting, ready, scheduled, resolved, w);
      var block, offset := waiters[w].block.value, waiters[w].offset;
      var i: nat :| i < |waiting| && waiting[i] == w;
      TakenIfReached(waiters, waiting, AtAddress(block, offset), n, i);
      MatchingCounts(waiters, waiting, block, offset, i);
    }
  }

  lemma ForwardTwice(ws: seq<Waiter>, stage: seq<Stage>, ws1: seq<Waiter>, stage1: seq<Stage>, ws2: seq<Waiter>,
                     stage2: seq<Stage>)
    requires Forward(ws, stage, ws1, stage1) && Forward(ws1, stage1, ws2, stage2)
    ensures Forward(ws, stage, ws2, stage2)
  {
  }

  /** A list is divided into two without anything in common. */
  ghost predicate Divides(list: seq<nat>, taken: seq<nat>, kept: seq<nat>) {
    && (forall x :: x in list <==> x in taken || x in kept) && (forall x :: x in taken ==> x !in kept)
  }

  lemma RestageOne(ws: seq<Waiter>, stage0: seq<Stage>, stage: seq<Stage>, waiting: seq<nat>, ready0: seq<nat>,
                   ready: seq<nat>, scheduled0: seq<nat>, scheduled: seq<nat>,
                   resolved: seq<nat>, mine: seq<nat>, s: Stage, x: nat)
    requires |stage0| == |ws| && x < |ws| && Divides(ready0, mine, ready)
             && Placed(ws, stage0, waiting, ready0, scheduled0, resolved, x)
    requires stage == Restaged(stage0, mine, s) && (s == Scheduled || s == Dropped)
    requires scheduled == if s == Scheduled then scheduled0 + mine else scheduled0
    ensures Placed(ws, stage, waiting, ready, scheduled, resolved, x)
            && (stage0[x] == stage[x] || Rank(stage0[x]) < Rank(stage[x]))
  {
  }

  /** Without a limit, the waiters of an agent are exactly those that are taken. */
  lemma TakenOfAgent(ws: seq<Waiter>, list: seq<nat>, agent: nat)
    requires InRange(ws, list)
    ensures forall x: nat :: x < |ws| ==>
      (x in Sift(ws, list, OfAgent(agent), |list|, |list|).taken <==> x in list && ws[x].agent == agent)
  {
    var s := Sift(ws, list, OfAgent(agent), |list|, |list|);
    TakenFromList(ws, list, OfAgent(agent), |list|, |list|);
    forall x: nat | x in list && ws[x].agent == agent ensures x in s.taken {
      var i :| 0 <= i < |list| && list[i] == x;
      NotifyAllReachesAll(ws, list, OfAgent(agent), |list|, |list|, i);
    }
  }

  lemma {:induction false} PromisedMembers(ws: seq<Waiter>, list: seq<nat>)
    requires InRange(ws, list)
    ensures forall x :: x in Promised(ws, list) <==> x in list && ws[x].promise
  {
    if list != [] {
      PromisedMembers(ws, list[..|list| - 1]);
      assert list == list[..|list| - 1] + [list[|list| - 1]];
    }
  }

  /** The sift by agent depends on the agents alone. */
  lemma {:induction false} SiftSameAgents(ws: seq<Waiter>, ws': seq<Waiter>, list: seq<nat>, agent: nat, n: nat, k: nat)
    requires InRange(ws, list) && |ws'| == |ws| && k <= |list|
    requires forall x: nat :: x < |ws| ==> ws'[x].agent == ws[x].agent
    ensures Sift(ws', list, OfAgent(agent), n, k) == Sift(ws, list, OfAgent(agent), n, k)
  {
    if k > 0 { SiftSameAgents(ws, ws', list, agent, n, k - 1); }
  }

  /** What is taken anyway leaves the rest of the list as it would be without it. */
  lemma {:induction false} SiftAppended(ws: seq<Waiter>, list: seq<nat>, more: seq<nat>, agent: nat, n: nat)
    requires InRange(ws, list) && InRange(ws, more) && n >= |list + more|
    requires forall i :: 0 <= i < |more| ==> ws[more[i]].agent == agent
    ensures InRange(ws, list + more)
    ensures Sift(ws, list + more, OfAgent(agent), n, |list + more|).kept ==
      Sift(ws, list, OfAgent(agent), |list|, |list|).kept
  {
    if more == [] {
      assert list + more == list;
      SiftUnlimited(ws, list, list, agent, n, |list|, |list|);
    } else {
      var shorter := more[..|more| - 1];
      SiftAppended(ws, list, shorter, agent, n);
      SiftUnlimited(ws, list + more, list + shorter, agent, n, n, |list + shorter|);
    }
  }

  /** A limit that is not reached and entries that are not looked at make no difference. */
  lemma {:induction false} SiftUnlimited(ws: seq<Waiter>, list: seq<nat>, list': seq<nat>, agent: nat, n: nat, n': nat,
                                         k: nat)
    requires InRange(ws, list) && InRange(ws, list') && k <= |list| && k <= |list'| && k <= n && k <= n'
             && list[..k] == list'[..k]
    ensures Sift(ws, list, OfAgent(agent), n, k) == Sift(ws, list', OfAgent(agent), n', k)
  {
    if k > 0 {
      assert list[..k - 1] == list[..k][..k - 1] && list'[..k - 1] == list'[..k][..k - 1];
      assert list[k - 1] == list[..k][k - 1] && list'[k - 1] == list'[..k][k - 1];
      SiftUnlimited(ws, list, list', agent, n, n', k - 1);
    }
  }

  /** One waiter when an agent is gone: nothing happens to the waiters of other agents. */
  ghost predicate AbandonedAt(w: Waiter, s: Stage, w': Waiter, s': Stage, agent: nat) {
    && w' == (if w.agent == agent && s == Waiting then Done(w, TimedOut) else w)
    && s' == if w.agent != agent || s !in {Waiting, Ready} then s else if w.promise then Dropped else Awake
  }

  ghost predicate Abandoned(ws: seq<Waiter>, stage: seq<Stage>, ws': seq<Waiter>, stage': seq<Stage>, agent: nat) {
    && |ws| == |stage| == |ws'| == |stage'|
    && forall x: nat :: x < |ws| ==> AbandonedAt(ws[x], stage[x], ws'[x], stage'[x], agent)
  }

  /**
  The completed waiters of the agent join the ready list and are dropped from it, so the others stay as they were.
  */
  lemma OthersStayReady(ws: seq<Waiter>, stage: seq<Stage>, list: seq<nat>, ready: seq<nat>, ws1: seq<Waiter>,
                        stage1: seq<Stage>,
                        taken: seq<nat>, agent: nat)
    requires InRange(ws, list) && InRange(ws, ready) && Changed(ws, stage, ws1, stage1, taken, TimedOut)
    requires taken == Sift(ws, list, OfAgent(agent), |list|, |list|).taken
    ensures var ready1 := ready + Promised(ws, taken);
            && InRange(ws, ready1)
            && Sift(ws1, ready1, OfAgent(agent), |ready1|, |ready1|).kept ==
               Sift(ws, ready, OfAgent(agent), |ready|, |ready|).kept
  {
    var more := Promised(ws, taken);
    var ready1 := ready + more;
    PromisedMembers(ws, taken);
    TakenFromList(ws, list, OfAgent(agent), |list|, |list|);
    assert forall i :: 0 <= i < |more| ==> more[i] in more;
    SiftAppended(ws, ready, more, agent, |ready1|);
    SiftSameAgents(ws, ws1, ready1, agent, |ready1|, |ready1|);
  }

  lemma AbandonedOnly(ws: seq<Waiter>, stage: seq<Stage>, list: seq<nat>, ready: seq<nat>, ws1: seq<Waiter>,
                      stage1: seq<Stage>,
                      taken: seq<nat>, ready1: seq<nat>, stage2: seq<Stage>, agent: nat)
    requires InRange(ws, list) && Changed(ws, stage, ws1, stage1, taken, TimedOut)
    requires forall x: nat :: x < |ws| ==> (x in list <==> stage[x] == Waiting) && (x in ready <==> stage[x] == Ready)
    requires forall x: nat :: x < |ws| && stage[x] == Ready ==> ws[x].promise
    requires taken == Sift(ws, list, OfAgent(agent), |list|, |list|).taken && ready1 == ready + Promised(ws, taken)
    requires InRange(ws1, ready1)
             && stage2 == Restaged(stage1, Sift(ws1, ready1, OfAgent(agent), |ready1|, |ready1|).taken, Dropped)
    ensures Abandoned(ws, stage, ws1, stage2, agent)
  {
    TakenOfAgent(ws, list, agent);
    TakenOfAgent(ws1, ready1, agent);
    PromisedMembers(ws, taken);
    forall x: nat | x < |ws| ensures AbandonedAt(ws[x], stage[x], ws1[x], stage2[x], agent) {
      assert x in ready1 <==> x in ready || x in Promised(ws, taken);
    }
  }

  // ------------------------------------------------------------------- whole runs

  /** What agents do, one critical section at a time; words in memory change at any time. */
  datatype Event =
    | Store(block: nat, offset: nat, word: nat)
    | Wait(block: nat, offset: nat, expected: nat, noTimeout: bool, agent: nat, promise: bool)
    | Wake(block: nat, offset: nat, count: Count)
    | Timer(waiter: nat, agent: nat)
    | Sleep(waiter: nat, elapsed: bool)
    | Collect(agent: nat)
    | Microtask(index: nat)
    | Leave(agent: nat)

  /** The waiters and their stages between two critical sections. */
  datatype Moment = Moment(waiters: seq<Waiter>, stage: seq<Stage>)

  ghost predicate Follows(m: Moment, m': Moment) {
    Forward(m.waiters, m.stage, m'.waiters, m'.stage)
  }

  /** Every moment of a run follows the one before. */
  ghost predicate MovesForward(history: seq<Moment>) {
    forall i :: 0 < i < |history| ==> Follows(history[i - 1], history[i])
  }

  /** What holds from step to step holds between any two moments of a run. */
  lemma {:induction false} NothingMovesBack(history: seq<Moment>, i: nat, j: nat)
    requires MovesForward(history) && i <= j < |history| && |history[i].waiters| == |history[i].stage|
    ensures Follows(history[i], history[j])
    decreases j
  {
    if i < j {
      NothingMovesBack(history, i, j - 1);
      var a, b, c := history[i], history[j - 1], history[j];
      assert Follows(b, c);
      ForwardTwice(a.waiters, a.stage, b.waiters, b.stage, c.waiters, c.stage);
    }
  }

  type Memory = map<(nat, nat), nat>

  /** All that the lists hold. */
  datatype Holding = Holding(waiters: seq<Waiter>, stage: seq<Stage>, waiting: seq<nat>, ready: seq<nat>,
                             scheduled: seq<nat>, resolved: seq<nat>)

  ghost function Held(lists: WaiterLists): (h: Holding)
    reads lists
  {
    Holding(lists.waiters, lists.stage, lists.waiting, lists.ready, lists.scheduled, lists.resolved)
  }

  /** A call that waits leaves a new record: refused, or last on the list if the word was the expected one. */
  ghost predicate Entered(event: Event, word: nat, h: Holding, h': Holding)
    requires event.Wait?
  {
    var status := if word != event.expected then NotEqual
                  else if event.promise && event.noTimeout then TimedOut else Pending;
    && h'.waiting == h.waiting + (if status == Pending then [|h.waiters|] else [])
    && h'.waiters == h.waiters + [Waiter(Some(event.block), event.offset, event.expected, event.noTimeout, event.agent,
                                         event.promise, status, status == Pending)]
  }

  /** A waiter that still waits has timed out; nothing else has. */
  ghost predicate Expired(h: Holding, w: nat, h': Holding)
    requires |h.stage| == |h.waiters|
  {
    h'.waiters == if w < |h.waiters| && h.stage[w] == Waiting then h.waiters[w := Done(h.waiters[w], TimedOut)]
                  else h.waiters
  }

  /** What an event does to the waiters. */
  ghost predicate Happens(event: Event, word: nat, h: Holding, h': Holding) {
    && |h.stage| == |h.waiters| && InRange(h.waiters, h.waiting) && InRange(h.waiters, h.ready)
    && match event
       case Store(_, _, _) => h' == h
       case Wait(_, _, _, _, _, _) => Entered(event, word, h, h')
       case Wake(block, offset, count) =>
         Notified(h.waiters, h.stage, h.waiting, h'.waiters, h'.stage, block, offset, count)
       case Timer(w, _) => Expired(h, w, h')
       case Sleep(w, elapsed) => if elapsed then Expired(h, w, h') else h'.waiters == h.waiters
       case Collect(agent) =>
         h'.scheduled == h.scheduled + Sift(h.waiters, h.ready, OfAgent(agent), |h.ready|, |h.ready|).taken
       case Microtask(k) =>
         h'.resolved == h.resolved + if k < |h.scheduled| then [h.scheduled[k]] else []
       case Leave(agent) => Abandoned(h.waiters, h.stage, h'.waiters, h'.stage, agent)
  }

  /** What an agent does to begin or end waiting. */
  method PerformWaiting(lists: WaiterLists, read: nat, event: Event)
    requires lists.Valid() && (event.Wait? || event.Wake? || event.Leave?)
    modifies lists
    ensures lists.Valid() && Follows(old(Moment(lists.waiters, lists.stage)), Moment(lists.waiters, lists.stage))
    ensures Happens(event, read, old(Held(lists)), Held(lists))
  {
    match event {
      case Wait(block, offset, expected, noTimeout, agent, promise) =>
        var w := lists.Create(block, offset, expected, noTimeout, agent, promise);
        var _ := lists.Begin(w, read);
      case Wake(block, offset, count) => var _ := lists.Notify(block, offset, count);
      case Leave(agent) => lists.AbandonAgent(agent);
    }
  }

  /** What a timer, a sleeping thread or the event loop of an agent does; what refers to nothing is passed over. */
  method PerformWaking(lists: WaiterLists, event: Event)
    requires lists.Valid() && (event.Timer? || event.Sleep? || event.Collect? || event.Microtask?)
    modifies lists
    ensures lists.Valid() && Follows(old(Moment(lists.waiters, lists.stage)), Moment(lists.waiters, lists.stage))
    ensures Happens(event, 0, old(Held(lists)), Held(lists))
  {
    lists.WaitingHasStarted();
    match event {
      case Timer(w, agent) =>
        if w < |lists.waiters| && lists.waiters[w].started { var _ := lists.TimeoutWaiter(w, agent); }
      case Sleep(w, elapsed) =>
        if w < |lists.waiters| && lists.waiters[w].started { var _ := lists.SuspendRound(w, elapsed); }
      case Collect(agent) => lists.ScheduleCompletions(agent);
      case Microtask(k) =>
        if k < |lists.scheduled| { lists.Resolve(k); }
    }
  }

  /** One event moves every waiter forward or leaves it where it is. */
  method Perform(lists: WaiterLists, memory: Memory, event: Event) returns (memory': Memory)
    requires lists.Valid()
    modifies lists
    ensures lists.Valid() && Follows(old(Moment(lists.waiters, lists.stage)), Moment(lists.waiters, lists.stage))
    ensures memory' == if event.Store? then memory[(event.block, event.offset) := event.word] else memory
    ensures Happens(event, if event.Wait? && (event.block, event.offset) in memory
                           then memory[(event.block, event.offset)] else 0, old(Held(lists)), Held(lists))
  {
    memory' := memory;
    if event.Store? {
      memory' := memory[(event.block, event.offset) := event.word];
    } else if event.Wait? || event.Wake? || event.Leave? {
      PerformWaiting(lists, if event.Wait? then WordAt(memory, event.block, event.offset) else 0, event);
    } else {
      PerformWaking(lists, event);
    }
  }

  /** The word in memory; what has not been stored to is 0. */
  function WordAt(memory: Memory, block: nat, offset: nat): (word: nat) {
    if (block, offset) in memory then memory[(block, offset)] else 0
  }

  /** The same record never waits twice, and no promise is resolved twice, whatever the agents do. */
  method Run(events: seq<Event>) returns (lists: WaiterLists, ghost history: seq<Moment>)
    ensures lists.Valid() && Distinct(lists.resolved)
    ensures |history| == |events| + 1 && history[|events|] == Moment(lists.waiters, lists.stage)
            && MovesForward(history)
  {
    lists := new WaiterLists();
    history := [Moment([], lists.stage)];
    var memory: Memory := map[];
    for i := 0 to |events|
      invariant lists.Valid() && |history| == i + 1 && history[i] == Moment(lists.waiters, lists.stage)
                && MovesForward(history)
    {
      memory := Perform(lists, memory, events[i]);
      history := history + [Moment(lists.waiters, lists.stage)];
    }
  }
}
