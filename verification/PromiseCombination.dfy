/**
`Promise.all`, `allSettled`, `any` and `race` (`tsc_promise.c`): the intake of an iterable and the callbacks
of its elements, which user code may call at any time, in any order and more than once. A plan
says what user code does each time that it runs.
*/
module PromiseCombination {
  import opened Sealing

  type Value = nat

  datatype Operation = All | Race | Any | AllSettled

  /** An entry of the result: nothing yet, a value, or a record that says how its promise was settled. */
  datatype Slot = Undefined | Given(value: Value) | WasFulfilled(value: Value) | WasRejected(value: Value)

  /** A call of one of the two callbacks of an element. */
  datatype Call = Call(index: nat, rejected: bool, value: Value)

  datatype Ending = Throws | Ends | Goes

  /**
  What user code is asked for: to open the iterator, for its next item, to make a promise of an item, to take callbacks;
  to close the iterator; to take the result; or nothing in particular.
  */
  datatype Request = Opens | Steps | Resolves | Thens | Closes | HandsOver | Later

  /** How user code has answered. */
  datatype Answer = Answer(request: Request, ending: Ending)

  datatype Turn = Turn(calls: seq<Call>, ending: Ending)

  datatype Intake = Taking | Finished | Failed

  predicate IsIntake(r: Request) {
    r.Opens? || r.Steps? || r.Resolves? || r.Thens?
  }

  /** The answer ends the intake: the iterator has no item left, or something threw. */
  predicate Decides(a: Answer) {
    IsIntake(a.request) && (a.ending.Throws? || a == Answer(Steps, Ends))
  }

  /** The iterator is to be closed: something threw, but not the iterator itself. */
  predicate Abandons(a: Answer) {
    a.ending.Throws? && (a.request.Resolves? || a.request.Thens?)
  }

  ghost predicate Undecided(answers: seq<Answer>) {
    forall i :: 0 <= i < |answers| ==> !Decides(answers[i])
  }

  ghost predicate OnlyDecision(answers: seq<Answer>, k: nat) {
    k < |answers| && Decides(answers[k]) && forall i :: 0 <= i < |answers| && i != k ==> !Decides(answers[i])
  }

  /** The iterator is closed at most once: right after the decision, and exactly if that abandons it. */
  ghost predicate ClosedAfter(answers: seq<Answer>, k: nat) {
    && k < |answers|
    && (Abandons(answers[k]) ==> k + 1 < |answers| && answers[k + 1].request.Closes?)
    && (forall i :: 0 <= i < |answers| && answers[i].request.Closes? ==> Abandons(answers[k]) && i == k + 1)
  }

  /** What the answers of user code make of the intake. */
  ghost predicate Outcome(answers: seq<Answer>, intake: Intake) {
    match intake
    case Taking => Undecided(answers)
    case Finished => exists k: nat :: OnlyDecision(answers, k) && ClosedAfter(answers, k) && !answers[k].ending.Throws?
    case Failed => exists k: nat :: OnlyDecision(answers, k) && ClosedAfter(answers, k) && answers[k].ending.Throws?
  }

  /** The items that the iterator has given. */
  ghost function Items(answers: seq<Answer>): (n: nat) {
    if answers == [] then 0
    else Items(answers[..|answers| - 1]) + if answers[|answers| - 1] == Answer(Steps, Goes) then 1 else 0
  }

  /** Answers that have nothing to do with the intake have been added. */
  ghost predicate Aside(answers: seq<Answer>, answers': seq<Answer>) {
    && answers <= answers'
    && forall i :: |answers| <= i < |answers'| ==> answers'[i].request.HandsOver? || answers'[i].request.Later?
  }

  lemma AsideKeeps(answers: seq<Answer>, answers': seq<Answer>, intake: Intake)
    requires Aside(answers, answers') && Outcome(answers, intake)
    ensures Outcome(answers', intake) && Items(answers') == Items(answers)
  {
    if !intake.Taking? {
      var k: nat :| OnlyDecision(answers, k) && ClosedAfter(answers, k) && (answers[k].ending.Throws? <==>
                                                                              intake.Failed?);
      assert OnlyDecision(answers', k) && ClosedAfter(answers', k);
    }
    AsideItems(answers, answers');
  }

  lemma {:induction false} AsideItems(answers: seq<Answer>, answers': seq<Answer>)
    requires Aside(answers, answers')
    ensures Items(answers') == Items(answers)
    decreases |answers'|
  {
    if |answers'| > |answers| {
      AsideItems(answers, answers'[..|answers'| - 1]);
    } else {
      assert answers' == answers;
    }
  }

  /** The intake has one outcome. */
  lemma OneOutcome(answers: seq<Answer>, a: Intake, b: Intake)
    requires Outcome(answers, a) && Outcome(answers, b)
    ensures a == b
  {
    if !a.Taking? && !b.Taking? {
      var k: nat :| OnlyDecision(answers, k) && (answers[k].ending.Throws? <==> a.Failed?);
      var l: nat :| OnlyDecision(answers, l) && (answers[l].ending.Throws? <==> b.Failed?);
      assert k == l;
    }
  }

  /** The intake is over, as the answers say, and as many elements have been counted as items were given. */
  ghost predicate Over(answers: seq<Answer>, intake: Intake, size: nat) {
    forall b {:trigger Unfold(b)} :: Unfold(b) ==>
      intake != Taking && Outcome(answers, intake) && (intake == Finished ==> size == Items(answers))
  }

  /** Nothing has been decided, and nothing closed. */
  ghost predicate Going(answers: seq<Answer>, size: nat) {
    forall b {:trigger Unfold(b)} :: Unfold(b) ==>
      && Undecided(answers) && size == Items(answers)
      && forall i :: 0 <= i < |answers| ==> !answers[i].request.Closes?
  }

  /** The last answer threw while the iterator still had items. */
  ghost predicate Abandoned(answers: seq<Answer>) {
    && |answers| > 0 && Abandons(answers[|answers| - 1])
    && var before := answers[..|answers| - 1]; Going(before, Items(before))
  }

  lemma NotYet()
    ensures Going([], 0)
  {
  }

  lemma StaysOver(answers: seq<Answer>, answers': seq<Answer>, intake: Intake, size: nat)
    requires Over(answers, intake, size) && Aside(answers, answers')
    ensures Over(answers', intake, size)
  {
    assert Unfold(true);
    AsideKeeps(answers, answers', intake);
  }

  lemma GoesFurther(answers: seq<Answer>, a: Answer, size: nat)
    requires Going(answers, size)
    ensures !Decides(a) && !a.request.Closes? ==> Going(answers + [a], size + if a == Answer(Steps, Goes) then 1 else 0)
    ensures Decides(a) && !Abandons(a) ==> Over(answers + [a], if a.ending.Throws? then Failed else Finished, size)
    ensures Abandons(a) ==> Abandoned(answers + [a])
  {
    assert Unfold(true);
    assert (answers + [a])[..|answers|] == answers;
    if Decides(a) { LastDecides(answers, a); }
  }

  /** Closing the iterator ends an abandoned intake. */
  lemma ClosingEnds(answers: seq<Answer>, ending: Ending, size: nat)
    requires Abandoned(answers)
    ensures Over(answers + [Answer(Closes, ending)], Failed, size)
  {
    assert Unfold(true);
    var front, last := answers[..|answers| - 1], answers[|answers| - 1];
    assert answers == front + [last];
    LastDecides(front, last);
  }

  /** The last answer has decided. */
  lemma LastDecides(answers: seq<Answer>, a: Answer)
    requires Undecided(answers) && Decides(a) && forall i :: 0 <= i < |answers| ==> !answers[i].request.Closes?
    ensures !Abandons(a) ==> Outcome(answers + [a], if a.ending.Throws? then Failed else Finished)
    ensures !Abandons(a) && !a.ending.Throws? ==> Items(answers + [a]) == Items(answers)
    ensures Abandons(a) ==> forall e :: Outcome((answers + [a]) + [Answer(Closes, e)], Failed)
  {
    var one := answers + [a];
    assert OnlyDecision(one, |answers|);
    if Abandons(a) {
      forall e ensures Outcome(one + [Answer(Closes, e)], Failed) {
        var two := one + [Answer(Closes, e)];
        assert OnlyDecision(two, |answers|) && ClosedAfter(two, |answers|);
      }
    } else {
      assert ClosedAfter(one, |answers|);
      assert one[..|answers|] == answers;
    }
  }

  /** Whether the callback is the combination's own; otherwise the result promise is settled directly. */
  predicate IsElement(operation: Operation, rejected: bool) {
    operation == AllSettled || (operation == All && !rejected) || (operation == Any && rejected)
  }

  function Entry(operation: Operation, rejected: bool, value: Value): (s: Slot) {
    if operation != AllSettled then Given(value) else if rejected then WasRejected(value) else WasFulfilled(value)
  }

  ghost function Open(gates: seq<bool>): (n: nat)
    ensures n == 0 <==> forall i :: 0 <= i < |gates| ==> gates[i]
  {
    if gates == [] then 0 else Open(gates[..|gates| - 1]) + (if gates[|gates| - 1] then 0 else 1)
  }

  lemma {:induction false} OpenOneLess(gates: seq<bool>, i: nat)
    requires i < |gates| && !gates[i]
    ensures Open(gates[i := true]) == Open(gates) - 1
    decreases |gates|
  {
    var last := |gates| - 1;
    if i < last {
      assert gates[i := true][..last] == gates[..last][i := true];
      OpenOneLess(gates[..last], i);
    } else {
      assert gates[i := true][..last] == gates[..last];
    }
  }

  /** Slot `i` holds what the first call of element `i` gave. */
  ghost predicate Filled(operation: Operation, gates: seq<bool>, values: seq<Slot>, first: seq<Call>) {
    && |gates| <= |values| <= |gates| + 1 && |first| == |gates|
    && (forall i :: 0 <= i < |gates| && gates[i] ==>
          IsElement(operation, first[i].rejected) && values[i] == Entry(operation, first[i].rejected, first[i].value))
    && (forall i :: 0 <= i < |values| && (i >= |gates| || !gates[i]) ==> values[i] == Undefined)
  }

  lemma FilledMore(operation: Operation, gates: seq<bool>, values: seq<Slot>, first: seq<Call>, call: Call)
    requires Filled(operation, gates, values, first) && call.index < |gates| && !gates[call.index]
             && IsElement(operation, call.rejected)
    ensures Filled(operation, gates[call.index := true],
                   values[call.index := Entry(operation, call.rejected, call.value)], first[call.index := call])
    ensures Open(gates[call.index := true]) == Open(gates) - 1
  {
    OpenOneLess(gates, call.index);
  }

  /** `all` takes fulfilments, `any` rejections, and `allSettled` both; `race` leaves all to the result promise. */
  ghost predicate Collects(operation: Operation, rejected: bool) {
    match operation
    case All => !rejected
    case Any => rejected
    case AllSettled => true
    case Race => false
  }

  /** The first `n` calls that are calls of elements have closed the gates of these. */
  ghost predicate AllCalled(operation: Operation, gates: seq<bool>, calls: seq<Call>, n: nat) {
    n <= |calls| && forall i :: 0 <= i < n && calls[i].index < |gates| && Collects(operation, calls[i].rejected) ==>
      gates[calls[i].index]
  }

  class Combination {
    const operation: Operation
    var remaining: nat
    var values: seq<Slot>
    var gates: seq<bool>
    var iteratorDone: bool
    var plan: seq<Turn>
    ghost var intake: Intake
    /** The first call of each element. */
    ghost var first: seq<Call>
    /** The results that the combination was completed with. */
    ghost var completed: seq<seq<Slot>>
    /** The answers of user code, in order. */
    ghost var answers: seq<Answer>
    /** How many items have been taken in. */
    ghost var items: nat

    /**
    The sentinel is there until the iterator has ended; the count says how many elements are still to be called. An
    intake that is over is over by the answers of user code.
    */
    ghost predicate Counted()
      reads this
    {
      && Filled(operation, gates, values, first)
      && remaining == Open(gates) + (if intake == Finished && operation != Race then 0 else 1)
      && (intake == Finished ==> |values| == |gates| && iteratorDone)
      && (operation == Race ==> gates == [] && values == [])
      && (intake != Taking ==> Over(answers, intake, items))
      && (operation != Race && intake == Finished ==> |gates| == items)
    }

    ghost predicate Full()
      reads this
    {
      intake == Finished && Open(gates) == 0 && operation != Race
    }

    ghost predicate Valid()
      reads this
    {
      && Counted() && |completed| == (if Full() then 1 else 0)
      && (completed != [] ==> completed[0] == values && |values| == |gates|)
    }

    constructor (operation: Operation, plan: seq<Turn>)
      ensures Valid() && this.operation == operation && intake == Taking && completed == [] && gates == []
              && values == [] && iteratorDone && answers == [] && items == 0
    {
      this.operation, this.plan := operation, plan;
      remaining, values, gates, iteratorDone := 1, [], [], true;
      intake, first, completed, answers, items := Taking, [], [], [], 0;
    }

    /** Gates stay closed, slots keep what they hold, and a completed combination stays as it is. */
    twostate predicate GoesOn()
      reads this
    {
      && intake == old(intake) && iteratorDone == old(iteratorDone) && items == old(items)
      && |gates| == |old(gates)| && |values| == |old(values)| && |first| == |gates| == |old(first)|
      && (forall i :: 0 <= i < |gates| && old(gates)[i] ==> gates[i] && first[i] == old(first)[i])
      && old(completed) <= completed
    }

    /** User code runs, and may call any callback that it has been given; its answer is noted when it ends. */
    method Interject(ghost request: Request) returns (ending: Ending)
      requires if request.HandsOver? then Counted() && Full() && completed == [] else Valid()
      requires request.Later? || request.HandsOver? || intake == Taking
      modifies this`remaining, this`values, this`gates, this`first, this`completed, this`plan, this`answers
      ensures Valid() && GoesOn()
      ensures if request.HandsOver? then completed == [old(values)] && Aside(old(answers), answers)
              else if intake == Taking then answers == old(answers) + [Answer(request, ending)]
              else Aside(old(answers), answers)
      ensures if |old(plan)| == 0 then plan == [] && ending == Ends
              else |plan| < |old(plan)| && ending == old(plan)[0].ending
      decreases |plan|, 1
    {
      if request.HandsOver? { Receive(); }
      ending := TakeTurn();
      Note(Answer(request, ending));
    }

    /** The next turn of the plan, or none. */
    method TakeTurn() returns (ending: Ending)
      requires Valid()
      modifies this`remaining, this`values, this`gates, this`first, this`completed, this`plan, this`answers
      ensures Valid() && GoesOn() && Aside(old(answers), answers)
      ensures intake != Finished ==> answers == old(answers)
      ensures if |old(plan)| == 0 then plan == [] && ending == Ends
              else |plan| < |old(plan)| && ending == old(plan)[0].ending
      ensures |old(plan)| > 0 ==> AllCalled(operation, gates, old(plan)[0].calls, |old(plan)[0].calls|)
      decreases |plan|, 0
    {
      if |plan| == 0 { return Ends; }
      var turn := plan[0];
      plan := plan[1..];
      ending := turn.ending;
      CallAll(turn.calls);
    }

    /** User code is given the result. */
    ghost method Receive()
      requires Counted() && Full() && completed == []
      modifies this`completed
      ensures Valid() && completed == [values]
    {
      completed := completed + [values];
    }

    ghost method Note(answer: Answer)
      requires Valid() && (intake == Taking || answer.request.Later? || answer.request.HandsOver?)
      modifies this`answers
      ensures Valid() && answers == old(answers) + [answer]
    {
      ghost var before := answers;
      answers := answers + [answer];
      if intake != Taking { StaysOver(before, answers, intake, items); }
    }

    /** User code calls callbacks; what is no callback is passed over. */
    method CallAll(calls: seq<Call>)
      requires Valid()
      modifies this`remaining, this`values, this`gates, this`first, this`completed, this`plan, this`answers
      ensures Valid() && GoesOn() && |plan| <= |old(plan)| && Aside(old(answers), answers)
      ensures intake != Finished ==> answers == old(answers)
      ensures AllCalled(operation, gates, calls, |calls|)
      decreases |plan|, 4
    {
      for i := 0 to |calls|
        invariant Valid() && GoesOn() && |plan| <= |old(plan)| && Aside(old(answers), answers)
        invariant AllCalled(operation, gates, calls, i)
        invariant intake != Finished ==> answers == old(answers)
      {
        var call := calls[i];
        if call.index < |gates| && IsElement(operation, call.rejected) { Element(call); }
      }
    }

    /** The callback of an element; only the first call of either counts. */
    method Element(call: Call)
      requires Valid() && call.index < |gates| && IsElement(operation, call.rejected)
      modifies this`remaining, this`values, this`gates, this`first, this`completed, this`plan, this`answers
      ensures Valid() && GoesOn() && gates[call.index] && |plan| <= |old(plan)| && Aside(old(answers), answers)
      ensures intake != Finished ==> answers == old(answers)
      ensures old(gates)[call.index] ==> gates == old(gates) && values == old(values) && completed == old(completed)
      ensures !old(gates)[call.index] ==> first[call.index] == call
      decreases |plan|, 3
    {
      if gates[call.index] { return; }
      FillSlot(call);
      if remaining == 0 { Complete(); }
    }

    /** The slot of an element is filled by the first call. */
    method FillSlot(call: Call)
      requires Valid() && call.index < |gates| && IsElement(operation, call.rejected) && !gates[call.index]
      modifies this`remaining, this`values, this`gates, this`first
      ensures Counted() && gates == old(gates)[call.index := true] && first == old(first)[call.index := call]
      ensures values == old(values)[call.index := Entry(operation, call.rejected, call.value)]
      ensures if remaining == 0 then Full() && completed == [] else Valid()
    {
      FilledMore(operation, gates, values, first, call);
      gates := gates[call.index := true];
      first := first[call.index := call];
      values := values[call.index := Entry(operation, call.rejected, call.value)];
      remaining := remaining - 1;
    }

    /** The result is handed over. */
    method Complete()
      requires Counted() && Full() && completed == []
      modifies this`remaining, this`values, this`gates, this`first, this`completed, this`plan, this`answers
      ensures Valid() && GoesOn() && |plan| <= |old(plan)| && completed == [old(values)]
              && Aside(old(answers), answers)
      decreases |plan|, 2
    {
      var _ := Interject(HandsOver);
    }

    // --------------------------------------------------------------------- intake

    /** One more element can be called, and is counted. */
    method AddGate()
      requires Valid() && intake == Taking && |values| == |gates| + 1 && operation != Race
      modifies this`gates, this`first, this`remaining
      ensures Valid() && gates == old(gates) + [false] && old(first) <= first
    {
      ghost var before := gates;
      gates := gates + [false];
      assert gates[..|gates| - 1] == before;
      first := first + [Call(0, false, 0)];
      remaining := remaining + 1;
    }

    /** The iterator gives one more item: a slot, a promise for it, a gate, and the call of its `then`. */
    method TakeItem() returns (ok: bool)
      requires Valid() && intake == Taking && |values| == |gates| && Going(answers, items)
      modifies this`remaining, this`values, this`gates, this`first, this`completed, this`plan, this`answers
      ensures Valid() && intake == Taking && iteratorDone == old(iteratorDone) && |plan| <= |old(plan)|
              && completed == []
      ensures ok ==> |values| == |gates| && |gates| == |old(gates)| + (if operation == Race then 0 else 1)
      ensures if ok then Going(answers, items) else Abandoned(answers)
      ensures |old(gates)| <= |gates| && forall i :: 0 <= i < |old(gates)| && old(gates)[i] ==>
        gates[i] && first[i] == old(first)[i]
    {
      if operation != Race { values := values + [Undefined]; }
      var ending := Interject(Resolves);
      GoesFurther(old(answers), Answer(Resolves, ending), items);
      if ending.Throws? { return false; }
      ok := Subscribe();
    }

    /** The promise of an item is given its callbacks. */
    method Subscribe() returns (ok: bool)
      requires Valid() && intake == Taking && Going(answers, items)
      requires |values| == |gates| + if operation == Race then 0 else 1
      modifies this`remaining, this`values, this`gates, this`first, this`completed, this`plan, this`answers
      ensures Valid() && intake == Taking && iteratorDone == old(iteratorDone) && |plan| <= |old(plan)|
              && completed == []
      ensures |values| == |gates| && |gates| == |old(gates)| + (if operation == Race then 0 else 1)
      ensures if ok then Going(answers, items) else Abandoned(answers)
      ensures |old(gates)| <= |gates| && forall i :: 0 <= i < |old(gates)| && old(gates)[i] ==>
        gates[i] && first[i] == old(first)[i]
    {
      if operation != Race { AddGate(); }
      ghost var before := answers;
      var ending := Interject(Thens);
      GoesFurther(before, Answer(Thens, ending), items);
      ok := !ending.Throws?;
    }

    /** The intake has failed: an iterator that has not ended is closed, and the sentinel stays. */
    method Fail()
      requires Valid() && intake == Taking
      requires if iteratorDone then Over(answers, Failed, items) else Abandoned(answers)
      modifies this
      ensures Valid() && intake == Failed && completed == [] && iteratorDone == old(iteratorDone)
              && |plan| <= |old(plan)|
    {
      if !iteratorDone {
        ghost var before := answers;
        var ending := Interject(Closes);
        ClosingEnds(before, ending, items);
      }
      intake := Failed;
    }

    /** The iterator is opened; the intake fails if that throws. */
    method OpenIterator() returns (ok: bool)
      requires Valid() && intake == Taking && gates == [] && values == [] && iteratorDone && answers == [] && items == 0
      modifies this
      ensures Valid() && completed == [] && |plan| <= |old(plan)|
      ensures ok ==>
        intake == Taking && !iteratorDone && |values| == |gates| == 0 && items == 0 && Going(answers, items)
      ensures !ok ==> intake == Failed
    {
      NotYet();
      var ending := Interject(Opens);
      GoesFurther([], Answer(Opens, ending), 0);
      assert [] + [Answer(Opens, ending)] == answers;
      ok := !ending.Throws?;
      if ok { iteratorDone := false; } else { Fail(); }
    }

    /** The iterator is asked for its next item; none is left, or the intake fails, or the item is taken in. */
    method TakeNext() returns (state: Intake)
      requires Valid() && intake == Taking && !iteratorDone && |values| == |gates| && Going(answers, items)
      requires operation != Race ==> |gates| == items
      modifies this
      ensures Valid() && completed == [] && (intake == Failed <==> state == Failed) && intake != Finished
      ensures |plan| <= |old(plan)|
      ensures state == Taking ==> |plan| < |old(plan)| && !iteratorDone && Going(answers, items)
      ensures state == Finished ==> iteratorDone && Over(answers, Finished, items)
      ensures state != Failed ==> |values| == |gates| && (operation != Race ==> |gates| == items)
    {
      var ending := Interject(Steps);
      GoesFurther(old(answers), Answer(Steps, ending), items);
      if ending.Goes? {
        items := items + 1;
        var ok := TakeItem();
        if ok { return Taking; }
      } else {
        iteratorDone := true;
        if ending.Ends? { return Finished; }
      }
      Fail();
      state := Failed;
    }

    /** Takes in an iterable. */
    method Combine()
      requires Valid() && intake == Taking && gates == [] && values == [] && iteratorDone && answers == [] && items == 0
      modifies this
      ensures Valid() && intake != Taking && (intake == Failed ==> completed == [])
    {
      var ok := OpenIterator();
      var state := if ok then Taking else Failed;
      while state == Taking
        invariant Valid() && completed == [] && (intake == Failed <==> state == Failed) && intake != Finished
        invariant state == Taking ==> !iteratorDone && Going(answers, items)
        invariant state == Finished ==> iteratorDone && Over(answers, Finished, items)
        invariant state != Failed ==> |values| == |gates| && (operation != Race ==> |gates| == items)
        decreases |plan|, if state == Taking then 1 else 0
      {
        state := TakeNext();
      }
      if state == Finished { Finish(); }
    }

    /** The sentinel goes. */
    method Finish()
      requires Valid() && intake == Taking && iteratorDone && |values| == |gates| && Over(answers, Finished, items)
      requires operation != Race ==> |gates| == items
      modifies this
      ensures Valid() && intake == Finished
    {
      intake := Finished;
      if operation != Race {
        remaining := remaining - 1;
        if remaining == 0 { Complete(); }
      }
    }
  }

  /** Every run: the intake, and then whatever callbacks are called for as long as the plan goes on. */
  method Run(operation: Operation, plan: seq<Turn>) returns (c: Combination)
    ensures c.Valid() && c.operation == operation && c.intake != Taking
  {
    c := new Combination(operation, plan);
    c.Combine();
    while |c.plan| > 0
      invariant c.Valid() && c.operation == operation && c.intake != Taking
      decreases |c.plan|
    {
      var _ := c.Interject(Later);
    }
  }

  /**
  After the intake, the combination is complete exactly when the iterator has said that it has no item left, nothing
  has thrown before that, and every element has been called; never if the intake has failed.
  */
  lemma CompletesExactlyOnce(c: Combination)
    requires c.Valid() && c.operation != Race && c.intake != Taking
    ensures |c.completed| <= 1 && (Outcome(c.answers, Finished) || Outcome(c.answers, Failed))
    ensures |c.completed| == 1 <==> Outcome(c.answers, Finished) && forall i :: 0 <= i < |c.gates| ==> c.gates[i]
    ensures Outcome(c.answers, Failed) ==> c.completed == []
  {
    assert Unfold(true);
    if Outcome(c.answers, Finished) { OneOutcome(c.answers, c.intake, Finished); }
    if Outcome(c.answers, Failed) { OneOutcome(c.answers, c.intake, Failed); }
  }

  /**
  The result of a complete combination has one entry for each item that the iterator has given, and holds, at each
  index, what the first call for that element gave.
  */
  lemma ResultsInOrder(c: Combination, i: nat)
    requires c.Valid() && c.completed != [] && i < |c.gates|
    ensures |c.completed[0]| == |c.gates| == |c.first| == Items(c.answers)
    ensures var call, entry := c.first[i], c.completed[0][i];
            match c.operation
            case All => !call.rejected && entry == Given(call.value)
            case Any => call.rejected && entry == Given(call.value)
            case AllSettled => entry == if call.rejected then WasRejected(call.value) else WasFulfilled(call.value)
            case Race => false
  {
    assert Unfold(true);
  }
}
