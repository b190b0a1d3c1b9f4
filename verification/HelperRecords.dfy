/**
What the iterator helpers do to the iterators that they use: a log of what each opened record was
asked for, and an account of which records are still open.
*/
module HelperRecords {
  import opened Options
  import opened HelperSteps

  /** An iterator object: foreign code, or a native helper. */
  datatype Target = Foreign(id: nat) | Native(id: nat)

  type Shared = Helper<Target, nat>

  /** `next` was called; `next` reported the end or failed; `return` was called. */
  datatype Event = Asked(number: nat) | Ended(number: nat) | Closed(number: nat)

  /** Whose record an opening was, and which of the two. */
  datatype Owner = Owner(helper: nat, role: Which)

  ghost predicate Dead(log: seq<Event>, n: nat) {
    exists i :: 0 <= i < |log| && log[i].number == n && !log[i].Asked?
  }

  /** Nothing is asked of a record after its end. */
  ghost predicate EndsLast(log: seq<Event>) {
    forall i, j :: 0 <= i < j < |log| && !log[i].Asked? ==> log[j].number != log[i].number
  }

  /** The outer record of the helper has been closed. */
  ghost predicate Sealed(log: seq<Event>, owners: seq<Owner>, x: nat) {
    exists i :: 0 <= i < |log| && log[i].Closed? && log[i].number < |owners| && owners[log[i].number] == Owner(x, Outer)
  }

  ghost predicate InRange(log: seq<Event>, owners: seq<Owner>) {
    forall i :: 0 <= i < |log| ==> log[i].number < |owners|
  }

  /** Once a helper's outer record is closed, nothing is asked of any of its records. */
  ghost predicate OuterLast(log: seq<Event>, owners: seq<Owner>)
    requires InRange(log, owners)
  {
    forall i, j :: 0 <= i < j < |log| && log[i].Closed? && owners[log[i].number].role == Outer ==>
                     owners[log[j].number].helper != owners[log[i].number].helper
  }

  /** Before a helper's outer record is closed, each of its inner records has ended or has been closed. */
  ghost predicate InnerFirst(log: seq<Event>, owners: seq<Owner>)
    requires InRange(log, owners)
  {
    forall i, n ::
      0 <= i < |log| && log[i].Closed? && owners[log[i].number].role == Outer && 0 <= n < |owners|
      && owners[n] == Owner(owners[log[i].number].helper, Inner) ==>
                     Dead(log[..i], n)
  }

  ghost predicate LogGood(log: seq<Event>, owners: seq<Owner>) {
    InRange(log, owners) && EndsLast(log) && OuterLast(log, owners) && InnerFirst(log, owners)
  }

  /** The record with this number is the helper's, and open. */
  ghost predicate Held(h: Shared, role: Which, n: nat) {
    !h.state.Completed? && match role
                           case Outer => !h.outer.done && h.outer.number == n
                           case Inner => h.innerActive && !h.inner.done && h.inner.number == n
                           case Unset => false
  }

  ghost predicate RecordOk(r: Record<Target>, owners: seq<Owner>, size: nat, owner: Owner) {
    r.target.Some? && (r.target.value.Native? ==> r.target.value.id < size) && r.number < |owners|
    && owners[r.number] == owner
  }

  /**
  Exactly the records that the helper holds open have not come to an end, but for the one whose
  end has been reported and not been taken in yet.
  */
  ghost predicate Accounts(log: seq<Event>, owners: seq<Owner>, x: nat, h: Shared, known: Option<nat>) {
    forall n :: 0 <= n < |owners| && owners[n].helper == x ==>
      (Dead(log, n) <==> !Held(h, owners[n].role, n) || known == Some(n))
  }

  ghost predicate RecordsOk(owners: seq<Owner>, size: nat, x: nat, h: Shared) {
    && (!h.state.Completed? && !h.outer.done ==> RecordOk(h.outer, owners, size, Owner(x, Outer)))
    && (!h.state.Completed? && h.innerActive && !h.inner.done ==> RecordOk(h.inner, owners, size, Owner(x, Inner)))
    && (h.innerActive ==> h.operation == FlatMap)
  }

  // ------------------------------------------------------------------- the log

  lemma DeadAppend(log: seq<Event>, e: Event, n: nat)
    ensures Dead(log + [e], n) <==> Dead(log, n) || (e.number == n && !e.Asked?)
  {
    if Dead(log, n) {
      var i :| 0 <= i < |log| && log[i].number == n && !log[i].Asked?;
      assert (log + [e])[i] == log[i];
    }
    if e.number == n && !e.Asked? { assert (log + [e])[|log|] == e; }
  }

  lemma SealedAppend(log: seq<Event>, owners: seq<Owner>, e: Event, x: nat)
    requires e.number < |owners|
    ensures Sealed(log + [e], owners, x) <==>
      Sealed(log, owners, x) || (e.Closed? && owners[e.number] == Owner(x, Outer))
  {
    if Sealed(log, owners, x) {
      var i :| 0 <= i < |log| && log[i].Closed? && log[i].number < |owners| && owners[log[i].number] == Owner(x, Outer);
      assert (log + [e])[i] == log[i];
    }
    if e.Closed? && owners[e.number] == Owner(x, Outer) { assert (log + [e])[|log|] == e; }
  }

  lemma LogAppend(log: seq<Event>, owners: seq<Owner>, e: Event)
    requires LogGood(log, owners) && e.number < |owners| && !Dead(log, e.number)
             && !Sealed(log, owners, owners[e.number].helper)
    requires e.Closed? && owners[e.number].role == Outer ==>
      forall n :: 0 <= n < |owners| && owners[n] == Owner(owners[e.number].helper, Inner) ==> Dead(log, n)
    ensures LogGood(log + [e], owners)
  {
    var log' := log + [e];
    forall i, n | 0 <= i < |log'| && log'[i].Closed? && owners[log'[i].number].role == Outer && 0 <= n < |owners|
    && owners[n] == Owner(owners[log'[i].number].helper, Inner)
      ensures Dead(log'[..i], n)
    {
      assert log'[..i] == log[..i];
      assert log[..|log|] == log;
    }
  }

  lemma LogOpened(log: seq<Event>, owners: seq<Owner>, o: Owner)
    requires LogGood(log, owners) && (o.role == Inner ==> !Sealed(log, owners, o.helper))
    ensures LogGood(log, owners + [o]) && !Dead(log, |owners|)
    ensures forall x :: Sealed(log, owners + [o], x) <==> Sealed(log, owners, x)
  {
  }

  /** Nothing has happened to the records of this helper. */
  ghost predicate Unaffected(log: seq<Event>, owners: seq<Owner>, log': seq<Event>, owners': seq<Owner>, x: nat) {
    && owners <= owners' && (forall n :: |owners| <= n < |owners'| ==> owners'[n].helper != x)
    && (forall n :: 0 <= n < |owners| && owners[n].helper == x ==> (Dead(log', n) <==> Dead(log, n)))
    && (Sealed(log', owners', x) <==> Sealed(log, owners, x))
  }

  lemma UnaffectedAppend(log: seq<Event>, owners: seq<Owner>, e: Event, x: nat)
    requires e.number < |owners| && owners[e.number].helper != x
    ensures Unaffected(log, owners, log + [e], owners, x)
  {
    forall n | 0 <= n < |owners| && owners[n].helper == x ensures Dead(log + [e], n) <==> Dead(log, n) {
      DeadAppend(log, e, n);
    }
    SealedAppend(log, owners, e, x);
  }

  lemma UnaffectedOpened(log: seq<Event>, owners: seq<Owner>, o: Owner, x: nat)
    requires InRange(log, owners) && o.helper != x
    ensures Unaffected(log, owners, log, owners + [o], x)
  {
  }

  // ------------------------------------------------------------ phases of an activation

  ghost predicate StepFields(h: Shared, a: Activation) {
    a.innerStep == h.innerActive && a.record == (if a.innerStep then Inner else Outer)
    && (h.innerActive ==> !h.inner.done)
  }

  ghost predicate CloseFields(h: Shared, a: Activation) {
    && -1 <= a.closeIndex <= 1 && (a.closeIndex < 1 && h.innerActive ==> h.inner.done)
    && (a.closeIndex < 0 ==> h.outer.done) && (a.closeIndex == 1 ==> h.innerActive)
  }

  /** What holds of an entered activation and its helper. */
  ghost predicate PhaseOk(h: Shared, a: Activation) {
    && (h.innerActive ==> h.operation == FlatMap) && (h.operation != FlatMap ==> !a.innerStep && a.record != Inner)
    && match a.phase
       case Starting => false
       case Stepping => !a.failed && (h.innerActive ==> !h.inner.done)
       case AwaitStep => !a.failed && StepFields(h, a) && !Current(h, a).done
       case GotResult =>
         !a.failed && StepFields(h, a)
         && (Current(h, a).done ==> a.result.Plain? && a.result.done && h.operation != Concat)
       case Calling => !a.failed && !h.innerActive && !a.innerStep
       case Closing => CloseFields(h, a)
       case AwaitClose => CloseFields(h, a) && a.closeIndex <= 0
       case Finishing => h.outer.done && (h.innerActive ==> h.inner.done)
  }

  /** What holds while the answer to a request is outstanding. */
  ghost predicate PendingOk(h: Shared, a: Activation, request: Action) {
    match request
    case Open => a.phase.Stepping? && h.operation == Concat && h.outer.done
    case Ask => a.phase.Stepping? && StepFields(h, a) && !Current(h, a).done
    case Inspect => a.phase.GotResult? && a.result.Opaque?
    case Invoke => a.phase.Calling?
    case Shut(_) => a.phase.Closing?
    case _ => false
  }

  /** Nothing is left to be closed. */
  ghost predicate Settled(a: Activation) {
    a.phase.Finishing? || ((a.phase.Closing? || a.phase.AwaitClose?) && a.closeIndex < 0)
  }

  /** The result of `next` is, or shows, the end of its record. */
  predicate ShowsEnd(result: Result) {
    result.NonObject? || (result.Plain? && result.done)
  }

  /** The end of the current record has been reported to the activation. */
  predicate Reported(a: Activation, top: bool, left: Left) {
    (a.phase.GotResult? && ShowsEnd(a.result)) || (a.phase.AwaitStep? && top && (left.failed || ShowsEnd(left.result)))
  }

  /** The record whose end has been reported and not been taken in. */
  function Known(h: Shared, a: Activation, top: bool, left: Left): (n: Option<nat>) {
    if Reported(a, top, left) && !Current(h, a).done then Some(Current(h, a).number) else None
  }

  function RoleOf(a: Activation): (w: Which) { if a.innerStep then Inner else Outer }

  function NumberOf(h: Shared, w: Which): (n: nat) { if w == Inner then h.inner.number else h.outer.number }

  /** The record that a step has marked done. */
  function Flipped(h: Shared, h': Shared): (w: Which) {
    if !h.outer.done && h'.outer.done then Outer else if !h.inner.done && h'.inner.done then Inner else Unset
  }

  /** A step of a running helper that opens nothing: at most one record comes to its end. */
  ghost predicate Advances(h: Shared, h': Shared) {
    var w := Flipped(h, h');
    && h.state.Executing? && h'.state.Executing? && h'.operation == h.operation
    && h'.outer == (if w == Outer then h.outer.(done := true) else h.outer)
    && h'.inner == (if w == Inner then h.inner.(done := true) else h.inner)
    && (h'.innerActive == h.innerActive || (h.innerActive && h'.inner.done))
    && (w == Inner ==> h.innerActive)
  }

  /** An error that comes from stepping a record marks that record done; any other error marks none. */
  lemma FailAdvances(h: Shared, a: Activation, request: Action, error: Error, s: Step<Target, nat>)
    requires h.state.Executing? && a.entered && PhaseOk(h, a)
             && (PendingOk(h, a, request) || a.phase.AwaitStep? || a.phase.GotResult?)
    requires s == FailCurrent(h, a, error)
    ensures Advances(h, s.helper) && PhaseOk(s.helper, s.activation) && s.activation.entered
            && s.activation.phase.Closing?
    ensures Settled(a) ==> Settled(s.activation) && Flipped(h, s.helper) == Unset
    ensures Flipped(h, s.helper) ==
      if (a.phase.AwaitStep? || a.phase.GotResult? || request == Ask) && !Current(h, a).done then RoleOf(a) else Unset
    ensures a.phase.Calling? ==> s.helper == h && s.activation.closeIndex == 0
  {
  }

  lemma ResultAdvances(h: Shared, a: Activation, value: Value, done: bool, s: Step<Target, nat>)
    requires h.state.Executing? && a.phase.GotResult? && a.entered && PhaseOk(h, a) && (Current(h, a).done ==> done)
    requires s == TakeResult(h, a, value, done)
    ensures Advances(h, s.helper) && s.activation.entered
            && (s.action == Continue || s.action == Complete(value, false))
    ensures s.action == Continue ==>
      PhaseOk(s.helper, s.activation) && !s.activation.phase.GotResult? && !s.activation.phase.AwaitStep?
    ensures s.action.Complete? ==> s.helper == h && !done && (h.innerActive ==> !h.inner.done)
    ensures Flipped(h, s.helper) == if done && !Current(h, a).done then RoleOf(a) else Unset
  {
  }

  lemma CallAdvances(h: Shared, a: Activation, result: Value, s: Step<Target, nat>)
    requires h.state.Executing? && a.phase.Calling? && a.entered && PhaseOk(h, a) && s == Called(h, a, result)
    ensures Advances(h, s.helper) && Flipped(h, s.helper) == Unset && s.activation.entered
    ensures s.action == Continue || (s.action.Complete? && !s.action.done)
    ensures s.action == Continue ==> PhaseOk(s.helper, s.activation)
    ensures s.action.Complete? ==> !s.helper.innerActive
  {
  }

  lemma AskAdvances(h: Shared, a: Activation, s: Step<Target, nat>)
    requires h.state.Executing? && a.phase.Stepping? && a.entered && PhaseOk(h, a) && s == StepAsk(h, a)
    requires s.action == Ask || h.operation != Concat || !h.outer.done
    ensures Advances(h, s.helper) && Flipped(h, s.helper) == Unset && s.activation.entered
            && (s.action == Continue || s.action == Ask)
    ensures PhaseOk(s.helper, s.activation)
    ensures s.action == Ask ==> PendingOk(s.helper, s.activation, Ask)
    ensures s.action == Continue ==> s.activation.phase.GotResult? && Current(s.helper, s.activation).done
  {
  }

  /** A turn either leaves alone what has been reported, or marks done the record that it was about. */
  ghost predicate TakesIn(h: Shared, a: Activation, left: Left, s: Step<Target, nat>) {
    var w := Flipped(h, s.helper);
    if w == Unset then
      Known(s.helper, s.activation, true, left) == Known(h, a, true, left)
    else
      Known(h, a, true, left) == Some(NumberOf(h, w)) && Known(s.helper, s.activation, true, left) == None
  }

  /** A turn that leaves the call in progress. */
  ghost predicate TurnOk(h: Shared, a: Activation, left: Left, s: Step<Target, nat>) {
    && Advances(h, s.helper) && s.activation.entered
    && (!s.action.Raise? && !s.action.Complete? ==> TakesIn(h, a, left, s))
    && (s.action.Complete? ==>
          s.helper == h && !s.action.done && !Settled(a) && (h.innerActive ==> !h.inner.done)
          && Known(h, a, true, left) == None)
    && (!s.action.Complete? ==> PhaseOk(s.helper, s.activation))
    && (s.action == Continue || s.action.Raise? || s.action.Complete? || PendingOk(s.helper, s.activation, s.action))
    && (s.action.Raise? ==> s.helper == h && s.activation == a && a.phase.GotResult? && a.result.NonObject?)
    && (Settled(a) ==> Settled(s.activation) && Flipped(h, s.helper) == Unset && s.action == Continue)
  }

  lemma StepTurnAdvances(h: Shared, a: Activation, left: Left, s: Step<Target, nat>)
    requires h.state.Executing? && a.entered && PhaseOk(h, a) && s == Iteration(h, a, left) && a.phase.Stepping?
    ensures TurnOk(h, a, left, s)
  {
    if h.operation == Take && !h.infinite && h.remaining == 0 {
      assert s.helper == h;
    } else if h.operation == Concat && h.outer.done {
      assert s.helper == h || s.helper == h.(index := h.index + 1);
    } else {
      AskAdvances(h, a, s);
    }
  }

  lemma ResultTurnAdvances(h: Shared, a: Activation, left: Left, s: Step<Target, nat>)
    requires h.state.Executing? && a.entered && PhaseOk(h, a) && s == Iteration(h, a, left) && a.phase.GotResult?
    ensures TurnOk(h, a, left, s)
  {
    if a.result.Plain? { ResultAdvances(h, a, a.result.value, a.result.done, s); }
  }

  lemma OtherTurnAdvances(h: Shared, a: Activation, left: Left, s: Step<Target, nat>)
    requires h.state.Executing? && a.entered && PhaseOk(h, a) && s == Iteration(h, a, left) && !a.phase.Stepping?
             && !a.phase.GotResult?
    requires s.action != Complete(UNDEFINED, true) && !s.action.Shut?
    ensures TurnOk(h, a, left, s)
  {
    if a.phase.AwaitStep? && left.failed { FailAdvances(h, a, Continue, left.error, s); }
  }

  lemma TurnAdvances(h: Shared, a: Activation, left: Left, s: Step<Target, nat>)
    requires h.state.Executing? && a.entered && PhaseOk(h, a) && s == Iteration(h, a, left)
    requires s.action != Complete(UNDEFINED, true) && !s.action.Shut?
    ensures TurnOk(h, a, left, s)
  {
    if a.phase.Stepping? {
      StepTurnAdvances(h, a, left, s);
    } else if a.phase.GotResult? {
      ResultTurnAdvances(h, a, left, s);
    } else {
      OtherTurnAdvances(h, a, left, s);
    }
  }

  /** Closing asks for `return` of an open record, the inner one first. */
  lemma ShutLocal(h: Shared, a: Activation, left: Left, s: Step<Target, nat>)
    requires h.state.Executing? && a.entered && PhaseOk(h, a) && s == Iteration(h, a, left) && s.action.Shut?
    ensures Advances(h, s.helper) && s.activation.entered && Flipped(h, s.helper) == s.action.which != Unset
    ensures a.phase.Closing? && s.activation.phase.Closing? && PhaseOk(s.helper, s.activation) && !Settled(a)
    ensures PhaseOk(s.helper, s.activation.(phase := AwaitClose))
    ensures s.action.which == Outer ==> h.innerActive ==> h.inner.done
    ensures s.action.which == Inner ==> !Settled(s.activation)
  {
  }

  // --------------------------------------------------------------- books after a step

  /** The books of one helper. */
  ghost predicate Books(log: seq<Event>, owners: seq<Owner>, size: nat, x: nat, h: Shared, known: Option<nat>) {
    Accounts(log, owners, x, h, known) && RecordsOk(owners, size, x, h)
  }

  lemma BooksStay(log: seq<Event>, owners: seq<Owner>, log': seq<Event>, owners': seq<Owner>, size: nat, size': nat,
                  x: nat, h: Shared, known: Option<nat>)
    requires Books(log, owners, size, x, h, known) && Unaffected(log, owners, log', owners', x) && size <= size'
    ensures Books(log', owners', size', x, h, known)
  {
  }

  lemma HeldAdvance(owners: seq<Owner>, size: nat, x: nat, h: Shared, h': Shared, n: nat)
    requires RecordsOk(owners, size, x, h) && Advances(h, h') && n < |owners| && owners[n].helper == x
    ensures var w := Flipped(h, h');
            Held(h', owners[n].role, n) <==> Held(h, owners[n].role, n) && !(w != Unset && n == NumberOf(h, w))
  {
  }

  /** A step that marks nothing done keeps the books. */
  lemma QuietKeeps(log: seq<Event>, owners: seq<Owner>, size: nat, x: nat, h: Shared, h': Shared, known: Option<nat>)
    requires Books(log, owners, size, x, h, known) && Advances(h, h') && Flipped(h, h') == Unset
    ensures Books(log, owners, size, x, h', known)
  {
  }

  /** A step may mark a record done whose end has been reported. */
  lemma TakenInKeeps(log: seq<Event>, owners: seq<Owner>, size: nat, x: nat, h: Shared, h': Shared)
    requires Advances(h, h') && Flipped(h, h') != Unset
             && Books(log, owners, size, x, h, Some(NumberOf(h, Flipped(h, h'))))
    ensures Books(log, owners, size, x, h', None)
  {
  }

  /** The iterator of an open record reports its end. */
  lemma ReportKeeps(log: seq<Event>, owners: seq<Owner>, size: nat, x: nat, h: Shared, role: Which)
    requires LogGood(log, owners) && Books(log, owners, size, x, h, None) && !Sealed(log, owners, x) && role != Unset
             && Held(h, role, NumberOf(h, role))
    ensures var log' := log + [Ended(NumberOf(h, role))];
            && LogGood(log', owners) && Books(log', owners, size, x, h, Some(NumberOf(h, role)))
            && !Sealed(log', owners, x)
            && NumberOf(h, role) < |owners| && owners[NumberOf(h, role)] == Owner(x, role)
  {
    var e := Ended(NumberOf(h, role));
    assert owners[e.number] == Owner(x, role);
    forall n | 0 <= n < |owners| && owners[n].helper == x
      ensures Dead(log + [e], n) <==> !Held(h, owners[n].role, n) || n == e.number
    {
      DeadAppend(log, e, n);
    }
    LogAppend(log, owners, e);
    SealedAppend(log, owners, e, x);
  }

  /** An open record is closed, and marked done. */
  lemma ClosedKeeps(log: seq<Event>, owners: seq<Owner>, size: nat, x: nat, h: Shared, h': Shared, e: Event)
    requires LogGood(log, owners) && Books(log, owners, size, x, h, None) && Advances(h, h') && Flipped(h, h') != Unset
             && !Sealed(log, owners, x)
    requires e == Closed(NumberOf(h, Flipped(h, h'))) && (Flipped(h, h') == Outer && h.innerActive ==> h.inner.done)
    ensures LogGood(log + [e], owners) && Books(log + [e], owners, size, x, h', None) && e.number < |owners|
            && owners[e.number].helper == x
    ensures Sealed(log + [e], owners, x) <==> Flipped(h, h') == Outer
  {
    assert owners[e.number] == Owner(x, Flipped(h, h')) && Held(h, Flipped(h, h'), e.number);
    forall n | 0 <= n < |owners| && owners[n].helper == x ensures Dead(log + [e], n) <==> !Held(h', owners[n].role, n) {
      HeldAdvance(owners, size, x, h, h', n);
      DeadAppend(log, e, n);
    }
    LogAppend(log, owners, e);
    SealedAppend(log, owners, e, x);
  }

  /** An open record is asked. */
  lemma AskedKeeps(log: seq<Event>, owners: seq<Owner>, size: nat, x: nat, h: Shared, role: Which)
    requires LogGood(log, owners) && Books(log, owners, size, x, h, None) && !Sealed(log, owners, x) && role != Unset
             && Held(h, role, NumberOf(h, role))
    ensures var log' := log + [Asked(NumberOf(h, role))];
            && LogGood(log', owners) && Books(log', owners, size, x, h, None) && !Sealed(log', owners, x)
            && NumberOf(h, role) < |owners| && owners[NumberOf(h, role)].helper == x
  {
    var e := Asked(NumberOf(h, role));
    assert owners[e.number] == Owner(x, role);
    forall n | 0 <= n < |owners| && owners[n].helper == x ensures Dead(log + [e], n) <==> !Held(h, owners[n].role, n) {
      DeadAppend(log, e, n);
    }
    LogAppend(log, owners, e);
    SealedAppend(log, owners, e, x);
  }

  /**
  A new record: the outer one of a concatenation whose last one is done, or the inner one of a flat mapping without one.
  */
  lemma OpenedKeeps(log: seq<Event>, owners: seq<Owner>, size: nat, x: nat, h: Shared, h': Shared, role: Which,
                    target: Target)
    requires LogGood(log, owners) && Books(log, owners, size, x, h, None) && h.state.Executing?
             && !Sealed(log, owners, x)
    requires target.Native? ==> target.id < size
    requires || (role == Outer && h.outer.done && h' == h.(outer := Record(Some(target), false, |owners|)))
             || (role == Inner && h.operation == FlatMap && !h.innerActive
                 && h' == h.(inner := Record(Some(target), false, |owners|), innerActive := true))
    ensures LogGood(log, owners + [Owner(x, role)]) && Books(log, owners + [Owner(x, role)], size, x, h', None)
    ensures !Sealed(log, owners + [Owner(x, role)], x)
  {
  }
}
