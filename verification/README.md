# Verified models of the runtime's stateful algorithms

The runtime (`runtime/*.c`) re-implements the stateful algorithms of ECMA-262 with explicit worklists,
linked records, counters and hand-built indexes. This project models nine of them in Dafny and proves what
each one is for, over all inputs and over whole runs.

`dafny verify dfyconfig.toml` checks everything.

| algorithm | files | what is proved |
|---|---|---|
| Module evaluation (section 16.2.1 of ECMA-262) | `ModuleRequests`, `ModuleState`, `ModuleBodies`, `ModuleErrors`, `ModuleWalk*`, `ModuleAsync*`, `ModuleEvaluation` | Over every graph, every behaviour of the bodies and every interleaving of calls and callbacks: a body starts at most once and only after the bodies of everything below its requests outside its cycle have completed, by what they and their promises did; a settled capability is rejected exactly if a body below has failed; each pop takes exactly one strongly connected component; the counters equal the registrations; an error of a module comes from a body that it reaches; nothing gets stuck |
| Iterator helpers (section 27.1 of ECMA-262) | `HelperSteps`, `HelperLists`, `HelperTurns`, `HelperWorklist` | The activation worklist delivers, call by call, the list functions that the helpers stand for, and terminates |
| Iterator helpers with foreign code | `HelperSteps`, `HelperRecords`, `HelperReentry`, `HelperTermination`, `HelperAnswers`, `HelperEngine` | With throwing and re-entrant foreign code and shared helpers: what becomes of every item, value, iterator and error that foreign code gives; `return` at most once per record and never after the iterator has told of its end (done, a throw of `next`, or no result object), inner before outer, no record of a completed helper left open, the first error delivered, and finitely many turns between two answers of foreign code |
| Ordered sets and cursors (section 24.2 of ECMA-262) | `Lists`, `OrderIndex`, `OrderedSet`, `SetComposition` | The hash index is the duplicate-free insertion order; cursors survive any interleaving of changes; set composition computes what the argument's `has` and `keys` say, in the right order, although it may delete from what it walks, and for an argument that agrees with itself that is the algebra of sets |
| Async generator queue (section 27.6 of ECMA-262) | `AsyncGenerator` | Calls settle once each and in order; each gives the body control at most once, in order and with what suits it, and never while it executes; the body alone settles the calls that come before its end; none is left undone |
| Promises and microtasks (section 27.2 of ECMA-262) | `Promises` | Settlement is final, every queued job gets control once and in order, reactions in order of registration, adoption completes with the adopted state |
| Promise combinators | `PromiseCombination` | By what the iterator and user code answer: completion happens at most once, exactly if the iterator came to its end with nothing thrown and every element was called, with one slot per item and value `i` in slot `i` |
| Rounding (section 4.3.1 of IEEE 754) | `Binary`, `Rounding`, `Numbers`, `SumPrecise` | Correct rounding to every format, agreement of the direct binary16 path, `Math.sumPrecise` is the correctly rounded exact sum and does not depend on order |
| Atomics waiters (section 25.4 of ECMA-262) | `Lists`, `Chains`, `AtomicsWait` | Notify wakes the first matching waiters in order; a waiter leaves each list once, never moves back, and its promise is resolved at most once |
| Function identities | `OrderIndex`, `FunctionIdentity` | The weak table is a map from keys to live identities under any collections |

How to read the models:

- Code that changes state is a class whose fields are those of the source (plus ghost fields for history). Records that the source
  links by pointers are numbered: `helpers`, `waiters`, `nodes` and `records` are sequences, and a link is a number.
- What runs outside the model (module bodies, iterator methods, callbacks, promise jobs, other agents, the collector) is arbitrary: a parameter,
  a reply, or a finite plan that says what it does each time it gets control. Results hold for every choice.
- A throw is a value. Timeouts, lock acquisition and collections are events that may come at any time.
- `Unfold` (module `Sealing`) occurs in predicates of the form `forall b :: Unfold(b) ==> P`. They mean `P`, and keep it folded where a proof only
  passes it on.

## Modelling decisions

- Module evaluation: a body is ready when, for each of its *direct* requests outside its component, everything reachable from that request has
  finished; nothing is stated about the requests of its cycle mates. The absence of deadlock is proved for runs with errors too.
- Module evaluation: a body without top-level await returns or throws; one with it suspends, returns something that is no promise (a TypeError), or throws.
- Iterator helpers: `HelperSteps` is the one definition of `helper_iteration`; both halves use it. In the half about lists a helper that is called
  is held by its activation and goes back into its caller's record; in the half about foreign code helpers are shared by number.
- Module evaluation: `ModuleBodies` keeps the account of the bodies. It changes only where a body runs or a promise is settled, by their outcomes, and
  the records have to agree with it.
- Promises: a job counts as run where user code gets control for it, or where the adoption is made. Combinators: an answer counts where user code ends.
- Async generators: a resumption counts where the body gets control, with the completion that it finds there.
- Iterator helpers: an event is noted when it happens outside the helper: a `next` or `return` when it is called, an end when the iterator's answer
  tells of it (for an iterator that is a helper itself, when that helper's activation ends). What a helper believes about its records is tied to these.
- Iterator helpers: reading `done` and `value` of a result is one request to foreign code, as is calling a callback and opening the iterator that it returned,
  since no helper changes in between.
- A flat mapping's callback picks the iterator that it returns from a finite list. A finite source calls it finitely often, so this restricts nothing.
- Set composition: the argument is what its `has` answers, the keys that its `keys` gives (with repetitions, in order) and its size, which need not agree.
- Ordered sets: keys stand for values up to SameValueZero, and the hash is an arbitrary function of the key.
- Table sizes are powers of two in the source, so masking an index is the remainder that the models use.
- Rounding: doubles are sign, exponent and fraction. `ldexp` and `mpz_get_d` are exact there, because no significand has more than 53 bits.
- `tsc_drain_microtasks` is not re-entered: the runtime calls it only from the event loop (runtime/tsc_core.c:2325-2335).

## Model

| member | source | states |
|---|---|---|
| `ModuleEvaluation.ModuleGraph.constructor` | runtime/tsc_module.c:147-162 | All records are linked, their own cycle roots, with nothing counted; the invariant holds and the history is empty |
| `ModuleEvaluation.NewGraph` | runtime/tsc_module.c:147-162 | There is a graph if and only if every request lies inside it |
| `ModuleEvaluation.ModuleGraph.Evaluate` | runtime/tsc_module.c:193-296 | For every graph and every outcome of the bodies the invariant holds again (components, counters, registrations, capabilities, origins of errors, fates of bodies), history only grows, only modules reachable from the given one are started, each with exactly the fate that its outcome gives it and no other body's fate changed, and the caller gets the capability of the module's cycle root; an index outside the graph changes nothing |
| `ModuleEvaluation.ModuleGraph.Grant` | runtime/tsc_module.c:207-222 | A module that has been walked gets a capability, settled at once if the module is evaluated |
| `ModuleEvaluation.ModuleGraph.Search` | runtime/tsc_module.c:231-281 | The depth-first worklist terminates and keeps the walk invariant up to its end or its first error; only modules reachable from the root are started |
| `ModuleEvaluation.ModuleGraph.SearchOne` | runtime/tsc_module.c:257-280 | One round makes the next request or finishes the record, keeps the walk invariant and lowers the measure |
| `ModuleEvaluation.ModuleGraph.EnterTop` | runtime/tsc_module.c:234-240 | A new frame's record goes on the stack under the next index, and the walk invariant still holds; a frame entered before is left alone |
| `ModuleEvaluation.ModuleGraph.Lower` | runtime/tsc_module.c:244-245 | The ancestor index becomes the smaller one |
| `ModuleEvaluation.ModuleGraph.Register` | runtime/tsc_module.c:251-254 | The pending counter and the list of the required module grow together |
| `ModuleEvaluation.ModuleGraph.LookBack` | runtime/tsc_module.c:241-256 | The request just visited is accounted for: ancestor index, registration, or its error |
| `ModuleEvaluation.ModuleGraph.StartBody` | runtime/tsc_module.c:61-69 | A body that is ready and has not started runs: it fails with what it throws, or with a TypeError if it awaits and hands back no promise; otherwise it completes, or awaits; an error at once is handed to the caller |
| `ModuleEvaluation.ModuleGraph.HearSettlement` | runtime/tsc_module.c:54-59 | The promise of a body in flight settles: the body has completed, or failed with that error, and is in flight no more |
| `ModuleEvaluation.ModuleGraph.RequestNext` | runtime/tsc_module.c:257-266 | The frame has made its next request, and there is a new frame for the requested module exactly if that is still linked; the walk invariant holds and the measure is lower |
| `ModuleEvaluation.ModuleGraph.FinishTop` | runtime/tsc_module.c:267-280 | The body of the finished record is started exactly if its counter is zero, with the fate that its outcome gives it; without an error the frame is gone and the invariant holds, and an error is the one that starting the body raised |
| `ModuleEvaluation.ModuleGraph.GoAsync` | runtime/tsc_module.c:267-270 | The record takes the next async order, and its body starts exactly if nothing is pending, and awaits or throws |
| `ModuleEvaluation.ModuleGraph.RunBody` | runtime/tsc_module.c:271-271 | A body runs only when it is ready and has not been started |
| `ModuleEvaluation.ModuleGraph.CloseComponent` | runtime/tsc_module.c:272-279 | The stack is popped down to the record, and every popped record gets it as cycle root and the status that its activity asks for |
| `ModuleEvaluation.ModuleGraph.Abort` | runtime/tsc_module.c:284-294 | Every record on the stack gets the error and its capability is rejected |
| `ModuleEvaluation.ModuleGraph.ExecutionRejected` | runtime/tsc_module.c:81-96 | The error reaches m and everything that waits, directly or not; every record that changes waits for m through the lists of async parents and gets this error |
| `ModuleEvaluation.ModuleGraph.ExecutionFulfilled` | runtime/tsc_module.c:104-145 | After a body has completed, what it held back is gathered, sorted and run, in async order, and the invariant holds again; if its module had failed meanwhile no record changes |
| `ModuleEvaluation.ModuleGraph.Gather` | runtime/tsc_module.c:109-122 | The worklist pays every registration that the completed modules owed, and lists exactly the modules that nothing holds back any more |
| `ModuleEvaluation.ModuleGraph.GatherSorted` | runtime/tsc_module.c:109-123 | What the end of a module sets free, as a list in async order that satisfies the invariant of the run |
| `ModuleEvaluation.ModuleGraph.RunAll` | runtime/tsc_module.c:124-144 | The listed modules that have not failed start in async order, each with the fate of its outcome |
| `ModuleEvaluation.ModuleGraph.SortByOrder` | runtime/tsc_module.c:98-123 | A permutation of the list in increasing async order |
| `ModuleEvaluation.ModuleGraph.RunListed` | runtime/tsc_module.c:124-144 | A listed module is passed over if it failed; otherwise its body starts, and its module completes, waits or fails as the outcome says |
| `ModuleEvaluation.ModuleGraph.Reject` | runtime/tsc_module.c:81-96 | The body has failed: its module has an error, exactly what waits for it gets this error unless it has one, whatever waits for a failed module has failed, and the invariant holds again |
| `ModuleEvaluation.ModuleGraph.ExecutionCallback` | runtime/tsc_module.c:54-59 | A fulfilment completes the body and a rejection fails it, and nothing else becomes of it; a rejection gives its error to what waits for the module and nothing else; the invariant holds again, and bodies set free start in async order |
| `ModuleEvaluation.Run` | runtime/tsc_module.c:54-296 | After every sequence of calls and callbacks the invariant holds, and every body's fate is deserved: one that throws has failed with exactly that error; one that returns has failed with exactly the TypeError if it should have awaited, and has completed otherwise; one that suspends has completed only if its promise was fulfilled, and failed only with what that was rejected with |
| `ModuleEvaluation.StartsOnceAndLate` | runtime/tsc_module.c:104-145 | In every history a body starts at most once, and only after every module reachable through one of its requests outside its component has completed without error |
| `ModuleEvaluation.StartsAfterSuccess` | runtime/tsc_module.c:104-145 | A body starts only after the bodies of everything reachable through its requests outside its component: none of them threw, none owed a promise, and the promise of each that awaits was fulfilled |
| `ModuleEvaluation.CycleRootsAreComponents` | runtime/tsc_module.c:231-281 | Two records that have been popped, failed ones included, share a cycle root if and only if they are mutually reachable |
| `ModuleEvaluation.PendingMeansRunning` | runtime/tsc_module.c:251-271 | A pending capability means that some body with nothing pending is in flight |
| `ModuleEvaluation.PendingMeansAwaiting` | runtime/tsc_module.c:251-271 | That body has suspended, and its promise has not been settled |
| `ModuleEvaluation.RootEndsLast` | runtime/tsc_module.c:267-281 | A cycle root that ended without error has a component, and everything reachable from it, that ended without error |
| `ModuleEvaluation.ErrorsComeFromBelow` | runtime/tsc_module.c:81-96 | A module has an error, and its capability is rejected with it, only if the body of some module that it reaches failed with that error |
| `ModuleEvaluation.ReasonsAreRaised` | runtime/tsc_module.c:42-96 | After every run the error of a module, and the reason that its capability is rejected with, is what the body of a module that it reaches threw, a delivered rejection of such a body's promise, or the TypeError for a promise that it did not hand back |
| `ModuleBodies.StartError` | runtime/tsc_module.c:61-69 | Starting a body raises exactly what it throws, or the TypeError if it awaits and hands back no promise |
| `ModuleEvaluation.RejectedExactlyOnFailure` | runtime/tsc_module.c:81-145 | A settled capability is rejected if and only if the body of some module that its module reaches has failed |
| `ModuleEvaluation.FailedBodyFailsModule` | runtime/tsc_module.c:81-96 | A module whose body has failed is evaluated and has an error |
| `ModuleEvaluation.NoFaultNoRejection` | runtime/tsc_module.c:81-96 | If no body that a module reaches has failed, it has no error and its capability is not rejected |
| `ModuleWalkClose.MembersAreComponent` | runtime/tsc_module.c:272-279 | At a pop, what is on the stack from the record up is exactly its strongly connected component |
| `ModuleWalkClose.CloseKeeps` | runtime/tsc_module.c:272-280 | A pop keeps the walk invariant, also with earlier calls' components around |
| `ModuleWalkFinish.TopReady` | runtime/tsc_module.c:267-271 | A record without pending dependencies may run its body: everything below its requests outside its component has finished |
| `ModuleWalkFinish.AbortKeeps` | runtime/tsc_module.c:284-294 | Setting the error on the stack leaves a state in which everything waiting is still accounted for |
| `ModuleAsync.GatherCount` | runtime/tsc_module.c:114-121 | Counting a parent down pays one registration; at zero it joins the list and, without an await, releases its own |
| `ModuleAsyncRun.FirstReady` | runtime/tsc_module.c:124-138 | The next listed module that has not failed may start: everything below its requests outside its component has finished |
| `ModuleAsyncRun.RunFinish` | runtime/tsc_module.c:132-137 | A listed body that completes keeps the invariant of the run |
| `ModuleAsyncRun.RunAwait` | runtime/tsc_module.c:131-131 | A listed body that awaits keeps the invariant of the run |
| `ModuleAsyncRun.RunThrow` | runtime/tsc_module.c:139-143 | A listed body that throws keeps the invariant for the rest of the list, although the error spreads |
| `ModuleAsyncRun.RejectKeeps` | runtime/tsc_module.c:81-96 | A rejection keeps the invariant between calls |
| `ModuleAsyncSealed.FailsStartedAlone` | runtime/tsc_module.c:81-96 | Of the modules to which an error spreads from an unfinished one, no other has been started |
| `ModuleState.SomeBodyRuns` | runtime/tsc_module.c:112-143 | From every module that waits, waiting edges lead to smaller async orders, down to a running body with nothing pending |
| `ModuleState.AllSettledWhenIdle` | runtime/tsc_module.c:207-222 | When no callback is to come, no capability that was handed out is pending |
| `ModuleState.MemberBeforeRoot` | runtime/tsc_module.c:272-279 | A cycle root finishes after all members of its component |
| `ModuleState.BelowFinishedRoot` | runtime/tsc_module.c:241-281 | Once a cycle root has finished, everything reachable from it has |
| `ModuleBodies.HeardFates` | runtime/tsc_module.c:54-59 | A settlement leaves every started body completed, failed with one error, or in flight, and only one of these |
| `HelperWorklist.Resume` | runtime/tsc_iterator_helpers.c:274-294 | Each `next` returns the first item of the list that the tree of helpers stands for and leaves a tree that stands for the rest, or reports the end exactly when that list is empty; `return` completes the helper; both terminate |
| `HelperWorklist.Collect` | runtime/tsc_iterator_helpers.c:174-294 | A whole run yields exactly the list of the helper |
| `HelperWorklist.Work.Iterate` | runtime/tsc_iterator_helpers.c:174-273 | One turn keeps the list that the call at the bottom of the stack has to deliver and lowers the bound on turns, or delivers |
| `HelperWorklist.Work.Complete` | runtime/tsc_iterator_helpers.c:139-153 | The activation below takes over with the same list to deliver, or the call ends with its item |
| `HelperWorklist.Work.Push` | runtime/tsc_iterator_helpers.c:134-138 | A new activation is on top |
| `HelperWorklist.CreatedMeans` | runtime/tsc_iterator_helpers.c:44-74 | A helper is created exactly if its callback is callable or its limit is a number that is not negative, and `next` can be read; a bad callback is a TypeError, a bad limit a RangeError or the error of its conversion, and closes the receiver; a created helper stands for its list function applied to its receiver's list |
| `HelperWorklist.CreatedConcatMeans` | runtime/tsc_iterator_helpers.c:83-102 | A concatenation is refused exactly if an argument has no iterator method; otherwise it stands for the concatenated lists |
| `HelperSteps.Usable` | runtime/tsc_iterator_helpers.c:88-100 | The arguments in order, unless one of them cannot be iterated |
| `HelperWorklist.MapListAt` | runtime/tsc_iterator_helpers.c:231-249 | Item `i` of a mapping is the callback of item `i` and index `i` |
| `HelperWorklist.FilterListAt` | runtime/tsc_iterator_helpers.c:231-249 | A filtered list has item `i` in its place exactly if the callback returns something truthy for item `i` and index `i` |
| `HelperWorklist.TakeAndDrop` | runtime/tsc_iterator_helpers.c:187-199 | What is taken and what is dropped make up the list, and the limit, or the end of the list, divides it |
| `HelperWorklist.FlatListAt` | runtime/tsc_iterator_helpers.c:231-242 | Item `i` of a flat mapping stands, in its place, for the list that the callback picks for item `i` and index `i` |
| `HelperWorklist.ConcatListAt` | runtime/tsc_iterator_helpers.c:189-193 | Each iterable of a concatenation has its list in its place |
| `HelperTurns.StartTurn` | runtime/tsc_iterator_helpers.c:177-185 | Starting keeps the list to deliver |
| `HelperTurns.LimitReached` | runtime/tsc_iterator_helpers.c:187-191 | An exhausted limit or concatenation has nothing left to deliver |
| `HelperTurns.OpenTurn` | runtime/tsc_iterator_helpers.c:192-193 | Opening the next iterable keeps the list to deliver |
| `HelperTurns.AskOpen` | runtime/tsc_iterator_helpers.c:195-207 | Choosing the record and counting the item keep the list to deliver, in terms of that record's list |
| `HelperTurns.DoneResult` | runtime/tsc_iterator_helpers.c:216-223 | The end of a record keeps the list to deliver: the next record goes on, or nothing is left |
| `HelperTurns.SkippedResult` | runtime/tsc_iterator_helpers.c:224-224 | A skipped item leaves the dropped list as it was |
| `HelperTurns.ItemResult` | runtime/tsc_iterator_helpers.c:225-229 | An item is delivered as the first of the list, or goes to the callback |
| `HelperTurns.CallTurn` | runtime/tsc_iterator_helpers.c:231-247 | The callback's result is the first item of a mapping; a filter delivers or drops the item |
| `HelperTurns.EnterTurn` | runtime/tsc_iterator_helpers.c:237-241 | The inner iterator takes its place in front of what the later items will give |
| `HelperTurns.CloseTurn` | runtime/tsc_iterator_helpers.c:251-267 | Closing makes progress and delivers nothing |
| `HelperTurns.PopTurn` | runtime/tsc_iterator_helpers.c:210-213 | The caller continues with exactly what the callee delivered and left |
| `HelperEngine.Run` | runtime/tsc_iterator_helpers.c:174-294 | After every run, whatever foreign code does: once a record's iterator has told of its end or been closed, nothing is asked of it; once a helper's outer record is closed nothing is asked of any of its records; before that all its inner records have ended or been closed |
| `HelperEngine.ClosesAtMostOnce` | runtime/tsc_iterator_helpers.c:251-267 | Of two events on one record the first is a `next`: `return` comes at most once, and neither `next` nor `return` after the iterator has told of its end, by `done`, by a throw or by a result that is no object |
| `HelperEngine.NothingLeftOpen` | runtime/tsc_iterator_helpers.c:139-147 | The iterator of every record of a completed helper has told of its end or has been closed; a record is open if and only if a helper that is not executing holds it |
| `HelperEngine.RunsAlone` | runtime/tsc_iterator_helpers.c:177-181 | No two activations execute the same helper |
| `HelperEngine.Engine.Turn` | runtime/tsc_iterator_helpers.c:274-294 | A turn does what the iteration asks for and leaves everything else as it was; it keeps the invariant, lowers the measure unless it asks foreign code, and raises a TypeError exactly for a helper that is executing already or a result that is no object; it adds at most one event, an end only for the caller's record when the callee comes to its end; a call that ends, ends with the first error raised in it, and with a value, undefined when done, if none was |
| `HelperEngine.Engine.Proceed` | runtime/tsc_iterator_helpers.c:274-294 | A call makes finitely many turns until it asks foreign code, or ends and is gone |
| `HelperEngine.Engine.Perform` | runtime/tsc_iterator_helpers.c:274-294 | Whatever can happen next happens: foreign code calls, creates and answers while it has control, and otherwise the call in progress goes on until it asks or ends |
| `HelperEngine.Engine.Answer` | runtime/tsc_iterator_helpers.c:205-273 | What becomes of each answer: an item ends the call or goes to the activation below as it is, or is kept for the callback, and only one to be dropped is lost; the callback's value is the item of a mapping, and lets a filter give the item it holds exactly if it is truthy; an iterator becomes the open record; an error ends the record being stepped if `next` or its result failed, and leads to closing with the first error kept; an answer that the request cannot have changes nothing |
| `HelperEngine.Engine.AnswerNext` | runtime/tsc_iterator_helpers.c:205-213 | An object is kept to be read; a result that is no object is the end of its record, and no other is |
| `HelperEngine.Engine.AnswerInspect` | runtime/tsc_iterator_helpers.c:214-230 | The end of a record is noted exactly when the result says done, and another step or the end of the helper follows; an item is delivered, kept or dropped as it is |
| `HelperEngine.Engine.AnswerCallback` | runtime/tsc_iterator_helpers.c:231-249 | The callback's value is the item of a mapping, decides about the item of a filter, and is the inner iterator of a flat mapping or else a TypeError |
| `HelperAnswers.ResultTakes` | runtime/tsc_iterator_helpers.c:214-230 | The step on a result that can be read is, in the terms of records and activations, the end of the record or the delivery, keeping or dropping of the item |
| `HelperAnswers.CallTakes` | runtime/tsc_iterator_helpers.c:242-248 | The step on a callback's value delivers it or the item in hand, or drops the item, and counts one more index |
| `HelperAnswers.FailTaken` | runtime/tsc_iterator_helpers.c:154-173 | Failing marks done exactly the record that was being stepped, keeps an earlier error, and says which records are still to be closed |
| `HelperAnswers.OpenTakes` | runtime/tsc_iterator_helpers.c:192-207 | An iterable that has been opened is the outer record, and is asked at once |
| `HelperEngine.Engine.AskRecord` | runtime/tsc_iterator_helpers.c:195-208 | Exactly the current record is asked: foreign code is called, or an activation of the native helper is pushed; nothing else changes |
| `HelperEngine.Engine.ShutRecord` | runtime/tsc_iterator_helpers.c:251-267 | Exactly the record in turn is closed and marked done: foreign code is called, or an activation that closes the native helper is pushed |
| `HelperEngine.Engine.Fail` | runtime/tsc_iterator_helpers.c:154-173 | An error is added and closing begins; the record being stepped has ended if `next` or the reading of its result failed, and none has if a callback failed |
| `HelperEngine.Engine.Leave` | runtime/tsc_iterator_helpers.c:139-153 | The helper is suspended or completed, its end is the end of the record that the caller holds on it, and at the bottom the call ends with its first error or its value |
| `HelperEngine.Engine.Call` | runtime/tsc_iterator_helpers.c:274-281 | A call begins with one activation of the given helper, whenever foreign code runs |
| `HelperEngine.Engine.Create` | runtime/tsc_iterator_helpers.c:44-74 | A new helper with an open outer record of its own; a bad argument closes the receiver, which for a helper is a call, and an unreadable `next` closes nothing |
| `HelperEngine.Engine.CreateConcat` | runtime/tsc_iterator_helpers.c:83-102 | A new concatenation with no record open, exactly if every argument has an iterator method |
| `HelperReentry.FirstDelivered` | runtime/tsc_iterator_helpers.c:148-158 | The last activation of a call has failed if and only if an error was raised in the call, and carries the first one |
| `HelperReentry.FailKeeps` | runtime/tsc_iterator_helpers.c:159-173 | Failing in any phase keeps the invariant between what the iterators have told and what the helper believes, and closing begins |
| `HelperReentry.PoppedKeeps` | runtime/tsc_iterator_helpers.c:139-153 | Completing an activation keeps the invariant; a completed helper has no open record |
| `HelperReentry.RefusedKeeps` | runtime/tsc_iterator_helpers.c:178-179 | A call of an executing helper fails and leaves that helper alone |
| `HelperRecords.ShutLocal` | runtime/tsc_iterator_helpers.c:251-255 | Closing takes the inner record first, and only open ones |
| `HelperTermination.RankFalls` | runtime/tsc_iterator_helpers.c:174-273 | Every step of an activation lowers its rank, unless it is given an item or drops one; asking or closing a record leaves room for one more activation |
| `HelperTermination.PopFalls` | runtime/tsc_iterator_helpers.c:139-153 | The end of an activation lowers the measure: an item goes down the stack, and a helper that has come to its end is idle no more |
| `OrderedSet.Set.Find` | runtime/tsc_map_set.c:228-250 | Probing ends; it finds the key's position exactly if the key is in the vector, and otherwise a slot where it may be put |
| `OrderedSet.Set.Rebuild` | runtime/tsc_map_set.c:196-208 | The new table indexes the vector, without tombstones |
| `OrderedSet.Set.Grow` | runtime/tsc_map_set.c:294-298 | There is room for one more key below three quarters; the table stays if there was, and at least doubles otherwise |
| `OrderedSet.Set.Add` | runtime/tsc_map_set.c:289-310 | The key is at the end of the vector, unless it was in it; the index and the order list agree with the vector |
| `OrderedSet.Set.Has` | runtime/tsc_map_set.c:329-331 | Whether the key is in the vector |
| `OrderedSet.Set.AppendNode` | runtime/tsc_map_set.c:37-43 | The active nodes, in order, are the entries of the vector again |
| `OrderedSet.Set.DropNode` | runtime/tsc_map_set.c:45-52 | One node becomes inactive and the later ones are renumbered; nothing is unlinked |
| `OrderedSet.Set.AdvanceHead` | runtime/tsc_map_set.c:53-55 | The head passes only inactive nodes, all of those before the first live one |
| `OrderedSet.Set.Delete` | runtime/tsc_map_set.c:337-353 | The key's entry is gone from the vector and the others keep their order; found exactly if it was there |
| `OrderedSet.Set.Clear` | runtime/tsc_map_set.c:355-363 | The set is empty and its table too |
| `OrderedSet.Cursor.constructor` | runtime/tsc_map_set.c:536-543 | A new cursor is before every live entry |
| `OrderedSet.Cursor.Step` | runtime/tsc_map_set.c:545-569 | The earliest entry that is live now and after the cursor; at the end, every live entry after its start has been returned |
| `OrderedSet.CursorSurvives` | runtime/tsc_map_set.c:545-569 | Whatever happens to the set, a cursor's account stays right: returned once each, in order, none skipped |
| `OrderedSet.Interleave` | runtime/tsc_map_set.c:26-62 | Cursors opened before or during any script of changes and steps all keep that account, and the set holds what the changes alone make of a plain list |
| `SetComposition.Combine` | runtime/tsc_map_set.c:675-728 | Union, intersection, difference and symmetric difference hold exactly the expected keys in the expected order, by the strategy that the sizes choose, for every argument |
| `SetComposition.CombinationIsAlgebra` | runtime/tsc_map_set.c:686-725 | For an argument whose `has`, `keys` and size agree, those keys are the ones that the algebra of sets says, so both strategies give the same set |
| `SetComposition.CombinationIsOrdered` | runtime/tsc_map_set.c:670-725 | A result has no repetitions and stands in the order of the receiver's keys followed by the argument's; an intersection in the order of the receiver if that is not larger than the argument, and otherwise in the order of the argument's keys |
| `SetComposition.Decide` | runtime/tsc_map_set.c:683-728 | Subset, superset and disjointness are decided by the shortcuts by size and by the strategy that the sizes choose, for every argument |
| `SetComposition.DecisionIsAlgebra` | runtime/tsc_map_set.c:683-728 | For an argument whose `has`, `keys` and size agree, the answer is the one of the algebra of sets, the shortcuts by size included |
| `SetComposition.SubtractByHas` | runtime/tsc_map_set.c:698-710 | Walking a copy and deleting from it leaves exactly what the argument does not have, in order |
| `SetComposition.DeleteHere` | runtime/tsc_map_set.c:699-708 | Deleting the entry under a cursor takes out that entry alone, and the cursor goes on with the one after it |
| `SetComposition.IntersectByHas` | runtime/tsc_map_set.c:698-710 | Walking the receiver and asking the argument gives the intersection in the receiver's order |
| `SetComposition.BuildByKeys` | runtime/tsc_map_set.c:711-725 | Walking the argument's keys, repetitions included, builds the combination key by key |
| `SetComposition.AllAnswer` | runtime/tsc_map_set.c:698-710 | Whether the argument gives the wanted answer for every key of the receiver |
| `SetComposition.AllFound` | runtime/tsc_map_set.c:711-718 | Whether every key of the argument is, or is not, in the receiver |
| `SetComposition.CopyInto` | runtime/tsc_map_set.c:670-674 | A copy holds the same keys in the same order |
| `SetComposition.Next` | runtime/tsc_map_set.c:545-569 | A cursor yields the entries of the vector one after the other |
| `AsyncGenerator.Generator.Apply` | runtime/tsc_iterator.c:845-870 | The call is queued last; if the queue is being processed nothing else happens, and otherwise nothing is left undone; with an empty queue the call is taken at once, so that a first `next` starts the body |
| `AsyncGenerator.Generator.Drain` | runtime/tsc_iterator.c:811-843 | Terminates; afterwards the queue is empty, or the body is under way, or a return value is awaited; the first call of the queue has been given to the body, settled, or has its return value awaited, as its kind and the state ask for; a nested drain does nothing |
| `AsyncGenerator.Generator.DrainOne` | runtime/tsc_iterator.c:814-839 | A `next` for a generator that has not started, and any call but a return for one that has yielded, is given to the body, which nothing else is; a return has its value awaited first, or the error of that given to the body; a call on a finished generator is settled by its own completion, or has its return value awaited |
| `AsyncGenerator.Generator.Deliver` | runtime/tsc_iterator.c:835-838 | The body gets control for the first call of the queue, once, with the completion announced, and takes a turn; afterwards it is suspended, finished, or waits for a promise of its own |
| `AsyncGenerator.Generator.Announce` | runtime/tsc_iterator.c:835-837 | The completion that the body will find is that of the first call, and undefined for the call that starts it |
| `AsyncGenerator.Generator.EnterBody` | runtime/tsc_iterator.c:621-626 | The body gets control only for a call that was announced or because a promise of its own has been settled, and the resumption is noted there |
| `AsyncGenerator.Generator.CompleteStep` | runtime/tsc_iterator.c:601-619 | The first call of the queue, and no other, is settled as asked |
| `AsyncGenerator.Generator.RunBody` | runtime/tsc_iterator.c:637-652 | A stretch of the body takes a turn, and settles the current call with what it yields, returns or throws, or settles nothing and awaits |
| `AsyncGenerator.Generator.Suspend` | runtime/tsc_iterator.c:637-642 | A yield settles the current call with its value |
| `AsyncGenerator.Generator.Finish` | runtime/tsc_iterator.c:643-652 | The end of the body settles the current call and the generator is finished |
| `AsyncGenerator.Generator.Resume` | runtime/tsc_iterator.c:621-630 | From the queue the announced call gets the body control; from outside only a body that waits for its own promise is resumed, and then the queue is drained |
| `AsyncGenerator.Generator.AwaitReturn` | runtime/tsc_iterator.c:786-809 | A return's value is awaited, or the error of the attempt becomes a throw for the body, or rejects the call of a finished generator; nothing else is settled |
| `AsyncGenerator.Generator.AnswerFinished` | runtime/tsc_iterator.c:821-829 | A call on a finished generator is settled by its own completion, a return whose value cannot be awaited by that error, or the value of the return is awaited |
| `AsyncGenerator.Generator.ReturnCallback` | runtime/tsc_iterator.c:763-784 | The awaited value or error resumes the body, or settles the call if the generator has finished, and the queue goes on |
| `AsyncGenerator.Run` | runtime/tsc_iterator.c:763-870 | Over every run: calls are settled once each in order, the first ones by what the stretches of the body give and by nothing else, the others, once the generator is finished, by themselves; the body gets control at most once per call in order, each time with what suits its call; a first `next` has started it; nothing is left undone |
| `AsyncGenerator.DeliverBooks` | runtime/tsc_iterator.c:835-837 | Resuming the body for the first call keeps the order of resumptions, and what it is given suits the call |
| `AsyncGenerator.SettleBooks` | runtime/tsc_iterator.c:601-619 | Settling the first call keeps the order of settlements and the account of what settles which call: the stretches of the body up to its end, and after that the calls themselves |
| `AsyncGenerator.DoneStaysDone` | runtime/tsc_iterator.c:821-828 | After a result that is no item the generator is finished, and every later call is settled by its own completion |
| `AsyncGenerator.StartedByNext` | runtime/tsc_iterator.c:814-838 | Whenever nothing is under way, a generator whose first call is a `next` has been started |
| `AsyncGenerator.OnlyLastEnds` | runtime/tsc_iterator.c:637-652 | Only the last stretch of the body can settle a call with anything but a yield |
| `AsyncGenerator.AllSettledWhenIdle` | runtime/tsc_iterator.c:811-843 | With an empty queue every call has exactly one settlement |
| `Promises.Runtime.Settle` | runtime/tsc_promise.c:1023-1045 | A pending promise gets the state and its reactions are queued in order; a settled one is left alone |
| `Promises.Runtime.Trigger` | runtime/tsc_promise.c:64-77 | The reactions are queued in order and the promise forgets them |
| `Promises.Runtime.AddCallback` | runtime/tsc_promise.c:79-94 | The job waits with the promise, or is queued at once |
| `Promises.Runtime.AdoptInto` | runtime/tsc_promise.c:106-128 | A settled source is taken over at once, and is noted as the cause; a pending one gets the adoption as its last reaction and nothing else changes; a promise that is settled already stays as it is |
| `Promises.Runtime.ResolveGate` | runtime/tsc_promise.c:202-236 | Only the first use of a pair of resolving functions counts; self-resolution rejects, a plain value fulfils, an object is asked for its `then` |
| `Promises.Runtime.RejectGate` | runtime/tsc_promise.c:136-140 | The same for rejection |
| `Promises.Runtime.AskThen` | runtime/tsc_promise.c:212-235 | A `then` that throws rejects, one that is not callable fulfils, a callable one is queued |
| `Promises.Runtime.ResolveInto` | runtime/tsc_promise.c:238-243 | A pending promise is resolved through a pair of functions of its own |
| `Promises.Runtime.Interject` | runtime/tsc_core.c:2314-2323 | User code gets control, for a job or otherwise; the job that left the queue has run, and settled promises and used pairs stay so |
| `Promises.Runtime.CallThen` | runtime/tsc_promise.c:170-186 | A `then` is called with a new pair; if it throws while the pair is unused and the promise pending, the promise is rejected with that error, and otherwise nothing changes after it |
| `Promises.Runtime.RunJob` | runtime/tsc_promise.c:170-186 | The job runs, which for all but adoptions gives user code control; an adoption gives its promise the state of the source if it is still pending, and a `then` that throws rejects its target as above |
| `Promises.Runtime.Enqueue` | runtime/tsc_core.c:2291-2312 | The job is the last of the queue |
| `Promises.Runtime.RunNext` | runtime/tsc_core.c:2314-2323 | The next job of the queue, and no other, has run |
| `Promises.Runtime.Drain` | runtime/tsc_core.c:2314-2323 | Terminates; every job that was queued, before or meanwhile, has been given control exactly once and in the order of queueing |
| `Promises.Run` | runtime/tsc_core.c:2314-2335 | The same over every run |
| `Promises.ReactionsHaveRun` | runtime/tsc_promise.c:64-94 | After a drain the jobs of a settled promise are exactly those registered, in order, once each; a pending promise has all of them still |
| `Promises.AdoptionsAreDone` | runtime/tsc_promise.c:101-128 | After a drain a promise that adopted a settled one is settled, and whatever settled it explains its state: the state of the source that it took over, or the state that it was given |
| `PromiseCombination.Combination.Combine` | runtime/tsc_promise.c:505-564 | The intake ends exactly by the answers of user code: finished by the iterator's end with nothing thrown before, failed by the one throw, after which the iterator is closed once exactly if it still had items; a failed one never completes |
| `PromiseCombination.Combination.TakeNext` | runtime/tsc_promise.c:532-532 | The iterator's answer is its end, a failure, or an item that is taken in |
| `PromiseCombination.Combination.TakeItem` | runtime/tsc_promise.c:532-560 | One more slot, gate and count, also if callbacks run meanwhile; a throw of `resolve` or `then` abandons the intake |
| `PromiseCombination.Combination.Element` | runtime/tsc_promise.c:475-495 | The first call of either callback fills the slot of its index and closes the gate; later ones do nothing |
| `PromiseCombination.Combination.Complete` | runtime/tsc_promise.c:454-473 | The result is the list of slots at that moment |
| `PromiseCombination.Combination.Fail` | runtime/tsc_promise.c:517-524 | The iterator is closed unless it has ended or thrown, and the sentinel stays |
| `PromiseCombination.Run` | runtime/tsc_promise.c:424-564 | The count equals the open gates plus the sentinel over every run |
| `PromiseCombination.OneOutcome` | runtime/tsc_promise.c:505-564 | The answers of user code determine one outcome of the intake |
| `PromiseCombination.CompletesExactlyOnce` | runtime/tsc_promise.c:475-564 | Completed at most once, and if and only if the answers of user code say that the iterator has ended with nothing thrown, and every element has been called; never if they say that the intake has failed |
| `PromiseCombination.ResultsInOrder` | runtime/tsc_promise.c:446-495 | The result has one slot for each item that the iterator gave, and slot `i` holds what the first call of element `i` gave: the value of a fulfilment in `all`, of a rejection in `any`, and in `allSettled` a record of which it was |
| `Rounding.SignificandIsNearest` | runtime/tsc_builtin.c:614-620 | Guard, sticky and parity round to the nearest multiple, ties to even |
| `Rounding.UnboundedIsNearestEven` | runtime/tsc_builtin.c:611-620 | With no largest exponent, the result is the nearest representable value with ties to even, for every integer, scale and format, with subnormals and carries |
| `Rounding.NearestEvenUnique` | runtime/tsc_builtin.c:595-597 | That value is unique, so the specification determines it |
| `Rounding.ResultOnGrid` | runtime/tsc_builtin.c:611-623 | The result is representable |
| `Rounding.OverflowsFromMidpoint` | runtime/tsc_builtin.c:606-623 | The result is infinite if and only if the number reaches the midpoint above the largest value |
| `Rounding.FiniteIsNearestEven` | runtime/tsc_builtin.c:598-627 | Every other number becomes the nearest representable value with ties to even |
| `Numbers.RoundsCorrectly` | runtime/tsc_builtin.c:598-627 | Both together, with the sign |
| `Numbers.NumberRoundsCorrectly` | runtime/tsc_builtin.c:646-654 | Every finite binary64 value is rounded correctly to binary16 and to binary32 |
| `Numbers.ExactStaysExact` | runtime/tsc_builtin.c:611-623 | A representable number is not changed |
| `Numbers.KeepsGridPoints` | runtime/tsc_builtin.c:598-627 | A number is left as it is if and only if it is representable and below the power of two at which the format ends |
| `Numbers.Binary32Keeps` | runtime/tsc_builtin.c:464-473 | `Math.fround` leaves as they are exactly the numbers below 2^128 with 24 binary digits, none of them below 2^-149 |
| `Numbers.Binary64Keeps` | runtime/tsc_builtin.c:464-468 | A sum is left as it is exactly if it is below 2^1024 and has 53 binary digits, none of them below 2^-1074 |
| `Numbers.LdexpInjective` | runtime/tsc_builtin.c:623-623 | Two results are the same value exactly if their significands and exponents stand for the same number |
| `Numbers.DirectEqualsGeneric` | runtime/tsc_numeric_storage.c:3-28 | Decoding the direct binary16 conversion equals the generic rounding, for every binary64 value |
| `Numbers.HalfIsSixteenBits` | runtime/tsc_numeric_storage.c:3-28 | The conversion gives 16 bits with the sign in front, and one NaN for each sign |
| `SumPrecise.SumItems` | runtime/tsc_builtin.c:679-729 | The loop returns the expected sum, or the error of the first item that is no number, or the error of too many items |
| `SumPrecise.SumIsRoundedOnce` | runtime/tsc_builtin.c:728-728 | For finite numbers with a nonzero exact sum the result is the correctly rounded exact sum: infinite exactly from the midpoint above the largest value on, otherwise nearest with ties to even, and with the sign of the sum |
| `SumPrecise.SumOfOne` | runtime/tsc_builtin.c:679-729 | The sum of one number is that number, for every binary64 value: NaN, an infinity with its sign, minus zero, or the exact value |
| `SumPrecise.NeighboursApart` | runtime/tsc_builtin.c:633-644 | The value that the bit fields stand for: 0 for zero, turned round by the sign, and neighbours one unit of 2^-1074 apart through the subnormals and the first normal binade, and twice as far in each later one |
| `SumPrecise.OrderIsIrrelevant` | runtime/tsc_builtin.c:676-729 | The expected sum does not change under permutation, with NaN, infinities and minus zeros |
| `SumPrecise.SumOfPermutation` | runtime/tsc_builtin.c:717-719 | Nor does the exact sum |
| `AtomicsWait.WaiterLists.CompleteLocked` | runtime/tsc_atomics_wait.c:39-51 | A waiting record is taken off the linked list wherever it is, gets its status, and joins the ready list if it has a promise; any other record is left alone |
| `AtomicsWait.WaiterLists.UnlinkWaiting` | runtime/tsc_atomics_wait.c:41-46 | The links spell out the list without that record, head and tail included |
| `AtomicsWait.WaiterLists.Create` | runtime/tsc_atomics_wait.c:52-58 | A new record on no list |
| `AtomicsWait.WaiterLists.Begin` | runtime/tsc_atomics_wait.c:59-66 | Exactly a waiter whose word matches, and which may wait, is last on the waiting list and marked as started; any other is refused with its status; no other record changes |
| `AtomicsWait.WaiterLists.Notify` | runtime/tsc_atomics_wait.c:117-121 | A waiter on the list whose block and offset are those given is woken exactly if fewer of these than the count stand before it; every other waiter keeps its record and stage; the result is the number of the woken, and the list keeps the order of the rest |
| `AtomicsWait.WaiterLists.CompleteAll` | runtime/tsc_atomics_wait.c:118-120 | The sweep over the changing list takes out the first selected waiters and leaves the others in order |
| `AtomicsWait.WaiterLists.TakeReady` | runtime/tsc_atomics_wait.c:86-95 | The ready list is split by agent, both parts in order |
| `AtomicsWait.WaiterLists.ScheduleCompletions` | runtime/tsc_atomics_wait.c:83-100 | Each ready waiter of the agent becomes one microtask, in order |
| `AtomicsWait.WaiterLists.Resolve` | runtime/tsc_atomics_wait.c:77-82 | The microtask resolves its waiter's promise and is gone |
| `AtomicsWait.WaiterLists.TimeoutWaiter` | runtime/tsc_atomics_wait.c:109-112 | A timer in time completes its waiter alone, as timed out; a late one completes none; then the ready waiters of the agent become microtasks, in order |
| `AtomicsWait.WaiterLists.SuspendRound` | runtime/tsc_atomics_wait.c:67-76 | A suspended waiter returns exactly when it is no longer waiting, with the status that it left with; no other waiter changes |
| `AtomicsWait.WaiterLists.AbandonAgent` | runtime/tsc_atomics_wait.c:125-142 | Exactly the waiting and ready waiters of the agent are taken out, those that waited as timed out; the other waiters are unchanged and both lists keep their order |
| `AtomicsWait.WaiterLists.Count` | runtime/tsc_atomics_wait.c:122-124 | The number of positions of the list that hold a waiter with that block and that offset |
| `AtomicsWait.WaiterLists.SeenByNotify` | runtime/tsc_atomics_wait.c:59-66 | A waiter that read the expected value and has not left is reached by a notification for its block and offset exactly if the count exceeds the waiters at that place before it |
| `AtomicsWait.TakesTheFirst` | runtime/tsc_atomics_wait.c:119-119 | The sweep takes a prefix of the matching waiters, of the length asked for or all |
| `AtomicsWait.SiftMembers` | runtime/tsc_atomics_wait.c:119-119 | What is not taken stays, and the other way round |
| `AtomicsWait.Perform` | runtime/tsc_atomics_wait.c:37-142 | Whatever one agent does in one critical section moves every waiter forward or leaves it, and does what the event says: a call that waits compares the word in memory and leaves one new record, on the list exactly if it is to wait; a wake, a timer, a microtask and the end of an agent change exactly the waiters that they are about |
| `AtomicsWait.Run` | runtime/tsc_atomics_wait.c:37-142 | Over every run each waiter is on the list of its stage, once, no promise is resolved twice, and from each moment to the next no waiter moves back and no status changes once it is set |
| `AtomicsWait.NothingMovesBack` | runtime/tsc_atomics_wait.c:39-51 | The same between any two moments of a run |
| `FunctionIdentity.Registry.FindSlot` | runtime/tsc_core.c:228-235 | Probing ends at the key's entry or at a free slot that shows it has none |
| `FunctionIdentity.Registry.Lookup` | runtime/tsc_core.c:355-362 | The live identity of the key, if it has one |
| `FunctionIdentity.Registry.Register` | runtime/tsc_core.c:364-397 | The live identity for an equal key, or else the new one, which is live from then on; at most half the slots are occupied |
| `FunctionIdentity.Registry.Rebuild` | runtime/tsc_core.c:323-353 | The new table means exactly the identities that survived, with room for more, also if a collection comes meanwhile |
| `FunctionIdentity.Registry.RebuildLocked` | runtime/tsc_core.c:297-319 | Copying keeps exactly the live entries |
| `FunctionIdentity.Registry.MarkEnd` | runtime/tsc_core.c:260-271 | After a collection a key with an environment is live if and only if it was and its identity is marked, and a key without one if and only if it was; all with the same identities |
| `FunctionIdentity.FoundOrAbsent` | runtime/tsc_core.c:228-235 | The slot where a probe ends tells whether the key has a live identity, and which |
| `FunctionIdentity.Run` | runtime/tsc_core.c:355-397 | Over every run an identity without an environment stays what it was first registered as |

## Left out

- Load and link errors of modules, `import.meta` and `error_source` (runtime/tsc_module.c:164-216): diagnostics.
- ModuleEvaluation.ModuleGraph.Evaluate: a body does not call it again while it runs, and no microtask runs inside it.
- HelperWorklist.Resume: covers callbacks without effects and finite sources; sharing of helpers, throwing callbacks and re-entry are covered by `HelperEngine`.
- HelperEngine.Engine.CreateConcat: the reading of an argument's iterator method is not a step of its own, so an error of it is one kind of refusal.
- The map side of the ordered collections, key hashing and boxing: the index functions of maps are not part of this model.
- SetComposition.Combine: an argument whose methods change the receiver or answer differently from time to time is not covered.
- AsyncGenerator.Generator.Apply: does not cover receivers that are no async generators; synchronous generators and delegation are not modelled.
- PromiseCombination.Combination.Complete: the settling of the result promise itself, by capability functions of user code, is not modelled.
- Promises.Runtime.AddCallback: the custom enqueue function of a callback is taken to be the microtask queue.
- Promises.Runtime.Drain: cross-thread posting, `process.nextTick` and job checkpoints are not modelled.
- AtomicsWait.WaiterLists.SuspendRound: clocks and condition variables are events; whether a sleeping thread is woken in time is not modelled.
- Realms, garbage-collection roots, property lookup, proxies and prototypes: foreign code is arbitrary instead.
- Timers, arrays, the file system and the other host functions: not part of this model.
