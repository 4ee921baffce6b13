# Verified model of inter-state copying, lanes and the process kernel

IVRWorX runs scripts in Lua states on several threads and connects processes by messages. This project
models the parts of it in which most can go wrong and proves what they keep, for every input, every run
and every interleaving:

- **Copying values between Lua states** (`iw_lanes/tools.cpp`). `LuaGraph` is the heap of a state as a
  finite graph, `DepthFirst` the order in which a copy meets its objects, `CopyWorld` what one copy has done
  so far, `CopySteps` its single writes. `InterCopy` is
  the recursive traversal itself, as methods that fill tables, caches and registries in place; its
  termination measure is the number of source objects not met yet. `CopyTheorems` says what a caller gets:
  an isomorphic image, metatables that come home, exactly when a function is refused as recursive, in terms of
  the depth-first order in which the call meets its objects, and what exactly a failed call leaves half copied.
  `CopyRuns` chains any number of copies between any number of states. `DeepUserdata` interleaves the
  creation, copying and collection of reference-counted data.
- **Lanes and Lindas** (`iw_lanes/lanes.cpp`, `iw_lanes/keeper.lua`, `iw_lanes/threading.cpp`).
  `SelfdestructChain` is the intrusive list with its pointer-to-pointer removal; `LaneLifecycle`
  interleaves a lane's exit, the collection of its handle and the walks at process exit over that list.
  `Keeper` is the queue of a Linda, `LindaWakeup` sleeping and waking on it, `Finalizers` the end of a lane
  on its Lua stack.
- **The process and message kernel** (`iw_core`). `Transactions` interleaves requests, answers and
  timeouts; `WaitForTxn` is the waiting loop over a clock; `Registrar` the three maps of handles;
  `HandleWaiter` the slots and index arrays around WaitForMultipleObjects; `ActiveObject` the listeners.
  `SkipErase` describes the loop that the last two share, which erases while it walks and so overlooks an
  element.
- **The nested profiler** (`iw_core/Profiler.cpp`): `Profiler`.

`Basics` holds what several modules share.

Protocols over several threads are state machines: an `Action` type, a step function in which an action
that is not enabled changes nothing, and theorems about the state after any sequence of actions. Code that
works in place on one thread is a class with methods, proved against functions whose own meaning is
proved by lemmas.

## Where the code departs from what it says

- **Finalizers get other arguments than documented.** `finalizer_func( [err, stack_tbl] )` is promised, but
  the index of the error value is taken one too high, so after an error a finalizer gets the stack trace
  and the table of finalizers. `Finalizers.ArgsAsDocumented`.
- **A Linda loses values around `false`.** A queue with `false` in its slot counts as empty: the next send
  writes over it and over what is queued behind it. `Keeper.FifoUnlessFalse` is the exact condition,
  `FifoWithoutFalse` what a caller can see to, `FalseIsLost` a run.
- **A limit of 0 refuses everything**, also when the slot is vacant, although the comment says that a send
  then waits only for the slot. `Keeper.LimitZeroRefuses`.
- **`set` and `limit` wake no sender.** `LindaWakeup.SetSenders` and `LimitSenders` say exactly when one is
  left asleep with room, `SenderMissesClear` and `SenderMissesLimit` give runs.
- **A lane record can be kept for ever**: exactly if the collector finds the lane running and the lane looks for
  its link before the collector has set it, or is killed after it has seen it. `LaneLifecycle.FreedUnlessMissed`,
  `MissedForEver`, `MissHappens`; not if the lane has been joined first, `JoinedIsFreed`.
- **A lane can unlock the mutex of a freed record**, because the collector reads the final status without
  the lock: whenever the lane stands between storing its status and unlocking, and has not been killed.
  `LaneLifecycle.TouchesOnlyUnfreed`, `UnlockMayFollowFree`.
- **Which cyclic functions can be copied depends on where the copy comes in.** `CopyTheorems.RecursionIff` is the
  condition, `FunctionOnCycleFails` what a caller can tell beforehand, `EntranceMatters` two calls on one heap.
- **A failed copy can leave a half copied metatable registered**, if the metatable is met again while it is being
  filled; later copies use it. `CopyTheorems.RegisteredMetatables` is the exact condition, `CopyAfterStop` a run.
- **A request object must not be filled in again while a server holds it.** The client writes source and id, the
  server reads id and source, and nothing keeps the two apart; the next transaction can be given the answer to
  the one before. `Transactions.SafeUnlessInUse` is the exact condition, `RefillBreaks` the run.
- **The waiter's arrays are never used up**: WaitForMultipleObjects fails on more than 64 handles, so at most
  33 slots exist whenever the arrays of 200 are filled (`HandleWaiter.ProcHandleWaiter.InitHandlesArray`).

## Model

| member | source | states |
|---|---|---|
| InterCopy.InterCopy | iw_lanes/tools.cpp:1147-1204 | copying `n` values onto another state leaves all heaps and registries valid, extends the target without touching what was there, and pushes either all `n` copies, related to their originals as `CopiedAll` says, or nothing: with too few values, with a thread in reach, or with a function in reach that leads back to itself; objects are met depth first, upvalues in order and entries in some order before the metatable; the recursion error is raised exactly when a function so met leads back to itself through objects that do not precede it in that order; and after any end exactly the objects in which the call has stopped are half copied |
| InterCopy.CopySession.InterCopyOne | iw_lanes/tools.cpp:936-1137 | a visit of any value terminates, keeps every invariant, meets only objects the value reaches, and if it succeeds leaves nothing half copied; as a key, exactly the four basic types pass and nothing changes |
| InterCopy.CopySession.CopyTable | iw_lanes/tools.cpp:1010-1126 | a table is copied once: entries and metatable complete, cycles closed through the cache |
| InterCopy.CopySession.CopyEntries | iw_lanes/tools.cpp:1033-1055 | in whatever order entries come, those at basic keys are copied and the others dropped |
| InterCopy.CopySession.CopyMetatable | iw_lanes/tools.cpp:1061-1123 | the copy's metatable is the one the target knows under the id of the source's, even if filling it re-enters it |
| InterCopy.CopySession.CopyUserdata | iw_lanes/tools.cpp:973-980 | deep userdata gives a proxy of the same deep data, other userdata a light pointer |
| InterCopy.CopySession.GetMtId | iw_lanes/tools.cpp:597-640 | a metatable has one id for ever, a new one gets an id no state has seen, and nothing else of the world changes |
| InterCopy.CopySession.PushCachedTable | iw_lanes/tools.cpp:661-727 | a source table met before gives its copy again; a new one gives a new empty table, tied to it before it is filled |
| InterCopy.CopySession.PushCachedFunc | iw_lanes/tools.cpp:739-814 | a function met before gives its copy again, one still in progress fails with the recursion error, and a new one ends up in the cache only when completely copied |
| InterCopy.CopySession.InterCopyFunc | iw_lanes/tools.cpp:825-923 | the new function has the code of its original and upvalue for upvalue, in order, their copies; a Lua closure that held itself holds its copy |
| InterCopy.CopySession.PushUpvalues | iw_lanes/tools.cpp:888-902 | upvalues are pushed in order, self references of Lua closures without a visit |
| InterCopy.CopySession.SetUpvalues | iw_lanes/tools.cpp:908-921 | popping from the last to the first puts every upvalue in its place |
| CopySteps.FinishInv | iw_lanes/tools.cpp:776-789 | caching a finished function keeps all invariants of the traversal, among them that functions finish after their function upvalues |
| CopySteps.NotReentered | iw_lanes/tools.cpp:776-800 | a function whose upvalues have all been copied is not on a cycle of objects that had not been met before it |
| CopySteps.PathSettled | iw_lanes/tools.cpp:776-800 | along every path of objects not met before a function, all are copied before the function is |
| CopySteps.FinishKeepsOrder | iw_lanes/tools.cpp:739-814 | functions finish after the functions they hold as upvalues |
| CopySteps.RegisterCopyInv | iw_lanes/tools.cpp:1091-1101 | tying a copied metatable to the id of its original keeps the target's registry a two-way bijection, also if it has been registered meanwhile |
| CopyTheorems.CopyIsImage | iw_lanes/tools.cpp:1147-1204 | what a successful call leaves behind is the image of its values: every table and function met has one new copy of its own, complete in its entries or upvalues, and every metatable is its copy or the one the target knew from the start |
| CopyTheorems.FollowCopied | iw_lanes/tools.cpp:1010-1126 | the copy answers every path of basic keys, metatables and upvalues as the original does, and where the one ends the other does (metatables: those that the target has not known from the start) |
| CopyTheorems.BasicPathAnswered | iw_lanes/tools.cpp:1059-1123 | if the target has known no metatable of the source, these are all paths of basic keys, metatables and upvalues |
| CopyTheorems.SharingKept | iw_lanes/tools.cpp:1015-1027 | two such paths, from any two of the values, meet in one table or function of the copy if and only if they meet in one of the original: sharing and cycles are kept across all values |
| CopyTheorems.CopiedIsReached | iw_lanes/tools.cpp:1147-1204 | the tables and functions copied are exactly those that the values reach, if the target knew none of their metatables, and no thread is among these |
| CopyTheorems.PathMet | iw_lanes/tools.cpp:936-1137 | what a path from a copied object leads to has been copied too |
| CopyTheorems.CopiesAreNew | iw_lanes/tools.cpp:1195-1200 | separate calls share nothing: every table and function found from a copy is new to the target, registered metatables aside |
| CopyTheorems.OtherKeysDropped | iw_lanes/tools.cpp:1038-1053 | corollary of `CopyIsImage`: entries at keys of other types do not exist in the copy |
| CopyTheorems.KnownMetatableReused | iw_lanes/tools.cpp:1069-1080 | corollary of `CopyIsImage`: a metatable that the target knows is used itself and not copied again |
| CopyTheorems.MetatableComesHome | iw_lanes/tools.cpp:1061-1122 | copying a table over, and later its copy back, gives it the metatable object it had at first, whatever both states did in between |
| CopyTheorems.NoUpvalueCycle | iw_lanes/tools.cpp:795-802 | no call succeeds that meets a function leading back to itself through upvalues alone |
| CopyTheorems.PathFinishedBefore | iw_lanes/tools.cpp:776-789 | along any path of upvalues functions have finished one before the other |
| CopyTheorems.RecursionIff | iw_lanes/tools.cpp:795-802 | a call that meets no thread fails with the recursion error if and only if some function in the order of first visits leads back to itself through objects that are not before it |
| CopyTheorems.FunctionOnCycleFails | iw_lanes/tools.cpp:795-802 | any value that is a function on a cycle that the copy follows, and is reached from no value before it, makes the call fail |
| CopyTheorems.EntranceMatters | iw_lanes/tools.cpp:795-802 | on a heap of a table and a function that hold one another, copying the function fails with the recursion error and copying the table succeeds |
| CopyTheorems.CopyFromCyclicPair | iw_lanes/tools.cpp:1147-1204 | the same of the two calls themselves |
| CopyTheorems.UpvalueOrderMatters | iw_lanes/tools.cpp:888-902 | upvalues are visited in order, each with all that it leads to before the next: on a heap where one of two upvalues leads into a cycle, copying fails with the recursion error if that one is first, and succeeds if the other is |
| CopyTheorems.RegisteredMetatables | iw_lanes/tools.cpp:1086-1101 | after any call, failed or not, a table registered under a new id is the copy of the metatable with that id, and is complete if and only if the call has not stopped in that metatable |
| CopyTheorems.CopyAfterStop | iw_lanes/tools.cpp:1086-1101 | two calls: the first stops at a thread behind a metatable and leaves that half copied and registered, the second succeeds and gives its copy the half copied metatable |
| CopyRuns.Run | iw_lanes/tools.cpp:597-640 | over any sequence of copies between any states, failed ones included, and of changes by scripts, every registry stays a two-way bijection and never loses or changes a pair |
| CopyRuns.RoundTrip | iw_lanes/tools.cpp:1061-1122 | the run of `MetatableComesHome` by the calls themselves: a table copied from one state to another, then any jobs between any states, then its copy copied back, and what comes home has the table's own metatable |
| DeepUserdata.CountIsHolders | iw_lanes/tools.cpp:319-430 | in every reachable state the count of deep data is the number of its live proxies, pushes and collections in flight, and proxies that a bad idfunc left without `__gc` |
| DeepUserdata.NeverDangling | iw_lanes/tools.cpp:319-352 | no live proxy, and no push in flight, refers to data that has been deleted or freed |
| DeepUserdata.DeletedAtMostOnce | iw_lanes/tools.cpp:330-350 | "delete" runs at most once, only when nobody refers to the data, and freeing follows it |
| DeepUserdata.QuietCount | iw_lanes/tools.cpp:455-541 | when all threads are idle, data that is still allocated has as many live proxies as its count says, and at least one |
| DeepUserdata.LeakIsKept | iw_lanes/tools.cpp:385-400 | after a bad "metatable" the data is never deleted |
| DeepUserdata.RunKeeps | iw_lanes/tools.cpp:319-541 | every interleaving of creating, copying and collecting keeps all of this |
| SelfdestructChain.Chain.Add | iw_lanes/lanes.cpp:948-958 | an unlinked lane becomes the first of the chain, the others stay as they were |
| SelfdestructChain.Chain.Remove | iw_lanes/lanes.cpp:963-988 | a linked lane is always found and taken out, an unlinked one changes nothing; the chain stays acyclic and duplicate-free, and a null link keeps meaning "not linked" |
| SelfdestructChain.OrderKept | iw_lanes/lanes.cpp:975-983 | taking a lane out leaves all others in their order |
| SelfdestructChain.Chain.CancelAll | iw_lanes/lanes.cpp:993-1007 | the exit loop flags exactly the lanes in the chain |
| SelfdestructChain.Chain.Count | iw_lanes/lanes.cpp:1047-1057 | the second walk counts the lanes that are left |
| SelfdestructChain.Replay | iw_lanes/lanes.cpp:948-988 | over any calls the chain holds the set of lanes that adding and removing add up to |
| LaneLifecycle.FreedOnce | iw_lanes/lanes.cpp:1316-1350 | over every interleaving a lane record is freed at most once, never while it is linked and never while its handle is live |
| LaneLifecycle.TouchesOnlyUnfreed | iw_lanes/lanes.cpp:993-1007 | a step, the walks at exit included, touches a freed record if and only if it is the lane's own signal and unlock and the clean up came between that and the storing of the status; never once the lane has been joined or killed |
| LaneLifecycle.WhoFrees | iw_lanes/lanes.cpp:1505-1544 | the collector frees only a lane that has stored its final status, a lane only itself, after it was handed over |
| LaneLifecycle.FreedUnlessMissed | iw_lanes/lanes.cpp:1316-1350 | when lane and handle are both through, the record is unfreed, and linked, if and only if the collector read a status below DONE and the lane either found no link or was killed on its way out; otherwise it has been freed exactly once |
| LaneLifecycle.JoinedIsFreed | iw_lanes/lanes.cpp:1505-1544 | a lane that was joined before its handle was collected is freed exactly once |
| LaneLifecycle.MissedForEver | iw_lanes/lanes.cpp:1510-1514 | a record that has been missed is linked and unfreed for ever |
| LaneLifecycle.MissHappens | iw_lanes/lanes.cpp:1316-1350 | a run in which a record is missed |
| LaneLifecycle.UnlockMayFollowFree | iw_lanes/lanes.cpp:1343-1348 | from every reachable state in which a lane has stored its status and its handle is live, the record can be freed before the lane unlocks it if and only if the lane has not been killed |
| LaneLifecycle.WalkFlagsAll | iw_lanes/lanes.cpp:999-1007 | when the flagging walk ends, every lane in the chain has been told to cancel |
| LaneLifecycle.RunKeeps | iw_lanes/lanes.cpp:1238-1353 | every interleaving of lanes, handles, kills and walks keeps the ownership of each record apart |
| Keeper.Tables.Send | iw_lanes/keeper.lua:121-158 | all values are placed or none, by the limit; they end up behind the queue, or over it if `false` lies in the slot; other keys are untouched |
| Keeper.Tables.Receive | iw_lanes/keeper.lua:167-189 | the first key in order that has a value gives its oldest one, and only that is consumed |
| Keeper.Tables.Set | iw_lanes/keeper.lua:206-214 | the slot is replaced, what was queued is dropped, nil clears both |
| Keeper.Tables.Get | iw_lanes/keeper.lua:220-229 | the oldest value is seen without being consumed |
| Keeper.Replay | iw_lanes/keeper.lua:121-200 | over any sends, receives from several keys, and limits, the tables hold for every key the queue and the limit, and senders and receivers have seen the values, that the calls add up to |
| Keeper.FifoUnlessFalse | iw_lanes/keeper.lua:121-200 | over every such run and for every key, what was received and what is queued are, in order, what was sent, if and only if nothing was placed while `false` lay in the slot of the key |
| Keeper.FifoWithoutFalse | iw_lanes/keeper.lua:121-200 | if no call sends `false`, all of this holds on every key and no `false` ever lies in a queue |
| Keeper.RunAccounted | iw_lanes/keeper.lua:121-200 | values once written over are never made up for |
| Keeper.FalseIsLost | iw_lanes/keeper.lua:134-158 | sending `false` and another value, and receiving, yields the other value |
| Keeper.AppendsUnlessFalse | iw_lanes/keeper.lua:134-158 | a send appends exactly if it sends nothing or no `false` lies in the slot |
| Keeper.LimitZeroRefuses | iw_lanes/keeper.lua:70-75 | with a limit of 0 nothing but an empty send succeeds |
| LindaWakeup.NoReceiverMissesValue | iw_lanes/lanes.cpp:564-591 | whatever is called on a Linda, no receiver sleeps while one of its keys has a value |
| LindaWakeup.NoSenderMissesRoom | iw_lanes/lanes.cpp:495-532 | over runs without `set` and `limit`, from any queues and limits, no sender sleeps while its values fit |
| LindaWakeup.SetSenders | iw_lanes/lanes.cpp:607-625 | `set` leaves no sender asleep with room if and only if none of those asleep on the key would fit beside the new value |
| LindaWakeup.LimitSenders | iw_lanes/lanes.cpp:653-664 | `limit` leaves none exactly if none of them would fit under the new limit |
| LindaWakeup.SenderMissesClear | iw_lanes/lanes.cpp:611-622 | a sender sleeps on although the full queue has been cleared |
| LindaWakeup.SenderMissesLimit | iw_lanes/lanes.cpp:653-664 | a sender sleeps on although the limit has been lifted |
| LindaWakeup.RunReceivers | iw_lanes/threading.cpp:418-442 | waking all sleepers, and spurious wakeups and timeouts, keep it so for receivers |
| LindaWakeup.RunSenders | iw_lanes/threading.cpp:418-442 | and for senders |
| Finalizers.LaneState.Finish | iw_lanes/lanes.cpp:1258-1335 | the final status and what the master finds on the stack follow from the body and the finalizers; a finalizer's error overrules the body's |
| Finalizers.LaneState.RunFinalizers | iw_lanes/lanes.cpp:826-874 | finalizers run in reverse order of registration, up to and including the first failure, and the stack is left as it was, with the error of a failing finalizer on top |
| Finalizers.LastFailing | iw_lanes/lanes.cpp:842-869 | the failure that ends the run is that of the finalizer registered last among those that fail |
| Finalizers.CalledIffLaterSucceed | iw_lanes/lanes.cpp:842-869 | a finalizer is called, once, if and only if all registered after it succeed |
| Finalizers.DoneIffAllSucceed | iw_lanes/lanes.cpp:1332-1335 | a lane is DONE exactly if its body and all its finalizers succeed |
| Finalizers.ArgsAsDocumented | iw_lanes/lanes.cpp:835-854 | finalizers get the documented arguments exactly when there is no error |
| Transactions.ResponseIsOwn | iw_core/LightweightProcess.cpp:267-339 | a transaction that has never had its object in use together with another returns, if anything, the answer to its own request, addressed to its own handle and carrying its own id |
| Transactions.NoOtherGetsIt | iw_core/LightweightProcess.cpp:179-250 | the answer to such a transaction is in the hands of no other and waits in the channel of no other |
| Transactions.AnswerArrives | iw_core/LightweightProcess.cpp:207-250 | an answer reaches the transaction it was made for if and only if that has not left and the request did not come by an interface that is still registered; otherwise, a late answer included, no channel changes |
| Transactions.SafeUnlessInUse | iw_core/Message.h:98-103 | from every reachable state and for every object, whatever has happened to it before: a transaction that takes it can be given the answer to another one, with another id, in some further run in which no third takes it, if and only if another transaction is not yet through with the object, its servers included |
| Transactions.RefillBreaks | iw_core/LightweightProcess.cpp:284-322 | the run: whatever stage the other transaction is at, its server reads the old id before and the new source after the refill |
| Transactions.OneEachMixesNone | iw_core/LightweightProcess.cpp:303-339 | if every transaction takes an object that none has taken before, no two ever have one in use together |
| Transactions.LeftForEver | iw_core/UIDOwner.cpp:40-48 | the handle of a transaction that has left is never registered again |
| Transactions.RunKeeps | iw_core/LightweightProcess.cpp:303-339 | every interleaving of the clients' field by field writes and the servers' field by field reads keeps handles apart, and what a transaction has written in an object that only it uses; once all others are through with an object, it is as good as new |
| WaitForTxn.Kernel.WaitForTxnResponse | iw_core/LightweightProcess.cpp:363-449 | every ping consumed is answered by exactly one pong, in order; success returns an index into the caller's list with the message taken from that handle and no other; at most the timeout is spent waiting, and the whole call takes exactly the time waited and the time of handling the pings and an unhandled message; the loop ends, and never by its guard |
| WaitForTxn.Kernel.SelectFromChannels | iw_core/LpHandle.cpp:407-471 | no channel or more than ten fail; else the first channel in the list that has a message gives its oldest one, at once if there is any, and a timeout means that none has one when the time is up |
| WaitForTxn.Kernel.HandleOOBMessage | iw_core/LightweightProcess.cpp:109-129 | only a ping is handled, by a pong to its sender with its transaction id |
| WaitForTxn.Kernel.FirstPending | iw_core/LpHandle.cpp:432-447 | the channel found is the first that has a message |
| Registrar.LocalProcessRegistrar.Replay | iw_core/LocalProcessRegistrar.cpp:133-217 | over any calls both maps know exactly the registrations in force, and for every id the listeners told and those waiting are, in order, those added |
| Registrar.LocalProcessRegistrar.RegisterChannel | iw_core/LocalProcessRegistrar.cpp:134-152 | an id that is taken is refused with an exception and keeps its handle |
| Registrar.LocalProcessRegistrar.UnregisterChannel | iw_core/LocalProcessRegistrar.cpp:155-191 | an effective unregistration tells each waiting listener of that id once and forgets them; an unknown id changes nothing |
| Registrar.LocalProcessRegistrar.GetHandleByService | iw_core/LocalProcessRegistrar.cpp:235-260 | a service is found if any registered one matches, and then the one with the smallest id |
| Registrar.InForceSnoc | iw_core/LocalProcessRegistrar.cpp:134-152 | the registration in force is the first since the last unregistration |
| Registrar.Scope | iw_core/LocalProcessRegistrar.cpp:62-80 | a guard that comes and goes leaves the registrations as they were, whether or not its id was free; dismissed, it leaves its own |
| HandleWaiter.ProcHandleWaiter.Run | iw_core/ProcHandleWaiter.cpp:200-432 | over every run each request is answered at most once and to its own sender, one without an answer still has a live slot, and no slot is left out of more rounds than there were slots before it |
| HandleWaiter.ProcHandleWaiter.InitHandlesArray | iw_core/ProcHandleWaiter.cpp:154-197 | obsolete slots are gone, all but at most one of the others are in the arrays, event handle and timer of a slot side by side and both leading back to it, and exactly those not placed have been left out once more |
| HandleWaiter.ProcHandleWaiter.HandleSignal | iw_core/ProcHandleWaiter.cpp:286-345 | every signalled index from 2 on leads to the live slot whose event handle or timer lies there; its sender gets the code for what fired and the slot becomes obsolete |
| HandleWaiter.ProcHandleWaiter.ProcessIwMessage | iw_core/ProcHandleWaiter.cpp:353-432 | a request gets a slot at the end of the list, other messages none |
| HandleWaiter.ProcHandleWaiter.Round | iw_core/ProcHandleWaiter.cpp:234-347 | a round answers one request if a slot's handle fired and none otherwise, and stops or throws exactly on a shutdown, an unhandled message, or too many handles |
| HandleWaiter.OneMoreAck | iw_core/ProcHandleWaiter.cpp:307-330 | an answer to a request without one keeps answers unique and addressed |
| SkipErase.SweepsAllIff | iw_core/ActiveObject.cpp:93-101 | a loop that erases while it walks and steps past the next element erases all it should if and only if no two of them are neighbours |
| SkipErase.OneSwept | iw_core/ProcHandleWaiter.cpp:158-172 | with one element to erase, it erases that and overlooks the one after it |
| ActiveObject.Listeners.RemoveEventListener | iw_core/ActiveObject.cpp:88-102 | on any list a listener is gone afterwards exactly if no two entries for it were neighbours |
| ActiveObject.Listeners.AddEventListener | iw_core/ActiveObject.cpp:105-110 | ids stay distinct, and a listener added again moves to the end |
| ActiveObject.Listeners.UponActiveObjectEvent | iw_core/ActiveObject.cpp:113-118 | an event goes to every listener once, in list order |
| ActiveObject.Listeners.Replay | iw_core/ActiveObject.cpp:87-118 | over any calls the list holds the listeners whose last call was an addition, in the order of these additions, and every event has reached each listener of its time once in that order |
| ActiveObject.LastAddedMeans | iw_core/ActiveObject.cpp:104-110 | registered is whoever has been added and not been named since, and is listed once |
| ActiveObject.DistinctSwept | iw_core/ActiveObject.cpp:88-102 | with distinct ids the removal loop is complete although it overlooks an element |
| Profiler.AtExit | iw_core/Profiler.cpp:212-287 | wherever a profiled call stands in a run, when it ends the array holds one level down the sum of what all profilers inside it have cost |
| Profiler.RunCalls | iw_core/Profiler.cpp:192-295 | for every call tree within the depth limit, run at any depth, the cost of the whole tree is added to the level of its caller, the levels above are untouched, and every name gets its hits and the sum of its net times, never negative |
| Profiler.ThreadProfile.Profile | iw_core/Profiler.cpp:192-295 | a program whose profiled scopes nest like a call tree has exactly that effect on the array and the counters |
| Profiler.ThreadProfile.Begin | iw_core/Profiler.cpp:192-230 | a profiler starts with no cost below it |
| Profiler.ThreadProfile.End | iw_core/Profiler.cpp:232-295 | a profiler's time is what it took less its own cost and the cost of all below it, and its caller inherits both |

## Left out

- Lua itself, its allocator and `lua_dump`: a Lua function is its prototype, a state is a heap that scripts may change between copies.
- `__tostring` metamethods: object identities are injective, as the cache assumes. Finding `tostring` on the first call is not modelled.
- Function environments, the safety of C functions at the target, memory exhaustion, and the wrap-around of ids and tick counts.
- The Lua stack of the target above its previous top after a failed copy: it keeps the cache table and copies made so far there.
- idfuncs that misbehave on "new" or "delete": they leave the deep data behind.
- Windows and `pthread_timedjoin` branches of lanes, debug asserts, and the disabled killing of lanes at exit.
- Finalizers that register further finalizers while they run.
- Memory order: flags that are read without a lock are read in one step.
- LaneLifecycle.WhoFrees: a killed lane may die before it reads its link, in `lua_close`, or before it stores its status, but not inside the critical sections, which hold no cancellation point.
- CopyTheorems.FollowCopied: not through metatables that the target has known from the start; they are the target's own and need not look like the source's, see `KnownMetatableReused`.
- Transactions.RunKeeps: servers answer with SendResponse, as often as they like while they hold the request; a server that sends to a transaction's handle by other means can give the message any id.
- Transactions.ResponseIsOwn: a request object that is also sent outside transactions, or whose fields are written by others than its transactions, is not modelled.
- WaitForTxn.Kernel.SelectFromChannels: poisoned channels and the check that one process reads a channel are not modelled; channels are unbounded.
- ActiveObject.Listeners.AddEventListener: a null handle, which the source would store and later dereference, is not passed.
- HandleWaiter.ProcHandleWaiter.Run: `quick_access_index`, which is written and never read, the setting of timers and failures of the system other than too many handles.
- Profiler.RunCalls: the history of each name; its index runs to 15 in an array of 15.
- UnReliableShutdownAll, GetConfiguredServiceHandle, suspended start, and everything outside `iw_lanes` and `iw_core`: plumbing over libraries, or code whose natural invariant is false.
