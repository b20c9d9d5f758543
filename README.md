# A Dafny model of the `sig` signal/slot library

`sig::signal<R(Args...), Combiner>` keeps a list of slots. Clients `connect`
callables, free functions or member functions to it, and `disconnect` them
again. Invoking the signal runs every slot in list order and folds the
per-slot results with a combiner. By default that combiner is
`optional_last_value`, which returns the last engaged `opt::optional<R>`.

The list sits behind a copy-on-write pointer (`cow_ptr`). That pointer
shares one heap block with a use count and copies it before the first write
while it is shared.

Each slot carries a `slot_state`:
- a `connected` flag, which `disconnect` exchanges with false, running the
  `do_disconnect` hook only the first time;
- a `blocked` flag;
- its index in the list.

A slot is one of three variants:
- `slot_func`, a plain callable;
- `slot_pmf`, a member function bound to a pointer or object;
- `slot_pmf_tracked`, a member function bound to a `weak_ptr`.

Slot equality goes through `dynamic_cast` and `try_equals`. It throws
`not_comparable_exception` when a compared part has no `==`.

Clients keep `connection`, `connection_blocker` and `scoped_connection`
handles. These reach the slot through a weak reference. Once the signal no
longer owns the slot, every operation on them degrades to false or does
nothing.

`disconnect` builds a probe slot and `remove_slot` scans the list. Each slot
equal to the probe is swapped with the last slot, which takes over its
index, and the list is popped.

`opt::optional<T>` supplies the following:
- the engaged/disengaged state;
- checked and unchecked access;
- the relational operators, under which a disengaged optional is the least
  value;
- `optional<void>`, which is always disengaged.

The example programs add two combiners, `maximum_value` and `aggregate_values`.

The model is split into modules:
- `Failures`: the two exceptions as a `Result`.
- `Optionals`: `optional.hpp`.
- `Combiners`: the three combiners. Each is a loop proved against a
  recursive specification.
- `Slots`: the variants, equality, invocation and `slot_state`.
- `SwapRemove`: the order `remove_slot` leaves a list in.
- `Cow`: `cow_ptr`.
- `Connections`: the three handles.
- `Signals`: `signal`.
- `Scenarios`: the library's own examples and tests, replayed against the
  model.

A few modelling choices:
- A weak reference to a slot is the `Slot` object plus its `alive` field.
  The signal's list is the only strong owner, so `alive` is cleared when the
  slot leaves the list or the signal is released.
- Destructors are explicit `Release` methods.
- A callable is a `Value`: a type tag that records whether the type has `==`,
  plus an id.
- The arguments of an invocation are an `Env`. It holds what each callable
  returns and which tracked objects are still owned.

## Model

| member | source | states |
|---|---|---|
| Optionals.ValueOf | optional.hpp:983-1005 | `value()` succeeds exactly when the optional is engaged and returns its value; otherwise it fails with `bad_optional_access` |
| Optionals.ValueOr | optional.hpp:941-949 | `get_value_or` returns the held value when engaged and the fallback otherwise |
| Optionals.ValueOrFallsBackOnlyWhenValueThrows | optional.hpp:1007-1023 | `value_or` agrees with `value()` when that succeeds, and returns the fallback exactly when `value()` would throw |
| Optionals.VoidOptionalNeverHoldsAValue | optional.hpp:1134-1203 | `optional<void>` has no value, and `value()` on it throws `bad_optional_access` |
| Optionals.EqualIsStructural | optional.hpp:1212-1222 | two optionals are `==` iff both are disengaged or both hold equal values; `!=` is the negation |
| Optionals.LessIsStrictTotalOrder | optional.hpp:1224-1234 | `<` is irreflexive, transitive, total and asymmetric; nothing is below a disengaged optional, and it is below every engaged one |
| Optionals.DerivedOrders | optional.hpp:1230-1246 | `>`, `<=` and `>=` are the converse and the reflexive closures of `<`; a disengaged optional is `<=` everything |
| Optionals.NulloptComparisonsAgree | optional.hpp:1248-1318 | each of the twelve operators against `nullopt` gives what the same operator gives against a disengaged optional |
| Optionals.ValueComparisonsAgree | optional.hpp:1320-1390 | each of the twelve operators against a plain `v` gives what the same operator gives against an optional holding `v` (so a disengaged `x` satisfies `x < v` and `v > x`) |
| Optionals.Optional.constructor | optional.hpp:148-151 | a default-constructed optional is disengaged |
| Optionals.Optional.Of | optional.hpp:159-165 | constructing from a value engages it with that value |
| Optionals.Optional.When | optional.hpp:178-193 | the conditional constructor is engaged with `val` iff `cond` |
| Optionals.Optional.Copy | optional.hpp:197-204 | the copy holds what the original holds |
| Optionals.Optional.Construct | optional.hpp:374-384 | `construct` leaves the optional engaged with the value |
| Optionals.Optional.Destroy | optional.hpp:473-477 | `destroy` leaves it disengaged and changes nothing when it already was |
| Optionals.Optional.Assign | optional.hpp:250-265 | after `assign(rhs)` it holds exactly what `rhs` held, over all four engagement combinations |
| Optionals.Optional.AssignValue | optional.hpp:321-328 | `assign(T)` always leaves it engaged with that value |
| Optionals.Optional.AssignNullopt | optional.hpp:340-343 | `assign(nullopt)` leaves it disengaged |
| Optionals.Optional.Reset | optional.hpp:349-352 | `reset` leaves it disengaged |
| Optionals.Optional.Emplace | optional.hpp:402-407 | `emplace_assign` destroys and then constructs, leaving it engaged with the new value |
| Optionals.Optional.Get | optional.hpp:928-938 | `get()` returns the held value, and is only defined while engaged |
| Combiners.LastEngagedSpec | signals.hpp:1279-1292 | the last-value fold is disengaged iff every result is; otherwise it is an engaged result with no engaged result after it |
| Combiners.OptionalLastValue | signals.hpp:1279-1292 | the loop of `optional_last_value` returns the last engaged result, or disengaged when there is none |
| Combiners.MaxOfSpec | examples/maximum_value/maximum_value.cpp:13-22 | the running maximum is engaged iff some result is, is `>=` every result, and is one of them |
| Combiners.MaximumValue | examples/maximum_value/maximum_value.cpp:4-24 | the loop of `maximum_value` returns that maximum, reading each result once and in order |
| Combiners.EngagedAppend | examples/aggregate_values/aggregate_values.cpp:14-21 | collecting keeps order: collecting a concatenation concatenates the collected parts |
| Combiners.EngagedCounts | examples/aggregate_values/aggregate_values.cpp:14-21 | the number of copies of each collected value is the number of slots that produced it, and the number of values is the number of results less the disengaged ones |
| Combiners.EngagedSpec | examples/aggregate_values/aggregate_values.cpp:14-21 | each value is collected as often as slots produced it, so there is one value per engaged result; a value is collected iff some slot produced it; all results are collected iff every one is engaged |
| Combiners.AggregateValues | examples/aggregate_values/aggregate_values.cpp:5-23 | the loop of `aggregate_values` pushes back exactly the engaged values, in slot order: each value as often as slots produced it, one per engaged result, and a value iff some slot produced it |
| Combiners.DefaultResult | signals.hpp:1385 | a blocked signal's `return {}` is a disengaged optional for the optional-returning combiners and an empty list for `aggregate_values` |
| Combiners.CombineNothing | examples/maximum_value/maximum_value.cpp:13-22 | with no slots, every combiner returns that value-initialised result |
| Combiners.RunCombiner | signals.hpp:1383-1392 | the signal's combiner returns the fold its kind specifies |
| Slots.BindSlot | signals.hpp:968-984 | the two-argument slot constructor picks the tracked variant exactly when the pointer argument converts to a `weak_ptr`, and keeps the callable and pointer |
| Slots.TryEquals | signals.hpp:158-177 | `try_equals` throws `not_comparable_exception` exactly for a type without `==`, and otherwise answers `a == b` |
| Slots.SlotEquals | signals.hpp:1025-1033 | `slot::operator==` answers true for two empty slots and false when exactly one is empty; otherwise the left slot's `equals` decides |
| Slots.DifferentClassesAreUnequal | signals.hpp:536-544 | a failed `dynamic_cast` (different variant or different types) makes `equals` false without throwing |
| Slots.ImplEqualsSymmetric | signals.hpp:613-622 | slot equality is symmetric, exceptions included |
| Slots.ImplEqualsTrueIff | signals.hpp:536-544 | two slots compare equal iff they are the same slot value and every compared part has `==` |
| Slots.ImplEqualsThrowsOnlyWhenIncomparable | signals.hpp:158-177 | comparison throws only between slots of one class whose compared parts lack `==`, and comparable slots never throw |
| Slots.ImplEquals | signals.hpp:700-709 | the three `equals` overrides: slots of different classes compare false; true only for the same slot value with every part comparable; a throw is `not_comparable_exception` between slots of one class with an incomparable part |
| Slots.AsWrittenStep | signals.hpp:711-726 | a variant's `operator()` as written: the callable runs iff the slot is not tracked or is connected with a live target; it yields the call's result iff it ran; `connected` survives iff it was set and the target is live |
| Slots.GuardedStep | signals.hpp:711-726 | the corrected invocation: the callable runs iff the slot is connected, unblocked and live; it yields the call's result iff it ran; `connected` survives iff it was set and the target is live |
| Slots.BoundComparesPointerFirst | signals.hpp:613-622 | `slot_pmf::equals` compares the pointer first, so different pointers give false even when the callable has no `==` |
| Slots.IncomparableCallableThrows | signals.hpp:158-177 | a callable without `==` throws even against itself, through `slot::operator==` too |
| Slots.TrackedSlotsAlwaysThrow | signals.hpp:700-709 | two tracked slots of one class always throw, because `weak_ptr` has no `==` |
| Slots.EmptySlotsEqualOnlyEmpty | signals.hpp:1025-1033 | empty slots equal each other and nothing else |
| Slots.ThrowExcludesMatch | signals.hpp:1025-1033 | if any slot throws against a probe, no slot can compare equal to that probe |
| Slots.TrackedStepSpec | signals.hpp:711-726 | a tracked slot with an expired target disconnects itself and yields nothing; with a live target and connected it runs and yields the call's result; disconnected, it does not run |
| Slots.VoidSlotsYieldNothing | signals.hpp:767-781 | every slot of a `void` signal yields a disengaged result |
| Slots.GuardedStepSpec | signals.hpp:711-726 | the corrected invocation runs a slot iff it is connected, not blocked and not expired; a skipped slot yields nothing and keeps its flag unless its target expired |
| Slots.GuardedAgreesOnActiveSlots | signals.hpp:546-549 | on a connected, unblocked slot the corrected invocation is exactly the invocation as written |
| Slots.InactivePlainSlotStillRuns | signals.hpp:546-549 | as written, a blocked or disconnected `slot_func` still runs and yields its result, while the corrected invocation skips it |
| Slots.Slot.constructor | signals.hpp:421-425 | a fresh slot state is connected, unblocked and has index 0 |
| Slots.Slot.Disconnect | signals.hpp:466-475 | `disconnect` answers the old flag, leaves the slot disconnected, and runs the hook only when the flag was set |
| Slots.Slot.DoDisconnect | signals.hpp:498-499 | the hook runs once per call |
| Slots.Slot.Block | signals.hpp:482-485 | `block` sets `blocked` and writes nothing else |
| Slots.Slot.Unblock | signals.hpp:487-490 | `unblock` clears `blocked` and writes nothing else |
| Slots.Slot.InvokeAsWritten | signals.hpp:546-549 | a slot's `operator()`, exactly as the three variants write it; the hook runs once exactly when a connected tracked slot finds its target expired |
| Slots.Slot.Invoke | signals.hpp:711-726 | the corrected `operator()` yields what the guarded step says and leaves `connected` as it says; the hook runs once exactly when a connected slot finds its target expired |
| Slots.DisconnectTwice | signals.hpp:466-475 | a second `disconnect` answers false, and the hook has run at most once |
| SwapRemove.CountMatchesAppend | signals.hpp:1405-1429 | the number of removed slots adds up over a split of the list |
| SwapRemove.SwapPopShape | signals.hpp:1418-1420 | swapping element `i` with the last and popping gives the prefix, then the old last, then the rest |
| SwapRemove.SwapStepMultiset | signals.hpp:1418-1420 | one swap-and-pop removes exactly the element at `i` from the multiset |
| SwapRemove.SwapStepFrame | signals.hpp:1418-1420 | one swap-and-pop shortens the list by one, keeps the prefix before `i`, and only keeps old elements |
| SwapRemove.SwapPopMembers | signals.hpp:1418-1420 | on a duplicate-free list, one swap-and-pop drops exactly the slot at `i`, moves the last slot to `i` and keeps every other position |
| SwapRemove.SwapStepCount | signals.hpp:1405-1429 | one removal lowers the number of matches still ahead by one |
| SwapRemove.SwapRemoveSpec | signals.hpp:1405-1429 | the scan keeps every non-matching element as often as it occurred, leaves no match, keeps the scanned prefix, and shortens the list by the number of matches |
| SwapRemove.RemoveFirstOfThree | tests/signal_tests.cpp:27-37 | removing the first of `[p, q, s]` gives `[s, q]`: order is not preserved |
| SwapRemove.RemoveLastOfFour | examples/disconnect_slots/disconnect_slots.cpp:24-28 | removing the last of four keeps the other three in order |
| Cow.Block.constructor | signals.hpp:401-405 | a new shared block holds the object with use count 1 |
| Cow.CowPtr.Default | signals.hpp:257 | a default `cow_ptr` holds no object |
| Cow.CowPtr.Make | signals.hpp:401-405 | `make_cow` gives the sole owner of a new object |
| Cow.CowPtr.Copy | signals.hpp:264-266 | a copy shares the object and raises its use count by one, leaving its contents alone |
| Cow.CowPtr.Detach | signals.hpp:388-396 | `detach` on a shared object moves this pointer to a fresh private copy with equal contents, and the other holders keep the old object with one less share; a sole owner or a null pointer is left alone |
| Cow.CowPtr.Write | signals.hpp:362-366 | `write` detaches and then overwrites; a sole owner is written in place, a shared object gets a private copy and the others keep the old contents |
| Cow.CowPtr.Release | signals.hpp:258 | the destructor drops this holder's share without touching the contents |
| Cow.CowPtr.SameHoldersReadAlike | signals.hpp:355-372 | `read()` gives the held object without copying and `==` compares identity: two pointers that compare equal read the same contents, and `==` is symmetric |
| Connections.Connection.Empty | signals.hpp:1162 | a default connection refers to nothing |
| Connections.Connection.constructor | signals.hpp:1219-1221 | the signal's connection refers to the new slot |
| Connections.Connection.Connected | signals.hpp:1175-1179 | `connected()` is false once the slot expired, and otherwise the slot's flag |
| Connections.Connection.Blocked | signals.hpp:1187-1191 | `blocked()` is false once the slot expired, and otherwise the slot's flag |
| Connections.Connection.Disconnect | signals.hpp:1181-1185 | on an expired slot `disconnect()` answers false and changes nothing; otherwise it is the slot's `disconnect`, and the hook runs exactly when it answers true |
| Connections.Connection.Block | signals.hpp:1193-1199 | `block()` blocks a live slot and does nothing to an expired one |
| Connections.Connection.Unblock | signals.hpp:1201-1207 | `unblock()` unblocks a live slot and does nothing to an expired one |
| Connections.Connection.Blocker | signals.hpp:1209-1212 | `blocker()` returns a blocker on the same slot, which is then blocked if it is live |
| Connections.ConnectionBlocker.Empty | signals.hpp:1110 | a default blocker refers to nothing |
| Connections.ConnectionBlocker.constructor | signals.hpp:1133-1140 | constructing a blocker blocks a live slot and leaves an expired one alone |
| Connections.ConnectionBlocker.Move | signals.hpp:1116-1118 | the move constructor takes over the slot and leaves the source empty |
| Connections.ConnectionBlocker.Release | signals.hpp:1142-1148 | `release` (and the destructor, 1111-1114) unblocks a live slot and leaves an expired one alone |
| Connections.ConnectionBlocker.MoveAssign | signals.hpp:1121-1126 | move assignment first releases its own slot, then takes over the other's and empties it |
| Connections.ScopedConnection.constructor | signals.hpp:1241-1243 | a scoped connection refers to the connection's slot |
| Connections.ScopedConnection.Move | signals.hpp:1251-1253 | the move constructor takes over the slot and leaves the source empty |
| Connections.ScopedConnection.Release | signals.hpp:1236-1239 | the destructor disconnects a live slot, running the hook iff it was connected, and leaves an expired one alone |
| Connections.ScopedConnection.MoveAssign | signals.hpp:1257-1262 | move assignment first disconnects its current slot (running the hook iff it was connected), then takes over the other's and empties it |
| Signals.Results | signals.hpp:1383-1392 | corrected invocation (see ## Findings, row 1): one result per slot of the snapshot, in list order; a slot contributes a value iff the signal is not `void` and the slot is connected, not blocked and not expired, and that value is what its callable returns |
| Signals.NoMatchWhenSomeSlotThrows | signals.hpp:1416 | once some listed slot throws against the probe, no slot matches it |
| Signals.ScanStart | signals.hpp:1411-1412 | the scan of `remove_slot` starts at 0 with a count of 0 |
| Signals.ScanSkip | signals.hpp:1423-1426 | a slot unequal to the probe is stepped over |
| Signals.ScanRemove | signals.hpp:1416-1422 | a matching slot is swapped with the last one, the list is popped, the count goes up, and the scan stays put |
| Signals.ScanThrow | signals.hpp:1416 | a throwing comparison can only come before anything was removed, so the list is as it was |
| Signals.ScanDone | signals.hpp:1413-1428 | a finished scan threw nothing and leaves what the swap-remove specification leaves |
| Signals.RemovalSpec | signals.hpp:1405-1429 | after `remove_slot` the count is the number of slots equal to the probe, exactly the unequal slots remain (as a multiset) and none of them equals the probe; after a throw nothing matches |
| Signals.InvokeEach | signals.hpp:1383-1392 | corrected invocation (see ## Findings, row 1): each slot of the snapshot is invoked once, in list order, and its result collected; no slot's `blocked` flag changes, and each slot's hook runs once iff it was connected and its target expired |
| Signals.Signal.constructor | signals.hpp:1313-1315 | the corrected constructor gives an empty, unblocked signal that owns its list alone |
| Signals.Signal.AsWritten | signals.hpp:1313-1315 | the constructor as written leaves the copy-on-write pointer without a list |
| Signals.Signal.AddSlot | signals.hpp:1396-1403 | `add_slot` sets the slot's index to the old size and appends exactly that slot, keeping `slots[k].index == k` |
| Signals.Signal.Connect | signals.hpp:1343-1350 | `connect(func)` appends one fresh, connected, unblocked slot built from `func` and returns a connection to it that is `valid()` and connected |
| Signals.Signal.ConnectMember | signals.hpp:1354-1361 | `connect(func, ptr)` does the same with the bound or tracked variant that `ptr` selects, built through the same `slot<Func>` as `disconnect` (line 1357) |
| Signals.Signal.SwapPopAt | signals.hpp:1418-1420 | one removal step: the last slot moves to `i` and takes over its index, the list is popped, and the removed slot expires |
| Signals.Signal.ScanList | signals.hpp:1411-1428 | the scan throws iff some slot throws against the probe, and then leaves the list as it was; otherwise it leaves the swap-removed list and returns how many slots went; the indices stay right, and exactly the removed slots expire |
| Signals.Signal.RemoveSlot | signals.hpp:1405-1429 | `remove_slot` detaches the list (a no-op while the signal is its only owner), then scans it, with the outcome of `ScanList` |
| Signals.Signal.Disconnect | signals.hpp:1365-1371 | `disconnect(func)` returns the number of slots equal to a slot built from `func`, removes exactly those (as a multiset) and leaves none; it throws iff some slot's comparison throws, and then changes nothing; a connection to a listed slot stays `valid()` (lines 1170-1173) iff its slot was kept |
| Signals.Signal.DisconnectMember | signals.hpp:1375-1381 | `disconnect(func, ptr)` does the same for the probe built from `func` and `ptr`, with the same effect on `valid()` |
| Signals.Signal.Emit | signals.hpp:1383-1392 | corrected invocation (see ## Findings, row 1): a blocked signal returns the combiner's value-initialised result and touches nothing; otherwise the result is the combiner folded over one invocation of each slot in list order, and the hook runs once on each connected slot whose target expired |
| Signals.Signal.Release | signals.hpp:1316 | destroying the signal destroys the only owner of its slots, so every slot expires and no connection to one of them is `valid()` (lines 1170-1173) any more |
| Scenarios.CowBasic | tests/cow_tests.cpp:15-30 | a copy equals the original until it is written; then the two differ and the original still reads the old string |
| Scenarios.CowVector | tests/cow_tests.cpp:32-53 | after writing through the second of three holders, only that one differs and the first still reads `[0, 1, 2, 3, 4]` |
| Scenarios.ConnectActive | examples/return_values/return_values.cpp:16-19 | each `connect` of an arithmetic function adds one active slot at the end |
| Scenarios.ArithmeticSignal | examples/return_values/return_values.cpp:15-19 | the four connects give the list `[product, quotient, sum, difference]`, all active |
| Scenarios.EmitActive | signals.hpp:1383-1392 | invoking a signal whose slots are all active gives the combiner over every slot's result |
| Scenarios.DisconnectActive | examples/disconnect_slots/disconnect_slots.cpp:24-25 | disconnecting one of the functions cannot throw and leaves the swap-removed list, still active |
| Scenarios.MatchesPlain | signals.hpp:536-544 | a probe built from `f` matches exactly the slots holding `f` |
| Scenarios.ArithmeticRemovals | examples/disconnect_slots/disconnect_slots.cpp:24-43 | the four removals of the example leave `[p, q, t]`, `[t, q]`, `[t]` and `[]` |
| Scenarios.ArithmeticLastValues | examples/disconnect_slots/disconnect_slots.cpp:21-56 | the default combiner gives 2, 8, 1, 8 and nothing on those lists |
| Scenarios.ReturnValues | examples/return_values/return_values.cpp:21-24 | the default combiner returns the result of the last slot, `difference` |
| Scenarios.DisconnectLast | examples/disconnect_slots/disconnect_slots.cpp:21-28 | disconnecting `difference` removes one slot, and the signal then returns the result of `sum` |
| Scenarios.ArithmeticCombined | examples/aggregate_values/aggregate_values.cpp:37-50 | `maximum_value` gives 15 and `aggregate_values` gives `[15, 1, 8, 2]` on the four results |
| Scenarios.MaximumOfArithmetic | examples/maximum_value/maximum_value.cpp:38-47 | the signal with the `maximum_value` combiner returns 15 |
| Scenarios.AggregateOfArithmetic | examples/aggregate_values/aggregate_values.cpp:37-50 | the signal with the `aggregate_values` combiner returns every result in connection order |
| Scenarios.VoidSignalCounts | tests/signal_tests.cpp:12-46 | a `void` signal yields nothing; disconnecting `void_func` counts 1, then `void_func2` counts 2 and empties the list |
| Scenarios.BlockingSkipsSlots | tests/signal_tests.cpp:125-158 | three unblocked slots all run; with two blocked only one runs |
| Scenarios.OnlyLastEngaged | tests/signal_tests.cpp:141-149 | the blocked case of that test: of three results only the last is engaged, so exactly one value is collected |
| Scenarios.DisconnectedSlotIsSkipped | tests/signal_tests.cpp:420-450 | with `max_or_default` (the running maximum, then `max ? *max : T()`, lines 355-372), after `c42.disconnect()` the signal returns 2, whereas as written it stays 42 |
| Scenarios.DisconnectConnectionTwice | tests/signal_tests.cpp:62-70 | `connection::disconnect` answers true the first time and false the second |
| Scenarios.BlockerScope | examples/blocked_slots/blocked_slots.cpp:20-38 | the guarded invocation of a slot runs before `blocker()`, is skipped while the blocker lives and runs again after its release; the `slot_func` operator as written would run throughout |
| Scenarios.ScopedConnectionMove | tests/connection_tests.cpp:72-83 | moving a scoped connection hands the slot over; destroying the new owner disconnects it |

## Left out

- Threads: `std::mutex`, `unique_lock` and the atomic flags are left out. The flags are plain fields, and the threaded tests are not modelled.
- Template machinery is left out: trait detection, `invoke_helper`, `integer_sequence` and the argument tuple. Its outcomes appear as the variant `BindSlot` picks and as the `comparable` bit of a type.
- `signals2.hpp` is not part of this model. It is an earlier draft with no slot state.
- `slot_iterator` is left out. Its lazy per-slot call on dereference is modelled as one result sequence computed before the combiner runs. That order is unobservable here, because each combiner reads every result exactly once, in order.
- Re-entrant emission is not modelled: a slot that connects or disconnects while the signal is being invoked.
- Signal move construction and assignment are left out. So are slot copy construction and assignment, and `clear()`, which nothing in the core calls.
- Storage details of `optional` are left out: aligned storage, placement new, the trivially-copyable split, `optional<T&>`, in-place tags, `make_optional`, `swap` and the move overloads. Only the engagement state and the value are modelled.
- Optionals: the relational operators are stated for `Option<int>`, not for an arbitrary ordered `T`.
- Floating point is not modelled. The example functions return integers, and `quotient` of (5, 3) is truncated to 1.
- The counter of `increment_counter` (taken by reference in the blocking test) is the number of engaged results.
- `connect_scoped`, `connection::swap` and `scoped_connection::release` are not modelled, because they are not defined in `signals.hpp`. The test's `scoped_connection_type` is read as `scoped_connection`.
- `disconnect(func)` builds its probe, and `connect(func, ptr)` (signals.hpp:1357) builds its slot, as `slot<Func>`, whose primary template is declared but not defined. Both are modelled as the slot variant `BindSlot` or the plain variant builds from the same arguments, whether or not that template would instantiate. A slot's type tag stands for the template argument as written, undecayed: `connect(i2)` on an lvalue names `make_int&`, so a callable connected as an lvalue and probed as an rvalue would have different tags. The scenarios use one tag per callable, as the tests pass lvalues throughout.
- `m_Blocked` has no setter in `signals.hpp`. `Emit` takes it as the field's current value.
- Scenarios.DisconnectLast: only the first step of the disconnect example runs against the signal object. The three later removals and their results are stated on the list values, by `ArithmeticRemovals` and `ArithmeticLastValues`.
- Scenarios.BlockingSkipsSlots: only the first two invocations of the test are stated. The third repeats the first.
- Slots.Slot.DoDisconnect: the hook has an empty body in the source. The model counts its runs in a ghost field.
- Cow.Block: `useCount` is kept by the pointers' own methods. The model does not tie it to the set of `CowPtr` objects that hold the block, so an unbalanced caller could make them disagree.
- Example `main` functions, console output, `delegates.cpp`, `tests/test1.cpp` and the test fixtures are not modelled.

## Findings

| source | as written | input that shows it | evidently intended | confidence | as-written member | corrected member |
|---|---|---|---|---|---|---|
| signals.hpp:546-549, 583-586, 624-627, 667-671 | `slot_func` and `slot_pmf` call their callable without looking at `connected` or `blocked` | a `slot_func` blocked through `connection::block` (tests/signal_tests.cpp:142-149), or disconnected through its connection (tests/signal_tests.cpp:449-450), still runs and contributes its result | a disconnected or blocked slot is skipped and yields nothing, as the tests and `examples/blocked_slots` expect | high; not executed | Slots.AsWrittenStep, shown by Slots.InactivePlainSlotStillRuns and Scenarios.DisconnectedSlotIsSkipped | Slots.GuardedStep, specified by Slots.GuardedStepSpec and used by Signals.Signal.Emit |
| signals.hpp:1313-1315 | `signal()` initialises only `m_Blocked`, so `m_Slots` is a default `cow_ptr` holding a null `shared_ptr` | the first `connect` on a new signal: `add_slot` calls `write()`, whose `detach` leaves the null pointer alone, and `*m_Ptr` dereferences null | the signal starts with an allocated, empty slot list | high; not executed | Signals.Signal.AsWritten | Signals.Signal.constructor |
