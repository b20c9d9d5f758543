/** Slots: the three implementation variants a `sig::slot` can hold, their
    equality (which may throw `not_comparable_exception`), their invocation, and
    the per-slot state (`slot_state`) that connections and the signal update. */
module Slots {
  import opened Failures
  import opened Optionals

  // ---------------------------------------------------------------------------
  // Callables, bound pointers and weak targets
  // ---------------------------------------------------------------------------

  /** A C++ type as the slot's template argument names it: `name` identifies
      it, `comparable` says whether `is_equality_comparable` holds for it. The
      argument is the undecayed `Func`, so the same callable passed as an lvalue
      and as an rvalue gives two tags and two classes for `dynamic_cast`. */
  datatype TypeTag = TypeTag(name: nat, comparable: bool)

  /** A value of some type (a callable, or a pointer bound to a member function);
      two values of the same type are `==` when their ids agree. */
  datatype Value = Value(ty: TypeTag, id: nat)

  /** A `weak_ptr` to the object `obj` of class `ty`. `weak_ptr` has no `==`. */
  datatype WeakRef = WeakRef(ty: nat, obj: nat)

  /** What `slot(func, ptr)` was given as its second argument: a plain pointer
      (or reference wrapper, or object), or something `to_weak` accepts. */
  datatype Binding = Pointer(ptr: Value) | Trackable(ty: nat, obj: nat)

  /** `slot_func`, `slot_pmf` and `slot_pmf_tracked`. */
  datatype SlotImpl =
    | Plain(func: Value)
    | Bound(func: Value, ptr: Value)
    | Tracked(func: Value, target: WeakRef)

  /** The two-argument slot constructor picks the tracked variant exactly when
      the pointer argument converts to a `weak_ptr`. */
  function BindSlot(func: Value, b: Binding): (r: SlotImpl)
    ensures r.func == func
    ensures r.Tracked? <==> b.Trackable?
    ensures r.Bound? ==> r.ptr == b.ptr
    ensures r.Tracked? ==> r.target == WeakRef(b.ty, b.obj)
  {
    match b
    case Pointer(p) => Bound(func, p)
    case Trackable(ty, obj) => Tracked(func, WeakRef(ty, obj))
  }

  // ---------------------------------------------------------------------------
  // Equality
  // ---------------------------------------------------------------------------

  /** `try_equals<T>::equals`: `==` when the type has one, otherwise throw. */
  function TryEquals(a: Value, b: Value): (r: Result<bool>)
    requires a.ty == b.ty
    ensures r.Err? <==> !a.ty.comparable
    ensures r.Err? ==> r.error == NotComparable
    ensures r.Ok? ==> (r.value <==> a == b)
  {
    if a.ty.comparable then Ok(a == b) else Err(NotComparable)
  }

  /** `dynamic_cast` from one slot to the other's concrete class succeeds: the
      same variant instantiated with the same types. */
  predicate SameClass(a: SlotImpl, b: SlotImpl) {
    match (a, b)
    case (Plain(f), Plain(g)) => f.ty == g.ty
    case (Bound(f, p), Bound(g, q)) => f.ty == g.ty && p.ty == q.ty
    case (Tracked(f, w), Tracked(g, v)) => f.ty == g.ty && w.ty == v.ty
    case _ => false
  }

  /** Every part the `equals` override compares has an `==`. */
  predicate Comparable(a: SlotImpl) {
    match a
    case Plain(f) => f.ty.comparable
    case Bound(f, p) => p.ty.comparable && f.ty.comparable
    case Tracked(_, _) => false
  }

  /** The `equals` overrides of the three variants. The pointer is compared
      first and `&&` skips the callable when the pointers differ. */
  function ImplEquals(a: SlotImpl, b: SlotImpl): (r: Result<bool>)
    ensures !SameClass(a, b) ==> r == Ok(false)
    ensures r == Ok(true) ==> a == b && Comparable(a)
    ensures r.Err? ==> r.error == NotComparable && SameClass(a, b) && !Comparable(a)
  {
    if !SameClass(a, b) then Ok(false)
    else match (a, b)
      case (Plain(f), Plain(g)) => TryEquals(f, g)
      case (Bound(f, p), Bound(g, q)) =>
        var byPtr := TryEquals(p, q);
        if byPtr == Ok(true) then TryEquals(f, g) else byPtr
      case (Tracked(_, _), Tracked(_, _)) => Err(NotComparable)
  }

  /** `slot::operator==`: an empty slot equals only an empty slot; otherwise
      the left slot's `equals` decides. */
  function SlotEquals(a: Option<SlotImpl>, b: Option<SlotImpl>): (r: Result<bool>)
    ensures !HasValue(a) || !HasValue(b) ==> r == Ok(a == b)
    ensures HasValue(a) && HasValue(b) ==> r == ImplEquals(a.value, b.value)
  {
    if !HasValue(a) || !HasValue(b) then Ok(!HasValue(a) && !HasValue(b))
    else ImplEquals(a.value, b.value)
  }

  /** Slots of different classes compare unequal without throwing. */
  lemma DifferentClassesAreUnequal(a: SlotImpl, b: SlotImpl)
    requires !SameClass(a, b)
    ensures ImplEquals(a, b) == Ok(false)
  {
  }

  /** Equality is symmetric, exceptions included. */
  lemma ImplEqualsSymmetric(a: SlotImpl, b: SlotImpl)
    ensures ImplEquals(a, b) == ImplEquals(b, a)
  {
  }

  /** Two slots compare equal exactly when they are the same slot value and
      every compared part has an `==`. */
  lemma ImplEqualsTrueIff(a: SlotImpl, b: SlotImpl)
    ensures ImplEquals(a, b) == Ok(true) <==> a == b && Comparable(a)
  {
  }

  /** Comparison throws only between slots of the same class whose compared
      parts lack an `==`; comparable slots never throw. */
  lemma ImplEqualsThrowsOnlyWhenIncomparable(a: SlotImpl, b: SlotImpl)
    ensures ImplEquals(a, b).Err? ==> SameClass(a, b) && !Comparable(a) && ImplEquals(a, b).error == NotComparable
    ensures Comparable(a) ==> ImplEquals(a, b).Ok?
  {
  }

  /** Bound slots compare the pointer first: different pointers give false even
      when the callable has no `==`. */
  lemma BoundComparesPointerFirst(f: Value, g: Value, p: Value, q: Value)
    requires f.ty == g.ty && p.ty == q.ty && p.ty.comparable && p != q
    ensures ImplEquals(Bound(f, p), Bound(g, q)) == Ok(false)
  {
  }

  /** A callable without `==` throws even when compared with itself. */
  lemma IncomparableCallableThrows(f: Value)
    requires !f.ty.comparable
    ensures ImplEquals(Plain(f), Plain(f)) == Err(NotComparable)
    ensures SlotEquals(Some(Plain(f)), Some(Plain(f))) == Err(NotComparable)
  {
  }

  /** Two tracked slots of the same class always throw: `weak_ptr` has no `==`. */
  lemma TrackedSlotsAlwaysThrow(a: SlotImpl, b: SlotImpl)
    requires a.Tracked? && SameClass(a, b)
    ensures ImplEquals(a, b) == Err(NotComparable)
  {
  }

  /** Empty slots are equal to each other and to nothing else. */
  lemma EmptySlotsEqualOnlyEmpty(a: Option<SlotImpl>)
    ensures SlotEquals(None, None) == Ok(true)
    ensures SlotEquals(None, a) == Ok(!HasValue(a)) && SlotEquals(a, None) == Ok(!HasValue(a))
  {
  }

  /** If any slot throws against a probe, no slot can equal that probe: the
      probe's class then has no `==`, and only slots of that class can match. */
  lemma ThrowExcludesMatch(x: SlotImpl, y: SlotImpl, probe: SlotImpl)
    requires ImplEquals(x, probe).Err?
    ensures ImplEquals(y, probe) != Ok(true)
  {
    ImplEqualsSymmetric(x, probe);
    ImplEqualsThrowsOnlyWhenIncomparable(probe, x);
    ImplEqualsTrueIff(y, probe);
  }

  // ---------------------------------------------------------------------------
  // Invocation
  // ---------------------------------------------------------------------------

  /** The world a signal invocation sees: what each callable returns for the
      invocation's arguments, and which tracked objects are still owned. */
  datatype Env = Env(eval: SlotImpl -> int, live: set<nat>)

  /** The state of one slot as its invocation sees it. */
  datatype SlotView = SlotView(impl: SlotImpl, connected: bool, blocked: bool)

  /** The outcome of invoking one slot: what it returned, whether the stored
      callable ran, and the slot's `connected` flag afterwards. */
  datatype Step = Step(result: Option<int>, called: bool, connectedAfter: bool)

  /** Running the stored callable: an engaged result, or disengaged for `void`. */
  function CallResult(impl: SlotImpl, env: Env, voidResult: bool): Option<int>
  {
    if voidResult then None else Some(env.eval(impl))
  }

  /** The tracked variant cannot lock its target. */
  predicate Expired(impl: SlotImpl, env: Env) {
    impl.Tracked? && impl.target.obj !in env.live
  }

  /** `operator()` of the variants as written: `slot_func` and `slot_pmf` call
      unconditionally; `slot_pmf_tracked` disconnects itself when the target
      has expired and otherwise calls only while connected. */
  function AsWrittenStep(v: SlotView, env: Env, voidResult: bool): (r: Step)
    ensures r.called <==> !v.impl.Tracked? || (v.connected && !Expired(v.impl, env))
    ensures r.result == (if r.called then CallResult(v.impl, env, voidResult) else None)
    ensures r.connectedAfter <==> v.connected && !Expired(v.impl, env)
  {
    if v.impl.Tracked? then
      if Expired(v.impl, env) then Step(None, false, false)
      else if v.connected then Step(CallResult(v.impl, env, voidResult), true, true)
      else Step(None, false, false)
    else Step(CallResult(v.impl, env, voidResult), true, v.connected)
  }

  /** Invocation as the signal's clients expect it: a slot that is disconnected
      or blocked is skipped; a tracked slot whose target expired still
      disconnects itself. */
  function GuardedStep(v: SlotView, env: Env, voidResult: bool): (r: Step)
    ensures r.called <==> v.connected && !v.blocked && !Expired(v.impl, env)
    ensures r.result == (if r.called then CallResult(v.impl, env, voidResult) else None)
    ensures r.connectedAfter <==> v.connected && !Expired(v.impl, env)
  {
    if Expired(v.impl, env) then Step(None, false, false)
    else if v.connected && !v.blocked then Step(CallResult(v.impl, env, voidResult), true, true)
    else Step(None, false, v.connected)
  }

  /** The tracked variant: an expired target disconnects the slot and yields
      nothing; a live target on a connected slot yields the call's result;
      otherwise nothing. */
  lemma TrackedStepSpec(v: SlotView, env: Env, voidResult: bool)
    requires v.impl.Tracked?
    ensures Expired(v.impl, env) ==> AsWrittenStep(v, env, voidResult) == Step(None, false, false)
    ensures !Expired(v.impl, env) && v.connected ==>
      AsWrittenStep(v, env, voidResult).called &&
      AsWrittenStep(v, env, voidResult).result == (if voidResult then None else Some(env.eval(v.impl)))
    ensures !v.connected ==> !AsWrittenStep(v, env, voidResult).called && !AsWrittenStep(v, env, voidResult).connectedAfter
  {
  }

  /** A slot of a `void` signal always yields a disengaged result. */
  lemma VoidSlotsYieldNothing(v: SlotView, env: Env)
    ensures AsWrittenStep(v, env, true).result.None?
    ensures GuardedStep(v, env, true).result.None?
  {
  }

  /** The guarded invocation runs a slot exactly when it is connected, not
      blocked and not expired; a skipped slot yields nothing and keeps its flag. */
  lemma GuardedStepSpec(v: SlotView, env: Env, voidResult: bool)
    ensures GuardedStep(v, env, voidResult).called <==> v.connected && !v.blocked && !Expired(v.impl, env)
    ensures !GuardedStep(v, env, voidResult).called ==> GuardedStep(v, env, voidResult).result.None?
    ensures GuardedStep(v, env, voidResult).connectedAfter <==> v.connected && !Expired(v.impl, env)
  {
  }

  /** On a connected, unblocked slot the guarded invocation is exactly the
      invocation as written. */
  lemma GuardedAgreesOnActiveSlots(v: SlotView, env: Env, voidResult: bool)
    requires v.connected && !v.blocked
    ensures GuardedStep(v, env, voidResult) == AsWrittenStep(v, env, voidResult)
  {
  }

  /** As written, a blocked (or disconnected) plain slot still runs its callable. */
  lemma InactivePlainSlotStillRuns(f: Value, connected: bool, blocked: bool, env: Env)
    requires !connected || blocked
    ensures AsWrittenStep(SlotView(Plain(f), connected, blocked), env, false).called
    ensures AsWrittenStep(SlotView(Plain(f), connected, blocked), env, false).result == Some(env.eval(Plain(f)))
    ensures !GuardedStep(SlotView(Plain(f), connected, blocked), env, false).called
  {
  }

  // ---------------------------------------------------------------------------
  // Slot state
  // ---------------------------------------------------------------------------

  /** A slot owned by a signal: its implementation and its `slot_state`.
      `alive` holds while some signal's list still owns the slot, which is
      when a `weak_ptr` to it can be locked. `hookRuns` counts the runs of the
      `do_disconnect` hook. */
  class Slot {
    const impl: SlotImpl
    var index: nat
    var connected: bool
    var blocked: bool
    var alive: bool
    ghost var hookRuns: nat

    function View(): SlotView
      reads this
    {
      SlotView(impl, connected, blocked)
    }

    /** `slot_state()`: connected, unblocked, index 0. */
    constructor (impl: SlotImpl)
      ensures this.impl == impl
      ensures index == 0 && connected && !blocked && alive && hookRuns == 0
    {
      this.impl := impl;
      index := 0;
      connected := true;
      blocked := false;
      alive := true;
      hookRuns := 0;
    }

    /** `slot_state::disconnect`: exchange `connected` with false and run the
        hook only if it was set. */
    method Disconnect() returns (wasConnected: bool)
      modifies this`connected, this`hookRuns
      ensures wasConnected == old(connected)
      ensures !connected
      ensures hookRuns == old(hookRuns) + (if wasConnected then 1 else 0)
    {
      wasConnected := connected;
      connected := false;
      if wasConnected {
        DoDisconnect();
      }
    }

    /** The `do_disconnect` hook; its body is empty in the source. */
    method DoDisconnect()
      modifies this`hookRuns
      ensures hookRuns == old(hookRuns) + 1
    {
      hookRuns := hookRuns + 1;
    }

    /** `slot_state::block`. */
    method Block()
      modifies this`blocked
      ensures blocked
    {
      blocked := true;
    }

    /** `slot_state::unblock`. */
    method Unblock()
      modifies this`blocked
      ensures !blocked
    {
      blocked := false;
    }

    /** The variant's `operator()` exactly as written. */
    method InvokeAsWritten(env: Env, voidResult: bool) returns (result: Option<int>)
      modifies this`connected, this`hookRuns
      ensures result == AsWrittenStep(old(View()), env, voidResult).result
      ensures connected == AsWrittenStep(old(View()), env, voidResult).connectedAfter
      ensures hookRuns == old(hookRuns) + (if Expired(impl, env) && old(connected) then 1 else 0)
    {
      if impl.Tracked? {
        if Expired(impl, env) {
          var _ := Disconnect();
          result := None;
        } else if connected {
          result := CallResult(impl, env, voidResult);
        } else {
          result := None;
        }
      } else {
        result := CallResult(impl, env, voidResult);
      }
    }

    /** Invocation that honours the slot's state: see `GuardedStep`. */
    method Invoke(env: Env, voidResult: bool) returns (result: Option<int>)
      modifies this`connected, this`hookRuns
      ensures result == GuardedStep(old(View()), env, voidResult).result
      ensures connected == GuardedStep(old(View()), env, voidResult).connectedAfter
      ensures hookRuns == old(hookRuns) + (if Expired(impl, env) && old(connected) then 1 else 0)
    {
      if Expired(impl, env) {
        var _ := Disconnect();
        result := None;
      } else if connected && !blocked {
        result := CallResult(impl, env, voidResult);
      } else {
        result := None;
      }
    }
  }

  /** `disconnect` answers true only the first time, and the hook runs once. */
  method DisconnectTwice(s: Slot) returns (first: bool, second: bool)
    modifies s`connected, s`hookRuns
    ensures first == old(s.connected) && !second
    ensures s.hookRuns == old(s.hookRuns) + (if first then 1 else 0)
  {
    first := s.Disconnect();
    second := s.Disconnect();
  }
}
