/** The library's own usage examples and tests, replayed against the model.
    Callables are plain function pointers of one comparable type, told apart
    by their ids; float results are replaced by integers. */
module Scenarios {
  import opened Failures
  import opened Optionals
  import opened Combiners
  import opened Slots
  import opened SwapRemove
  import opened Cow
  import opened Connections
  import opened Signals

  /** The type `float (*)(float, float)`: a function pointer, which has `==`. */
  const binary: TypeTag := TypeTag(0, true)

  const product: Value := Value(binary, 1)
  const quotient: Value := Value(binary, 2)
  const sum: Value := Value(binary, 3)
  const difference: Value := Value(binary, 4)

  /** Each function applied to (5, 3), with the quotient truncated. */
  function Arithmetic(impl: SlotImpl): int
  {
    if impl == Plain(product) then 15
    else if impl == Plain(quotient) then 1
    else if impl == Plain(sum) then 8
    else if impl == Plain(difference) then 2
    else 0
  }

  /** Invoking a signal with the arguments (5, 3). */
  const fiveThree: Env := Env(Arithmetic, {})

  /** `make_cow`, a copy, and a write through the copy: the two pointers stop
      being equal and the original still reads the old contents. */
  method CowBasic() returns (sameBefore: bool, sameAfter: bool, first: string, second: string)
    ensures sameBefore && !sameAfter
    ensures first == "Hello world!" && second == "Goodbye cruel world!"
  {
    var sp1 := new CowPtr.Make("Hello world!");
    var sp2 := new CowPtr.Copy(sp1);
    sameBefore := sp1.Same(sp2);
    sp2.Write("Goodbye cruel world!");
    sameAfter := sp1.Same(sp2);
    first := sp1.Read();
    second := sp2.Read();
  }

  /** Three holders of one vector; a write through the second gives it a copy
      of its own while the first and third still share the original. */
  method CowVector() returns (same12: bool, same13: bool, after12: bool, after13: bool, v1: seq<int>, v2: seq<int>)
    ensures same12 && same13 && !after12 && after13
    ensures v1 == [0, 1, 2, 3, 4] && v2 == [0, 1, 2, 3, 4, 5]
  {
    var vp1 := new CowPtr.Make([0, 1, 2, 3, 4]);
    var vp2 := new CowPtr.Copy(vp1);
    var vp3 := new CowPtr.Copy(vp2);
    same12 := vp1.Same(vp2);
    same13 := vp1.Same(vp3);
    vp2.Write(vp2.Read() + [5]);
    after12 := vp1.Same(vp2);
    after13 := vp1.Same(vp3);
    v1 := vp1.Read();
    v2 := vp2.Read();
  }

  /** `connect(func)` adds one more active slot at the end. */
  method ConnectActive(s: Signal, func: Value, before: seq<Slot>) returns (c: Slot)
    requires s.Valid() && s.Items() == before && AllActive(before) && func.ty == binary
    modifies s.slots, s.slots.block
    ensures s.Valid() && AllActive(s.Items()) && s.slots.block == old(s.slots.block)
    ensures fresh(c) && c.impl == Plain(func) && s.Items() == before + [c]
  {
    var conn := s.Connect(func);
    c := conn.slot;
  }

  /** A signal with the four arithmetic functions connected in order. */
  method ArithmeticSignal(kind: CombinerKind) returns (s: Signal, p: Slot, q: Slot, t: Slot, d: Slot)
    ensures fresh(s) && fresh(s.slots) && fresh(s.slots.block)
    ensures fresh(p) && fresh(q) && fresh(t) && fresh(d)
    ensures s.Valid() && !s.blocked && s.kind == kind && !s.voidResult
    ensures s.Items() == [p, q, t, d] && AllActive(s.Items())
    ensures p.impl == Plain(product) && q.impl == Plain(quotient)
    ensures t.impl == Plain(sum) && d.impl == Plain(difference)
  {
    s := new Signal(kind, false);
    p := ConnectActive(s, product, []);
    q := ConnectActive(s, quotient, [p]);
    t := ConnectActive(s, sum, [p, q]);
    d := ConnectActive(s, difference, [p, q, t]);
  }

  /** Each slot's result when every slot runs: its function applied to (5, 3). */
  function Outputs(items: seq<Slot>): seq<Option<int>>
  {
    seq(|items|, k requires 0 <= k < |items| => Some(Arithmetic(items[k].impl)))
  }

  /** Invoking a signal whose slots are all connected, unblocked and untracked
      runs every slot once and leaves them so. */
  method EmitActive(s: Signal, items: seq<Slot>) returns (r: Combined)
    requires s.Valid() && s.Items() == items && !s.blocked && !s.voidResult && AllActive(items)
    modifies items
    ensures s.Valid() && s.Items() == items
    ensures AllActive(s.Items())
    ensures r == Combine(s.kind, Outputs(s.Items()))
  {
    ghost var vs := Views(s.Items());
    r := s.Emit(fiveThree);
    assert Results(vs, fiveThree, false) == Outputs(s.Items());
  }

  /** Every listed slot runs when invoked: connected, unblocked, one of the
      plain comparable function pointers. */
  ghost predicate AllActive(items: seq<Slot>)
    reads items
  {
    forall k :: 0 <= k < |items| ==>
      items[k].connected && !items[k].blocked && items[k].impl.Plain? && items[k].impl.func.ty == binary
  }

  /** `disconnect(func)` on such a signal cannot throw, and the remaining
      slots stay active. */
  method DisconnectActive(s: Signal, func: Value, before: seq<Slot>, after: seq<Slot>) returns (n: nat)
    requires s.Valid() && s.Items() == before && AllActive(before) && func.ty == binary
    requires SwapRemoveFrom(before, 0, MatchesProbe(Plain(func))) == after
    modifies s.slots, s.slots.block, before
    ensures s.Valid() && AllActive(s.Items()) && s.slots.block == old(s.slots.block)
    ensures s.Items() == after
    ensures n == CountMatches(before, MatchesProbe(Plain(func)))
  {
    var res := s.Disconnect(func);
    assert res.Ok?;
    n := res.value;
    assert forall x :: x in s.Items() ==> x in before by {
      forall x | x in s.Items() ensures x in before {
        assert multiset(s.Items())[x] > 0;
      }
    }
  }

  /** Which slot a probe built from `f` matches. */
  lemma MatchesPlain(x: Slot, f: Value)
    requires x.impl.Plain? && x.impl.func.ty == binary && f.ty == binary
    ensures MatchesProbe(Plain(f))(x) <==> x.impl == Plain(f)
  {
  }

  /** The removals of the example, on the list of slot objects. */
  lemma ArithmeticRemovals(p: Slot, q: Slot, t: Slot, d: Slot)
    requires p.impl == Plain(product) && q.impl == Plain(quotient)
    requires t.impl == Plain(sum) && d.impl == Plain(difference)
    ensures SwapRemoveFrom([p, q, t, d], 0, MatchesProbe(Plain(difference))) == [p, q, t]
    ensures CountMatches([p, q, t, d], MatchesProbe(Plain(difference))) == 1
    ensures SwapRemoveFrom([p, q, t], 0, MatchesProbe(Plain(product))) == [t, q]
    ensures SwapRemoveFrom([t, q], 0, MatchesProbe(Plain(quotient))) == [t]
    ensures SwapRemoveFrom([t], 0, MatchesProbe(Plain(sum))) == []
  {
    MatchesPlain(p, difference);
    MatchesPlain(q, difference);
    MatchesPlain(t, difference);
    MatchesPlain(d, difference);
    RemoveLastOfFour(p, q, t, d, MatchesProbe(Plain(difference)));
    var m := MatchesProbe(Plain(difference));
    assert [p, q, t, d][1..] == [q, t, d] && [q, t, d][1..] == [t, d] && [t, d][1..] == [d] && [d][1..] == [];
    assert CountMatches([d], m) == 1;
    assert CountMatches([t, d], m) == 1;
    assert CountMatches([q, t, d], m) == 1;
    MatchesPlain(p, product);
    MatchesPlain(q, product);
    MatchesPlain(t, product);
    RemoveFirstOfThree(p, q, t, MatchesProbe(Plain(product)));
    MatchesPlain(t, quotient);
    MatchesPlain(q, quotient);
    assert [t, q][1 := q][..1] == [t];
    assert SwapRemoveFrom([t], 1, MatchesProbe(Plain(quotient))) == [t];
    MatchesPlain(t, sum);
    assert [t][0 := t][..0] == [];
  }

  /** What the default combiner returns on each list of the example. */
  lemma ArithmeticLastValues(p: Slot, q: Slot, t: Slot, d: Slot)
    requires p.impl == Plain(product) && q.impl == Plain(quotient)
    requires t.impl == Plain(sum) && d.impl == Plain(difference)
    ensures Combine(LastValue, Outputs([p, q, t, d])) == Single(Some(2))
    ensures Combine(LastValue, Outputs([p, q, t])) == Single(Some(8))
    ensures Combine(LastValue, Outputs([t, q])) == Single(Some(1))
    ensures Combine(LastValue, Outputs([t])) == Single(Some(8))
    ensures Combine(LastValue, Outputs([])) == Single(None)
  {
    assert Outputs([p, q, t, d]) == [Some(15), Some(1), Some(8), Some(2)];
    assert Outputs([p, q, t]) == [Some(15), Some(1), Some(8)];
    assert Outputs([t, q]) == [Some(8), Some(1)];
    assert Outputs([t]) == [Some(8)];
  }

  /** The default combiner returns the result of the last slot, `difference`. */
  method ReturnValues() returns (r: Combined)
    ensures r == Single(Some(2))
  {
    var s, p, q, t, d := ArithmeticSignal(LastValue);
    r := EmitActive(s, [p, q, t, d]);
    assert Outputs(s.Items()) == [Some(15), Some(1), Some(8), Some(2)];
  }

  /** The first step of the example at the level of the signal: disconnecting
      `difference` removes one slot and the default combiner then returns the
      result of `sum`. The later steps are `ArithmeticRemovals` and
      `ArithmeticLastValues`. */
  method DisconnectLast() returns (n: nat, r: Combined)
    ensures n == 1 && r == Single(Some(8))
  {
    var s, p, q, t, d := ArithmeticSignal(LastValue);
    ArithmeticRemovals(p, q, t, d);
    ArithmeticLastValues(p, q, t, d);
    n := DisconnectActive(s, difference, [p, q, t, d], [p, q, t]);
    r := EmitActive(s, [p, q, t]);
  }

  /** What the other two combiners return on the four results. */
  lemma ArithmeticCombined(p: Slot, q: Slot, t: Slot, d: Slot)
    requires p.impl == Plain(product) && q.impl == Plain(quotient)
    requires t.impl == Plain(sum) && d.impl == Plain(difference)
    ensures Combine(Maximum, Outputs([p, q, t, d])) == Single(Some(15))
    ensures Combine(Aggregate, Outputs([p, q, t, d])) == Collected([15, 1, 8, 2])
  {
    var r1, r2, r3, r4 := [Some(15)], [Some(15), Some(1)], [Some(15), Some(1), Some(8)], [Some(15), Some(1), Some(8), Some(2)];
    assert Outputs([p, q, t, d]) == r4;
    assert r4[..3] == r3 && r3[..2] == r2 && r2[..1] == r1 && r1[..0] == [];
    assert MaxOf(r1) == Some(15) && Engaged(r1) == [15];
    assert MaxOf(r2) == Some(15) && Engaged(r2) == [15, 1];
    assert MaxOf(r3) == Some(15) && Engaged(r3) == [15, 1, 8];
    assert MaxOf(r4) == Some(15) && Engaged(r4) == [15, 1, 8, 2];
  }

  /** `maximum_value` over the four functions: 5 * 3 is the largest result. */
  method MaximumOfArithmetic() returns (r: Combined)
    ensures r == Single(Some(15))
  {
    var s, p, q, t, d := ArithmeticSignal(Maximum);
    ArithmeticCombined(p, q, t, d);
    r := EmitActive(s, [p, q, t, d]);
  }

  /** `aggregate_values` over the four functions: every result, in order. */
  method AggregateOfArithmetic() returns (r: Combined)
    ensures r == Collected([15, 1, 8, 2])
  {
    var s, p, q, t, d := ArithmeticSignal(Aggregate);
    ArithmeticCombined(p, q, t, d);
    r := EmitActive(s, [p, q, t, d]);
  }

  /** `void_func` is a `void()` function pointer. */
  const voidFunc: Value := Value(TypeTag(1, true), 1)
  const voidFunc2: Value := Value(TypeTag(1, true), 2)

  /** A `void` signal with `void_func` once and `void_func2` twice: it yields
      nothing, and the two disconnects count 1 and then 2. */
  lemma VoidSignalCounts(a: Slot, b1: Slot, b2: Slot, views: seq<SlotView>, env: Env)
    requires a.impl == Plain(voidFunc) && b1.impl == Plain(voidFunc2) && b2.impl == Plain(voidFunc2)
    ensures Combine(LastValue, Results(views, env, true)) == Single(None)
    ensures CountMatches([a, b1, b2], MatchesProbe(Plain(voidFunc))) == 1
    ensures SwapRemoveFrom([a, b1, b2], 0, MatchesProbe(Plain(voidFunc))) == [b2, b1]
    ensures CountMatches([b2, b1], MatchesProbe(Plain(voidFunc2))) == 2
    ensures SwapRemoveFrom([b2, b1], 0, MatchesProbe(Plain(voidFunc2))) == []
  {
    var rs := Results(views, env, true);
    forall k | 0 <= k < |rs| ensures rs[k] == None {
      VoidSlotsYieldNothing(views[k], env);
    }
    LastEngagedSpec(rs);
    var m, m2 := MatchesProbe(Plain(voidFunc)), MatchesProbe(Plain(voidFunc2));
    assert m(a) && !m(b1) && !m(b2) && m2(b1) && m2(b2);
    assert [a, b1, b2][1..] == [b1, b2] && [b1, b2][1..] == [b2] && [b2][1..] == [];
    assert [b2][0] == b2 && CountMatches([b2], m) == 0;
    assert [b1, b2][0] == b1 && CountMatches([b1, b2], m) == 0;
    RemoveFirstOfThree(a, b1, b2, m);
    assert [b2, b1][1..] == [b1] && [b1][1..] == [];
    assert CountMatches([b1], m2) == 1;
    assert [b2, b1][0 := b1][..1] == [b1] && [b1][0 := b1][..0] == [];
    assert SwapRemoveFrom([b1], 0, m2) == [];
  }

  /** `increment_counter` takes an `int&`; each run adds one to the counter. */
  const increment: Value := Value(TypeTag(2, true), 1)

  /** Each run of `increment_counter` contributes one engaged result, so the
      number of aggregated results is how far the counter moves. */
  const counting: Env := Env((impl: SlotImpl) => 1, {})

  /** Three connections of `increment_counter`: all three run; with the first
      two blocked only the third runs; unblocked, all three run again (the
      counter goes 3, 4, 7). */
  lemma BlockingSkipsSlots()
    ensures var active := SlotView(Plain(increment), true, false);
      var blocked := SlotView(Plain(increment), true, true);
      |Engaged(Results([active, active, active], counting, false))| == 3 &&
      |Engaged(Results([blocked, blocked, active], counting, false))| == 1
  {
    var active := SlotView(Plain(increment), true, false);
    var blocked := SlotView(Plain(increment), true, true);
    var all := Results([active, active, active], counting, false);
    var one := Results([blocked, blocked, active], counting, false);
    assert |all| == 3 && all[0].Some? && all[1].Some? && all[2].Some?;
    EngagedSpec(all);
    assert |one| == 3 && one[0] == None && one[1] == None && one[2].Some?;
    assert one == [None, None, one[2]];
    OnlyLastEngaged(one[2].value);
  }

  /** The blocked case of `BlockingSkipsSlots`: of three results, only the
      last is engaged, so one value is collected. */
  lemma OnlyLastEngaged(v: int)
    ensures |Engaged([None, None, Some(v)])| == 1
  {
    var none: Option<int> := None;
    var rs := [none, none, Some(v)];
    assert rs[..2] == [none, none] && [none, none][..1] == [none] && [none][..0] == [];
    assert Engaged([none]) == [];
    assert Engaged([none, none]) == [];
  }

  /** `make_int` objects compare by value and return their first number. */
  const makeInt: TypeTag := TypeTag(3, true)
  const i2: Value := Value(makeInt, 2)
  const i42: Value := Value(makeInt, 42)

  /** The end of the `ZeroArgs` test, whose combiner `max_or_default` is the
      running maximum followed by `max ? *max : T()`: with `i2` and `i42` left
      and `c42` disconnected through its connection, the signal returns 2. As
      written, the disconnected `slot_func` still runs and the result stays 42. */
  lemma DisconnectedSlotIsSkipped(env: Env)
    requires env.eval(Plain(i2)) == 2 && env.eval(Plain(i42)) == 42
    ensures var vs := [SlotView(Plain(i2), true, false), SlotView(Plain(i42), false, false)];
      Combine(Maximum, Results(vs, env, false)) == Single(Some(2)) &&
      ValueOr(MaxOf(Results(vs, env, false)), 0) == 2 &&
      MaxOf([AsWrittenStep(vs[0], env, false).result, AsWrittenStep(vs[1], env, false).result]) == Some(42) &&
      ValueOr(MaxOf([AsWrittenStep(vs[0], env, false).result, AsWrittenStep(vs[1], env, false).result]), 0) == 42
  {
    var vs := [SlotView(Plain(i2), true, false), SlotView(Plain(i42), false, false)];
    var rs := Results(vs, env, false);
    assert rs == [Some(2), None];
    assert rs[..1] == [Some(2)] && rs[..1][..0] == [];
    assert MaxOf([Some(2)]) == Some(2);
    var ws := [AsWrittenStep(vs[0], env, false).result, AsWrittenStep(vs[1], env, false).result];
    assert ws == [Some(2), Some(42)];
    assert ws[..1] == [Some(2)] && ws[..1][..0] == [];
  }

  /** A connection disconnects its slot once: the first call answers true, the
      second false. */
  method DisconnectConnectionTwice() returns (first: bool, second: bool)
    ensures first && !second
  {
    var slot := new Slot(Plain(voidFunc));
    var c := new Connection(slot);
    first := c.Disconnect();
    second := c.Disconnect();
  }

  /** `c.blocker()` blocks the slot for as long as the blocker lives: the
      guarded invocation of the slot is skipped while the blocker lives and
      runs again after its release (a `slot_func`'s `operator()` as written
      would run in all three cases). */
  method BlockerScope(env: Env) returns (before: bool, during: bool, after: bool, duringAsWritten: bool)
    ensures before && !during && after && duringAsWritten
  {
    var slot := new Slot(Plain(voidFunc));
    var c := new Connection(slot);
    before := GuardedStep(slot.View(), env, true).called;
    var b := c.Blocker();
    during := GuardedStep(slot.View(), env, true).called;
    duringAsWritten := AsWrittenStep(slot.View(), env, true).called;
    b.Release();
    after := GuardedStep(slot.View(), env, true).called;
  }

  /** Moving a scoped connection hands the slot over: the source no longer
      reports it, and when the new owner is destroyed the slot is
      disconnected. */
  method ScopedConnectionMove() returns (movedFrom: bool, movedTo: bool, plainBefore: bool, plainAfter: bool)
    ensures !movedFrom && movedTo && plainBefore && !plainAfter
  {
    var slot := new Slot(Plain(voidFunc));
    var c1 := new Connection(slot);
    var scoped1 := new ScopedConnection(c1);
    var scoped2 := new ScopedConnection.Move(scoped1);
    movedFrom := scoped1.base.Connected();
    movedTo := scoped2.base.Connected();
    plainBefore := c1.Connected();
    scoped2.Release();
    scoped1.Release();
    plainAfter := c1.Connected();
  }
}
