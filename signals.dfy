/** `sig::signal`: a list of shared slots behind a copy-on-write pointer,
    connected and disconnected by clients and invoked as a whole, with the
    per-slot results folded by the signal's combiner. */
module Signals {
  import opened Failures
  import opened Optionals
  import opened Combiners
  import opened Slots
  import opened SwapRemove
  import opened Cow
  import opened Connections

  /** The state of each slot of a list, in list order. */
  function Views(ss: seq<Slot>): seq<SlotView>
    reads ss
  {
    seq(|ss|, k requires 0 <= k < |ss| reads ss => ss[k].View())
  }

  /** One invocation of each slot, in list order: the per-slot results the
      combiner receives. A slot contributes a value exactly when the signal
      returns values and the slot is connected, unblocked and not expired,
      and that value is what its callable returns. */
  function Results(vs: seq<SlotView>, env: Env, voidResult: bool): (rs: seq<Option<int>>)
    ensures |rs| == |vs|
    ensures forall k :: 0 <= k < |vs| ==>
      (rs[k].Some? <==> !voidResult && vs[k].connected && !vs[k].blocked && !Expired(vs[k].impl, env))
    ensures forall k :: 0 <= k < |vs| && rs[k].Some? ==> rs[k].value == env.eval(vs[k].impl)
  {
    seq(|vs|, k requires 0 <= k < |vs| => GuardedStep(vs[k], env, voidResult).result)
  }

  /** Whether a listed slot is equal to the probe `disconnect` builds. */
  function MatchesProbe(probe: SlotImpl): Slot -> bool
  {
    (s: Slot) => ImplEquals(s.impl, probe) == Ok(true)
  }

  /** If any slot of the list throws against the probe, none can match it. */
  lemma NoMatchWhenSomeSlotThrows(xs: seq<Slot>, probe: SlotImpl, y: Slot)
    ensures (exists k :: 0 <= k < |xs| && ImplEquals(xs[k].impl, probe).Err?) ==> !MatchesProbe(probe)(y)
  {
    if exists k :: 0 <= k < |xs| && ImplEquals(xs[k].impl, probe).Err? {
      var k :| 0 <= k < |xs| && ImplEquals(xs[k].impl, probe).Err?;
      ThrowExcludesMatch(xs[k].impl, y.impl, probe);
    }
  }

  /** Some slot of the list throws when compared with the probe. */
  ghost predicate SomeSlotThrows(xs: seq<Slot>, probe: SlotImpl)
  {
    exists k :: 0 <= k < |xs| && ImplEquals(xs[k].impl, probe).Err?
  }

  /** The scan of `remove_slot` has reached position `i` of `items`, having
      removed `count` slots of `olds`: finishing it leaves what a scan of
      `olds` from the start leaves, and if a slot of `olds` throws, nothing
      was removed yet and a throwing slot lies ahead. */
  ghost predicate Scanned(items: seq<Slot>, i: nat, count: nat, olds: seq<Slot>, probe: SlotImpl)
  {
    i <= |items| &&
    SwapRemoveFrom(items, i, MatchesProbe(probe)) == SwapRemoveFrom(olds, 0, MatchesProbe(probe)) &&
    count == |olds| - |items| &&
    (SomeSlotThrows(olds, probe) ==>
      items == olds && count == 0 && exists j :: i <= j < |olds| && ImplEquals(olds[j].impl, probe).Err?)
  }

  /** Before the scan, nothing is scanned or removed. */
  lemma ScanStart(olds: seq<Slot>, probe: SlotImpl)
    ensures Scanned(olds, 0, 0, olds, probe)
  {
  }

  /** A slot unequal to the probe is stepped over. */
  lemma ScanSkip(items: seq<Slot>, i: nat, count: nat, olds: seq<Slot>, probe: SlotImpl)
    requires Scanned(items, i, count, olds, probe) && i < |items|
    requires ImplEquals(items[i].impl, probe) == Ok(false)
    ensures Scanned(items, i + 1, count, olds, probe)
  {
    if SomeSlotThrows(olds, probe) {
      var j :| i <= j < |olds| && ImplEquals(olds[j].impl, probe).Err?;
      assert j != i;
    }
  }

  /** A slot equal to the probe is swapped with the last one and popped; the
      scan stays at the same position. */
  lemma ScanRemove(items: seq<Slot>, i: nat, count: nat, olds: seq<Slot>, probe: SlotImpl)
    requires Scanned(items, i, count, olds, probe) && i < |items|
    requires ImplEquals(items[i].impl, probe) == Ok(true)
    ensures Scanned(SwapPop(items, i), i, count + 1, olds, probe)
  {
    NoMatchWhenSomeSlotThrows(olds, probe, items[i]);
    SwapStepFrame(items, i);
  }

  /** A throwing comparison can only come before anything was removed. */
  lemma ScanThrow(items: seq<Slot>, i: nat, count: nat, olds: seq<Slot>, probe: SlotImpl)
    requires Scanned(items, i, count, olds, probe) && i < |items|
    requires ImplEquals(items[i].impl, probe).Err? && items[i] in olds
    ensures SomeSlotThrows(olds, probe) && items == olds
  {
    var w :| 0 <= w < |olds| && olds[w] == items[i];
  }

  /** A finished scan threw nothing and left the list a scan from the start
      leaves. */
  lemma ScanDone(items: seq<Slot>, count: nat, olds: seq<Slot>, probe: SlotImpl)
    requires Scanned(items, |items|, count, olds, probe)
    ensures !SomeSlotThrows(olds, probe)
    ensures items == SwapRemoveFrom(olds, 0, MatchesProbe(probe)) && count == |olds| - |items|
  {
  }

  /** The slots of `items`, listed once each at their own index, are exactly
      the slots of `olds` that are still alive. */
  ghost predicate Tracking(items: seq<Slot>, olds: seq<Slot>)
    reads items, olds
  {
    Distinct(items) &&
    (forall k :: 0 <= k < |items| ==> items[k].index == k && items[k].alive && items[k] in olds) &&
    (forall s :: s in olds ==> (s.alive <==> s in items))
  }

  /** What a removal that ended as `remove_slot` ends leaves behind: on
      success exactly the slots not equal to the probe remain, as often as
      they occurred, and the count is the number of slots that were equal to
      it; after a throw the list is untouched and nothing in it matches. */
  lemma RemovalSpec(before: seq<Slot>, after: seq<Slot>, probe: SlotImpl, r: Result<nat>)
    requires r.Err? <==> exists k :: 0 <= k < |before| && ImplEquals(before[k].impl, probe).Err?
    requires r.Err? ==> after == before
    requires r.Ok? ==> after == SwapRemoveFrom(before, 0, MatchesProbe(probe)) && r.value == |before| - |after|
    ensures r.Ok? ==> r.value == CountMatches(before, MatchesProbe(probe))
    ensures r.Ok? ==> forall x :: multiset(after)[x] == if MatchesProbe(probe)(x) then 0 else multiset(before)[x]
    ensures forall k :: 0 <= k < |after| ==> !MatchesProbe(probe)(after[k])
  {
    if r.Ok? {
      SwapRemoveSpec(before, 0, MatchesProbe(probe));
      assert before[0..] == before;
    } else {
      forall k | 0 <= k < |after|
        ensures !MatchesProbe(probe)(after[k])
      {
        NoMatchWhenSomeSlotThrows(before, probe, after[k]);
      }
    }
  }

  /** The loop of `operator()`: each slot of the snapshot is invoked once, in
      list order, and its result collected. */
  method InvokeEach(items: seq<Slot>, env: Env, voidResult: bool) returns (rs: seq<Option<int>>)
    requires Distinct(items)
    modifies items`connected, items`hookRuns
    ensures rs == Results(old(Views(items)), env, voidResult)
    ensures forall k :: 0 <= k < |items| ==>
      items[k].connected == GuardedStep(old(items[k].View()), env, voidResult).connectedAfter &&
      items[k].blocked == old(items[k].blocked) &&
      items[k].hookRuns == old(items[k].hookRuns) + (if Expired(items[k].impl, env) && old(items[k].connected) then 1 else 0)
  {
    ghost var views := Views(items);
    ghost var runs := seq(|items|, k requires 0 <= k < |items| reads items => items[k].hookRuns);
    rs := [];
    var i := 0;
    while i < |items|
      invariant i <= |items| && |rs| == i
      invariant forall k :: 0 <= k < i ==> rs[k] == GuardedStep(views[k], env, voidResult).result
      invariant forall k :: 0 <= k < i ==> items[k].connected == GuardedStep(views[k], env, voidResult).connectedAfter
      invariant forall k :: i <= k < |items| ==> items[k].View() == views[k]
      invariant forall k :: 0 <= k < |items| ==> items[k].blocked == views[k].blocked
      invariant forall k :: 0 <= k < i ==>
        items[k].hookRuns == runs[k] + (if Expired(items[k].impl, env) && views[k].connected then 1 else 0)
      invariant forall k :: i <= k < |items| ==> items[k].hookRuns == runs[k]
    {
      var result := items[i].Invoke(env, voidResult);
      rs := rs + [result];
      i := i + 1;
    }
    assert rs == Results(views, env, voidResult);
  }

  class Signal {
    const slots: CowPtr<seq<Slot>>
    var blocked: bool
    const kind: CombinerKind
    const voidResult: bool

    /** The slot list, in connection order (modulo swap-removal). */
    function Items(): seq<Slot>
      reads slots, slots.block
    {
      if slots.block == null then [] else slots.block.items
    }

    /** The signal owns its list alone, each slot once, every slot knows its
        position, and every listed slot is alive. */
    ghost predicate Valid()
      reads slots, slots.block, Items()`index, Items()`alive
    {
      slots.block != null && slots.block.useCount == 1 &&
      Distinct(Items()) &&
      forall k :: 0 <= k < |Items()| ==> Items()[k].index == k && Items()[k].alive
    }

    /** `signal()` with the list allocated: an empty list, not blocked. */
    constructor (kind: CombinerKind, voidResult: bool)
      ensures Valid() && Items() == [] && !blocked
      ensures this.kind == kind && this.voidResult == voidResult
      ensures fresh(slots) && fresh(slots.block)
    {
      this.kind := kind;
      this.voidResult := voidResult;
      slots := new CowPtr.Make([]);
      blocked := false;
    }

    /** `signal()` as written: only `m_Blocked` is initialised, so the
        copy-on-write pointer holds no list and every later `read()` or
        `write()` dereferences null. */
    constructor AsWritten(kind: CombinerKind, voidResult: bool)
      ensures slots.block == null && !Valid()
      ensures !blocked
    {
      this.kind := kind;
      this.voidResult := voidResult;
      slots := new CowPtr.Default();
      blocked := false;
    }

    /** `add_slot`: the slot learns its position, then is appended. */
    method AddSlot(s: Slot)
      requires Valid()
      requires s !in Items() && s.alive
      modifies slots, slots.block, s
      ensures Valid()
      ensures slots.block == old(slots.block)
      ensures Items() == old(Items()) + [s]
      ensures s.index == |old(Items())| && s.alive
      ensures s.connected == old(s.connected) && s.blocked == old(s.blocked)
    {
      s.index := |slots.Read()|;
      slots.Write(slots.Read() + [s]);
      assert Items() == old(Items()) + [s];
    }

    /** `connect(func)`: a fresh connected slot at the end, and a connection to it. */
    method Connect(func: Value) returns (c: Connection)
      requires Valid()
      modifies slots, slots.block
      ensures Valid()
      ensures slots.block == old(slots.block)
      ensures fresh(c) && c.slot != null && fresh(c.slot)
      ensures Items() == old(Items()) + [c.slot]
      ensures c.slot.impl == Plain(func) && c.slot.connected && !c.slot.blocked
      ensures c.IsValid() && c.Connected()
    {
      var s := new Slot(Plain(func));
      c := new Connection(s);
      AddSlot(s);
    }

    /** `connect(func, ptr)`: as `Connect`, with the slot variant chosen by
        whether `ptr` can be tracked. */
    method ConnectMember(func: Value, ptr: Binding) returns (c: Connection)
      requires Valid()
      modifies slots, slots.block
      ensures Valid()
      ensures slots.block == old(slots.block)
      ensures fresh(c) && c.slot != null && fresh(c.slot)
      ensures Items() == old(Items()) + [c.slot]
      ensures c.slot.impl == BindSlot(func, ptr) && c.slot.connected && !c.slot.blocked
      ensures c.IsValid() && c.Connected()
    {
      var s := new Slot(BindSlot(func, ptr));
      c := new Connection(s);
      AddSlot(s);
    }

    /** One removal step of `remove_slot`: the last slot moves into position
        `i` and takes over its index, and the list is popped, dropping the only
        owner of the removed slot. */
    method SwapPopAt(items: seq<Slot>, i: nat, ghost olds: seq<Slot>) returns (rest: seq<Slot>)
      requires slots.block != null && slots.block.items == items
      requires i < |items| && Tracking(items, olds)
      modifies slots.block`items, items`index, items`alive
      ensures rest == SwapPop(items, i) && slots.block.items == rest
      ensures Tracking(rest, olds)
    {
      var last := |items| - 1;
      var moved := items[last];
      SwapPopMembers(items, i);
      moved.index := i;
      rest := items[i := moved][..last];
      slots.block.items := rest;
      items[i].alive := false;
      forall k | 0 <= k < |rest|
        ensures rest[k].index == k && rest[k].alive
      {
        if k != i {
          assert rest[k] == items[k] && items[k] != moved;
        }
        assert rest[k] != items[i];
      }
    }

    /** The loop of `remove_slot` over the list it owns alone: each slot equal
        to the probe is swapped with the last one, which takes over its index,
        and popped. A throwing comparison propagates; it can only happen before
        anything is removed. */
    method ScanList(probe: SlotImpl) returns (r: Result<nat>)
      requires slots.block != null && Tracking(slots.block.items, slots.block.items)
      modifies slots.block`items, slots.block.items`index, slots.block.items`alive
      ensures r.Err? <==> SomeSlotThrows(old(slots.block.items), probe)
      ensures r.Err? ==> r.error == NotComparable && slots.block.items == old(slots.block.items)
      ensures r.Ok? ==> slots.block.items == SwapRemoveFrom(old(slots.block.items), 0, MatchesProbe(probe))
      ensures r.Ok? ==> r.value == |old(slots.block.items)| - |slots.block.items|
      ensures Tracking(slots.block.items, old(slots.block.items))
    {
      var items := slots.block.items;
      ghost var olds := items;
      ScanStart(olds, probe);
      var count := 0;
      var i := 0;
      while i < |items|
        invariant slots.block.items == items
        invariant Scanned(items, i, count, olds, probe)
        invariant Tracking(items, olds)
        decreases |items| - i
      {
        var eq := ImplEquals(items[i].impl, probe);
        if eq.Err? {
          ScanThrow(items, i, count, olds, probe);
          ImplEqualsThrowsOnlyWhenIncomparable(items[i].impl, probe);
          r := Err(eq.error);
          return;
        }
        if eq.value {
          ScanRemove(items, i, count, olds, probe);
          items := SwapPopAt(items, i, olds);
          count := count + 1;
        } else {
          ScanSkip(items, i, count, olds, probe);
          i := i + 1;
        }
      }
      ScanDone(items, count, olds, probe);
      r := Ok(count);
    }

    /** `remove_slot`: detach the list from any other holder, then scan it. */
    method RemoveSlot(probe: SlotImpl) returns (r: Result<nat>)
      requires Valid()
      modifies slots, slots.block, Items()`index, Items()`alive
      ensures Valid()
      ensures slots.block == old(slots.block)
      ensures r.Err? <==> exists k :: 0 <= k < |old(Items())| && ImplEquals(old(Items())[k].impl, probe).Err?
      ensures r.Err? ==> r.error == NotComparable && Items() == old(Items())
      ensures r.Ok? ==> Items() == SwapRemoveFrom(old(Items()), 0, MatchesProbe(probe))
      ensures r.Ok? ==> r.value == |old(Items())| - |Items()|
      ensures forall s :: s in old(Items()) ==> (s.alive <==> s in Items())
    {
      slots.Detach();
      r := ScanList(probe);
    }

    /** `disconnect(func)`: remove every slot equal to a slot built from `func`. */
    method Disconnect(func: Value) returns (r: Result<nat>)
      requires Valid()
      modifies slots, slots.block, Items()`index, Items()`alive
      ensures Valid()
      ensures slots.block == old(slots.block)
      ensures r.Err? <==> exists k :: 0 <= k < |old(Items())| && ImplEquals(old(Items())[k].impl, Plain(func)).Err?
      ensures r.Err? ==> r.error == NotComparable && Items() == old(Items())
      ensures r.Ok? ==> Items() == SwapRemoveFrom(old(Items()), 0, MatchesProbe(Plain(func)))
      ensures r.Ok? ==> r.value == CountMatches(old(Items()), MatchesProbe(Plain(func)))
      ensures r.Ok? ==> forall x :: multiset(Items())[x] == if MatchesProbe(Plain(func))(x) then 0 else multiset(old(Items()))[x]
      ensures forall k :: 0 <= k < |Items()| ==> !MatchesProbe(Plain(func))(Items()[k])
      ensures forall s :: s in old(Items()) ==> (s.alive <==> s in Items())
      ensures forall c: Connection :: c.slot in old(Items()) ==> (c.IsValid() <==> c.slot in Items())
    {
      ghost var before := Items();
      r := RemoveSlot(Plain(func));
      RemovalSpec(before, Items(), Plain(func), r);
    }

    /** `disconnect(func, ptr)`: remove every slot equal to a slot built from
        `func` and `ptr`. */
    method DisconnectMember(func: Value, ptr: Binding) returns (r: Result<nat>)
      requires Valid()
      modifies slots, slots.block, Items()`index, Items()`alive
      ensures Valid()
      ensures slots.block == old(slots.block)
      ensures r.Err? <==> exists k :: 0 <= k < |old(Items())| && ImplEquals(old(Items())[k].impl, BindSlot(func, ptr)).Err?
      ensures r.Err? ==> r.error == NotComparable && Items() == old(Items())
      ensures r.Ok? ==> Items() == SwapRemoveFrom(old(Items()), 0, MatchesProbe(BindSlot(func, ptr)))
      ensures r.Ok? ==> r.value == CountMatches(old(Items()), MatchesProbe(BindSlot(func, ptr)))
      ensures r.Ok? ==> forall x :: multiset(Items())[x] == if MatchesProbe(BindSlot(func, ptr))(x) then 0 else multiset(old(Items()))[x]
      ensures forall k :: 0 <= k < |Items()| ==> !MatchesProbe(BindSlot(func, ptr))(Items()[k])
      ensures forall s :: s in old(Items()) ==> (s.alive <==> s in Items())
      ensures forall c: Connection :: c.slot in old(Items()) ==> (c.IsValid() <==> c.slot in Items())
    {
      ghost var before := Items();
      r := RemoveSlot(BindSlot(func, ptr));
      RemovalSpec(before, Items(), BindSlot(func, ptr), r);
    }

    /** `operator()`: a blocked signal returns the combiner's value-initialised
        result; otherwise each slot of the list is invoked once, in order, and
        the combiner folds the results. */
    method Emit(env: Env) returns (r: Combined)
      requires Valid()
      modifies Items()`connected, Items()`hookRuns
      ensures Valid()
      ensures Items() == old(Items())
      ensures blocked ==> r == DefaultResult(kind) && Views(Items()) == old(Views(Items()))
      ensures !blocked ==> r == Combine(kind, Results(old(Views(Items())), env, voidResult))
      ensures !blocked ==> forall k :: 0 <= k < |Items()| ==>
        Items()[k].connected == GuardedStep(old(Items()[k].View()), env, voidResult).connectedAfter &&
        Items()[k].blocked == old(Items()[k].blocked)
      ensures forall k :: 0 <= k < |Items()| ==>
        Items()[k].hookRuns == old(Items()[k].hookRuns) +
          (if !blocked && Expired(Items()[k].impl, env) && old(Items()[k].connected) then 1 else 0)
    {
      if blocked {
        r := DefaultResult(kind);
        return;
      }
      var rs := InvokeEach(slots.Read(), env, voidResult);
      r := RunCombiner(kind, rs);
    }

    /** The destructor: the list was the slots' only owner, so every weak
        reference to them expires. */
    method Release()
      requires Valid()
      modifies Items()`alive
      ensures forall s :: s in old(Items()) ==> !s.alive
      ensures forall c: Connection :: c.slot in old(Items()) ==> !c.IsValid()
    {
      var items := slots.Read();
      var i := 0;
      while i < |items|
        invariant i <= |items|
        invariant forall k :: 0 <= k < i ==> !items[k].alive
      {
        items[i].alive := false;
        i := i + 1;
      }
    }
  }
}
