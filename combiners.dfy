/** The combiners a signal applies to the per-slot results of one emission:
    `optional_last_value` (the default), and the two combiners of the example
    programs, `maximum_value` and `aggregate_values`. Each walks the results in
    connection order; each is a loop proved against a recursive specification. */
module Combiners {
  import opened Optionals

  // ---------------------------------------------------------------------------
  // optional_last_value
  // ---------------------------------------------------------------------------

  /** The last engaged result, or disengaged when there is none. */
  function LastEngaged<T>(rs: seq<Option<T>>): Option<T>
  {
    if rs == [] then None
    else if rs[|rs| - 1].Some? then rs[|rs| - 1]
    else LastEngaged(rs[..|rs| - 1])
  }

  /** The default combiner yields nothing exactly when no slot produced a value;
      otherwise it yields a produced value after which no slot produced one. */
  lemma {:induction false} LastEngagedSpec<T>(rs: seq<Option<T>>)
    ensures LastEngaged(rs).None? <==> forall k :: 0 <= k < |rs| ==> rs[k].None?
    ensures LastEngaged(rs).Some? ==>
      exists k :: 0 <= k < |rs| && rs[k] == LastEngaged(rs) && forall j :: k < j < |rs| ==> rs[j].None?
    decreases |rs|
  {
    if rs != [] {
      var n := |rs| - 1;
      var init := rs[..n];
      if rs[n].None? {
        LastEngagedSpec(init);
        assert forall k :: 0 <= k < n ==> rs[k] == init[k];
        if LastEngaged(rs).Some? {
          var k :| 0 <= k < n && init[k] == LastEngaged(init) && forall j :: k < j < n ==> init[j].None?;
          assert rs[k] == LastEngaged(rs);
          assert forall j :: k < j < |rs| ==> rs[j].None?;
        }
      } else {
        assert rs[n] == LastEngaged(rs);
      }
    }
  }

  /** `optional_last_value::operator()`: keep overwriting with each engaged result. */
  method OptionalLastValue<T>(rs: seq<Option<T>>) returns (result: Option<T>)
    ensures result == LastEngaged(rs)
    ensures result.None? <==> forall k :: 0 <= k < |rs| ==> rs[k].None?
    ensures result.Some? ==>
      exists k :: 0 <= k < |rs| && rs[k] == result && forall j :: k < j < |rs| ==> rs[j].None?
  {
    result := None;
    var i := 0;
    while i < |rs|
      invariant 0 <= i <= |rs|
      invariant result == LastEngaged(rs[..i])
    {
      var temp := rs[i];
      assert rs[..i + 1][..i] == rs[..i];
      if temp.Some? {
        result := temp;
      }
      i := i + 1;
    }
    assert rs[..i] == rs;
    LastEngagedSpec(rs);
  }

  // ---------------------------------------------------------------------------
  // maximum_value
  // ---------------------------------------------------------------------------

  /** The running maximum under the optional ordering: a result replaces the
      current maximum when it compares greater. */
  function MaxOf(rs: seq<Option<int>>): Option<int>
  {
    if rs == [] then None
    else
      var m := MaxOf(rs[..|rs| - 1]);
      if Greater(rs[|rs| - 1], m) then rs[|rs| - 1] else m
  }

  /** The maximum is engaged exactly when some slot produced a value, is at
      least every result, and is one of the results. */
  lemma {:induction false} MaxOfSpec(rs: seq<Option<int>>)
    ensures MaxOf(rs).Some? <==> exists k :: 0 <= k < |rs| && rs[k].Some?
    ensures forall k :: 0 <= k < |rs| ==> LessEq(rs[k], MaxOf(rs))
    ensures MaxOf(rs).Some? ==> exists k :: 0 <= k < |rs| && rs[k] == MaxOf(rs)
    decreases |rs|
  {
    if rs != [] {
      var n := |rs| - 1;
      var init := rs[..n];
      MaxOfSpec(init);
      assert forall k :: 0 <= k < n ==> rs[k] == init[k];
      var m := MaxOf(init);
      if Greater(rs[n], m) {
        assert MaxOf(rs) == rs[n];
        forall k | 0 <= k < |rs|
          ensures LessEq(rs[k], MaxOf(rs))
        {
          if k < n {
            assert LessEq(init[k], m);
          }
        }
      } else {
        assert MaxOf(rs) == m;
        if rs[n].Some? {
          assert m.Some?;
        }
        if m.Some? {
          var k :| 0 <= k < n && init[k] == m;
          assert rs[k] == m;
        }
      }
    }
  }

  /** `maximum_value::operator()` of the example program. */
  method MaximumValue(rs: seq<Option<int>>) returns (result: Option<int>)
    ensures result == MaxOf(rs)
    ensures result.Some? <==> exists k :: 0 <= k < |rs| && rs[k].Some?
    ensures forall k :: 0 <= k < |rs| ==> LessEq(rs[k], result)
    ensures result.Some? ==> exists k :: 0 <= k < |rs| && rs[k] == result
  {
    result := None;
    var i := 0;
    while i < |rs|
      invariant 0 <= i <= |rs|
      invariant result == MaxOf(rs[..i])
    {
      var temp := rs[i];
      assert rs[..i + 1][..i] == rs[..i];
      if Greater(temp, result) {
        result := temp;
      }
      i := i + 1;
    }
    assert rs[..i] == rs;
    MaxOfSpec(rs);
  }

  // ---------------------------------------------------------------------------
  // aggregate_values
  // ---------------------------------------------------------------------------

  /** The engaged results' values, in order. */
  function Engaged<T>(rs: seq<Option<T>>): seq<T>
  {
    if rs == [] then []
    else Engaged(rs[..|rs| - 1]) + (if rs[|rs| - 1].Some? then [rs[|rs| - 1].value] else [])
  }

  /** Collecting distributes over concatenation: the order of the results is kept. */
  lemma {:induction false} EngagedAppend<T>(a: seq<Option<T>>, b: seq<Option<T>>)
    ensures Engaged(a + b) == Engaged(a) + Engaged(b)
    decreases |b|
  {
    if b == [] {
      assert a + b == a;
    } else {
      var n := |b| - 1;
      assert (a + b)[..|a + b| - 1] == a + b[..n];
      EngagedAppend(a, b[..n]);
    }
  }

  /** Each value is collected as often as slots produced it, so exactly one
      value per engaged result. */
  lemma {:induction false} EngagedCounts<T>(rs: seq<Option<T>>)
    ensures forall v :: multiset(Engaged(rs))[v] == multiset(rs)[Some(v)]
    ensures |Engaged(rs)| == |rs| - multiset(rs)[None]
    decreases |rs|
  {
    if rs != [] {
      var n := |rs| - 1;
      var init := rs[..n];
      var last := if rs[n].Some? then [rs[n].value] else [];
      EngagedCounts(init);
      assert rs == init + [rs[n]];
      assert multiset(rs) == multiset(init) + multiset{rs[n]};
      assert Engaged(rs) == Engaged(init) + last;
      assert multiset(Engaged(rs)) == multiset(Engaged(init)) + multiset(last);
    }
  }

  /** A value is collected exactly when some slot produced it, and all results
      are collected exactly when every slot produced one. */
  lemma EngagedSpec<T>(rs: seq<Option<T>>)
    ensures forall v :: multiset(Engaged(rs))[v] == multiset(rs)[Some(v)]
    ensures |Engaged(rs)| == |rs| - multiset(rs)[None]
    ensures forall v :: v in Engaged(rs) <==> Some(v) in rs
    ensures |Engaged(rs)| == |rs| <==> forall k :: 0 <= k < |rs| ==> rs[k].Some?
  {
    EngagedCounts(rs);
    if |Engaged(rs)| == |rs| {
      forall k | 0 <= k < |rs| ensures rs[k].Some? {
        assert rs[k] in multiset(rs);
      }
    }
    if forall k :: 0 <= k < |rs| ==> rs[k].Some? {
      assert None !in rs;
    }
    assert forall v :: v in Engaged(rs) <==> v in multiset(Engaged(rs));
  }

  /** `aggregate_values::operator()` of the example program. */
  method AggregateValues<T>(rs: seq<Option<T>>) returns (values: seq<T>)
    ensures values == Engaged(rs)
    ensures forall v :: multiset(values)[v] == multiset(rs)[Some(v)]
    ensures |values| == |rs| - multiset(rs)[None]
    ensures forall v :: v in values <==> Some(v) in rs
  {
    values := [];
    var i := 0;
    while i < |rs|
      invariant 0 <= i <= |rs|
      invariant values == Engaged(rs[..i])
    {
      var value := rs[i];
      assert rs[..i + 1][..i] == rs[..i];
      if value.Some? {
        values := values + [value.value];
      }
      i := i + 1;
    }
    assert rs[..i] == rs;
    EngagedSpec(rs);
  }

  // ---------------------------------------------------------------------------
  // The combiner a signal is instantiated with
  // ---------------------------------------------------------------------------

  datatype CombinerKind = LastValue | Maximum | Aggregate

  /** What a combiner returns: an optional value, or the collected values. */
  datatype Combined = Single(opt: Option<int>) | Collected(values: seq<int>)

  /** The value-initialised result a blocked signal returns (`return {}`). */
  function DefaultResult(kind: CombinerKind): (r: Combined)
    ensures kind == Aggregate <==> r.Collected?
    ensures r.Single? ==> r.opt.None?
    ensures r.Collected? ==> r.values == []
  {
    if kind == Aggregate then Collected([]) else Single(None)
  }

  /** The combiner's result over the per-slot results. */
  function Combine(kind: CombinerKind, rs: seq<Option<int>>): Combined
  {
    match kind
    case LastValue => Single(LastEngaged(rs))
    case Maximum => Single(MaxOf(rs))
    case Aggregate => Collected(Engaged(rs))
  }

  /** With no slots, every combiner returns the value-initialised result. */
  lemma CombineNothing(kind: CombinerKind)
    ensures Combine(kind, []) == DefaultResult(kind)
  {
  }

  /** Running the combiner a signal was instantiated with. */
  method RunCombiner(kind: CombinerKind, rs: seq<Option<int>>) returns (r: Combined)
    ensures r == Combine(kind, rs)
  {
    match kind
    case LastValue =>
      var o := OptionalLastValue(rs);
      r := Single(o);
    case Maximum =>
      var o := MaximumValue(rs);
      r := Single(o);
    case Aggregate =>
      var vs := AggregateValues(rs);
      r := Collected(vs);
  }
}
