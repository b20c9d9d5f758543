/** `opt::optional<T>`: a container holding zero or one value, with engagement
    state updated in place, checked and unchecked access, and the relational
    operators under which a disengaged optional is the least value. */
module Optionals {
  import opened Failures

  /** The value an optional holds: disengaged (`nullopt`) or engaged with a value. */
  datatype Option<T> = None | Some(value: T)

  // ---------------------------------------------------------------------------
  // Access (value, value_or, get_value_or, has_value)
  // ---------------------------------------------------------------------------

  /** `has_value()` and the explicit bool conversion. */
  predicate HasValue<T>(o: Option<T>) {
    o.Some?
  }

  /** `value()`: the contained value, or `bad_optional_access` when disengaged. */
  function ValueOf<T>(o: Option<T>): (r: Result<T>)
    ensures r.Ok? <==> HasValue(o)
    ensures r.Ok? ==> o == Some(r.value)
    ensures r.Err? ==> r.error == BadOptionalAccess
  {
    match o
    case Some(v) => Ok(v)
    case None => Err(BadOptionalAccess)
  }

  /** `value_or(v)` and `get_value_or(v)`: the contained value, or the fallback
      when disengaged. */
  function ValueOr<T>(o: Option<T>, fallback: T): (r: T)
    ensures !HasValue(o) ==> r == fallback
    ensures HasValue(o) ==> o == Some(r)
  {
    match o
    case Some(v) => v
    case None => fallback
  }

  /** The fallback is used exactly when the checked access throws. */
  lemma ValueOrFallsBackOnlyWhenValueThrows<T>(o: Option<T>, fallback: T)
    ensures ValueOf(o).Ok? ==> ValueOr(o, fallback) == ValueOf(o).value
    ensures ValueOf(o).Err? ==> ValueOr(o, fallback) == fallback
  {
  }

  /** `optional<void>`: it can never hold a value. */
  type VoidOptional = o: Option<()> | o.None? witness None

  /** An `optional<void>` converts to false, reports no value, and `value()` throws. */
  lemma VoidOptionalNeverHoldsAValue(o: VoidOptional)
    ensures !HasValue(o)
    ensures ValueOf(o) == Err(BadOptionalAccess)
  {
  }

  // ---------------------------------------------------------------------------
  // Relational operators between two optionals
  // ---------------------------------------------------------------------------

  /** `x == y`: both engaged with equal values, or both disengaged. */
  predicate Equal(x: Option<int>, y: Option<int>) {
    if HasValue(x) && HasValue(y) then x.value == y.value else HasValue(x) == HasValue(y)
  }

  predicate NotEqual(x: Option<int>, y: Option<int>) {
    !Equal(x, y)
  }

  /** `x < y`: never when y is disengaged, always when only x is, else by value. */
  predicate Less(x: Option<int>, y: Option<int>) {
    if !HasValue(y) then false else if !HasValue(x) then true else x.value < y.value
  }

  predicate Greater(x: Option<int>, y: Option<int>) {
    Less(y, x)
  }

  predicate LessEq(x: Option<int>, y: Option<int>) {
    !Less(y, x)
  }

  predicate GreaterEq(x: Option<int>, y: Option<int>) {
    !Less(x, y)
  }

  /** Optional equality is exactly equality of the held state. */
  lemma EqualIsStructural(x: Option<int>, y: Option<int>)
    ensures Equal(x, y) <==> x == y
    ensures NotEqual(x, y) <==> x != y
  {
  }

  /** `<` is a strict total order with the disengaged optional below every
      engaged one. */
  lemma LessIsStrictTotalOrder(x: Option<int>, y: Option<int>, z: Option<int>)
    ensures !Less(x, x)
    ensures Less(x, y) && Less(y, z) ==> Less(x, z)
    ensures Less(x, y) || x == y || Less(y, x)
    ensures !(Less(x, y) && Less(y, x))
    ensures !Less(x, None)
    ensures HasValue(y) ==> Less(None, y)
  {
  }

  /** `>`, `<=` and `>=` are derived from `<`. */
  lemma DerivedOrders(x: Option<int>, y: Option<int>)
    ensures Greater(x, y) <==> Less(y, x)
    ensures LessEq(x, y) <==> Less(x, y) || x == y
    ensures GreaterEq(x, y) <==> Greater(x, y) || x == y
    ensures LessEq(x, y) <==> !Greater(x, y)
    ensures LessEq(None, y) && GreaterEq(x, None)
  {
  }

  // ---------------------------------------------------------------------------
  // Relational operators against nullopt
  // ---------------------------------------------------------------------------

  predicate EqualsNullopt(x: Option<int>) { !HasValue(x) }          // x == nullopt
  predicate NulloptEquals(x: Option<int>) { !HasValue(x) }          // nullopt == x
  predicate NotEqualsNullopt(x: Option<int>) { HasValue(x) }        // x != nullopt
  predicate NulloptNotEquals(x: Option<int>) { HasValue(x) }        // nullopt != x
  predicate LessThanNullopt(x: Option<int>) { false }               // x < nullopt
  predicate NulloptLessThan(x: Option<int>) { HasValue(x) }         // nullopt < x
  predicate AtMostNullopt(x: Option<int>) { !HasValue(x) }          // x <= nullopt
  predicate NulloptAtMost(x: Option<int>) { true }                  // nullopt <= x
  predicate GreaterThanNullopt(x: Option<int>) { HasValue(x) }      // x > nullopt
  predicate NulloptGreaterThan(x: Option<int>) { false }            // nullopt > x
  predicate AtLeastNullopt(x: Option<int>) { true }                 // x >= nullopt
  predicate NulloptAtLeast(x: Option<int>) { !HasValue(x) }         // nullopt >= x

  /** Each operator against `nullopt` agrees with the same operator against a
      disengaged optional. */
  lemma NulloptComparisonsAgree(x: Option<int>)
    ensures EqualsNullopt(x) == Equal(x, None) && NulloptEquals(x) == Equal(None, x)
    ensures NotEqualsNullopt(x) == NotEqual(x, None) && NulloptNotEquals(x) == NotEqual(None, x)
    ensures LessThanNullopt(x) == Less(x, None) && NulloptLessThan(x) == Less(None, x)
    ensures AtMostNullopt(x) == LessEq(x, None) && NulloptAtMost(x) == LessEq(None, x)
    ensures GreaterThanNullopt(x) == Greater(x, None) && NulloptGreaterThan(x) == Greater(None, x)
    ensures AtLeastNullopt(x) == GreaterEq(x, None) && NulloptAtLeast(x) == GreaterEq(None, x)
  {
  }

  // ---------------------------------------------------------------------------
  // Relational operators against a plain value
  // ---------------------------------------------------------------------------

  predicate EqualsValue(x: Option<int>, v: int) { if HasValue(x) then x.value == v else false }
  predicate ValueEquals(v: int, x: Option<int>) { if HasValue(x) then v == x.value else false }
  predicate NotEqualsValue(x: Option<int>, v: int) { if HasValue(x) then x.value != v else true }
  predicate ValueNotEquals(v: int, x: Option<int>) { if HasValue(x) then v != x.value else true }
  predicate LessThanValue(x: Option<int>, v: int) { if HasValue(x) then x.value < v else true }
  predicate ValueGreaterThan(v: int, x: Option<int>) { if HasValue(x) then v > x.value else true }
  predicate GreaterThanValue(x: Option<int>, v: int) { if HasValue(x) then x.value > v else false }
  predicate ValueLessThan(v: int, x: Option<int>) { if HasValue(x) then v < x.value else false }
  predicate AtLeastValue(x: Option<int>, v: int) { if HasValue(x) then x.value >= v else false }
  predicate ValueAtMost(v: int, x: Option<int>) { if HasValue(x) then v <= x.value else false }
  predicate AtMostValue(x: Option<int>, v: int) { if HasValue(x) then x.value <= v else true }
  predicate ValueAtLeast(v: int, x: Option<int>) { if HasValue(x) then v >= x.value else true }

  /** Each mixed operator agrees with the optional operator applied to `v`
      wrapped in an engaged optional. */
  lemma ValueComparisonsAgree(x: Option<int>, v: int)
    ensures EqualsValue(x, v) == Equal(x, Some(v)) && ValueEquals(v, x) == Equal(Some(v), x)
    ensures NotEqualsValue(x, v) == NotEqual(x, Some(v)) && ValueNotEquals(v, x) == NotEqual(Some(v), x)
    ensures LessThanValue(x, v) == Less(x, Some(v)) && ValueGreaterThan(v, x) == Greater(Some(v), x)
    ensures GreaterThanValue(x, v) == Greater(x, Some(v)) && ValueLessThan(v, x) == Less(Some(v), x)
    ensures AtLeastValue(x, v) == GreaterEq(x, Some(v)) && ValueAtMost(v, x) == LessEq(Some(v), x)
    ensures AtMostValue(x, v) == LessEq(x, Some(v)) && ValueAtLeast(v, x) == GreaterEq(Some(v), x)
  {
  }

  // ---------------------------------------------------------------------------
  // The optional object: engagement flag and storage updated in place
  // ---------------------------------------------------------------------------

  /** An `optional<T>` object. `storage` is value-initialised and is only
      meaningful while `initialized` holds. */
  class Optional<T(0)> {
    var initialized: bool
    var storage: T

    /** What the object holds. */
    function Value(): Option<T>
      reads this
    {
      if initialized then Some(storage) else None
    }

    /** `optional()` and `optional(nullopt)`. */
    constructor ()
      ensures Value() == None
    {
      initialized := false;
    }

    /** `optional(val)`. */
    constructor Of(val: T)
      ensures Value() == Some(val)
    {
      initialized := false;
      new;
      Construct(val);
    }

    /** `optional(cond, val)`: engaged with `val` exactly when `cond` holds. */
    constructor When(cond: bool, val: T)
      ensures Value() == if cond then Some(val) else None
    {
      initialized := false;
      new;
      if cond {
        Construct(val);
      }
    }

    /** The copy constructor: a deep copy of `rhs`. */
    constructor Copy(rhs: Optional<T>)
      ensures Value() == rhs.Value()
    {
      initialized := false;
      new;
      if rhs.initialized {
        Construct(rhs.storage);
      }
    }

    /** `construct(val)`: place a value into the storage. */
    method Construct(val: T)
      modifies this
      ensures Value() == Some(val)
    {
      storage := val;
      initialized := true;
    }

    /** `destroy()`: drop the value if there is one. */
    method Destroy()
      modifies this
      ensures Value() == None
      ensures old(!initialized) ==> unchanged(this)
    {
      if initialized {
        initialized := false;
      }
    }

    /** `assign(optional const&)`: afterwards this holds what `rhs` held. */
    method Assign(rhs: Optional<T>)
      modifies this
      ensures Value() == old(rhs.Value())
    {
      if initialized {
        if rhs.initialized {
          storage := rhs.storage;
        } else {
          Destroy();
        }
      } else {
        if rhs.initialized {
          Construct(rhs.storage);
        }
      }
    }

    /** `assign(T const&)` and `operator=(U&&)`: always engaged with `val`. */
    method AssignValue(val: T)
      modifies this
      ensures Value() == Some(val)
    {
      if initialized {
        storage := val;
      } else {
        Construct(val);
      }
    }

    /** `assign(nullopt)` and `operator=(nullopt)`. */
    method AssignNullopt()
      modifies this
      ensures Value() == None
    {
      Destroy();
    }

    /** `reset()`. */
    method Reset()
      modifies this
      ensures Value() == None
    {
      Destroy();
    }

    /** `emplace(args...)`: destroy, then construct in place. */
    method Emplace(val: T)
      modifies this
      ensures Value() == Some(val)
    {
      Destroy();
      Construct(val);
    }

    /** `get()` and `operator*`: only defined while engaged (an assertion in the source). */
    function Get(): (r: T)
      reads this
      requires initialized
      ensures Value() == Some(r)
    {
      storage
    }
  }
}
