/** Small shared datatypes, and the counting facts several modules need. */
module Prelude {

  datatype Option<+T> = None | Some(value: T) {
    function GetOr(default: T): T {
      if Some? then value else default
    }
  }

  /** A call that may raise: `Err` carries the reason the caller is refused with. */
  datatype Result<+T> = Ok(value: T) | Err(reason: string) {
    predicate IsFailure() { Err? }

    function PropagateFailure<U>(): Result<U>
      requires Err?
    {
      Err(reason)
    }

    function Extract(): T
      requires Ok?
    {
      value
    }
  }

  function Max(a: int, b: int): int { if a < b then b else a }

  function Min(a: int, b: int): int { if a < b then a else b }

  /** Two to a power. */
  function Two(s: nat): nat { if s == 0 then 1 else 2 * Two(s - 1) }

  /** Pigeonhole: a set of numbers inside [lo, hi) has at most hi - lo members. */
  lemma {:induction false} RangeCardinality(s: set<int>, lo: int, hi: int)
    requires lo <= hi
    requires forall k :: k in s ==> lo <= k < hi
    ensures |s| <= hi - lo
    decreases hi - lo
  {
    if lo == hi {
      assert s == {};
    } else {
      var rest := s - {lo};
      RangeCardinality(rest, lo + 1, hi);
      assert s <= rest + {lo};
      if lo in s {
        assert s == rest + {lo};
      } else {
        assert s == rest;
      }
    }
  }

  lemma Member<T>(s: set<T>) returns (x: T)
    requires s != {}
    ensures x in s
  {
    x :| x in s;
  }
}
