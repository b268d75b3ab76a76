/** Optional values: a device-tree property that may be absent. */
module Wrappers {
  datatype Option<+T> = None | Some(value: T)
}

/** The parts of C's integer semantics that the drivers rely on, written out. */
module CTypes {
  import opened Wrappers

  /** Error numbers in the Linux numbering; the drivers return them negated. */
  const EIO := 5
  const EINVAL := 22
  const ENODATA := 61

  /** What a C assignment of an `int` to a `uint8_t` keeps: the value modulo 256. */
  function Low8(x: int): bv8
  {
    (x % 256) as bv8
  }

  /** C's `/` on `int`: the quotient truncated toward zero. */
  function CDiv(a: int, b: int): (q: int)
    requires b > 0
    ensures a >= 0 ==> q == a / b
    ensures a < 0 ==> q <= 0 && -q == (-a) / b
    ensures -b < a < b ==> q == 0
  {
    if a >= 0 then DivOfSmaller(a, b); a / b else DivOfSmaller(-a, b); -((-a) / b)
  }

  /** A non-negative number smaller than the divisor has quotient 0. */
  lemma DivOfSmaller(a: int, b: int)
    requires a >= 0 && b > 0
    ensures a < b ==> a / b == 0
  {
  }

  /** The integer a C driver sees for an optional property: the `-ENODATA` sentinel when it is absent. */
  function Raw(p: Option<int>): (x: int)
    ensures p.Some? ==> x == p.value
    ensures p.None? ==> x == -ENODATA
  {
    if p.Some? then p.value else -ENODATA
  }

  /** `lo` if `x` is below it, `hi` if above it, else `x`. */
  function Clamp(x: int, lo: int, hi: int): (r: int)
    requires lo <= hi
    ensures lo <= r <= hi
    ensures lo <= x <= hi ==> r == x
    ensures x < lo ==> r == lo
    ensures x > hi ==> r == hi
  {
    if x < lo then lo else if x > hi then hi else x
  }
}

/** Named tests on the bits of a register byte. */
module Bits {
  /** Every bit of `mask` is set in `v`. */
  predicate AllSet(v: bv8, mask: bv8) { v & mask == mask }

  /** No bit of `mask` is set in `v`. */
  predicate NoneSet(v: bv8, mask: bv8) { v & mask == 0 }

  /** The bits of `mask` in `v` read `val`. */
  predicate FieldIs(v: bv8, mask: bv8, val: bv8) { v & mask == val }

  /** `a` and `b` agree on every bit outside `mask`. */
  predicate SameOutside(a: bv8, b: bv8, mask: bv8) { a & !mask == b & !mask }
}
