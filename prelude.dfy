/**
  The few pieces of Rust's standard library that the calendar code relies on:
  `Option`, `Result`, `std::cmp::Ordering` with `then` (which is how a derived
  `Ord` compares a struct field by field), and the fixed-width unsigned
  integer types of the source's fields and parameters.
 */
module Prelude {

  datatype Option<+T> = None | Some(value: T)

  datatype Result<+T, +E> = Ok(value: T) | Err(error: E)

  /** Unsigned integer types of the source, as ranges of `int`. */
  type u8 = x: int | 0 <= x < 0x100
  type u16 = x: int | 0 <= x < 0x1_0000

  datatype Ordering = Less | Equal | Greater {

    /** `self.then(other)`: the first comparison decides unless it found the two equal. */
    function Then(other: Ordering): Ordering
    {
      if this == Equal then other else this
    }

    /** `self.reverse()`: the result of comparing the other way round. */
    function Reverse(): Ordering
    {
      match this
      case Less => Greater
      case Equal => Equal
      case Greater => Less
    }
  }

  /** `a.cmp(&b)` on integers. */
  function CompareInt(a: int, b: int): (r: Ordering)
    ensures r == Less <==> a < b
    ensures r == Equal <==> a == b
    ensures r == Greater <==> a > b
  {
    if a < b then Less else if a == b then Equal else Greater
  }

  /** The empty sequence is a right unit of concatenation. */
  lemma ConcatEmpty<T>(a: seq<T>)
    ensures a + [] == a
  {
  }

  /** Regrouping a concatenation. */
  lemma ConcatAssoc<T>(a: seq<T>, b: seq<T>, c: seq<T>)
    ensures a + b + c == a + (b + c)
  {
  }

  /** Regrouping a three-element display ahead of a sequence, one element at a time. */
  lemma ConsThree<T>(a: T, b: T, c: T, t: seq<T>)
    ensures [a, b, c] + t == [a] + ([b] + ([c] + t))
  {
  }
}
