/** Machine integers and Go's string order. */
module Base {

  datatype Option<+T> = None | Some(value: T) {
    function GetOr(default: T): T {
      if Some? then value else default
    }
  }

  /** Go's int32 and PostgreSQL's INT. */
  type Int32 = x: int | -0x8000_0000 <= x < 0x8000_0000

  predicate InInt32(x: int) {
    -0x8000_0000 <= x < 0x8000_0000
  }

  /** Two's-complement truncation: Go's int32 arithmetic and its int32(...) conversion. */
  function Wrap32(x: int): (r: Int32)
    ensures InInt32(x) ==> r == x
  {
    (x + 0x8000_0000) % 0x1_0000_0000 - 0x8000_0000
  }

  /** Go's wrapping int64. */
  function Wrap64(x: int): (r: int)
    ensures (r - x) % 0x1_0000_0000_0000_0000 == 0
  {
    (x + 0x8000_0000_0000_0000) % 0x1_0000_0000_0000_0000 - 0x8000_0000_0000_0000
  }

  /** What truncation to int32 adds to x: a multiple of 2^32, zero when x is an int32 already. */
  function Spill(x: int): (n: int)
    ensures n % 0x1_0000_0000 == 0
    ensures InInt32(x) ==> n == 0
  {
    Wrap32(x) - x
  }

  /** A wrapped sum of a non-negative int32 and one more that comes out non-negative did not wrap. */
  lemma NoSpill(cur: Int32, q: int)
    requires -0x8000_0000 <= q <= 0x8000_0000
    requires cur >= 0 && Wrap32(cur + q) >= 0
    ensures Spill(cur + q) == 0
  {
  }

  /** Truncation to int32 recovers an int32 exactly from the values that differ from it by a multiple of 2^32. */
  lemma TruncationRecovers(x: int, y: Int32)
    ensures Wrap32(x) == y <==> (x - y) % 0x1_0000_0000 == 0
  {
  }

  /** Go's < on strings: lexicographic. */
  predicate Less(a: string, b: string) {
    b != [] && (a == [] || a[0] < b[0] || (a[0] == b[0] && Less(a[1..], b[1..])))
  }

  lemma {:induction false} LessIrreflexive(a: string)
    ensures !Less(a, a)
  {
    if a != [] { LessIrreflexive(a[1..]); }
  }

  lemma {:induction false} LessTransitive(a: string, b: string, c: string)
    requires Less(a, b) && Less(b, c)
    ensures Less(a, c)
  {
    if a != [] && a[0] == b[0] && b[0] == c[0] {
      LessTransitive(a[1..], b[1..], c[1..]);
    }
  }

  lemma {:induction false} LessTotal(a: string, b: string)
    ensures a == b || Less(a, b) || Less(b, a)
  {
    if a != [] && b != [] && a[0] == b[0] {
      LessTotal(a[1..], b[1..]);
      if a[1..] == b[1..] { assert a == [a[0]] + a[1..] == b; }
    }
  }
}
