/** C#'s 32-bit `int` under the default unchecked arithmetic: `x++` on
    int.MaxValue yields int.MinValue. */
module Int32 {

  const MIN: int := -0x8000_0000
  const MAX: int := 0x7fff_ffff

  predicate InRange(x: int) {
    MIN <= x <= MAX
  }

  /** Two's-complement reduction of an unbounded integer into the int range. */
  function Wrap(x: int): (r: int)
    ensures InRange(r)
    ensures InRange(x) ==> r == x
  {
    (x - MIN) % 0x1_0000_0000 + MIN
  }

  /** The effect of `x++` on a C# int. */
  function Increment(x: int): (r: int)
    requires InRange(x)
    ensures InRange(r)
    ensures r == Wrap(x + 1)
  {
    if x == MAX then MIN else x + 1
  }

  /** The value of a counter that starts at `start` after `n` increments. */
  function AfterIncrements(start: int, n: nat): (r: int)
    requires InRange(start)
    ensures InRange(r)
  {
    if n == 0 then start else Increment(AfterIncrements(start, n - 1))
  }

  /** A counter that starts at zero counts every increment exactly, as long as
      no more than MAX of them have happened. */
  lemma {:induction false} CountsExactly(n: nat)
    requires n <= MAX
    ensures AfterIncrements(0, n) == n
  {
    if n > 0 {
      CountsExactly(n - 1);
    }
  }

  /** One more increment does not bring the counter back to zero: it jumps to
      the most negative int. */
  lemma OverflowIsNegative()
    ensures AfterIncrements(0, MAX + 1) == MIN
  {
    CountsExactly(MAX);
  }
}
