/** Values shared by the utilities and the screens. */
module Common {

  /** JavaScript's `null` (None) or a present value. */
  datatype Option<+T> = None | Some(value: T)

  /** A JavaScript number: a finite value, or one of NaN and the infinities.
      The model never needs to tell NaN from Infinity: every comparison
      `x <= c` with a finite `c` that the app performs is false on NaN and on
      +Infinity, the only non-finite values its arithmetic can produce there. */
  datatype Number = Finite(value: real) | NonFinite

  /** JavaScript `num / den` on two unsigned integers: x/0 is Infinity, 0/0 is NaN. */
  function Quotient(num: nat, den: nat): (r: Number)
    ensures r.Finite? <==> den != 0
  {
    if den == 0 then NonFinite else Finite(num as real / den as real)
  }

  /** JavaScript `a / k` for a nonzero finite constant `k`. */
  function DivBy(a: Number, k: real): (r: Number)
    requires k != 0.0
    ensures r.Finite? <==> a.Finite?
  {
    if a.Finite? then Finite(a.value / k) else NonFinite
  }

  /** JavaScript `a + b`: any non-finite operand makes the sum non-finite. */
  function Plus(a: Number, b: Number): (r: Number)
    ensures r.Finite? <==> a.Finite? && b.Finite?
  {
    if a.Finite? && b.Finite? then Finite(a.value + b.value) else NonFinite
  }

  /** JavaScript unary minus. */
  function Neg(a: Number): (r: Number)
    ensures r.Finite? <==> a.Finite?
  {
    if a.Finite? then Finite(-a.value) else NonFinite
  }

  /** JavaScript `a <= c` for a finite `c`: false on NaN and +Infinity. */
  predicate AtMost(a: Number, c: real)
  {
    a.Finite? && a.value <= c
  }
}
