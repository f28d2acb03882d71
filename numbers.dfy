/**
 * JavaScript numbers as far as the layout needs them: a finite value, or NaN,
 * which is what arithmetic on `undefined` produces (for example reading a
 * column width that was never measured). NaN absorbs every addition and
 * subtraction and fails every comparison.
 */
module Numbers {

  datatype Num = Finite(val: real) | NaN

  /** JavaScript `a + b` on numbers. */
  function Plus(a: Num, b: Num): (r: Num)
    ensures r.Finite? <==> a.Finite? && b.Finite?
    ensures r.Finite? ==> r.val == a.val + b.val
  {
    if a.Finite? && b.Finite? then Finite(a.val + b.val) else NaN
  }

  /** JavaScript `a - b` on numbers. */
  function Minus(a: Num, b: Num): (r: Num)
    ensures r.Finite? <==> a.Finite? && b.Finite?
    ensures r.Finite? ==> r.val == a.val - b.val
  {
    if a.Finite? && b.Finite? then Finite(a.val - b.val) else NaN
  }

  lemma PlusAssoc(a: Num, b: Num, c: Num)
    ensures Plus(Plus(a, b), c) == Plus(a, Plus(b, c))
  {
  }

  lemma PlusZero(a: Num)
    ensures Plus(a, Finite(0.0)) == a
  {
  }
}
