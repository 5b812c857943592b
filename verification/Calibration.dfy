// Temperature calibration: a golden-section search over a loss, and the rule
// that a fit which does not beat no fit is dropped. The loss is a parameter,
// over exact reals.

module Calibration {

  // f falls strictly up to m and rises strictly after it, on [lo, hi].
  ghost predicate UnimodalAt(f: real -> real, lo: real, hi: real, m: real) {
    lo <= m <= hi
    && (forall x, y :: lo <= x < y <= m ==> f(x) > f(y))
    && (forall x, y :: m <= x < y <= hi ==> f(x) < f(y))
  }

  const INV_PHI: real := 0.6180339887498949

  const WIDTH: real := 0.001

  // The search asks for f only inside [lo, hi]: f may be undefined elsewhere.
  // Whatever f is it ends, with a point of the interval; when f has one
  // valley, with a point within half the final width of its bottom.
  method GoldenSection(lo: real, hi: real, f: real --> real, ghost whole: real -> real) returns (x: real)
    requires forall p :: lo <= p <= hi ==> f.requires(p) && f(p) == whole(p)
    ensures if lo <= hi then lo <= x <= hi else x == (lo + hi) / 2.0
    ensures forall m :: UnimodalAt(whole, lo, hi, m) ==> -0.0005 <= x - m <= 0.0005
  {
    var a, b := lo, hi;
    while b - a > WIDTH
      invariant (lo <= a <= b <= hi) || (lo > hi && a == lo && b == hi)
      invariant forall m :: UnimodalAt(whole, lo, hi, m) ==> a <= m <= b
      decreases (b - a) * 3000.0
    {
      var c := b - INV_PHI * (b - a);
      var d := a + INV_PHI * (b - a);
      assert a < c < d < b;
      if f(c) < f(d) {
        b := d;
      } else {
        a := c;
      }
    }
    x := (a + b) / 2.0;
  }

  // The fitted temperature, with the loss before and after scaling. `searched`
  // is what the search found: it is kept exactly when it lowers the loss.
  method FitTemperature(points: nat, nll: real -> real)
    returns (t: real, before: real, after: real, ghost searched: real)
    ensures points == 0 ==> t == 1.0 && before == after == 0.0
    ensures points > 0 ==>
      && 1.0 <= searched <= 20.0 && before == nll(1.0) && after == nll(t)
      && t == (if nll(searched) < nll(1.0) then searched else 1.0)
    ensures points > 0 ==> forall m :: UnimodalAt(nll, 1.0, 20.0, m) ==> -0.0005 <= searched - m <= 0.0005
  {
    if points == 0 {
      return 1.0, 0.0, 0.0, 1.0;
    }
    before := nll(1.0);
    t := GoldenSection(1.0, 20.0, nll, nll);
    searched := t;
    after := nll(t);
    if after >= before {
      t, after := 1.0, before;
    }
  }
}
