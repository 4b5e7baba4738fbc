/** Order facts about products and quotients of reals, kept apart so that the
    solver meets non-linear arithmetic in one place only. */
module Reals {

  lemma MulPos(a: real, b: real)
    requires 0.0 < a && 0.0 < b
    ensures 0.0 < a * b
  {
  }

  /** The same of a product with a name of its own. */
  lemma ProductPos(a: real, b: real, c: real)
    requires 0.0 < a && 0.0 < b && c == a * b
    ensures 0.0 < c
  {
  }

  /** Multiplying by a positive number keeps and reflects order. */
  lemma Scale(a: real, b: real, w: real)
    requires 0.0 < w
    ensures a < b <==> a * w < b * w
    ensures a == b <==> a * w == b * w
  {
    if a < b { MulPos(b - a, w); }
    if b < a { MulPos(a - b, w); }
  }

  /** A product, to be hidden where only its order matters. */
  function Times(a: real, b: real): real { a * b }

  /** The order facts of products told of Times. */
  lemma TimesOrder(a: real, b: real, w: real)
    requires 0.0 < w
    ensures a < b <==> Times(a, w) < Times(b, w)
    ensures a == b <==> Times(a, w) == Times(b, w)
    ensures Times(0.0, w) == 0.0 && Times(0.5, w) == w / 2.0
  {
    Scale(a, b, w);
  }

  lemma ShareTimes(a: real, w: real)
    requires 0.0 < w
    ensures Times(a / w, w) == a
  {
    Share(a, a, w);
  }

  lemma TimesBelow(w: real, a: real)
    requires 0.0 < w
    ensures a < 1.0 ==> Times(w, a) < w
    ensures a <= 1.0 ==> Times(w, a) <= w
  {
    Scale(a, 1.0, w);
  }

  /** So does dividing by one, and a quotient times its divisor is what was divided. */
  lemma Share(a: real, b: real, w: real)
    requires 0.0 < w
    ensures (a / w) * w == a
    ensures a < b <==> a / w < b / w
    ensures 0.0 < a <==> 0.0 < a / w
    ensures a < w <==> a / w < 1.0
    ensures a == w <==> a / w == 1.0
  {
    Scale(a / w, b / w, w);
    Scale(0.0, a / w, w);
    Scale(a / w, 1.0, w);
  }
}
