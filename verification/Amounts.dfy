/** Arithmetic on money amounts and rates, which are exact reals. */
module Amounts {
  function Max(a: real, b: real): real { if a < b then b else a }

  function Min(a: real, b: real): real { if b < a then b else a }

  lemma PositiveProduct(x: real, y: real)
    requires 0.0 < x && 0.0 < y
    ensures 0.0 < x * y
  {
  }

  lemma LessTimesPrice(x: real, y: real, price: real)
    requires x <= y && 0.0 <= price
    ensures x * price <= y * price
  {
  }

  /** What an amount costs at a price; by this name products are compared by their factors. */
  function Cost(amount: real, price: real): real {
    amount * price
  }

  lemma CostOfNothing(x: real)
    ensures Cost(x, 0.0) == 0.0 && Cost(0.0, x) == 0.0
  {
  }

  lemma CostOfASum(a: real, b: real, price: real)
    ensures Cost(a + b, price) == Cost(a, price) + Cost(b, price)
  {
  }

  lemma CostAtASum(amount: real, p: real, q: real)
    ensures Cost(amount, p + q) == Cost(amount, p) + Cost(amount, q)
  {
  }
}
