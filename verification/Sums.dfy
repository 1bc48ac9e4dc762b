// Sums of indexed amounts.

module Sums {
  function Sum(n: nat, f: int -> int): int {
    if n == 0 then 0 else Sum(n - 1, f) + f(n - 1)
  }

  lemma {:induction false} SameSum(n: nat, f: int -> int, g: int -> int)
    requires forall i :: 0 <= i < n ==> f(i) == g(i)
    ensures Sum(n, f) == Sum(n, g)
  {
    if n > 0 { SameSum(n - 1, f, g); }
  }

  lemma {:induction false} SumFromFront(n: nat, f: int -> int)
    requires n > 0
    ensures Sum(n, f) == f(0) + Sum(n - 1, j => f(j + 1))
  {
    if n > 1 { SumFromFront(n - 1, f); }
  }
}
