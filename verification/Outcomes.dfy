// Result shapes shared by the model.

module Outcomes {

  datatype Option<+T> = None | Some(value: T)

  function Min(a: int, b: int): (m: int)
    ensures m <= a && m <= b && (m == a || m == b)
  {
    if a <= b then a else b
  }

  function Max(a: int, b: int): (m: int)
    ensures m >= a && m >= b && (m == a || m == b)
  {
    if a >= b then a else b
  }

  // std::clamp
  function Clamp(x: int, low: int, high: int): (c: int)
    requires low <= high
    ensures low <= c <= high
    ensures low <= x <= high ==> c == x
  {
    Max(low, Min(x, high))
  }

  function Abs(x: int): (a: nat)
    ensures a == x || a == -x
  {
    if x < 0 then -x else x
  }

  lemma {:induction false} Regrouped<T>(a: seq<T>, b: seq<T>, c: seq<T>)
    ensures a + (b + c) == a + b + c
    ensures b == [] ==> a + (b + c) == a + c
  {
  }
}
