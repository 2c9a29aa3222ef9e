/** Result types and collection facts shared by the models. */
module Prelude {
  datatype Option<+T> = None | Some(value: T)

  datatype Result<+T, +E> = Ok(value: T) | Err(error: E)

  /** Dropping the first element of a sequence without repetitions removes exactly that element. */
  lemma TailWithoutHead<T>(xs: seq<T>, x: T)
    requires xs != [] && forall k, l | 0 <= k < l < |xs| :: xs[k] != xs[l]
    ensures x in xs[1..] <==> x in xs && x != xs[0]
  {
    assert xs == [xs[0]] + xs[1..];
  }

  /** Where nothing occurs twice, counting agrees with membership. */
  lemma {:induction false} CountsOnce<T>(xs: seq<T>, x: T)
    requires forall k, l | 0 <= k < l < |xs| :: xs[k] != xs[l]
    ensures multiset(xs)[x] == if x in xs then 1 else 0
  {
    if xs != [] {
      CountsOnce(xs[1..], x);
      assert xs == [xs[0]] + xs[1..];
      TailWithoutHead(xs, x);
    }
  }

  /** Below a bound there is room for that many numbers, and a set that fills it holds them all. */
  lemma {:induction false} FillsRange(numbers: set<nat>, bound: nat)
    requires forall i | i in numbers :: i < bound
    ensures |numbers| <= bound
    ensures |numbers| == bound ==> forall i | 0 <= i < bound :: i in numbers
  {
    if bound == 0 {
      assert numbers == {};
    } else {
      var rest := numbers - {bound - 1};
      FillsRange(rest, bound - 1);
      assert bound - 1 !in numbers ==> rest == numbers;
    }
  }
}
