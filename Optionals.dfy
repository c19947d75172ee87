/** Swift optionals and the `compactMap { $0 }` idiom that drops the `nil`s
    from a sequence of optionals, keeping the rest in order. */
module Optionals {

  datatype Option<+T> = None | Some(value: T)

  /** `xs.compactMap { $0 }`: the present values of `xs`, in order. */
  function CompactMap<T(!new)>(xs: seq<Option<T>>): (r: seq<T>)
    ensures |r| <= |xs|
    ensures forall x :: x in r <==> Some(x) in xs
  {
    if xs == [] then []
    else
      var head := match xs[0] case Some(x) => [x] case None => [];
      assert xs == [xs[0]] + xs[1..];
      head + CompactMap(xs[1..])
  }

  /** `compactMap` distributes over concatenation. */
  lemma {:induction false} CompactMapAppend<T(!new)>(xs: seq<Option<T>>, ys: seq<Option<T>>)
    ensures CompactMap(xs + ys) == CompactMap(xs) + CompactMap(ys)
  {
    if xs == [] {
      assert xs + ys == ys;
    } else {
      assert (xs + ys)[1..] == xs[1..] + ys;
      CompactMapAppend(xs[1..], ys);
    }
  }

  /** Every element present: `compactMap` only unwraps, keeping length and order. */
  lemma {:induction false} CompactMapAllPresent<T(!new)>(xs: seq<Option<T>>)
    requires forall i :: 0 <= i < |xs| ==> xs[i].Some?
    ensures |CompactMap(xs)| == |xs|
    ensures forall i :: 0 <= i < |xs| ==> CompactMap(xs)[i] == xs[i].value
  {
    if xs != [] {
      CompactMapAllPresent(xs[1..]);
    }
  }

  /** `compactMap` of a sequence of `nil`s only is empty. */
  lemma {:induction false} CompactMapAllAbsent<T(!new)>(xs: seq<Option<T>>)
    requires forall i :: 0 <= i < |xs| ==> xs[i].None?
    ensures CompactMap(xs) == []
  {
    if xs != [] {
      CompactMapAllAbsent(xs[1..]);
    }
  }
}
