/** Python's negative-start slice `xs[-n:]`, used for "the last n items". */
module Slices {

  function Min(a: int, b: int): int {
    if a <= b then a else b
  }

  /**
    `xs[-n:]`. For n > 0 the last n items (all of them when n >= len(xs));
    `xs[-0:]` is `xs[0:]`, the whole list; for n < 0 it is `xs[|n|:]`.
  */
  function PyTail<T>(xs: seq<T>, n: int): (r: seq<T>)
    ensures |r| <= |xs| && r == xs[|xs| - |r|..]
    ensures n > 0 ==> |r| == Min(n, |xs|)
    ensures n == 0 ==> r == xs
    ensures n < 0 ==> |r| == |xs| - Min(-n, |xs|)
  {
    if n > 0 then xs[(if n >= |xs| then 0 else |xs| - n)..]
    else if n == 0 then xs
    else xs[(if -n >= |xs| then |xs| else -n)..]
  }
}
