/** The element-wise map that every response normaliser applies to an upstream array. */
module Lists {

  /** `xs.map(f)`: same length, same order, element i becomes f(xs[i]). */
  function Map<A, B>(f: A -> B, xs: seq<A>): (ys: seq<B>)
    ensures |ys| == |xs|
    ensures forall i :: 0 <= i < |xs| ==> ys[i] == f(xs[i])
  {
    if xs == [] then [] else [f(xs[0])] + Map(f, xs[1..])
  }
}
