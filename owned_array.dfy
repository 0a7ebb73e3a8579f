/**
 * `Array<T, R>`: owned rich records `buf` next to the flat copies `buf_of_inner` of their
 * inner host structs, which is what the host is given a pointer to. Both are fixed at
 * construction; the value offers only `as_ptr` and `len`.
 */
module CommonFfi {

  datatype Array<T, R> = Array(buf: seq<T>, bufOfInner: seq<R>, len: nat)

  /** The two buffers are parallel: entry `i` of the flat one is the inner struct of rich entry `i`. */
  predicate Parallel<T, R(==)>(a: Array<T, R>, asInner: T -> R) {
    |a.buf| == a.len && |a.bufOfInner| == a.len
    && forall i :: 0 <= i < a.len ==> a.bufOfInner[i] == asInner(a.buf[i])
  }

  /** `Array::new`: both buffers empty. */
  function New<T, R>(): (a: Array<T, R>)
    ensures a.len == 0 && a.buf == [] && a.bufOfInner == []
  {
    Array([], [], 0)
  }

  /** `From<Vec<T>>`: keeps the records and copies out the inner struct of each. */
  function From<T, R(==)>(v: seq<T>, asInner: T -> R): (a: Array<T, R>)
    ensures Parallel(a, asInner)
    ensures a.buf == v && a.len == |v|
  {
    Array(v, seq(|v|, i requires 0 <= i < |v| => asInner(v[i])), |v|)
  }

  /** `as_ptr`: what the host reads through the pointer, the flat copies. */
  function AsPtr<T, R(==)>(a: Array<T, R>, asInner: T -> R): (p: seq<R>)
    requires Parallel(a, asInner)
    ensures |p| == a.len
    ensures forall i :: 0 <= i < |p| ==> p[i] == asInner(a.buf[i])
  {
    a.bufOfInner
  }

  /** `len` */
  function Len<T, R(==)>(a: Array<T, R>, asInner: T -> R): (n: nat)
    requires Parallel(a, asInner)
    ensures n == |a.buf| == |a.bufOfInner|
  {
    a.len
  }

  /** The host sees, in order, the inner structs of the records the array was built from. */
  lemma FromAsPtr<T, R>(v: seq<T>, asInner: T -> R)
    ensures AsPtr(From(v, asInner), asInner) == seq(|v|, i requires 0 <= i < |v| => asInner(v[i]))
    ensures Len(From(v, asInner), asInner) == |v|
  {
  }
}
