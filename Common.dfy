/** Values shared by every module of the post-generation engine. */
module Common {

  /** A value that may be missing, as JavaScript's `undefined`/`null` make an optional field. */
  datatype Option<+T> = None | Some(value: T)

  /** The smaller of two naturals (the length `Array.prototype.slice(0, n)` keeps). */
  function Min(a: nat, b: nat): (r: nat)
    ensures r <= a && r <= b
    ensures r == a || r == b
  {
    if a <= b then a else b
  }
}
