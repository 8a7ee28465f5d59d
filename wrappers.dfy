/** Optional values: the model's stand-in for Java's nullable references. */
module Wrappers {

  /** `None` plays the part of Java's `null`. */
  datatype Option<+T> = None | Some(value: T)

  /** `v` layered over `prior`: a present value wins, an absent one leaves `prior`. */
  function Overlay<T>(v: Option<T>, prior: Option<T>): Option<T>
  {
    if v.Some? then v else prior
  }

  /** States that `r` is what layering `v` over `prior` must produce. */
  predicate LayeredOver<T(==)>(r: Option<T>, v: Option<T>, prior: Option<T>)
  {
    && (v.None? ==> r == prior)
    && (v.Some? ==> r == v)
  }
}
