/** Result shapes shared by both registries, and one fact about maps. */
module Support {

  /** A value that may be absent: the storage's `Option`. */
  datatype Option<T> = None | Some(value: T)

  /** The outcome of a state-transition function: the new state, or the error that aborted it. */
  datatype Result<T, E> = Ok(value: T) | Err(error: E)

  /** What a dispatchable call reports to its caller: success, or a typed error. */
  datatype Outcome<E> = Pass | Fail(error: E)

  /** `m'` agrees with `m` on every key other than `k` (same presence, same value). */
  ghost predicate AgreeExcept<K, V>(m: map<K, V>, m': map<K, V>, k: K)
  {
    && m.Keys - {k} == m'.Keys - {k}
    && forall x | x in m && x != k :: x in m' && m[x] == m'[x]
  }
}
