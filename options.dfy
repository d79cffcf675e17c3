/** The optional value Python code expresses with `None`. */
module Options {
  datatype Option<T> = None | Some(value: T) {
    /** Lets `var x :- e;` stop at the first `None`. */
    predicate IsFailure() { None? }

    function PropagateFailure<U>(): Option<U>
      requires None?
    {
      None
    }

    function Extract(): T
      requires Some?
    {
      value
    }
  }

  /** The entries of `m` that are not `None`, unwrapped: what a reader of a
      JSON body keeps once it drops the nulls. */
  function Present<V>(m: map<string, Option<V>>): map<string, V> {
    map k | k in m && m[k].Some? :: m[k].value
  }

  /** The entries of `m` whose key is listed in `keys`. */
  function Restrict<V>(m: map<string, V>, keys: seq<string>): map<string, V> {
    map k | k in m && k in keys :: m[k]
  }
}
