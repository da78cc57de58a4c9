/** Failure-compatible wrappers standing in for the exceptions the Python
    lambdas raise (RuntimeError, KeyError, IndexError, ValueError, TypeError,
    OverflowError). */
module Results {

  datatype Option<+T> = None | Some(value: T)

  /** The Python exception a lambda would raise, with the parts of its message
      that the model keeps. */
  datatype Failure =
    | RuntimeError(message: string)
    | KeyError(key: string)
    | IndexError
    | ValueError(message: string)
    | TypeError(message: string)
    | OverflowError(message: string)

  datatype Result<+T> = Ok(value: T) | Err(error: Failure) {

    predicate IsFailure() {
      Err?
    }

    function PropagateFailure<U>(): Result<U>
      requires Err?
    {
      Err(error)
    }

    function Extract(): T
      requires Ok?
    {
      value
    }
  }

  /** A string field of an event that may be absent, tested for truth:
      present and not empty. */
  predicate Given(v: Option<string>) {
    v.Some? && v.value != ""
  }

  /** `m[k]` on a Python dict keyed by strings: a missing key raises KeyError. */
  function Lookup<V>(m: map<string, V>, k: string): (r: Result<V>)
    ensures r.Ok? <==> k in m
    ensures r.Ok? ==> r.value == m[k]
    ensures r.Err? ==> r.error == KeyError(k)
  {
    if k in m then Ok(m[k]) else Err(KeyError(k))
  }
}
