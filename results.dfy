/** Failure-compatible results for the exceptions the exporter can raise while
    it walks a statistics tree or fetches it. */
module Results {

  /** The errors a scrape can end with. `KeyError` is a missing key in a
      mapping, `TypeError` is a string index applied to something that is not
      a mapping, `FetchError` is a failed fetch of the statistics document. */
  datatype Error =
    | KeyError(key: string)
    | TypeError(key: string)
    | FetchError

  datatype Result<T> = Ok(value: T) | Err(error: Error) {

    predicate IsFailure() {
      Err?
    }

    function PropagateFailure<U>(): Result<U>
      requires Err?
    {
      Err(error)
    }

    function Extract(): T
      requires Ok?
    {
      value
    }
  }

  /** Runs two producers of sequences one after the other: the first error
      wins, otherwise the outputs are concatenated in order. */
  function Concat<T>(a: Result<seq<T>>, b: Result<seq<T>>): Result<seq<T>> {
    if a.Err? then Err(a.error)
    else if b.Err? then Err(b.error)
    else Ok(a.value + b.value)
  }

  /** Running three producers is the same however they are grouped. */
  lemma ConcatAssoc<T>(a: Result<seq<T>>, b: Result<seq<T>>, c: Result<seq<T>>)
    ensures Concat(Concat(a, b), c) == Concat(a, Concat(b, c))
  {
    if a.Ok? && b.Ok? && c.Ok? {
      assert (a.value + b.value) + c.value == a.value + (b.value + c.value);
    }
  }
}
