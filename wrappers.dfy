/** Option and Result values shared by every module of the model. */
module Wrappers {

  datatype Option<T> = None | Some(value: T)
  {
    /** The carried value, or `default` when there is none. */
    function GetOr(default: T): (r: T)
      ensures Some? ==> r == value
      ensures None? ==> r == default
    {
      if Some? then value else default
    }
  }

  /** The outcome of an operation that returns a value or an error. */
  datatype Result<T> = Ok(value: T) | Err(error: string)

  /**
   * A component that was provided (`Some`) or not (`None`); asking for a
   * missing one gives the "<name> not configured" style error `msg`.
   */
  function Need<T>(component: Option<T>, msg: string): (r: Result<T>)
    ensures r.Ok? <==> component.Some?
    ensures r.Ok? ==> r.value == component.value
    ensures r.Err? ==> r.error == msg
  {
    if component.Some? then Ok(component.value) else Err(msg)
  }

  /** Sequence concatenation is associative. */
  lemma Assoc<T>(a: seq<T>, b: seq<T>, c: seq<T>)
    ensures (a + b) + c == a + (b + c)
  {
  }

  /** True when no element of `s` occurs twice. */
  predicate Distinct<T(==)>(s: seq<T>)
  {
    forall i, j :: 0 <= i < j < |s| ==> s[i] != s[j]
  }

  /** Go's %d formatting of an integer. */
  function Decimal(n: int): (r: string)
    ensures |r| > 0
    decreases if n < 0 then 1 - n else n
  {
    if n < 0 then "-" + Decimal(-n)
    else if n < 10 then ["0123456789"[n]]
    else Decimal(n / 10) + ["0123456789"[n % 10]]
  }
}
