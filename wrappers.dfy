/** Errors the library raises, and result types that carry them instead of an exception. */
module Wrappers {
  import opened JsonValues

  datatype Option<+T> = None | Some(value: T)

  /** The Python exceptions the modelled code raises or lets escape. */
  datatype Error =
    | ValueError(detail: Json)
    | KeyError(key: Json)
    | TypeError(msg: string)
    | IndexError(msg: string)
    | AttributeError(msg: string)
    | NameError(name: string)
    | AssertionError
    | ApiError(info: string)   // mwapi's APIError, where the code lets it escape unconverted

  datatype Result<+T> = Ok(value: T) | Err(error: Error) {
    predicate IsFailure() { Err? }

    function PropagateFailure<U>(): Result<U>
      requires Err?
    {
      Err(error)
    }

    function Extract(): T
      requires Ok?
    {
      value
    }
  }

  /** `v[key]` on a decoded dict: KeyError when the key is missing. */
  function Index(v: Json, key: string): (r: Result<Json>)
    ensures r.Ok? <==> Has(v, key)
    ensures r.Ok? ==> r.value == v.fields[key]
    ensures r.Err? ==> r.error == KeyError(Str(key))
  {
    if Has(v, key) then Ok(v.fields[key]) else Err(KeyError(Str(key)))
  }

  /** `for x in v`: the elements of a list; anything else (None above all) raises TypeError. */
  function Iterable(v: Json): (r: Result<seq<Json>>)
    ensures r.Ok? <==> v.Arr?
    ensures r.Ok? ==> r.value == v.items
  {
    if v.Arr? then Ok(v.items) else Err(TypeError("object is not iterable"))
  }
}
