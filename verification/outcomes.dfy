/** The exceptions raised by the curve kernel and by the mesh split become
    `Failure` values, so that every error path of the Python code is a value
    the contracts can talk about. */
module Outcomes {

  /** The Python exceptions the modelled code raises. */
  datatype Error =
    | NotImplemented  // NotImplementedError
    | ZeroDivision    // ZeroDivisionError: division by a zero length or a zero cosine
    | MathDomain      // ValueError raised by math.sqrt on a negative argument
    | BadValue        // ValueError raised explicitly by the code
    | MissingKey      // KeyError
    | BadArgument     // TypeError: an unexpected keyword argument or an argument of the wrong kind
    | ReadOnly        // AttributeError: assignment to a property that has no setter

  datatype Result<T> = Success(value: T) | Failure(error: Error)

  datatype Option<T> = None | Some(value: T)

  /** The right-hand side of `==` as an `__eq__` that reads `other[0]` and
      `other[1]` sees it: an object answering `other[key]` for the keys of
      `items` (a list, a dict, another curve), where any other key raises,
      or an object that cannot be indexed at all. */
  datatype Operand<T> = Indexed(items: map<int, T>) | NotIndexable
  {
    /** `other[key]`; the `IndexError`, `KeyError` or `TypeError` it raises
        is a failure. */
    function Lookup(key: int): (r: Result<T>)
      ensures r.Success? <==> Indexed? && key in items
      ensures r.Success? ==> r.value == items[key]
    {
      if Indexed? && key in items then Success(items[key])
      else if Indexed? then Failure(MissingKey)
      else Failure(BadArgument)
    }
  }
}
