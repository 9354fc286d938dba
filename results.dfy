/** Rust's `Result<T, E>`, the return type of every fallible operation of the service. */
module Results {

  datatype Result<+T, +E> = Ok(value: T) | Err(error: E) {

    /** `map_err`: keeps a success, converts an error with `convert` (what the `?`
        operator does through a `From` impl). */
    function MapErr<F>(convert: E -> F): (r: Result<T, F>)
      ensures r.Ok? <==> Ok?
      ensures Ok? ==> r.value == value
      ensures Err? ==> r.error == convert(error)
    {
      match this
      case Ok(v) => Ok(v)
      case Err(e) => Err(convert(e))
    }

    /** `map`: converts a success with `convert`, keeps an error. */
    function Map<U>(convert: T -> U): (r: Result<U, E>)
      ensures r.Ok? <==> Ok?
      ensures Ok? ==> r.value == convert(value)
      ensures Err? ==> r.error == error
    {
      match this
      case Ok(v) => Ok(convert(v))
      case Err(e) => Err(e)
    }
  }
}
