/** A value that a stored record may lack: a field missing from the record,
    or the record itself missing from the store. */
module Optional {

  datatype Optional<T> = Absent | Present(value: T) {

    /** What is present, or `fallback` when nothing is. This is how one
        field of a stored record is merged over the in-memory field. */
    function OrElse(fallback: T): (r: T)
      ensures Present? ==> r == value
      ensures Absent? ==> r == fallback
    {
      if Present? then value else fallback
    }
  }
}
