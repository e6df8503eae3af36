/** An optional value: a dictionary key that is absent, or a result that was not found. */
module Optional {

  datatype Option<T> = None | Some(value: T) {

    function GetOr(default: T): (r: T)
      ensures None? ==> r == default
      ensures Some? ==> r == value
    {
      match this
      case None => default
      case Some(v) => v
    }
  }
}
