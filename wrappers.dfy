/** An optional value, for the source's optional parameters and absent fields. */
module Wrappers {
  datatype Option<T> = None | Some(value: T)
  {
    /** `x ?? default`. */
    function GetOr(default: T): (v: T)
      ensures this.Some? ==> v == this.value
      ensures this.None? ==> v == default
    {
      if this.Some? then this.value else default
    }
  }
}
