/** JavaScript values the dispatcher reads that may be `undefined`. */
module JsValues {

  /** A property that is either `undefined` or holds a value. */
  datatype Maybe<+T> = Undefined | Defined(value: T) {

    /** `x || fallback` on a string property: the value when defined, the fallback otherwise. */
    function Or(fallback: T): (r: T)
      ensures Defined? ==> r == value
      ensures Undefined? ==> r == fallback
    {
      if Defined? then value else fallback
    }
  }
}
