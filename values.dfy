/**
 * The Python objects that flow between devices at run time, as far as the
 * executor tells them apart.
 */
module Values {
  /**
   * A run-time value. A `Generator` is a Python generator (what
   * `inspect.isgenerator` accepts), given by the items it would yield; a
   * `TeeStream` is one of the copies `itertools.tee` makes of a generator,
   * which yields the same items but is not itself a generator; every other
   * object a device may return is an `Atom` told apart by an identity.
   */
  datatype Value =
    | NoneValue
    | Atom(id: int)
    | Tuple(elems: seq<Value>)
    | Generator(items: seq<Value>)
    | TeeStream(items: seq<Value>)
}
