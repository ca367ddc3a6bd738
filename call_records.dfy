/**
 * Call records and their type-erased payloads.
 *
 * A tracked call stores its argument tuple and its return value boxed as
 * `dyn Any`: the recorder does not know their types, and an assertion later
 * recovers them by naming the type it expects. Here a payload is a value of a
 * small universe of values paired with a tag naming the type it was boxed at;
 * recovery succeeds exactly when the tag asked for is the tag stored.
 */
module CallRecords {

  /** The values a payload can hold: the shapes tracked arguments and results take. */
  datatype Value =
    | Unit
    | Bool(b: bool)
    | Int(i: int)
    | Str(s: string)
    | Tuple(elems: seq<Value>)

  /** The name of the concrete type a value was boxed at, e.g. "String" or "(String,)". */
  type TypeTag = string

  /** A boxed value: its content together with the identity of its type. */
  datatype Payload = Payload(tag: TypeTag, value: Value)

  /** One logged call: optional boxed arguments and optional boxed return value. */
  datatype CallInfo = CallInfo(arguments: Option<Payload>, returned: Option<Payload>)

  datatype Option<T> = None | Some(value: T)

  /** Which of the two payloads of a record a check looks at. */
  datatype Slot = Arguments | Returned

  function Select(c: CallInfo, slot: Slot): Option<Payload>
  {
    match slot
    case Arguments => c.arguments
    case Returned => c.returned
  }

  /** What recovering a record's payload at a given type gives. */
  datatype Recovery = Recovered(value: Value) | Missing | WrongType

  /**
   * Recovers the payload in `slot` as a value of type `tag`: the record must
   * carry that payload, and the payload must have been boxed at exactly that
   * type; then the boxed value comes back unchanged.
   */
  function Recover(c: CallInfo, slot: Slot, tag: TypeTag): (r: Recovery)
    ensures r == Missing <==> Select(c, slot).None?
    ensures r.Recovered? <==> Select(c, slot).Some? && Select(c, slot).value.tag == tag
    ensures r.Recovered? ==> Select(c, slot) == Some(Payload(tag, r.value))
  {
    match Select(c, slot)
    case None => Missing
    case Some(p) => if p.tag == tag then Recovered(p.value) else WrongType
  }
}
