/** Values shared by every part of the model. */
module Basics {

  /** A JavaScript value that may be `undefined`; `null` is not modelled. */
  datatype Option<+T> = None | Some(value: T)

  /** Store-assigned document identifiers (MongoDB ObjectIds), kept abstract. */
  type EventId = nat
  type UserId = nat

  /** A path parameter as it reaches `findById`: either it casts to an ObjectId or it does not. */
  datatype PathId = Parsed(id: EventId) | Malformed(raw: string)

  /** What a template literal `${x}` prints for an optional string. */
  function Show(x: Option<string>): (r: string)
    ensures x.Some? ==> r == x.value
    ensures x.None? ==> r == "undefined"
  {
    match x
    case Some(s) => s
    case None => "undefined"
  }

  /** JavaScript truthiness of an optional string (`""` is falsy). */
  predicate TruthyString(x: Option<string>)
  {
    x.Some? && x.value != ""
  }

  /** JavaScript truthiness of an optional number (`0` is falsy). */
  predicate TruthyNumber(x: Option<int>)
  {
    x.Some? && x.value != 0
  }

  /** Mongoose's `required` validator on a String path: present and not the empty string. */
  predicate RequiredString(s: Option<string>)
  {
    s.Some? && s.value != ""
  }
}
