/**
 The example value type that the update engine is instantiated with: a record
 with a public `position`, a private `_age` and a private `name`, plus its two
 fallible member functions. `setName` reports failure by returning `false`;
 `age` reports failure by throwing. A thrown exception is modelled as an
 explicit `Threw` outcome.
 */
module Records {

  /** The C++ `int` taken by `Record::age` and stored in `_age`. */
  newtype int32 = x: int | -0x8000_0000 <= x < 0x8000_0000

  /** A Record by value; copying one is taking the datatype value. */
  datatype Record = Record(name: string, age: int32, position: string)

  /** A default-initialised Record: empty strings and `_age{}` zero. */
  const Default: Record := Record("", 0, "")

  /** What a `bool`-returning member function leaves behind: its result and the object after the call. */
  datatype BoolCall = BoolCall(result: bool, obj: Record)

  /** How a `void` member function ends: it returns normally or throws; either way the object is left in some state. */
  datatype VoidCall = Returned(obj: Record) | Threw(obj: Record)

  /** `Record::setName`: refuses the empty string, otherwise stores it. */
  function SetName(r: Record, s: string): (call: BoolCall)
    ensures call.result <==> s != ""
    ensures call.obj.name == (if call.result then s else r.name)
    ensures call.obj.age == r.age && call.obj.position == r.position
  {
    if s == "" then BoolCall(false, r) else BoolCall(true, r.(name := s))
  }

  /** `Record::age`: throws on a negative value before touching `_age`, otherwise stores it. */
  function Age(r: Record, value: int32): (call: VoidCall)
    ensures call.Threw? <==> value < 0
    ensures call.obj.age == (if value < 0 then r.age else value)
    ensures call.obj.name == r.name && call.obj.position == r.position
  {
    if value < 0 then Threw(r) else Returned(r.(age := value))
  }
}
