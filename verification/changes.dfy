/**
 Deferred changes to a Record. A change binds a member selector (standing for
 a C++ pointer to member) to a captured argument, and applying it to an object
 reports success as a bool. The three variants differ only in how success is
 decided: a field assignment always succeeds, a bool method reports its own
 result, and a void method succeeds unless it throws. A thrown exception
 is caught in the void-method variant and becomes `false`; copying a string
 can also fail by running out of memory, which is not modelled, so `Apply`
 has no way to report an exception at all.
 */
module Changes {
  import opened Records

  /** The `std::string` data members a field proxy can point to: Record's only public field. */
  datatype StringField = Position

  /** The `bool (Record::*)(std::string)` member functions: `setName`. */
  datatype BoolMethod = SetNameMethod

  /** The `void (Record::*)(int)` member functions: `age`. */
  datatype VoidMethod = AgeMethod

  /** Reads the selected field (`obj.*member`). */
  function FieldValue(f: StringField, r: Record): string
  {
    match f
    case Position => r.position
  }

  /** Writes the selected field (`obj.*member = value`). */
  function Put(f: StringField, r: Record, value: string): (r': Record)
    ensures FieldValue(f, r') == value
    ensures r'.name == r.name && r'.age == r.age
  {
    match f
    case Position => r.(position := value)
  }

  /** Calls the selected bool member function (`(obj.*method)(value)`). */
  function Invoke(m: BoolMethod, r: Record, arg: string): (call: BoolCall)
    // `setName`, the only such member, accepts exactly the non-empty strings and touches only the name
    ensures call.result <==> arg != ""
    ensures call.obj == if call.result then r.(name := arg) else r
  {
    match m
    case SetNameMethod => SetName(r, arg)
  }

  /** Calls the selected void member function, which may throw. */
  function InvokeVoid(m: VoidMethod, r: Record, arg: int32): (call: VoidCall)
    // `age`, the only such member, throws exactly on a negative argument and touches only the age
    ensures call.Threw? <==> arg < 0
    ensures call.obj == if call.Threw? then r else r.(age := arg)
  {
    match m
    case AgeMethod => Age(r, arg)
  }

  /** One change: a selector and the value captured when the change was built. */
  datatype Change =
    | FieldAssignmentChange(member: StringField, value: string)
    | BoolMethodChange(boolMethod: BoolMethod, arg: string)
    | VoidMethodChange(voidMethod: VoidMethod, intArg: int32)

  /** The outcome of `Change::apply`: the bool it returns and the object it was applied to, as left behind. */
  datatype Applied = Applied(ok: bool, obj: Record)

  /** `Change::apply`, dispatched over the three variants. */
  function Apply(c: Change, obj: Record): (res: Applied)
    // a field assignment always succeeds, stores the captured value and touches no other field
    ensures c.FieldAssignmentChange? ==>
              res.ok && FieldValue(c.member, res.obj) == c.value &&
              res.obj.name == obj.name && res.obj.age == obj.age
    // a bool method change reports exactly what the method returned
    ensures c.BoolMethodChange? ==>
              res.ok == Invoke(c.boolMethod, obj, c.arg).result &&
              res.obj == Invoke(c.boolMethod, obj, c.arg).obj
    // a void method change fails exactly when the method throws, and keeps whatever the method left
    ensures c.VoidMethodChange? ==>
              (res.ok <==> !InvokeVoid(c.voidMethod, obj, c.intArg).Threw?) &&
              res.obj == InvokeVoid(c.voidMethod, obj, c.intArg).obj
    // on Record's own methods: which changes fail, and that a failing one leaves the object as it was
    ensures c.BoolMethodChange? ==> (res.ok <==> c.arg != "")
    ensures c.VoidMethodChange? ==> (res.ok <==> c.intArg >= 0)
    ensures !res.ok ==> res.obj == obj
  {
    match c
    case FieldAssignmentChange(member, value) =>
      Applied(true, Put(member, obj, value))
    case BoolMethodChange(m, arg) =>
      var call := Invoke(m, obj, arg);
      Applied(call.result, call.obj)
    case VoidMethodChange(m, arg) =>
      match InvokeVoid(m, obj, arg)
      case Returned(o) => Applied(true, o)
      case Threw(o) => Applied(false, o)
  }

  /** `FieldProxy<Record, std::string>`: bound to one data member, `proxy = value` builds an assignment. */
  datatype FieldProxy = FieldProxy(member: StringField)
  {
    function Assign(value: string): (c: Change)
      ensures forall obj :: Apply(c, obj).ok && FieldValue(member, Apply(c, obj).obj) == value
      ensures forall obj :: Apply(c, obj).obj.name == obj.name && Apply(c, obj).obj.age == obj.age
    {
      FieldAssignmentChange(member, value)
    }
  }

  /** `BoolMethodProxy<Record, std::string>`: bound to one bool member function. */
  datatype BoolMethodProxy = BoolMethodProxy(boolMethod: BoolMethod)
  {
    function Assign(arg: string): (c: Change)
      ensures forall obj ::
                Apply(c, obj) == Applied(Invoke(boolMethod, obj, arg).result, Invoke(boolMethod, obj, arg).obj)
    {
      BoolMethodChange(boolMethod, arg)
    }
  }

  /** `VoidMethodProxy<Record, int>`: bound to one void member function. */
  datatype VoidMethodProxy = VoidMethodProxy(voidMethod: VoidMethod)
  {
    function Assign(arg: int32): (c: Change)
      ensures forall obj ::
                (Apply(c, obj).ok <==> InvokeVoid(voidMethod, obj, arg).Returned?) &&
                Apply(c, obj).obj == InvokeVoid(voidMethod, obj, arg).obj
    {
      VoidMethodChange(voidMethod, arg)
    }
  }
}
