/**
  The parts of .NET reflection that the stub generators and the shim builder
  consult, as plain values: a type, a method (or constructor) descriptor, the
  exceptions the modelled code can raise, and the text Type.ToString() gives.
 */
module Reflection {

  /** A runtime type. `Named` is any user type; the others are the runtime
      types the stubs mention by name. */
  datatype Ty =
    | Named(name: string, isValueType: bool, isInterface: bool)
    | ByRef(elem: Ty)             // Type.MakeByRefType()
    | Void
    | Object
    | Int32
    | IntPtr
    | RuntimeMethodHandle
    | RuntimeTypeHandle
    | MethodInfoType              // typeof(MethodInfo)
    | ConstructorInfoType         // typeof(ConstructorInfo)

  /** Type.IsValueType (System.Void is declared as a struct, so it counts). */
  predicate IsValueType(t: Ty) {
    match t
    case Named(_, vt, _) => vt
    case Void => true
    case Int32 => true
    case IntPtr => true
    case RuntimeMethodHandle => true
    case RuntimeTypeHandle => true
    case _ => false
  }

  /** Type.IsInterface */
  predicate IsInterface(t: Ty) {
    t.Named? && t.isInterface
  }

  /** A MethodBase: a method or a constructor. `hasBody` is
      `GetMethodBody() != null`; `isIntrinsic` is what the runtime helper
      StubHelper.IsIntrinsic reports. For a constructor `returnType` is not
      consulted (a ConstructorInfo has no ReturnType). */
  datatype MethodDesc = MethodDesc(
    name: string,
    declaringType: Ty,
    paramTypes: seq<Ty>,
    returnType: Ty,
    isStatic: bool,
    isConstructor: bool,
    isAbstract: bool,
    hasBody: bool,
    isIntrinsic: bool)

  /** The exceptions the modelled code raises. */
  datatype Exception =
    | NullReferenceException
    | NotImplementedException(message: string)
    | PlainException(message: string)     // `new Exception(message)`

  /** Type.ToString(): the full name, with `&` appended for a by-reference type. */
  function TypeName(t: Ty): string {
    match t
    case Named(n, _, _) => n
    case ByRef(e) => TypeName(e) + "&"
    case Void => "System.Void"
    case Object => "System.Object"
    case Int32 => "System.Int32"
    case IntPtr => "System.IntPtr"
    case RuntimeMethodHandle => "System.RuntimeMethodHandle"
    case RuntimeTypeHandle => "System.RuntimeTypeHandle"
    case MethodInfoType => "System.Reflection.MethodInfo"
    case ConstructorInfoType => "System.Reflection.ConstructorInfo"
  }
}
