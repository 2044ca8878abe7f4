/**
  The stub generators of the interception library. Each generator takes a
  method descriptor, computes the stub's signature, and appends the stub's
  instructions to an `ILGenerator`. A stub either forwards straight to the
  original (the fast path, for methods without a body and for intrinsics) or
  resolves the call: it asks the shim registry for a replacement and calls
  it, or has the rewriter produce an instrumented copy of the original and
  calls that through a function pointer.

  Every generator is a method that builds its lists and its buffer step by
  step, as the source does; the code it emits is specified by a function of
  its inputs, and the lemmas state what a run of that code does.
 */
module Stubs {
  import opened Wrappers
  import opened Reflection
  import opened IL
  import opened Resolution

  /** The argument-forwarding loop every generator contains: `Ldarg i` for
      `lo <= i < hi`, in order. */
  method EmitArguments(il: ILGenerator, lo: nat, hi: nat)
    modifies il
    ensures il.code == old(il.code) + LdargRange(lo, hi) && il.locals == old(il.locals)
  {
    var i := lo;
    while i < hi
      invariant lo <= i && (i == lo || i <= hi)
      invariant il.code == old(il.code) + LdargRange(lo, i) && il.locals == old(il.locals)
    {
      Assoc(old(il.code), LdargRange(lo, i), [Ldarg(i)]);
      il.Emit(Ldarg(i));
      i := i + 1;
    }
    assert LdargRange(lo, i) == LdargRange(lo, hi);
  }

  /** The fast path: forward the first `n` arguments with `forward`, then return. */
  method EmitForwarding(il: ILGenerator, n: nat, forward: Op)
    modifies il
    ensures il.code == old(il.code) + FastPath(n, forward) && il.locals == old(il.locals)
  {
    EmitArguments(il, 0, n);
    il.Emit(forward);
    il.Emit(Ret);
  }

  // The blocks the direct and the virtual call stubs share: the registry
  // lookup, the call of a shim's replacement, and the call of the
  // rewritten method.

  /** Local 0 holds the method; leaves `index == -1` on the stack, index in local 1. */
  method EmitShimLookup(il: ILGenerator, recv: Op)
    modifies il
    ensures il.code == old(il.code) + ShimLookup(recv) && il.locals == old(il.locals)
  {
    il.EmitAll([Ldloc(0), recv, CallHelper(GetIndexOfMatchingShim), Stloc(1), Ldloc(1), LdcI4(-1), Ceq]);
  }

  /** Call the shim's replacement on its delegate target with every argument. */
  method EmitReplacementCall(il: ILGenerator, ret: Ty, sig: seq<Ty>)
    modifies il
    ensures il.code == old(il.code) + ReplacementCall(ret, sig) && il.locals == old(il.locals)
  {
    il.EmitAll([Ldloc(1), CallHelper(GetShimReplacementMethod), Stloc(0), Ldloc(0), CallHelper(GetMethodPointer),
                Stloc(2), Ldloc(1), CallHelper(GetShimDelegateTarget)]);
    EmitArguments(il, 0, |sig|);
    il.EmitAll([Ldloc(2), Calli(HasThis, ret, sig)]);
    Assoc3(old(il.code), ReplacementHead(), LdargRange(0, |sig|), ReplacementTail(ret, sig));
  }

  /** Rewrite the method in local 0 and call the rewritten copy with every argument. */
  method EmitRewriteCall(il: ILGenerator, flag: int, ret: Ty, sig: seq<Ty>)
    modifies il
    ensures il.code == old(il.code) + RewriteCall(flag, ret, sig) && il.locals == old(il.locals)
  {
    il.EmitAll([Ldloc(0), LdcI4(flag), CallHelper(CreateRewriter), CallHelper(Rewrite), Castclass(MethodInfoType),
                Stloc(0)]);
    EmitArguments(il, 0, |sig|);
    il.EmitAll([Ldloc(0), CallHelper(GetMethodPointer), Stloc(0), Ldloc(0), Calli(Standard, ret, sig)]);
    Assoc3(old(il.code), RewriteHead(flag), LdargRange(0, |sig|), RewriteTail(ret, sig));
  }

  /** No retrievable body, or a compiler intrinsic. */
  predicate DirectFastPath(m: MethodDesc) {
    !m.hasBody || m.isIntrinsic
  }

  /** No body and not abstract, or a compiler intrinsic. */
  predicate VirtualFastPath(m: MethodDesc) {
    (!m.hasBody && !m.isAbstract) || m.isIntrinsic
  }

  // ---------------------------------------------------------------------
  // GenerateStubForConstructor (Stubs.cs:40-165), the older constructor stub
  // ---------------------------------------------------------------------

  /** The opcode the stubbed constructor call came from. */
  datatype ConstructorOpCode = OpNewobj | OpCall | OpOther

  /** The constructor's signature with its receiver. */
  function CtorSignature(c: MethodDesc, forValueType: bool): seq<Ty> {
    [if forValueType then ByRef(c.declaringType) else c.declaringType] + c.paramTypes
  }

  /** The stub parameters in front of the two handles: the constructor's
      parameters for `newobj`, the whole signature otherwise. */
  function CtorPassed(c: MethodDesc, opCode: ConstructorOpCode, forValueType: bool): seq<Ty> {
    if opCode == OpNewobj then c.paramTypes else CtorSignature(c, forValueType)
  }

  /** The stub's parameters: the passed ones, then the method and type handles. */
  function CtorStubParams(c: MethodDesc, opCode: ConstructorOpCode, forValueType: bool): seq<Ty> {
    CtorPassed(c, opCode, forValueType) + [RuntimeMethodHandle, RuntimeTypeHandle]
  }

  /** Rebuild the constructor from the two handle arguments `h` and `h + 1`. */
  function CtorPrologue(h: nat): seq<Op> {
    [Ldarg(h), Ldarg(h + 1), CallHelper(GetMethodFromHandle), Castclass(ConstructorInfoType), Stloc(1)]
  }

  /** The registry lookup, always without a receiver. */
  function CtorLookup(): seq<Op> {
    [Ldloc(1), Ldnull, CallHelper(GetIndexOfMatchingShim), Stloc(3), Ldloc(3), LdcI4(-1), Ceq]
  }

  function CtorReplacementHead(): seq<Op> {
    [Ldloc(3), CallHelper(GetShimReplacementMethod), Stloc(2), Ldloc(2), CallHelper(GetMethodPointer),
     Stloc(4), Ldloc(3), CallHelper(GetShimDelegateTarget)]
  }

  /** The replacement returns the new instance, kept in local 0. */
  function CtorReplacementTail(c: MethodDesc): seq<Op> {
    [Ldloc(4), Calli(HasThis, c.declaringType, c.paramTypes), Stloc(0)]
  }

  /** For `call`, the instance is written back through argument 0. */
  function CtorWriteBack(c: MethodDesc, opCode: ConstructorOpCode, forValueType: bool): seq<Op> {
    if opCode == OpCall then
      (if forValueType then [Ldarg(0), Ldloc(0), Stobj(c.declaringType)] else [Ldloc(0), Starg(0)])
    else []
  }

  function CtorReplacement(c: MethodDesc, opCode: ConstructorOpCode, forValueType: bool): seq<Op> {
    CtorReplacementHead() + LdargRange(0, |c.paramTypes|) + CtorReplacementTail(c) + CtorWriteBack(c, opCode, forValueType)
  }

  /** For `newobj`, allocate the instance into local 0 (`h + 1` is the type handle). */
  function CtorAllocate(c: MethodDesc, opCode: ConstructorOpCode, forValueType: bool, h: nat): seq<Op> {
    if opCode == OpNewobj then
      (if forValueType then [Ldloca(0), Initobj(c.declaringType)]
       else [Ldarg(h + 1), CallHelper(GetTypeFromHandle), CallHelper(GetUninitializedObject), Stloc(0)])
    else []
  }

  /** The rewriter is handed the constructor alone. */
  function CtorRewriteHead(): seq<Op> {
    [Ldloc(1), CallHelper(CreateRewriter), CallHelper(Rewrite), Castclass(MethodInfoType), Stloc(2)]
  }

  /** For `newobj`, the fresh instance is the call's argument 0. */
  function CtorInstance(opCode: ConstructorOpCode, forValueType: bool): seq<Op> {
    if opCode == OpNewobj then [if forValueType then Ldloca(0) else Ldloc(0)] else []
  }

  function CtorRewriteTail(c: MethodDesc, forValueType: bool): seq<Op> {
    [Ldloc(2), CallHelper(GetMethodPointer), Calli(Standard, Void, CtorSignature(c, forValueType))]
  }

  function CtorRewrite(c: MethodDesc, opCode: ConstructorOpCode, forValueType: bool): seq<Op> {
    var h := |CtorPassed(c, opCode, forValueType)|;
    CtorAllocate(c, opCode, forValueType, h) + CtorRewriteHead() + CtorInstance(opCode, forValueType)
    + LdargRange(0, h) + CtorRewriteTail(c, forValueType)
  }

  /** For `newobj` the stub returns the instance in local 0. */
  function CtorResult(opCode: ConstructorOpCode): seq<Op> {
    if opCode == OpNewobj then [Ldloc(0)] else []
  }

  function ConstructorStubCode(c: MethodDesc, opCode: ConstructorOpCode, forValueType: bool): seq<Op> {
    Branching(CtorPrologue(|CtorPassed(c, opCode, forValueType)|) + CtorLookup(),
              CtorReplacement(c, opCode, forValueType), CtorRewrite(c, opCode, forValueType),
              CtorResult(opCode) + [Ret])
  }

  /** Local 1 holds the constructor; index in local 3. */
  method EmitCtorLookup(il: ILGenerator)
    modifies il
    ensures il.code == old(il.code) + CtorLookup() && il.locals == old(il.locals)
  {
    il.EmitAll([Ldloc(1), Ldnull, CallHelper(GetIndexOfMatchingShim), Stloc(3), Ldloc(3), LdcI4(-1), Ceq]);
  }

  /** The replacement path of the older constructor stub. */
  method EmitCtorReplacement(il: ILGenerator, c: MethodDesc, opCode: ConstructorOpCode, forValueType: bool,
                             signatureParamTypes: seq<Ty>)
    requires signatureParamTypes == CtorSignature(c, forValueType)
    modifies il
    ensures il.code == old(il.code) + CtorReplacement(c, opCode, forValueType) && il.locals == old(il.locals)
  {
    il.EmitAll([Ldloc(3), CallHelper(GetShimReplacementMethod), Stloc(2), Ldloc(2), CallHelper(GetMethodPointer),
                Stloc(4), Ldloc(3), CallHelper(GetShimDelegateTarget)]);
    EmitArguments(il, 0, |signatureParamTypes| - 1);
    il.EmitAll([Ldloc(4), Calli(HasThis, c.declaringType, signatureParamTypes[1..]), Stloc(0)]);
    Assoc3(old(il.code), CtorReplacementHead(), LdargRange(0, |c.paramTypes|), CtorReplacementTail(c));
    ghost var beforeWriteBack := il.code;
    if opCode == OpCall {
      if forValueType {
        il.EmitAll([Ldarg(0), Ldloc(0), Stobj(c.declaringType)]);
      } else {
        il.EmitAll([Ldloc(0), Starg(0)]);
      }
    }
    assert il.code == beforeWriteBack + CtorWriteBack(c, opCode, forValueType);
    Assoc(old(il.code), CtorReplacementHead() + LdargRange(0, |c.paramTypes|) + CtorReplacementTail(c),
          CtorWriteBack(c, opCode, forValueType));
  }

  /** The rewrite path of the older constructor stub; `typeHandle` is the
      index of the type-handle parameter. */
  method EmitCtorRewrite(il: ILGenerator, c: MethodDesc, opCode: ConstructorOpCode, forValueType: bool,
                         signatureParamTypes: seq<Ty>, typeHandle: nat)
    requires signatureParamTypes == CtorSignature(c, forValueType)
    requires typeHandle == |CtorPassed(c, opCode, forValueType)| + 1
    modifies il
    ensures il.code == old(il.code) + CtorRewrite(c, opCode, forValueType) && il.locals == old(il.locals)
  {
    var h := typeHandle - 1;
    if opCode == OpNewobj {
      if forValueType {
        il.EmitAll([Ldloca(0), Initobj(c.declaringType)]);
      } else {
        il.EmitAll([Ldarg(typeHandle), CallHelper(GetTypeFromHandle), CallHelper(GetUninitializedObject), Stloc(0)]);
      }
    }
    ghost var A := CtorAllocate(c, opCode, forValueType, h);
    assert il.code == old(il.code) + A;
    il.EmitAll([Ldloc(1), CallHelper(CreateRewriter), CallHelper(Rewrite), Castclass(MethodInfoType), Stloc(2)]);
    ghost var beforeInstance := il.code;
    var count := |signatureParamTypes|;
    if opCode == OpNewobj {
      if forValueType {
        il.Emit(Ldloca(0));
      } else {
        il.Emit(Ldloc(0));
      }
      count := count - 1;
    }
    ghost var I := CtorInstance(opCode, forValueType);
    assert il.code == beforeInstance + I;
    EmitArguments(il, 0, count);
    il.EmitAll([Ldloc(2), CallHelper(GetMethodPointer), Calli(Standard, Void, signatureParamTypes)]);
    Assoc5(old(il.code), A, CtorRewriteHead(), I, LdargRange(0, h), CtorRewriteTail(c, forValueType));
  }

  /** Return the instance in local 0 for `newobj`, nothing otherwise. */
  method EmitCtorReturn(il: ILGenerator, opCode: ConstructorOpCode)
    modifies il
    ensures il.code == old(il.code) + (CtorResult(opCode) + [Ret]) && il.locals == old(il.locals)
  {
    if opCode == OpNewobj {
      il.Emit(Ldloc(0));
    }
    il.Emit(Ret);
  }

  /** The instructions of the older constructor stub; `count` is the number
      of stub parameters, the last two being the handles. */
  method EmitConstructorStubBody(il: ILGenerator, c: MethodDesc, opCode: ConstructorOpCode, forValueType: bool,
                                 signatureParamTypes: seq<Ty>, count: nat)
    requires il.code == []
    requires signatureParamTypes == CtorSignature(c, forValueType)
    requires count == |CtorPassed(c, opCode, forValueType)| + 2
    modifies il
    ensures il.code == ConstructorStubCode(c, opCode, forValueType) && il.locals == old(il.locals)
  {
    // rebuild the constructor from its handles, then ask the registry
    il.EmitAll([Ldarg(count - 2), Ldarg(count - 1), CallHelper(GetMethodFromHandle),
                Castclass(ConstructorInfoType), Stloc(1)]);
    assert il.code == CtorPrologue(count - 2);
    EmitCtorLookup(il);
    il.Emit(Brtrue(RewriteLabel));
    EmitCtorReplacement(il, c, opCode, forValueType, signatureParamTypes);
    il.EmitAll([Br(ReturnLabel), MarkLabel(RewriteLabel)]);
    EmitCtorRewrite(il, c, opCode, forValueType, signatureParamTypes, count - 1);
    il.Emit(MarkLabel(ReturnLabel));
    EmitCtorReturn(il, opCode);
  }

  /**
    The older constructor stub. The constructor arrives as two handle
    arguments after the passed parameters; `newobj` stubs return the new
    instance, the others return nothing.
   */
  method GenerateStubForConstructor(c: MethodDesc, opCode: ConstructorOpCode, forValueType: bool) returns (stub: Stub)
    ensures stub.returnType == (if opCode == OpNewobj then c.declaringType else Void)
    ensures stub.paramTypes == CtorStubParams(c, opCode, forValueType)
    ensures stub.locals == [c.declaringType, ConstructorInfoType, MethodInfoType, Int32, IntPtr]
    ensures stub.code == ConstructorStubCode(c, opCode, forValueType)
  {
    var signatureParamTypes: seq<Ty> := [];
    var parameterTypes: seq<Ty> := [];
    if forValueType {
      signatureParamTypes := signatureParamTypes + [ByRef(c.declaringType)];
    } else {
      signatureParamTypes := signatureParamTypes + [c.declaringType];
    }
    signatureParamTypes := signatureParamTypes + c.paramTypes;
    if opCode == OpNewobj {
      parameterTypes := parameterTypes + c.paramTypes;
    } else {
      parameterTypes := parameterTypes + signatureParamTypes;
    }
    assert parameterTypes == CtorPassed(c, opCode, forValueType);
    ghost var passed := parameterTypes;
    parameterTypes := parameterTypes + [RuntimeMethodHandle];
    parameterTypes := parameterTypes + [RuntimeTypeHandle];
    assert parameterTypes == passed + [RuntimeMethodHandle, RuntimeTypeHandle];

    var il := new ILGenerator();
    il.DeclareLocal(c.declaringType);
    il.DeclareLocal(ConstructorInfoType);
    il.DeclareLocal(MethodInfoType);
    il.DeclareLocal(Int32);
    il.DeclareLocal(IntPtr);
    assert il.locals == [c.declaringType, ConstructorInfoType, MethodInfoType, Int32, IntPtr];

    EmitConstructorStubBody(il, c, opCode, forValueType, signatureParamTypes, |parameterTypes|);
    return Stub(if opCode == OpNewobj then c.declaringType else Void, parameterTypes, il.locals, il.code);
  }

  // ---------------------------------------------------------------------
  // GenerateStubForDirectCall (Stubs.cs:249-364)
  // ---------------------------------------------------------------------

  /** The receiver slot of an instance method: by reference for a value type. */
  function ThisSlot(m: MethodDesc): seq<Ty> {
    if m.isStatic then []
    else [if IsValueType(m.declaringType) then ByRef(m.declaringType) else m.declaringType]
  }

  /** The registry lookup gets no receiver for static methods and value types. */
  function DirectLookupReceiver(m: MethodDesc): Op {
    if m.isStatic || IsValueType(m.declaringType) then Ldnull else Ldarg(0)
  }

  /** Resolve the method token and keep the method in local 0. */
  function DirectPrologue(m: MethodDesc): seq<Op> {
    [Ldtoken(m), LdtokenType(m.declaringType), CallHelper(GetMethodFromHandle), Castclass(MethodInfoType), Stloc(0)]
  }

  /** The general-path code of a direct-call stub for a non-constructor. */
  function DirectCallCode(m: MethodDesc): seq<Op> {
    ResolveCode(DirectPrologue(m), DirectLookupReceiver(m), 0, m.returnType, ThisSlot(m) + m.paramTypes)
  }

  /**
    The stub for a `call` instruction. A constructor that has a body makes
    generation fail: the replacement call's return type is read from
    `method as MethodInfo`, which is null for a constructor (Stubs.cs:331).
   */
  method GenerateStubForDirectCall(m: MethodDesc) returns (r: Result<Stub, Exception>)
    ensures r.Failure? <==> m.isConstructor && !DirectFastPath(m)
    ensures r.Failure? ==> r.error == NullReferenceException
    ensures r.Success? ==> r.value.returnType == (if m.isConstructor then Void else m.returnType)
    ensures r.Success? ==> r.value.paramTypes == ThisSlot(m) + m.paramTypes
    ensures r.Success? && DirectFastPath(m) ==>
      r.value.code == FastPath(|r.value.paramTypes|, Call(m)) && r.value.locals == []
    ensures r.Success? && !DirectFastPath(m) ==>
      r.value.code == DirectCallCode(m) && r.value.locals == [MethodInfoType, Int32, IntPtr]
  {
    var returnType := if m.isConstructor then Void else m.returnType;
    var signatureParamTypes: seq<Ty> := [];
    if !m.isStatic {
      var thisType := m.declaringType;
      if IsValueType(thisType) {
        thisType := ByRef(thisType);
      }
      signatureParamTypes := signatureParamTypes + [thisType];
    }
    signatureParamTypes := signatureParamTypes + m.paramTypes;
    assert signatureParamTypes == ThisSlot(m) + m.paramTypes;
    var n := |signatureParamTypes|;

    var il := new ILGenerator();
    if DirectFastPath(m) {
      // forward every argument to the original
      EmitForwarding(il, n, Call(m));
      return Success(Stub(returnType, signatureParamTypes, il.locals, il.code));
    }

    il.DeclareLocal(MethodInfoType);
    il.DeclareLocal(Int32);
    il.DeclareLocal(IntPtr);
    assert il.locals == [MethodInfoType, Int32, IntPtr];

    // inject the method into the instruction stream
    il.EmitAll([Ldtoken(m), LdtokenType(m.declaringType), CallHelper(GetMethodFromHandle),
                Castclass(MethodInfoType), Stloc(0)]);
    assert il.code == DirectPrologue(m);

    // registry lookup; an index of -1 branches to the rewrite path
    EmitShimLookup(il, if m.isStatic || IsValueType(m.declaringType) then Ldnull else Ldarg(0));
    il.Emit(Brtrue(RewriteLabel));

    // replacement path: the shim's delegate target, then every argument;
    // its return type is `(method as MethodInfo).ReturnType`, which
    // dereferences null for a constructor
    if m.isConstructor {
      return Failure(NullReferenceException);
    }
    EmitReplacementCall(il, m.returnType, signatureParamTypes);
    il.EmitAll([Br(ReturnLabel), MarkLabel(RewriteLabel)]);

    // rewrite path: the instrumented copy, then every argument
    EmitRewriteCall(il, 0, returnType, signatureParamTypes);
    il.Emit(MarkLabel(ReturnLabel));
    il.Emit(Ret);
    return Success(Stub(returnType, signatureParamTypes, il.locals, il.code));
  }

  // ---------------------------------------------------------------------
  // GenerateStubForVirtualCall(method): dynamic receiver (Stubs.cs:451-554)
  // ---------------------------------------------------------------------

  /** The receiver slot of a dynamic virtual call: `object` for an interface. */
  function VirtualThisType(m: MethodDesc): Ty {
    if IsInterface(m.declaringType) then Object else m.declaringType
  }

  /** CreateRewriter's second argument: 1 for a method declared on an interface. */
  function InterfaceFlag(m: MethodDesc): int {
    if IsInterface(m.declaringType) then 1 else 0
  }

  /** The registry lookup gets no receiver for a value type. */
  function VirtualLookupReceiver(m: MethodDesc): Op {
    if IsValueType(m.declaringType) then Ldnull else Ldarg(0)
  }

  /** Resolve the method token, then devirtualize it against argument 0. */
  function VirtualPrologue(m: MethodDesc): seq<Op> {
    [Ldtoken(m), LdtokenType(m.declaringType), CallHelper(GetMethodFromHandle), Castclass(MethodInfoType), Stloc(0),
     Ldarg(0), Ldloc(0), CallHelper(DevirtualizeMethod), Stloc(0)]
  }

  function VirtualCallCode(m: MethodDesc): seq<Op> {
    ResolveCode(VirtualPrologue(m), VirtualLookupReceiver(m), InterfaceFlag(m), m.returnType,
                [VirtualThisType(m)] + m.paramTypes)
  }

  /** The stub for a `callvirt` instruction. */
  method GenerateStubForVirtualCall(m: MethodDesc) returns (stub: Stub)
    ensures stub.returnType == m.returnType
    ensures stub.paramTypes == [if IsInterface(m.declaringType) then Object else m.declaringType] + m.paramTypes
    ensures VirtualFastPath(m) ==> stub.code == FastPath(|stub.paramTypes|, Callvirt(m)) && stub.locals == []
    ensures !VirtualFastPath(m) ==> stub.code == VirtualCallCode(m) && stub.locals == [MethodInfoType, Int32, IntPtr]
  {
    var thisType := if m.declaringType.Named? && m.declaringType.isInterface then Object else m.declaringType;
    var signatureParamTypes: seq<Ty> := [];
    signatureParamTypes := signatureParamTypes + [thisType];
    signatureParamTypes := signatureParamTypes + m.paramTypes;
    var n := |signatureParamTypes|;

    var il := new ILGenerator();
    if VirtualFastPath(m) {
      EmitForwarding(il, n, Callvirt(m));
      return Stub(m.returnType, signatureParamTypes, il.locals, il.code);
    }

    il.DeclareLocal(MethodInfoType);
    il.DeclareLocal(Int32);
    il.DeclareLocal(IntPtr);
    assert il.locals == [MethodInfoType, Int32, IntPtr];

    // inject the method into the instruction stream, then resolve it
    // against the receiver's runtime type
    il.EmitAll([Ldtoken(m), LdtokenType(m.declaringType), CallHelper(GetMethodFromHandle),
                Castclass(MethodInfoType), Stloc(0), Ldarg(0), Ldloc(0), CallHelper(DevirtualizeMethod), Stloc(0)]);
    assert il.code == VirtualPrologue(m);

    // registry lookup; an index of -1 branches to the rewrite path
    EmitShimLookup(il, if IsValueType(m.declaringType) then Ldnull else Ldarg(0));
    il.Emit(Brtrue(RewriteLabel));

    // replacement path
    EmitReplacementCall(il, m.returnType, signatureParamTypes);
    il.EmitAll([Br(ReturnLabel), MarkLabel(RewriteLabel)]);

    // rewrite the resolved method
    EmitRewriteCall(il, if m.declaringType.Named? && m.declaringType.isInterface then 1 else 0, m.returnType,
                    signatureParamTypes);
    il.Emit(MarkLabel(ReturnLabel));
    il.Emit(Ret);
    return Stub(m.returnType, signatureParamTypes, il.locals, il.code);
  }

  // ---------------------------------------------------------------------
  // GenerateStubForVirtualCall(method, constrainedType) (Stubs.cs:366-449)
  // ---------------------------------------------------------------------

  /** Token of the devirtualized method, the rewriter (flag 0), its pointer in local 0. */
  function ConstrainedRewrite(actual: MethodDesc): seq<Op> {
    [Ldtoken(actual), LdtokenType(actual.declaringType), CallHelper(GetMethodFromHandle), Castclass(MethodInfoType),
     MarkLabel(RewriteLabel), LdcI4(0), CallHelper(CreateRewriter), CallHelper(Rewrite), Castclass(MethodInfoType),
     CallHelper(GetMethodPointer), Stloc(0)]
  }

  /** Argument 0 as the indirect call sees it: dereferenced for a reference
      type, boxed when the devirtualized method lives on another type. */
  function ReceiverLoad(constrained: Ty, actual: MethodDesc): seq<Op> {
    [Ldarg(0)] + (if !IsValueType(constrained) then [LdindRef]
                  else if actual.declaringType != constrained then [Ldobj(constrained), Box(constrained)]
                  else [])
  }

  /** The type of slot 0 in the indirect call. */
  function IndirectReceiverType(constrained: Ty, actual: MethodDesc): Ty {
    if !IsValueType(constrained) then constrained
    else if actual.declaringType != constrained then actual.declaringType
    else ByRef(constrained)
  }

  function ConstrainedCallTail(m: MethodDesc, constrained: Ty, actual: MethodDesc): seq<Op> {
    [Ldloc(0), Calli(Standard, m.returnType, [IndirectReceiverType(constrained, actual)] + m.paramTypes),
     MarkLabel(ReturnLabel)]
  }

  function ConstrainedCallCode(m: MethodDesc, constrained: Ty, actual: MethodDesc): seq<Op> {
    ConstrainedRewrite(actual) + ReceiverLoad(constrained, actual) + LdargRange(1, 1 + |m.paramTypes|)
    + ConstrainedCallTail(m, constrained, actual) + [Ret]
  }

  /** The argument loop of the constrained stub: argument 0 is loaded the
      way the indirect call expects it, and its slot in the signature is
      retyped to match. */
  method EmitConstrainedArguments(il: ILGenerator, m: MethodDesc, constrained: Ty, actual: MethodDesc, sig: seq<Ty>)
    returns (retyped: seq<Ty>)
    requires sig == [ByRef(constrained)] + m.paramTypes
    modifies il
    ensures il.code == old(il.code) + ReceiverLoad(constrained, actual) + LdargRange(1, |sig|)
    ensures il.locals == old(il.locals)
    ensures retyped == [IndirectReceiverType(constrained, actual)] + m.paramTypes
  {
    var rl := ReceiverLoad(constrained, actual);
    retyped := sig;
    var i := 0;
    while i < |sig|
      invariant 0 <= i <= |sig|
      invariant |retyped| == |sig|
      invariant retyped[1..] == m.paramTypes
      invariant retyped[0] == if i == 0 then ByRef(constrained) else IndirectReceiverType(constrained, actual)
      invariant i == 0 ==> il.code == old(il.code)
      invariant i > 0 ==> il.code == old(il.code) + rl + LdargRange(1, i)
      invariant il.locals == old(il.locals)
    {
      ghost var before := il.code;
      il.Emit(Ldarg(i));
      if i == 0 {
        if !IsValueType(constrained) {
          il.Emit(LdindRef);
          retyped := retyped[i := constrained];
        } else {
          if actual.declaringType != constrained {
            il.EmitAll([Ldobj(constrained), Box(constrained)]);
            retyped := retyped[i := actual.declaringType];
          }
        }
        assert il.code == before + rl by {
          Assoc(before, [Ldarg(0)], rl[1..]);
          assert rl == [Ldarg(0)] + rl[1..];
        }
        assert LdargRange(1, 1) == [];
      }
      i := i + 1;
    }
    assert retyped == [IndirectReceiverType(constrained, actual)] + m.paramTypes;
  }

  /**
    The stub for a `constrained. callvirt` pair. `actual` is what
    StubHelper.DevirtualizeMethod returns for the constrained type and the
    method; it decides the fast path and is what gets rewritten. The stub's
    own signature keeps slot 0 as a by-reference constrained type; only the
    indirect call's copy of the list is retyped.
   */
  method GenerateStubForConstrainedVirtualCall(m: MethodDesc, constrained: Ty, actual: MethodDesc) returns (stub: Stub)
    ensures stub.returnType == m.returnType
    ensures stub.paramTypes == [ByRef(constrained)] + m.paramTypes
    ensures VirtualFastPath(actual) ==> stub.code == FastPath(|stub.paramTypes|, Call(actual)) && stub.locals == []
    ensures !VirtualFastPath(actual) ==>
      stub.code == ConstrainedCallCode(m, constrained, actual) && stub.locals == [IntPtr]
  {
    var thisType := ByRef(constrained);
    var signatureParamTypes: seq<Ty> := [];
    signatureParamTypes := signatureParamTypes + [thisType];
    signatureParamTypes := signatureParamTypes + m.paramTypes;
    var stubParamTypes := signatureParamTypes;   // the DynamicMethod copies the list here
    var n := |signatureParamTypes|;

    var il := new ILGenerator();
    if VirtualFastPath(actual) {
      EmitForwarding(il, n, Call(actual));
      return Stub(m.returnType, stubParamTypes, il.locals, il.code);
    }

    il.DeclareLocal(IntPtr);
    assert il.locals == [IntPtr];

    // inject the devirtualized method into the instruction stream
    il.EmitAll([Ldtoken(actual), LdtokenType(actual.declaringType), CallHelper(GetMethodFromHandle),
                Castclass(MethodInfoType)]);

    // rewrite the method and keep its pointer
    il.EmitAll([MarkLabel(RewriteLabel), LdcI4(0), CallHelper(CreateRewriter), CallHelper(Rewrite),
                Castclass(MethodInfoType), CallHelper(GetMethodPointer), Stloc(0)]);
    assert il.code == ConstrainedRewrite(actual);

    // load the arguments, retyping the receiver slot
    signatureParamTypes := EmitConstrainedArguments(il, m, constrained, actual, signatureParamTypes);
    il.EmitAll([Ldloc(0), Calli(Standard, m.returnType, signatureParamTypes), MarkLabel(ReturnLabel)]);
    il.Emit(Ret);
    return Stub(m.returnType, stubParamTypes, il.locals, il.code);
  }

  // ---------------------------------------------------------------------
  // GenerateStubForObjectInitialization (Stubs.cs:556-640)
  // ---------------------------------------------------------------------

  /** Token of the constructor, the rewriter (flag 0), its pointer in local 0. */
  function ObjectInitRewrite(c: MethodDesc): seq<Op> {
    [Ldtoken(c), LdtokenType(c.declaringType), CallHelper(GetMethodFromHandle), MarkLabel(RewriteLabel), LdcI4(0),
     CallHelper(CreateRewriter), CallHelper(Rewrite), CallHelper(GetMethodPointer), Stloc(0)]
  }

  /** Allocate the new instance: a zeroed local 1 for a value type, an
      uninitialized object kept in local 1 otherwise. Either way a copy is
      left on the stack as the indirect call's argument 0. */
  function AllocateInstance(t: Ty): seq<Op> {
    if IsValueType(t) then [Ldloca(1), Dup, Initobj(t)]
    else [LdtokenType(t), CallHelper(GetTypeFromHandle), CallHelper(GetUninitializedObject), Dup, Stloc(1)]
  }

  /** The receiver slot of the constructor called on the new instance. */
  function InitThisType(c: MethodDesc): Ty {
    if IsValueType(c.declaringType) then ByRef(c.declaringType) else c.declaringType
  }

  /** The `void` constructor call on the instance, then return local 1. */
  function ObjectInitTail(c: MethodDesc): seq<Op> {
    [Ldloc(0), Calli(Standard, Void, [InitThisType(c)] + c.paramTypes), MarkLabel(ReturnLabel), Ldloc(1)]
  }

  function ObjectInitCode(c: MethodDesc): seq<Op> {
    ObjectInitRewrite(c) + AllocateInstance(c.declaringType) + LdargRange(0, |c.paramTypes|) + ObjectInitTail(c) + [Ret]
  }

  /** The stub for a `newobj` instruction: takes the constructor's
      parameters (no receiver) and returns the new instance. */
  method GenerateStubForObjectInitialization(c: MethodDesc) returns (stub: Stub)
    ensures stub.returnType == c.declaringType
    ensures stub.paramTypes == c.paramTypes
    ensures DirectFastPath(c) ==> stub.code == FastPath(|c.paramTypes|, Newobj(c)) && stub.locals == []
    ensures !DirectFastPath(c) ==> stub.code == ObjectInitCode(c) && stub.locals == [IntPtr, c.declaringType]
  {
    var thisType := c.declaringType;
    if IsValueType(thisType) {
      thisType := ByRef(thisType);
    }
    var signatureParamTypes: seq<Ty> := [];
    signatureParamTypes := signatureParamTypes + [thisType];
    signatureParamTypes := signatureParamTypes + c.paramTypes;
    var stubParamTypes := signatureParamTypes[1..];
    assert stubParamTypes == c.paramTypes;
    var n := |signatureParamTypes|;

    var il := new ILGenerator();
    if DirectFastPath(c) {
      EmitForwarding(il, n - 1, Newobj(c));
      return Stub(c.declaringType, stubParamTypes, il.locals, il.code);
    }

    il.DeclareLocal(IntPtr);
    il.DeclareLocal(c.declaringType);
    assert il.locals == [IntPtr, c.declaringType];

    // inject the constructor into the instruction stream
    il.EmitAll([Ldtoken(c), LdtokenType(c.declaringType), CallHelper(GetMethodFromHandle)]);

    // rewrite it and keep its pointer
    il.EmitAll([MarkLabel(RewriteLabel), LdcI4(0), CallHelper(CreateRewriter), CallHelper(Rewrite),
                CallHelper(GetMethodPointer), Stloc(0)]);
    assert il.code == ObjectInitRewrite(c);

    // allocate the instance
    if IsValueType(c.declaringType) {
      il.EmitAll([Ldloca(1), Dup, Initobj(c.declaringType)]);
    } else {
      il.EmitAll([LdtokenType(c.declaringType), CallHelper(GetTypeFromHandle), CallHelper(GetUninitializedObject),
                  Dup, Stloc(1)]);
    }

    assert il.code == ObjectInitRewrite(c) + AllocateInstance(c.declaringType);
    EmitArguments(il, 0, n - 1);
    assert signatureParamTypes == [InitThisType(c)] + c.paramTypes;
    il.EmitAll([Ldloc(0), Calli(Standard, Void, signatureParamTypes), MarkLabel(ReturnLabel), Ldloc(1)]);
    il.Emit(Ret);
    return Stub(c.declaringType, stubParamTypes, il.locals, il.code);
  }

  // ---------------------------------------------------------------------
  // GenerateStubForDirectLoad (Stubs.cs:642-691)
  // ---------------------------------------------------------------------

  function DirectLoadBody(m: MethodDesc): seq<Op> {
    MethodFromHandle(m)
    + [MarkLabel(RewriteLabel), LdcI4(0), CallHelper(CreateRewriter), CallHelper(Rewrite), CallHelper(GetMethodPointer),
       MarkLabel(ReturnLabel)]
  }

  function DirectLoadCode(m: MethodDesc): seq<Op> {
    DirectLoadBody(m) + [Ret]
  }

  /** The stub for an `ldftn` instruction: no parameters, returns a pointer. */
  method GenerateStubForDirectLoad(m: MethodDesc) returns (stub: Stub)
    ensures stub.returnType == IntPtr && stub.paramTypes == [] && stub.locals == []
    ensures DirectFastPath(m) ==> stub.code == FastPath(0, Ldftn(m))
    ensures !DirectFastPath(m) ==> stub.code == DirectLoadCode(m)
  {
    var il := new ILGenerator();
    if DirectFastPath(m) {
      EmitForwarding(il, 0, Ldftn(m));
      return Stub(IntPtr, [], il.locals, il.code);
    }

    // inject the method into the instruction stream
    il.EmitAll([Ldtoken(m), LdtokenType(m.declaringType), CallHelper(GetMethodFromHandle)]);
    assert il.code == MethodFromHandle(m);

    // rewrite it and return its pointer
    il.EmitAll([MarkLabel(RewriteLabel), LdcI4(0), CallHelper(CreateRewriter), CallHelper(Rewrite),
                CallHelper(GetMethodPointer), MarkLabel(ReturnLabel)]);
    il.Emit(Ret);
    return Stub(IntPtr, [], il.locals, il.code);
  }

  // ---------------------------------------------------------------------
  // GenerateStubForVirtualLoad (Stubs.cs:693-744)
  // ---------------------------------------------------------------------

  function VirtualLoadBody(m: MethodDesc): seq<Op> {
    [Ldtoken(m), LdtokenType(m.declaringType), CallHelper(GetMethodFromHandle), Castclass(MethodInfoType), Stloc(0),
     Ldarg(0), Ldloc(0), CallHelper(DevirtualizeMethod), MarkLabel(RewriteLabel), LdcI4(InterfaceFlag(m)),
     CallHelper(CreateRewriter), CallHelper(Rewrite), CallHelper(GetMethodPointer), MarkLabel(ReturnLabel)]
  }

  function VirtualLoadCode(m: MethodDesc): seq<Op> {
    VirtualLoadBody(m) + [Ret]
  }

  /** The stub for an `ldvirtftn` instruction: takes the receiver, returns a pointer. */
  method GenerateStubForVirtualLoad(m: MethodDesc) returns (stub: Stub)
    ensures stub.returnType == IntPtr
    ensures stub.paramTypes == [if IsInterface(m.declaringType) then Object else m.declaringType]
    ensures VirtualFastPath(m) ==> stub.code == FastPath(1, Ldvirtftn(m)) && stub.locals == []
    ensures !VirtualFastPath(m) ==> stub.code == VirtualLoadCode(m) && stub.locals == [MethodInfoType]
  {
    var il := new ILGenerator();
    var paramTypes := [if m.declaringType.Named? && m.declaringType.isInterface then Object else m.declaringType];
    if VirtualFastPath(m) {
      EmitForwarding(il, 1, Ldvirtftn(m));
      return Stub(IntPtr, paramTypes, il.locals, il.code);
    }

    il.DeclareLocal(MethodInfoType);
    assert il.locals == [MethodInfoType];

    // inject the method into the instruction stream
    il.EmitAll([Ldtoken(m), LdtokenType(m.declaringType), CallHelper(GetMethodFromHandle),
                Castclass(MethodInfoType), Stloc(0)]);

    // resolve the virtual method against the receiver's type
    il.EmitAll([Ldarg(0), Ldloc(0), CallHelper(DevirtualizeMethod)]);

    // rewrite the resolved method and return its pointer
    il.EmitAll([MarkLabel(RewriteLabel), if m.declaringType.Named? && m.declaringType.isInterface then LdcI4(1) else LdcI4(0),
                CallHelper(CreateRewriter), CallHelper(Rewrite), CallHelper(GetMethodPointer), MarkLabel(ReturnLabel)]);
    assert il.code == VirtualLoadBody(m);
    il.Emit(Ret);
    return Stub(IntPtr, paramTypes, il.locals, il.code);
  }
}
