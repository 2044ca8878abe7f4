/**
  What the code each generator emits does when it runs: which path it
  takes for a given registry lookup index, what the registry and the
  rewriter are asked, and what is called or returned.
 */
module StubProperties {
  import opened Reflection
  import opened IL
  import opened Resolution
  import opened Stubs

  // ---------------------------------------------------------------------
  // The older constructor stub
  // ---------------------------------------------------------------------

  lemma CtorPrologueFacts(h: nat)
    ensures Straight(CtorPrologue(h)) && Quiet(CtorPrologue(h))
    ensures CallHelper(GetIndexOfMatchingShim) !in CtorPrologue(h)
  {
  }

  lemma CtorLookupFacts()
    ensures Straight(CtorLookup()) && Quiet(CtorLookup())
  {
  }

  lemma CtorLookupOnce()
    ensures LooksUpOnce(CtorLookup(), Ldnull)
  {
    OccursOnceAt(CtorLookup(), 2, CallHelper(GetIndexOfMatchingShim));
    assert CtorLookup()[1] == Ldnull && CtorLookup()[2] == CallHelper(GetIndexOfMatchingShim);
  }

  lemma CtorFront(h: nat)
    ensures Front(CtorPrologue(h) + CtorLookup(), Ldnull)
  {
    CtorPrologueFacts(h);
    CtorLookupFacts();
    CtorLookupOnce();
    FrontJoin(CtorPrologue(h), CtorLookup(), Ldnull);
  }

  lemma CtorReplacementTailOnce(c: MethodDesc)
    ensures CallsOnce(CtorReplacementTail(c), Calli(HasThis, c.declaringType, c.paramTypes))
  {
    OccursOnceAt(CtorReplacementTail(c), 1, Calli(HasThis, c.declaringType, c.paramTypes));
  }

  lemma CtorReplacementEnd(c: MethodDesc, opCode: ConstructorOpCode, forValueType: bool)
    ensures CallsOnce(CtorReplacementTail(c) + CtorWriteBack(c, opCode, forValueType),
                      Calli(HasThis, c.declaringType, c.paramTypes))
    ensures CallHelper(CreateRewriter) !in CtorReplacementTail(c) + CtorWriteBack(c, opCode, forValueType)
    ensures CallHelper(Rewrite) !in CtorReplacementTail(c) + CtorWriteBack(c, opCode, forValueType)
  {
    var call := Calli(HasThis, c.declaringType, c.paramTypes);
    CtorReplacementTailOnce(c);
    OccurrencesAppend(CtorReplacementTail(c), CtorWriteBack(c, opCode, forValueType), call);
    OccurrencesAbsent(CtorWriteBack(c, opCode, forValueType), call);
  }

  lemma CtorReplacementShape(c: MethodDesc, opCode: ConstructorOpCode, forValueType: bool)
    ensures Straight(CtorReplacement(c, opCode, forValueType)) && Unlabelled(CtorReplacement(c, opCode, forValueType))
    ensures CallHelper(GetIndexOfMatchingShim) !in CtorReplacement(c, opCode, forValueType)
  {
    ArgumentsInert(0, |c.paramTypes|);
  }

  lemma CtorReplacementPart(c: MethodDesc, opCode: ConstructorOpCode, forValueType: bool)
    ensures ReplacementPart(CtorReplacement(c, opCode, forValueType), Calli(HasThis, c.declaringType, c.paramTypes))
  {
    var H, A, T, B := CtorReplacementHead(), LdargRange(0, |c.paramTypes|), CtorReplacementTail(c),
                      CtorWriteBack(c, opCode, forValueType);
    ArgumentsInert(0, |c.paramTypes|);
    CtorReplacementEnd(c, opCode, forValueType);
    assert CallHelper(GetShimReplacementMethod) in H && CallHelper(GetShimDelegateTarget) in H;
    ReplacementJoin(H, A, T + B, Calli(HasThis, c.declaringType, c.paramTypes));
    Assoc(H + A, T, B);
    CtorReplacementShape(c, opCode, forValueType);
  }

  /** Allocation, the rewriter's call and the instance argument, as one head. */
  lemma CtorRewriteHeadCalls()
    ensures CallsWith(CtorRewriteHead(), CreateRewriter, Ldloc(1))
    ensures Occurrences(CtorRewriteHead(), CallHelper(CreateRewriter)) == 1
  {
    OccursOnceAt(CtorRewriteHead(), 1, CallHelper(CreateRewriter));
    assert CtorRewriteHead()[0] == Ldloc(1) && CtorRewriteHead()[1] == CallHelper(CreateRewriter);
  }

  lemma CtorAroundRewriter(c: MethodDesc, opCode: ConstructorOpCode, forValueType: bool, h: nat)
    ensures CallHelper(CreateRewriter) !in CtorAllocate(c, opCode, forValueType, h)
    ensures CallHelper(CreateRewriter) !in CtorInstance(opCode, forValueType)
  {
  }

  /** Allocation, the rewriter's call and the instance argument, as one head. */
  lemma CtorRewriteHeadFacts(c: MethodDesc, opCode: ConstructorOpCode, forValueType: bool, h: nat)
    ensures CallsWith(CtorAllocate(c, opCode, forValueType, h) + CtorRewriteHead() + CtorInstance(opCode, forValueType),
                      CreateRewriter, Ldloc(1))
    ensures Occurrences(CtorAllocate(c, opCode, forValueType, h) + CtorRewriteHead() + CtorInstance(opCode, forValueType),
                        CallHelper(CreateRewriter)) == 1
  {
    var A, H, I := CtorAllocate(c, opCode, forValueType, h), CtorRewriteHead(), CtorInstance(opCode, forValueType);
    CtorRewriteHeadCalls();
    CtorAroundRewriter(c, opCode, forValueType, h);
    CallsWithPrefix(A, H, CreateRewriter, Ldloc(1));
    CallsWithSuffix(A + H, I, CreateRewriter, Ldloc(1));
    OccurrencesOfThree(A, H, I, CallHelper(CreateRewriter));
    OccurrencesAbsent(A, CallHelper(CreateRewriter));
    OccurrencesAbsent(I, CallHelper(CreateRewriter));
  }

  lemma CtorRewriteHeadRest(c: MethodDesc, opCode: ConstructorOpCode, forValueType: bool, h: nat)
    ensures CallHelper(Rewrite) in CtorAllocate(c, opCode, forValueType, h) + CtorRewriteHead() + CtorInstance(opCode, forValueType)
    ensures NoIndirect(CtorAllocate(c, opCode, forValueType, h) + CtorRewriteHead() + CtorInstance(opCode, forValueType))
    ensures CallHelper(GetShimReplacementMethod) !in CtorAllocate(c, opCode, forValueType, h) + CtorRewriteHead() + CtorInstance(opCode, forValueType)
    ensures CallHelper(GetShimDelegateTarget) !in CtorAllocate(c, opCode, forValueType, h) + CtorRewriteHead() + CtorInstance(opCode, forValueType)
  {
  }

  lemma CtorRewriteTailFacts(c: MethodDesc, forValueType: bool)
    ensures CallsOnce(CtorRewriteTail(c, forValueType), Calli(Standard, Void, CtorSignature(c, forValueType)))
    ensures CallHelper(GetShimReplacementMethod) !in CtorRewriteTail(c, forValueType)
    ensures CallHelper(GetShimDelegateTarget) !in CtorRewriteTail(c, forValueType)
    ensures CallHelper(CreateRewriter) !in CtorRewriteTail(c, forValueType)
  {
    OccursOnceAt(CtorRewriteTail(c, forValueType), 2, Calli(Standard, Void, CtorSignature(c, forValueType)));
  }

  lemma CtorRewriteShape(c: MethodDesc, opCode: ConstructorOpCode, forValueType: bool)
    ensures Straight(CtorRewrite(c, opCode, forValueType)) && Unlabelled(CtorRewrite(c, opCode, forValueType))
    ensures CallHelper(GetIndexOfMatchingShim) !in CtorRewrite(c, opCode, forValueType)
  {
    ArgumentsInert(0, |CtorPassed(c, opCode, forValueType)|);
  }

  lemma CtorRewritePart(c: MethodDesc, opCode: ConstructorOpCode, forValueType: bool)
    ensures RewritePart(CtorRewrite(c, opCode, forValueType), Ldloc(1), Calli(Standard, Void, CtorSignature(c, forValueType)))
  {
    var h := |CtorPassed(c, opCode, forValueType)|;
    var A, H, I := CtorAllocate(c, opCode, forValueType, h), CtorRewriteHead(), CtorInstance(opCode, forValueType);
    CtorRewriteHeadFacts(c, opCode, forValueType, h);
    CtorRewriteHeadRest(c, opCode, forValueType, h);
    CtorRewriteTailFacts(c, forValueType);
    ArgumentsInert(0, h);
    RewriteJoin(A + H + I, LdargRange(0, h), CtorRewriteTail(c, forValueType), Ldloc(1),
                Calli(Standard, Void, CtorSignature(c, forValueType)));
    CtorRewriteShape(c, opCode, forValueType);
  }

  /** The older constructor stub branches on the lookup result kept in local 3. */
  lemma CtorTestsLookup(c: MethodDesc, opCode: ConstructorOpCode, forValueType: bool)
    ensures BranchTestsLookup(ConstructorStubCode(c, opCode, forValueType), 3)
  {
    var h := |CtorPassed(c, opCode, forValueType)|;
    assert CtorLookup() == [Ldloc(1), Ldnull] + LookupStore(3);
    Assoc(CtorPrologue(h), [Ldloc(1), Ldnull], LookupStore(3));
    CtorReplacementShape(c, opCode, forValueType);
    CtorRewriteShape(c, opCode, forValueType);
    BranchingTestsLookup(CtorPrologue(h) + [Ldloc(1), Ldnull], 3, CtorReplacement(c, opCode, forValueType),
                         CtorRewrite(c, opCode, forValueType), CtorResult(opCode) + [Ret]);
  }

  lemma CtorEpilogue(opCode: ConstructorOpCode, shimIndex: int)
    ensures Epilogue(CtorResult(opCode) + [Ret], shimIndex)
  {
    Unconditional(CtorResult(opCode), shimIndex);
  }

  /**
    The older constructor stub asks the registry once, without a receiver,
    and its only conditional branch tests that result (kept in local 3)
    against -1. A found shim's replacement is called through its delegate target with
    the constructor's own parameters and returns the instance; otherwise
    the rewriter is called with the constructor alone (the op before the
    call loads local 1, the constructor: no interface flag is pushed) and
    the rewritten constructor is called with the full signature.
   */
  lemma ConstructorStubResolution(c: MethodDesc, opCode: ConstructorOpCode, forValueType: bool, shimIndex: int)
    ensures BranchTestsLookup(ConstructorStubCode(c, opCode, forValueType), 3)
    ensures LooksUpOnce(Run(ConstructorStubCode(c, opCode, forValueType), shimIndex), Ldnull)
    ensures shimIndex != -1 ==>
      ReplacementPath(Run(ConstructorStubCode(c, opCode, forValueType), shimIndex),
                      Calli(HasThis, c.declaringType, c.paramTypes))
    ensures shimIndex == -1 ==>
      RewritePath(Run(ConstructorStubCode(c, opCode, forValueType), shimIndex), Ldloc(1),
                  Calli(Standard, Void, CtorSignature(c, forValueType)))
  {
    var h := |CtorPassed(c, opCode, forValueType)|;
    CtorTestsLookup(c, opCode, forValueType);
    CtorFront(h);
    CtorReplacementPart(c, opCode, forValueType);
    CtorRewritePart(c, opCode, forValueType);
    CtorEpilogue(opCode, shimIndex);
    BranchingPaths(CtorPrologue(h) + CtorLookup(), CtorReplacement(c, opCode, forValueType),
                   CtorRewrite(c, opCode, forValueType), CtorResult(opCode) + [Ret], Ldnull,
                   Calli(HasThis, c.declaringType, c.paramTypes), Ldloc(1),
                   Calli(Standard, Void, CtorSignature(c, forValueType)), shimIndex);
  }

  /** For `call`, a found shim's result is written back through argument 0:
      with `stobj` for a value type, with `starg` otherwise. */
  lemma ConstructorStubWritesBack(c: MethodDesc, forValueType: bool, shimIndex: int)
    requires shimIndex != -1
    ensures (if forValueType then Stobj(c.declaringType) else Starg(0))
            in Run(ConstructorStubCode(c, OpCall, forValueType), shimIndex)
  {
    var h := |CtorPassed(c, OpCall, forValueType)|;
    var L, R := CtorPrologue(h) + CtorLookup(), CtorReplacement(c, OpCall, forValueType);
    CtorFront(h);
    CtorReplacementShape(c, OpCall, forValueType);
    CtorRewriteShape(c, OpCall, forValueType);
    CtorEpilogue(OpCall, shimIndex);
    RunBranching(L, R, CtorRewrite(c, OpCall, forValueType), CtorResult(OpCall) + [Ret], shimIndex);
    assert (if forValueType then Stobj(c.declaringType) else Starg(0)) in CtorWriteBack(c, OpCall, forValueType);
  }

  /** A `newobj` stub ends by returning local 0. */
  lemma ConstructorStubReturnsInstance(c: MethodDesc, forValueType: bool)
    ensures ConstructorStubCode(c, OpNewobj, forValueType)[|ConstructorStubCode(c, OpNewobj, forValueType)| - 2..]
            == [Ldloc(0), Ret]
  {
    var h := |CtorPassed(c, OpNewobj, forValueType)|;
    var x := CtorPrologue(h) + CtorLookup() + [Brtrue(RewriteLabel)] + CtorReplacement(c, OpNewobj, forValueType)
             + [Br(ReturnLabel), MarkLabel(RewriteLabel)] + CtorRewrite(c, OpNewobj, forValueType)
             + [MarkLabel(ReturnLabel)];
    assert ConstructorStubCode(c, OpNewobj, forValueType) == x + [Ldloc(0), Ret];
  }

  // ---------------------------------------------------------------------
  // The direct-call stub
  // ---------------------------------------------------------------------

  lemma DirectPrologueFacts(m: MethodDesc)
    ensures Straight(DirectPrologue(m)) && Quiet(DirectPrologue(m))
    ensures CallHelper(GetIndexOfMatchingShim) !in DirectPrologue(m)
  {
  }

  /**
    A direct-call stub of a method with a body asks the registry once,
    passing the instance for a reference-type instance method and null
    otherwise, and its only conditional branch tests that result (kept in
    local 1) against -1. A found shim's replacement is called through its
    delegate target with the stub's signature; otherwise the rewriter is called
    with interface flag 0 and the rewritten method with the same signature.
   */
  lemma DirectCallResolution(m: MethodDesc, shimIndex: int)
    ensures BranchTestsLookup(DirectCallCode(m), 1)
    ensures LooksUpOnce(Run(DirectCallCode(m), shimIndex), DirectLookupReceiver(m))
    ensures shimIndex != -1 ==>
      ReplacementPath(Run(DirectCallCode(m), shimIndex), Calli(HasThis, m.returnType, ThisSlot(m) + m.paramTypes))
    ensures shimIndex == -1 ==>
      RewritePath(Run(DirectCallCode(m), shimIndex), LdcI4(0), Calli(Standard, m.returnType, ThisSlot(m) + m.paramTypes))
  {
    DirectPrologueFacts(m);
    ResolveCodeTestsLookup(DirectPrologue(m), DirectLookupReceiver(m), 0, m.returnType, ThisSlot(m) + m.paramTypes);
    ResolutionPaths(DirectPrologue(m), DirectLookupReceiver(m), 0, m.returnType, ThisSlot(m) + m.paramTypes, shimIndex);
  }

  /** The method is rebuilt from its token before the registry is asked. */
  lemma DirectCallResolvesTokenFirst(m: MethodDesc, shimIndex: int)
    ensures Precedes(Run(DirectCallCode(m), shimIndex), CallHelper(GetMethodFromHandle), CallHelper(GetIndexOfMatchingShim))
  {
    DirectPrologueFacts(m);
    PrologueBeforeLookup(DirectPrologue(m), DirectLookupReceiver(m), 0, m.returnType, ThisSlot(m) + m.paramTypes,
                         shimIndex, CallHelper(GetMethodFromHandle));
  }

  /** On either path every argument is loaded in order, directly before the
      target's pointer and the indirect call. */
  lemma DirectCallLoadsArguments(m: MethodDesc, shimIndex: int)
    ensures shimIndex != -1 ==>
      Contains(Run(DirectCallCode(m), shimIndex),
               LdargRange(0, |ThisSlot(m) + m.paramTypes|) + ReplacementTail(m.returnType, ThisSlot(m) + m.paramTypes))
    ensures shimIndex == -1 ==>
      Contains(Run(DirectCallCode(m), shimIndex),
               LdargRange(0, |ThisSlot(m) + m.paramTypes|) + RewriteTail(m.returnType, ThisSlot(m) + m.paramTypes))
  {
    DirectPrologueFacts(m);
    ArgumentsReachCall(DirectPrologue(m), DirectLookupReceiver(m), 0, m.returnType, ThisSlot(m) + m.paramTypes, shimIndex);
  }

  // ---------------------------------------------------------------------
  // The dynamic virtual-call stub
  // ---------------------------------------------------------------------

  lemma VirtualPrologueFacts(m: MethodDesc)
    ensures Straight(VirtualPrologue(m)) && Quiet(VirtualPrologue(m))
    ensures CallHelper(GetIndexOfMatchingShim) !in VirtualPrologue(m)
  {
  }

  /**
    A virtual-call stub asks the registry once, passing the receiver unless
    the declaring type is a value type, and its only conditional branch
    tests that result (kept in local 1) against -1. A found shim's replacement is
    called with the stub's signature; otherwise the rewriter is called
    with interface flag 1 exactly for an interface method.
   */
  lemma VirtualCallResolution(m: MethodDesc, shimIndex: int)
    ensures BranchTestsLookup(VirtualCallCode(m), 1)
    ensures LooksUpOnce(Run(VirtualCallCode(m), shimIndex), VirtualLookupReceiver(m))
    ensures shimIndex != -1 ==>
      ReplacementPath(Run(VirtualCallCode(m), shimIndex), Calli(HasThis, m.returnType, [VirtualThisType(m)] + m.paramTypes))
    ensures shimIndex == -1 ==>
      RewritePath(Run(VirtualCallCode(m), shimIndex), LdcI4(InterfaceFlag(m)),
                  Calli(Standard, m.returnType, [VirtualThisType(m)] + m.paramTypes))
  {
    VirtualPrologueFacts(m);
    ResolveCodeTestsLookup(VirtualPrologue(m), VirtualLookupReceiver(m), InterfaceFlag(m), m.returnType,
                           [VirtualThisType(m)] + m.paramTypes);
    ResolutionPaths(VirtualPrologue(m), VirtualLookupReceiver(m), InterfaceFlag(m), m.returnType,
                    [VirtualThisType(m)] + m.paramTypes, shimIndex);
  }

  /** The registry is asked about the devirtualized method: the method is
      resolved against the receiver before the lookup, on both paths. */
  lemma VirtualCallDevirtualizesFirst(m: MethodDesc, shimIndex: int)
    ensures Precedes(Run(VirtualCallCode(m), shimIndex), CallHelper(DevirtualizeMethod), CallHelper(GetIndexOfMatchingShim))
  {
    VirtualPrologueFacts(m);
    PrologueBeforeLookup(VirtualPrologue(m), VirtualLookupReceiver(m), InterfaceFlag(m), m.returnType,
                         [VirtualThisType(m)] + m.paramTypes, shimIndex, CallHelper(DevirtualizeMethod));
  }

  /** On either path every argument is loaded in order, directly before the
      target's pointer and the indirect call. */
  lemma VirtualCallLoadsArguments(m: MethodDesc, shimIndex: int)
    ensures shimIndex != -1 ==>
      Contains(Run(VirtualCallCode(m), shimIndex),
               LdargRange(0, 1 + |m.paramTypes|) + ReplacementTail(m.returnType, [VirtualThisType(m)] + m.paramTypes))
    ensures shimIndex == -1 ==>
      Contains(Run(VirtualCallCode(m), shimIndex),
               LdargRange(0, 1 + |m.paramTypes|) + RewriteTail(m.returnType, [VirtualThisType(m)] + m.paramTypes))
  {
    VirtualPrologueFacts(m);
    ArgumentsReachCall(VirtualPrologue(m), VirtualLookupReceiver(m), InterfaceFlag(m), m.returnType,
                       [VirtualThisType(m)] + m.paramTypes, shimIndex);
  }

  // ---------------------------------------------------------------------
  // The constrained virtual-call stub
  // ---------------------------------------------------------------------

  lemma ConstrainedRewriteShape(actual: MethodDesc)
    ensures Straight(ConstrainedRewrite(actual))
    ensures CallHelper(GetIndexOfMatchingShim) !in ConstrainedRewrite(actual)
    ensures CallHelper(GetShimReplacementMethod) !in ConstrainedRewrite(actual)
    ensures CallHelper(GetShimDelegateTarget) !in ConstrainedRewrite(actual)
  {
  }

  lemma ConstrainedRewriteCalls(actual: MethodDesc)
    ensures CallsWith(ConstrainedRewrite(actual), CreateRewriter, LdcI4(0))
    ensures Occurrences(ConstrainedRewrite(actual), CallHelper(CreateRewriter)) == 1
  {
    OccursOnceAt(ConstrainedRewrite(actual), 6, CallHelper(CreateRewriter));
    assert ConstrainedRewrite(actual)[5] == LdcI4(0) && ConstrainedRewrite(actual)[6] == CallHelper(CreateRewriter);
  }

  lemma ConstrainedRewriteOrder(actual: MethodDesc)
    ensures Precedes(ConstrainedRewrite(actual), CallHelper(Rewrite), CallHelper(GetMethodPointer))
  {
    assert ConstrainedRewrite(actual)[7] == CallHelper(Rewrite) && ConstrainedRewrite(actual)[9] == CallHelper(GetMethodPointer);
  }

  lemma ConstrainedRewriteHead(actual: MethodDesc)
    ensures RewritingHead(ConstrainedRewrite(actual), actual, LdcI4(0))
  {
    var rest := ConstrainedRewrite(actual)[3..];
    assert ConstrainedRewrite(actual) == MethodFromHandle(actual) + rest;
    assert rest[3] == CallHelper(CreateRewriter);
    TokenBeforeRewriter(actual, rest);
    ConstrainedRewriteShape(actual);
    ConstrainedRewriteCalls(actual);
    ConstrainedRewriteOrder(actual);
  }

  lemma ReceiverLoadPlain(constrained: Ty, actual: MethodDesc)
    ensures PlainTail(ReceiverLoad(constrained, actual))
  {
  }

  lemma ConstrainedCallTailPlain(m: MethodDesc, constrained: Ty, actual: MethodDesc)
    ensures PlainTail(ConstrainedCallTail(m, constrained, actual))
  {
  }

  lemma ConstrainedRestPlain(m: MethodDesc, constrained: Ty, actual: MethodDesc)
    ensures PlainTail(ReceiverLoad(constrained, actual) + LdargRange(1, 1 + |m.paramTypes|)
                      + ConstrainedCallTail(m, constrained, actual))
  {
    PlainTailArguments(1, 1 + |m.paramTypes|);
    ReceiverLoadPlain(constrained, actual);
    ConstrainedCallTailPlain(m, constrained, actual);
    PlainTailAppend(ReceiverLoad(constrained, actual), LdargRange(1, 1 + |m.paramTypes|));
    PlainTailAppend(ReceiverLoad(constrained, actual) + LdargRange(1, 1 + |m.paramTypes|),
                    ConstrainedCallTail(m, constrained, actual));
  }

  /** The constrained stub never consults the registry: it always runs,
      resolves the token of the devirtualized method `actual` (not of `m`)
      and rewrites that method once with interface flag 0. */
  lemma ConstrainedCallRewrites(m: MethodDesc, constrained: Ty, actual: MethodDesc)
    ensures RewritesUnconditionally(ConstrainedCallCode(m, constrained, actual), actual, LdcI4(0))
  {
    var H, X, Y, Z := ConstrainedRewrite(actual), ReceiverLoad(constrained, actual), LdargRange(1, 1 + |m.paramTypes|),
                      ConstrainedCallTail(m, constrained, actual);
    ConstrainedRewriteHead(actual);
    ConstrainedRestPlain(m, constrained, actual);
    RewritingHeadAppend(H, X + Y + Z, actual, LdcI4(0));
    Assoc3(H, X, Y, Z);
    RewritingStub(H + X + Y + Z, actual, LdcI4(0));
  }

  /** The one indirect call: the rewritten method through its pointer, with
      the receiver slot retyped for what was loaded. */
  lemma ConstrainedCallCallsOnce(m: MethodDesc, constrained: Ty, actual: MethodDesc)
    ensures CallsOnce(ConstrainedCallCode(m, constrained, actual),
                      Calli(Standard, m.returnType, [IndirectReceiverType(constrained, actual)] + m.paramTypes))
  {
    var call := Calli(Standard, m.returnType, [IndirectReceiverType(constrained, actual)] + m.paramTypes);
    var H, X, Y, Z := ConstrainedRewrite(actual), ReceiverLoad(constrained, actual), LdargRange(1, 1 + |m.paramTypes|),
                      ConstrainedCallTail(m, constrained, actual);
    ConstrainedBeforeCall(m, constrained, actual);
    ConstrainedTailOnce(m, constrained, actual);
    CallsOnceAfter(H + X + Y, Z + [Ret], call);
    Assoc(H + X + Y, Z, [Ret]);
  }

  lemma ConstrainedBeforeCall(m: MethodDesc, constrained: Ty, actual: MethodDesc)
    ensures NoIndirect(ConstrainedRewrite(actual) + ReceiverLoad(constrained, actual) + LdargRange(1, 1 + |m.paramTypes|))
  {
    ArgumentsInert(1, 1 + |m.paramTypes|);
  }

  lemma ConstrainedTailOnce(m: MethodDesc, constrained: Ty, actual: MethodDesc)
    ensures CallsOnce(ConstrainedCallTail(m, constrained, actual) + [Ret],
                      Calli(Standard, m.returnType, [IndirectReceiverType(constrained, actual)] + m.paramTypes))
  {
    OccursOnceAt(ConstrainedCallTail(m, constrained, actual) + [Ret], 1,
                 Calli(Standard, m.returnType, [IndirectReceiverType(constrained, actual)] + m.paramTypes));
  }

  /** The receiver as loaded for the indirect call, then arguments 1.. in
      order, then the rewritten method's pointer and the call. */
  lemma ConstrainedCallLoadsArguments(m: MethodDesc, constrained: Ty, actual: MethodDesc)
    ensures Contains(ConstrainedCallCode(m, constrained, actual),
                     ReceiverLoad(constrained, actual) + LdargRange(1, 1 + |m.paramTypes|)
                     + [Ldloc(0), Calli(Standard, m.returnType, [IndirectReceiverType(constrained, actual)] + m.paramTypes)])
  {
    var H, X, Y := ConstrainedRewrite(actual), ReceiverLoad(constrained, actual), LdargRange(1, 1 + |m.paramTypes|);
    var C := [Ldloc(0), Calli(Standard, m.returnType, [IndirectReceiverType(constrained, actual)] + m.paramTypes)];
    var Z := [MarkLabel(ReturnLabel), Ret];
    assert ConstrainedCallTail(m, constrained, actual) + [Ret] == C + Z;
    Assoc(H + X + Y, ConstrainedCallTail(m, constrained, actual), [Ret]);
    Assoc3(H, X, Y, C);
    Assoc(H, X + Y + C, Z);
    Assoc(H + X + Y, C, Z);
    ContainsMiddle(H, X + Y + C, Z);
  }

  // ---------------------------------------------------------------------
  // The object-initialization stub
  // ---------------------------------------------------------------------

  lemma ObjectInitRewriteShape(c: MethodDesc)
    ensures Straight(ObjectInitRewrite(c))
    ensures CallHelper(GetIndexOfMatchingShim) !in ObjectInitRewrite(c)
    ensures CallHelper(GetShimReplacementMethod) !in ObjectInitRewrite(c)
    ensures CallHelper(GetShimDelegateTarget) !in ObjectInitRewrite(c)
  {
  }

  lemma ObjectInitRewriteCalls(c: MethodDesc)
    ensures CallsWith(ObjectInitRewrite(c), CreateRewriter, LdcI4(0))
    ensures Occurrences(ObjectInitRewrite(c), CallHelper(CreateRewriter)) == 1
  {
    OccursOnceAt(ObjectInitRewrite(c), 5, CallHelper(CreateRewriter));
    assert ObjectInitRewrite(c)[4] == LdcI4(0) && ObjectInitRewrite(c)[5] == CallHelper(CreateRewriter);
  }

  lemma ObjectInitRewriteOrder(c: MethodDesc)
    ensures Precedes(ObjectInitRewrite(c), CallHelper(Rewrite), CallHelper(GetMethodPointer))
  {
    assert ObjectInitRewrite(c)[6] == CallHelper(Rewrite) && ObjectInitRewrite(c)[7] == CallHelper(GetMethodPointer);
  }

  lemma ObjectInitRewriteHead(c: MethodDesc)
    ensures RewritingHead(ObjectInitRewrite(c), c, LdcI4(0))
  {
    var rest := ObjectInitRewrite(c)[3..];
    assert ObjectInitRewrite(c) == MethodFromHandle(c) + rest;
    assert rest[2] == CallHelper(CreateRewriter);
    TokenBeforeRewriter(c, rest);
    ObjectInitRewriteShape(c);
    ObjectInitRewriteCalls(c);
    ObjectInitRewriteOrder(c);
  }

  lemma ObjectInitRestPlain(c: MethodDesc)
    ensures PlainTail(AllocateInstance(c.declaringType) + LdargRange(0, |c.paramTypes|) + ObjectInitTail(c))
  {
    PlainTailArguments(0, |c.paramTypes|);
    PlainTailAppend(AllocateInstance(c.declaringType), LdargRange(0, |c.paramTypes|));
    PlainTailAppend(AllocateInstance(c.declaringType) + LdargRange(0, |c.paramTypes|), ObjectInitTail(c));
  }

  /** The object-initialization stub never consults the registry: it always
      runs, resolves the constructor's token and rewrites the constructor
      once with interface flag 0. */
  lemma ObjectInitRewrites(c: MethodDesc)
    ensures RewritesUnconditionally(ObjectInitCode(c), c, LdcI4(0))
  {
    var H, X, Y, Z := ObjectInitRewrite(c), AllocateInstance(c.declaringType), LdargRange(0, |c.paramTypes|),
                      ObjectInitTail(c);
    ObjectInitRewriteHead(c);
    ObjectInitRestPlain(c);
    RewritingHeadAppend(H, X + Y + Z, c, LdcI4(0));
    Assoc3(H, X, Y, Z);
    RewritingStub(H + X + Y + Z, c, LdcI4(0));
  }

  /** The op that brings the new instance into existence. */
  function AllocationOp(t: Ty): Op {
    if IsValueType(t) then Initobj(t) else CallHelper(GetUninitializedObject)
  }

  /** The instance is allocated before the constructor is called on it, and
      the allocation, which leaves a copy of the instance on the stack, is
      directly followed by the argument loads, the pointer and the `void`
      call: nothing else is pushed between the instance and the arguments. */
  lemma ObjectInitAllocatesFirst(c: MethodDesc)
    ensures Precedes(ObjectInitCode(c), AllocationOp(c.declaringType),
                     Calli(Standard, Void, [InitThisType(c)] + c.paramTypes))
    ensures Contains(ObjectInitCode(c), AllocateInstance(c.declaringType) + LdargRange(0, |c.paramTypes|)
                     + [Ldloc(0), Calli(Standard, Void, [InitThisType(c)] + c.paramTypes)])
  {
    ObjectInitAllocationReachesCall(c);
    var H, X, Y, Z := ObjectInitRewrite(c), AllocateInstance(c.declaringType), LdargRange(0, |c.paramTypes|),
                      ObjectInitTail(c);
    assert AllocationOp(c.declaringType) in H + X;
    assert Z[1] == Calli(Standard, Void, [InitThisType(c)] + c.paramTypes);
    PrecedesAcross(H + X, Y + Z + [Ret], AllocationOp(c.declaringType), Z[1]);
    Assoc3(H + X, Y, Z, [Ret]);
  }

  lemma ObjectInitAllocationReachesCall(c: MethodDesc)
    ensures Contains(ObjectInitCode(c), AllocateInstance(c.declaringType) + LdargRange(0, |c.paramTypes|)
                     + [Ldloc(0), Calli(Standard, Void, [InitThisType(c)] + c.paramTypes)])
  {
    var H, X, Y := ObjectInitRewrite(c), AllocateInstance(c.declaringType), LdargRange(0, |c.paramTypes|);
    var C := [Ldloc(0), Calli(Standard, Void, [InitThisType(c)] + c.paramTypes)];
    var Z := [MarkLabel(ReturnLabel), Ldloc(1), Ret];
    assert ObjectInitTail(c) + [Ret] == C + Z;
    Assoc(H + X + Y, ObjectInitTail(c), [Ret]);
    Assoc3(H, X, Y, C);
    Assoc(H, X + Y + C, Z);
    Assoc(H + X + Y, C, Z);
    ContainsMiddle(H, X + Y + C, Z);
  }

  /** The stub returns local 1, which the allocation fills: through its
      address for a value type, by a store otherwise. */
  lemma ObjectInitReturnsInstance(c: MethodDesc)
    ensures ObjectInitCode(c)[|ObjectInitCode(c)| - 2..] == [Ldloc(1), Ret]
    ensures (if IsValueType(c.declaringType) then Ldloca(1) else Stloc(1)) in ObjectInitCode(c)
  {
    var x := ObjectInitRewrite(c) + AllocateInstance(c.declaringType) + LdargRange(0, |c.paramTypes|);
    assert ObjectInitCode(c) == x + [Ldloc(0), Calli(Standard, Void, [InitThisType(c)] + c.paramTypes),
                                     MarkLabel(ReturnLabel)] + [Ldloc(1), Ret];
    assert (if IsValueType(c.declaringType) then Ldloca(1) else Stloc(1)) in AllocateInstance(c.declaringType);
  }

  /** The constructor's arguments are loaded in order, directly before the
      rewritten constructor's pointer and the `void` call. */
  lemma ObjectInitLoadsArguments(c: MethodDesc)
    ensures Contains(ObjectInitCode(c), LdargRange(0, |c.paramTypes|)
                     + [Ldloc(0), Calli(Standard, Void, [InitThisType(c)] + c.paramTypes)])
  {
    var H, Y := ObjectInitRewrite(c) + AllocateInstance(c.declaringType), LdargRange(0, |c.paramTypes|);
    var C := [Ldloc(0), Calli(Standard, Void, [InitThisType(c)] + c.paramTypes)];
    var Z := [MarkLabel(ReturnLabel), Ldloc(1), Ret];
    assert ObjectInitTail(c) + [Ret] == C + Z;
    Assoc(H + Y, ObjectInitTail(c), [Ret]);
    Assoc(H, Y, C);
    Assoc(H + Y, C, Z);
    Assoc(H, Y + C, Z);
    ContainsMiddle(H, Y + C, Z);
  }

  // ---------------------------------------------------------------------
  // The load stubs
  // ---------------------------------------------------------------------

  lemma DirectLoadBodyShape(m: MethodDesc)
    ensures Straight(DirectLoadBody(m))
    ensures CallHelper(GetIndexOfMatchingShim) !in DirectLoadBody(m)
    ensures CallHelper(GetShimReplacementMethod) !in DirectLoadBody(m)
    ensures CallHelper(GetShimDelegateTarget) !in DirectLoadBody(m)
  {
  }

  lemma DirectLoadBodyCalls(m: MethodDesc)
    ensures CallsWith(DirectLoadBody(m), CreateRewriter, LdcI4(0))
    ensures Occurrences(DirectLoadBody(m), CallHelper(CreateRewriter)) == 1
  {
    OccursOnceAt(DirectLoadBody(m), 5, CallHelper(CreateRewriter));
    assert DirectLoadBody(m)[4] == LdcI4(0) && DirectLoadBody(m)[5] == CallHelper(CreateRewriter);
  }

  lemma DirectLoadBodyOrder(m: MethodDesc)
    ensures Precedes(DirectLoadBody(m), CallHelper(Rewrite), CallHelper(GetMethodPointer))
  {
    assert DirectLoadBody(m)[6] == CallHelper(Rewrite) && DirectLoadBody(m)[7] == CallHelper(GetMethodPointer);
  }

  lemma DirectLoadHead(m: MethodDesc)
    ensures RewritingHead(DirectLoadBody(m), m, LdcI4(0))
  {
    var rest := DirectLoadBody(m)[3..];
    assert DirectLoadBody(m) == MethodFromHandle(m) + rest;
    assert rest[2] == CallHelper(CreateRewriter);
    TokenBeforeRewriter(m, rest);
    DirectLoadBodyShape(m);
    DirectLoadBodyCalls(m);
    DirectLoadBodyOrder(m);
  }

  /** The direct-load stub never consults the registry, resolves the
      method's token and rewrites the method once with interface flag 0. */
  lemma DirectLoadRewrites(m: MethodDesc)
    ensures RewritesUnconditionally(DirectLoadCode(m), m, LdcI4(0))
  {
    DirectLoadHead(m);
    RewritingStub(DirectLoadBody(m), m, LdcI4(0));
  }

  /** What the load stubs return: the pointer of the rewritten method. */
  ghost predicate ReturnsPointer(code: seq<Op>) {
    |code| >= 3 && code[|code| - 3..] == [CallHelper(GetMethodPointer), MarkLabel(ReturnLabel), Ret] && NoIndirect(code)
  }

  lemma DirectLoadReturnsPointer(m: MethodDesc)
    ensures ReturnsPointer(DirectLoadCode(m))
  {
  }

  lemma VirtualLoadBodyShape(m: MethodDesc)
    ensures Straight(VirtualLoadBody(m))
    ensures CallHelper(GetIndexOfMatchingShim) !in VirtualLoadBody(m)
    ensures CallHelper(GetShimReplacementMethod) !in VirtualLoadBody(m)
    ensures CallHelper(GetShimDelegateTarget) !in VirtualLoadBody(m)
  {
  }

  lemma VirtualLoadBodyCalls(m: MethodDesc)
    ensures CallsWith(VirtualLoadBody(m), CreateRewriter, LdcI4(InterfaceFlag(m)))
    ensures Occurrences(VirtualLoadBody(m), CallHelper(CreateRewriter)) == 1
  {
    OccursOnceAt(VirtualLoadBody(m), 10, CallHelper(CreateRewriter));
    assert VirtualLoadBody(m)[9] == LdcI4(InterfaceFlag(m)) && VirtualLoadBody(m)[10] == CallHelper(CreateRewriter);
  }

  lemma VirtualLoadBodyOrder(m: MethodDesc)
    ensures Precedes(VirtualLoadBody(m), CallHelper(Rewrite), CallHelper(GetMethodPointer))
  {
    assert VirtualLoadBody(m)[11] == CallHelper(Rewrite) && VirtualLoadBody(m)[12] == CallHelper(GetMethodPointer);
  }

  lemma VirtualLoadHead(m: MethodDesc)
    ensures RewritingHead(VirtualLoadBody(m), m, LdcI4(InterfaceFlag(m)))
  {
    var rest := VirtualLoadBody(m)[3..];
    assert VirtualLoadBody(m) == MethodFromHandle(m) + rest;
    assert rest[7] == CallHelper(CreateRewriter);
    TokenBeforeRewriter(m, rest);
    VirtualLoadBodyShape(m);
    VirtualLoadBodyCalls(m);
    VirtualLoadBodyOrder(m);
  }

  /** The virtual-load stub never consults the registry, resolves the
      method's token and rewrites the (devirtualized) method once, with
      interface flag 1 exactly for an interface method. */
  lemma VirtualLoadRewrites(m: MethodDesc)
    ensures RewritesUnconditionally(VirtualLoadCode(m), m, LdcI4(InterfaceFlag(m)))
  {
    VirtualLoadHead(m);
    RewritingStub(VirtualLoadBody(m), m, LdcI4(InterfaceFlag(m)));
  }

  /** The method is resolved against the receiver before it is rewritten,
      and the pointer of the result is returned. */
  lemma VirtualLoadDevirtualizesFirst(m: MethodDesc)
    ensures Precedes(VirtualLoadCode(m), CallHelper(DevirtualizeMethod), CallHelper(CreateRewriter))
    ensures ReturnsPointer(VirtualLoadCode(m))
  {
    assert VirtualLoadCode(m)[7] == CallHelper(DevirtualizeMethod) && VirtualLoadCode(m)[10] == CallHelper(CreateRewriter);
  }

  // ---------------------------------------------------------------------
  // The fast path of every generator
  // ---------------------------------------------------------------------

  /** A fast-path stub never consults the registry or the rewriter: it runs
      every op, forwards once to the original, and makes no indirect call. */
  lemma FastPathForwards(n: nat, forward: Op, shimIndex: int)
    requires IsForward(forward)
    ensures Run(FastPath(n, forward), shimIndex) == FastPath(n, forward)
    ensures Occurrences(FastPath(n, forward), forward) == 1
    ensures forall op | op in FastPath(n, forward) :: !op.CallHelper? && !op.Calli?
  {
    FastPathRuns(n, forward, shimIndex);
    FastPathForwardsOnce(n, forward);
    FastPathNoHelpers(n, forward);
  }
}
