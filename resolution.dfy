/**
  What the resolving stubs have in common: the instruction segments they
  share, the branching layout (lookup, replacement path, rewrite path), and
  what a run of such a stub does for a given registry lookup result.
 */
module Resolution {
  import opened Reflection
  import opened IL

  // ---------------------------------------------------------------------
  // Segments
  // ---------------------------------------------------------------------

  /** Registry lookup with receiver `recv`, leaving `index == -1` on the stack. */
  function ShimLookup(recv: Op): seq<Op> {
    [Ldloc(0), recv, CallHelper(GetIndexOfMatchingShim), Stloc(1), Ldloc(1), LdcI4(-1), Ceq]
  }

  /** Ldtoken method; Ldtoken declaring type; call GetMethodFromHandle. */
  function MethodFromHandle(m: MethodDesc): seq<Op> {
    [Ldtoken(m), LdtokenType(m.declaringType), CallHelper(GetMethodFromHandle)]
  }

  /** The lookup's result stored to local `k`, reloaded and compared with -1. */
  function LookupStore(k: nat): seq<Op> {
    [CallHelper(GetIndexOfMatchingShim), Stloc(k), Ldloc(k), LdcI4(-1), Ceq]
  }

  /** The stored, reloaded and compared lookup result, then the branch on it. */
  function LookupTest(k: nat): seq<Op> {
    LookupStore(k) + [Brtrue(RewriteLabel)]
  }

  /** Fetch the shim's replacement, its pointer and its delegate target. */
  function ReplacementHead(): seq<Op> {
    [Ldloc(1), CallHelper(GetShimReplacementMethod), Stloc(0), Ldloc(0), CallHelper(GetMethodPointer),
     Stloc(2), Ldloc(1), CallHelper(GetShimDelegateTarget)]
  }

  /** Call the replacement, with the delegate target as its implicit first argument. */
  function ReplacementTail(ret: Ty, sig: seq<Ty>): seq<Op> {
    [Ldloc(2), Calli(HasThis, ret, sig)]
  }

  /** The replacement path: every argument, in order, goes to the replacement. */
  function ReplacementCall(ret: Ty, sig: seq<Ty>): seq<Op> {
    ReplacementHead() + LdargRange(0, |sig|) + ReplacementTail(ret, sig)
  }

  /** Have the rewriter produce the instrumented method (interface flag `flag`). */
  function RewriteHead(flag: int): seq<Op> {
    [Ldloc(0), LdcI4(flag), CallHelper(CreateRewriter), CallHelper(Rewrite), Castclass(MethodInfoType), Stloc(0)]
  }

  /** Call the rewritten method through its pointer. */
  function RewriteTail(ret: Ty, sig: seq<Ty>): seq<Op> {
    [Ldloc(0), CallHelper(GetMethodPointer), Stloc(0), Ldloc(0), Calli(Standard, ret, sig)]
  }

  /** The rewrite path: every argument, in order, goes to the rewritten method. */
  function RewriteCall(flag: int, ret: Ty, sig: seq<Ty>): seq<Op> {
    RewriteHead(flag) + LdargRange(0, |sig|) + RewriteTail(ret, sig)
  }

  /** The layout of every resolving stub: `front` ends with the lookup, the
      branch on `index == -1` skips `replacement`, whose `br` skips
      `rewrite`; both meet at the return label before `epilogue`. */
  function Branching(front: seq<Op>, replacement: seq<Op>, rewrite: seq<Op>, epilogue: seq<Op>): seq<Op> {
    front + [Brtrue(RewriteLabel)] + replacement + [Br(ReturnLabel), MarkLabel(RewriteLabel)]
    + rewrite + [MarkLabel(ReturnLabel)] + epilogue
  }

  /** The general path of the direct-call and dynamic virtual-call stubs:
      `prologue` leaves the method in local 0, then come the lookup with
      receiver `recv`, the replacement path, the rewrite path (interface
      flag `flag`) and the return. */
  function ResolveCode(prologue: seq<Op>, recv: Op, flag: int, ret: Ty, sig: seq<Ty>): seq<Op> {
    Branching(prologue + ShimLookup(recv), ReplacementCall(ret, sig), RewriteCall(flag, ret, sig), [Ret])
  }

  /** The ops run when the lookup found a shim. */
  function ReplacementTrace(front: seq<Op>, replacement: seq<Op>, epilogue: seq<Op>): seq<Op> {
    front + [Brtrue(RewriteLabel)] + replacement + [Br(ReturnLabel)] + epilogue
  }

  /** The ops run when the lookup returned -1. */
  function RewriteTrace(front: seq<Op>, rewrite: seq<Op>, epilogue: seq<Op>): seq<Op> {
    front + [Brtrue(RewriteLabel)] + rewrite + [MarkLabel(ReturnLabel)] + epilogue
  }

  // ---------------------------------------------------------------------
  // Properties of runs
  // ---------------------------------------------------------------------

  /** The helpers that tell the two paths apart. */
  predicate PathHelper(h: Helper) {
    h == CreateRewriter || h == Rewrite || h == GetShimReplacementMethod || h == GetShimDelegateTarget
  }

  /** Code that takes neither path: no indirect call and no path helper. */
  ghost predicate Quiet(code: seq<Op>) {
    forall op | op in code :: !op.Calli? && !(op.CallHelper? && PathHelper(op.helper))
  }

  /** The registry is asked exactly once, with receiver `recv`. */
  ghost predicate LooksUpOnce(t: seq<Op>, recv: Op) {
    CallsWith(t, GetIndexOfMatchingShim, recv) && Occurrences(t, CallHelper(GetIndexOfMatchingShim)) == 1
  }

  /** A run that found a shim: it fetches the replacement and its delegate
      target, makes exactly one indirect call, `call`, and never calls the
      rewriter. */
  ghost predicate ReplacementPath(t: seq<Op>, call: Op) {
    && CallHelper(GetShimReplacementMethod) in t
    && CallHelper(GetShimDelegateTarget) in t
    && CallsOnce(t, call)
    && CallHelper(CreateRewriter) !in t
    && CallHelper(Rewrite) !in t
  }

  /** A run that found no shim: it calls the rewriter once, right after
      pushing `arg`, makes exactly one indirect call, `call`, and never
      touches the shim's replacement. */
  ghost predicate RewritePath(t: seq<Op>, arg: Op, call: Op) {
    && CallsWith(t, CreateRewriter, arg)
    && Occurrences(t, CallHelper(CreateRewriter)) == 1
    && CallHelper(Rewrite) in t
    && CallsOnce(t, call)
    && CallHelper(GetShimReplacementMethod) !in t
    && CallHelper(GetShimDelegateTarget) !in t
  }

  /** Code with no label. */
  ghost predicate Unlabelled(code: seq<Op>) {
    forall op | op in code :: !op.MarkLabel?
  }

  /** A stretch with no control transfer, label, indirect call or helper. */
  ghost predicate Inert(code: seq<Op>) {
    forall op | op in code :: !IsControl(op) && !op.MarkLabel? && !op.Calli? && !op.CallHelper?
  }

  lemma ArgumentsInert(lo: nat, hi: nat)
    ensures Inert(LdargRange(lo, hi))
  {
    LdargRangeOnlyLoads(lo, hi);
  }

  // --- running the layout -------------------------------------------------

  /** Regroup a seven-part concatenation to the right. */
  lemma RightNest(a: seq<Op>, b: seq<Op>, c: seq<Op>, d: seq<Op>, e: seq<Op>, f: seq<Op>, g: seq<Op>)
    ensures a + b + c + d + e + f + g == a + (b + (c + (d + (e + (f + g)))))
  {
    Assoc(a + b + c + d + e, f, g);
    Assoc(a + b + c + d, e, f + g);
    Assoc(a + b + c, d, e + (f + g));
    Assoc(a + b, c, d + (e + (f + g)));
    Assoc(a, b, c + (d + (e + (f + g))));
  }

  /** Regroup a five-part concatenation to the right. */
  lemma RightNest5(a: seq<Op>, b: seq<Op>, c: seq<Op>, d: seq<Op>, e: seq<Op>)
    ensures a + b + c + d + e == a + (b + (c + (d + e)))
  {
    Assoc(a + b + c, d, e);
    Assoc(a + b, c, d + e);
    Assoc(a, b, c + (d + e));
  }

  /** Running a single non-control op then the rest. */
  lemma RunStep(op: Op, rest: seq<Op>, shimIndex: int)
    requires !IsControl(op)
    ensures Run([op] + rest, shimIndex) == [op] + Run(rest, shimIndex)
  {
    assert ([op] + rest)[1..] == rest;
  }

  /** With no shim the branch skips the replacement path. */
  lemma RunRewriteBranch(L: seq<Op>, R: seq<Op>, W: seq<Op>, E: seq<Op>, shimIndex: int)
    requires shimIndex == -1 && Straight(L) && Straight(W) && MarkLabel(RewriteLabel) !in R
    requires Run(E, shimIndex) == E
    ensures Run(Branching(L, R, W, E), shimIndex) == RewriteTrace(L, W, E)
  {
    var B, K := [Brtrue(RewriteLabel)], [MarkLabel(ReturnLabel)];
    var M := [Br(ReturnLabel), MarkLabel(RewriteLabel)];
    var Z := W + (K + E);
    var Y := R + (M + Z);
    RightNest(L, B, R, M, W, K, E);
    // the branch is taken: skip to just past the rewrite label
    assert M == [Br(ReturnLabel)] + [MarkLabel(RewriteLabel)];
    Assoc(R, [Br(ReturnLabel)], [MarkLabel(RewriteLabel)]);
    Assoc(R, M, Z);
    SkipPast(R + [Br(ReturnLabel)], RewriteLabel, Z);
    RunStraight(L, B + Y, shimIndex);
    assert (B + Y)[1..] == Y;
    RunStraight(W, K + E, shimIndex);
    RunStep(MarkLabel(ReturnLabel), E, shimIndex);
    RightNest5(L, B, W, K, E);
  }

  /** With a shim the branch falls through and the `br` skips the rewrite path. */
  lemma RunReplacementBranch(L: seq<Op>, R: seq<Op>, W: seq<Op>, E: seq<Op>, shimIndex: int)
    requires shimIndex != -1 && Straight(L) && Straight(R) && MarkLabel(ReturnLabel) !in W
    requires Run(E, shimIndex) == E
    ensures Run(Branching(L, R, W, E), shimIndex) == ReplacementTrace(L, R, E)
  {
    var B, K := [Brtrue(RewriteLabel)], [MarkLabel(ReturnLabel)];
    var M := [Br(ReturnLabel), MarkLabel(RewriteLabel)];
    var V := [MarkLabel(RewriteLabel)] + (W + (K + E));
    var Y := R + (M + (W + (K + E)));
    RightNest(L, B, R, M, W, K, E);
    RunStraight(L, [Brtrue(RewriteLabel)] + Y, shimIndex);
    assert (B + Y)[1..] == Y;
    RunStraight(R, M + (W + (K + E)), shimIndex);
    // the `br` skips to just past the return label
    assert M == [Br(ReturnLabel)] + [MarkLabel(RewriteLabel)];
    Assoc([Br(ReturnLabel)], [MarkLabel(RewriteLabel)], W + (K + E));
    assert ([Br(ReturnLabel)] + V)[1..] == V;
    Assoc([MarkLabel(RewriteLabel)] + W, K, E);
    Assoc([MarkLabel(RewriteLabel)], W, K + E);
    SkipPast([MarkLabel(RewriteLabel)] + W, ReturnLabel, E);
    RightNest5(L, B, R, [Br(ReturnLabel)], E);
  }

  /** Which ops a resolving stub runs, for each lookup result. */
  lemma RunBranching(L: seq<Op>, R: seq<Op>, W: seq<Op>, E: seq<Op>, shimIndex: int)
    requires Straight(L) && Straight(R) && Straight(W) && Unlabelled(R) && Unlabelled(W)
    requires Run(E, shimIndex) == E
    ensures Run(Branching(L, R, W, E), shimIndex)
            == if shimIndex == -1 then RewriteTrace(L, W, E) else ReplacementTrace(L, R, E)
  {
    if shimIndex == -1 {
      RunRewriteBranch(L, R, W, E, shimIndex);
    } else {
      RunReplacementBranch(L, R, W, E, shimIndex);
    }
  }

  // --- the two traces -----------------------------------------------------

  /** Appending code without a lookup keeps a single lookup. */
  lemma LooksUpOnceAppend(a: seq<Op>, b: seq<Op>, recv: Op)
    requires LooksUpOnce(a, recv) && CallHelper(GetIndexOfMatchingShim) !in b
    ensures LooksUpOnce(a + b, recv)
  {
    CallsWithSuffix(a, b, GetIndexOfMatchingShim, recv);
    OccurrencesAppend(a, b, CallHelper(GetIndexOfMatchingShim));
    OccurrencesAbsent(b, CallHelper(GetIndexOfMatchingShim));
  }

  /** Both traces keep the front's single lookup. */
  lemma TracesLookUpOnce(L: seq<Op>, R: seq<Op>, W: seq<Op>, E: seq<Op>, recv: Op)
    requires LooksUpOnce(L, recv)
    requires CallHelper(GetIndexOfMatchingShim) !in R
    requires CallHelper(GetIndexOfMatchingShim) !in W
    requires CallHelper(GetIndexOfMatchingShim) !in E
    ensures LooksUpOnce(ReplacementTrace(L, R, E), recv)
    ensures LooksUpOnce(RewriteTrace(L, W, E), recv)
  {
    LooksUpOnceAppend(L, [Brtrue(RewriteLabel)], recv);
    LooksUpOnceAppend(L + [Brtrue(RewriteLabel)], R, recv);
    LooksUpOnceAppend(L + [Brtrue(RewriteLabel)] + R, [Br(ReturnLabel)], recv);
    LooksUpOnceAppend(L + [Brtrue(RewriteLabel)] + R + [Br(ReturnLabel)], E, recv);
    LooksUpOnceAppend(L + [Brtrue(RewriteLabel)], W, recv);
    LooksUpOnceAppend(L + [Brtrue(RewriteLabel)] + W, [MarkLabel(ReturnLabel)], recv);
    LooksUpOnceAppend(L + [Brtrue(RewriteLabel)] + W + [MarkLabel(ReturnLabel)], E, recv);
  }

  lemma QuietOccurrences(a: seq<Op>, op: Op)
    requires Quiet(a) && (op.Calli? || (op.CallHelper? && PathHelper(op.helper)))
    ensures Occurrences(a, op) == 0
  {
  }

  /** Occurrences over a three-part concatenation. */
  lemma OccurrencesOfThree(a: seq<Op>, b: seq<Op>, c: seq<Op>, op: Op)
    ensures Occurrences(a + b + c, op) == Occurrences(a, op) + Occurrences(b, op) + Occurrences(c, op)
  {
    OccurrencesAppend(a + b, c, op);
    OccurrencesAppend(a, b, op);
  }

  /** A path segment framed by quiet code is still that path. */
  lemma ReplacementPathFramed(x: seq<Op>, R: seq<Op>, y: seq<Op>, call: Op)
    requires Quiet(x) && Quiet(y) && ReplacementPath(R, call) && call.Calli?
    ensures ReplacementPath(x + R + y, call)
  {
    OccurrencesOfThree(x, R, y, call);
    QuietOccurrences(x, call);
    QuietOccurrences(y, call);
  }

  lemma RewritePathFramed(x: seq<Op>, W: seq<Op>, y: seq<Op>, arg: Op, call: Op)
    requires Quiet(x) && Quiet(y) && RewritePath(W, arg, call) && call.Calli?
    ensures RewritePath(x + W + y, arg, call)
  {
    OccurrencesOfThree(x, W, y, call);
    QuietOccurrences(x, call);
    QuietOccurrences(y, call);
    OccurrencesOfThree(x, W, y, CallHelper(CreateRewriter));
    QuietOccurrences(x, CallHelper(CreateRewriter));
    QuietOccurrences(y, CallHelper(CreateRewriter));
    CallsWithPrefix(x, W, CreateRewriter, arg);
    CallsWithSuffix(x + W, y, CreateRewriter, arg);
  }

  /** The replacement trace takes the replacement path of its middle part. */
  lemma ReplacementTracePath(L: seq<Op>, R: seq<Op>, E: seq<Op>, call: Op)
    requires Quiet(L) && Quiet(E) && ReplacementPath(R, call) && call.Calli?
    ensures ReplacementPath(ReplacementTrace(L, R, E), call)
  {
    assert Quiet(L + [Brtrue(RewriteLabel)]) && Quiet([Br(ReturnLabel)] + E);
    ReplacementPathFramed(L + [Brtrue(RewriteLabel)], R, [Br(ReturnLabel)] + E, call);
    RightNest5(L, [Brtrue(RewriteLabel)], R, [Br(ReturnLabel)], E);
    Assoc(L + [Brtrue(RewriteLabel)], R, [Br(ReturnLabel)] + E);
    Assoc(L, [Brtrue(RewriteLabel)], R + ([Br(ReturnLabel)] + E));
  }

  /** The rewrite trace takes the rewrite path of its middle part. */
  lemma RewriteTracePath(L: seq<Op>, W: seq<Op>, E: seq<Op>, arg: Op, call: Op)
    requires Quiet(L) && Quiet(E) && RewritePath(W, arg, call) && call.Calli?
    ensures RewritePath(RewriteTrace(L, W, E), arg, call)
  {
    assert Quiet(L + [Brtrue(RewriteLabel)]) && Quiet([MarkLabel(ReturnLabel)] + E);
    RewritePathFramed(L + [Brtrue(RewriteLabel)], W, [MarkLabel(ReturnLabel)] + E, arg, call);
    RightNest5(L, [Brtrue(RewriteLabel)], W, [MarkLabel(ReturnLabel)], E);
    Assoc(L + [Brtrue(RewriteLabel)], W, [MarkLabel(ReturnLabel)] + E);
    Assoc(L, [Brtrue(RewriteLabel)], W + ([MarkLabel(ReturnLabel)] + E));
  }

  /** A front: straight code, taking neither path, that asks the registry once. */
  ghost predicate Front(L: seq<Op>, recv: Op) {
    Straight(L) && Quiet(L) && LooksUpOnce(L, recv)
  }

  /** A replacement path that can sit between the branch and the `br`. */
  ghost predicate ReplacementPart(R: seq<Op>, call: Op) {
    call.Calli? && Straight(R) && Unlabelled(R) && CallHelper(GetIndexOfMatchingShim) !in R && ReplacementPath(R, call)
  }

  /** A rewrite path that can sit between the two labels. */
  ghost predicate RewritePart(W: seq<Op>, arg: Op, call: Op) {
    call.Calli? && Straight(W) && Unlabelled(W) && CallHelper(GetIndexOfMatchingShim) !in W && RewritePath(W, arg, call)
  }

  /** What follows the return label: it runs to its end and takes no path. */
  ghost predicate Epilogue(E: seq<Op>, shimIndex: int) {
    Run(E, shimIndex) == E && Quiet(E) && CallHelper(GetIndexOfMatchingShim) !in E
  }

  /**
    The resolution protocol of every resolving stub. Whatever the lookup
    returns, the registry is asked once, with `recv`; an index of -1
    selects the rewrite path, any other index the replacement path.
   */
  lemma BranchingPaths(L: seq<Op>, R: seq<Op>, W: seq<Op>, E: seq<Op>, recv: Op,
                       callR: Op, arg: Op, callW: Op, shimIndex: int)
    requires Front(L, recv) && ReplacementPart(R, callR) && RewritePart(W, arg, callW) && Epilogue(E, shimIndex)
    ensures LooksUpOnce(Run(Branching(L, R, W, E), shimIndex), recv)
    ensures shimIndex != -1 ==> ReplacementPath(Run(Branching(L, R, W, E), shimIndex), callR)
    ensures shimIndex == -1 ==> RewritePath(Run(Branching(L, R, W, E), shimIndex), arg, callW)
  {
    RunBranching(L, R, W, E, shimIndex);
    TracesLookUpOnce(L, R, W, E, recv);
    if shimIndex == -1 {
      RewriteTracePath(L, W, E, arg, callW);
    } else {
      ReplacementTracePath(L, R, E, callR);
    }
  }

  // --- the branch test ---------------------------------------------------

  /** The only conditional branch of `code` reads the lookup's own result:
      the index is stored to local `k`, reloaded and compared with -1
      directly before it. This is the condition `Run` takes `Brtrue` on. */
  ghost predicate BranchTestsLookup(code: seq<Op>, k: nat) {
    && Contains(code, LookupTest(k))
    && Occurrences(code, Brtrue(RewriteLabel)) == 1
    && (forall op | op in code && op.Brtrue? :: op == Brtrue(RewriteLabel))
  }

  /** The test stretch sits at the joint of the front and the branch. */
  lemma BranchingContainsTest(x: seq<Op>, k: nat, R: seq<Op>, W: seq<Op>, E: seq<Op>)
    ensures Contains(Branching(x + LookupStore(k), R, W, E), LookupTest(k))
  {
    var F, s := x + LookupStore(k) + [Brtrue(RewriteLabel)], LookupTest(k);
    var M, K := [Br(ReturnLabel), MarkLabel(RewriteLabel)], [MarkLabel(ReturnLabel)];
    ContainsMiddle(x, s, []);
    assert x + s + [] == F;
    ContainsPrefix(F, R, s);
    ContainsPrefix(F + R, M, s);
    ContainsPrefix(F + R + M, W, s);
    ContainsPrefix(F + R + M + W, K, s);
    ContainsPrefix(F + R + M + W + K, E, s);
  }

  /** A branching layout with straight parts has a single `brtrue`. */
  lemma BranchingBranchesOnce(F: seq<Op>, R: seq<Op>, W: seq<Op>, E: seq<Op>)
    requires Straight(F) && Straight(R) && Straight(W) && forall op | op in E :: !op.Brtrue?
    ensures Occurrences(Branching(F, R, W, E), Brtrue(RewriteLabel)) == 1
    ensures forall op | op in Branching(F, R, W, E) && op.Brtrue? :: op == Brtrue(RewriteLabel)
  {
    var b := Brtrue(RewriteLabel);
    var M, K := [Br(ReturnLabel), MarkLabel(RewriteLabel)], [MarkLabel(ReturnLabel)];
    var tail := R + (M + (W + (K + E)));
    assert b !in F && b !in tail;
    RightNest(F, [b], R, M, W, K, E);
    Assoc(F, [b], tail);
    OccurrencesOfThree(F, [b], tail, b);
    OccurrencesAbsent(F, b);
    OccurrencesAbsent(tail, b);
  }

  /** A branching layout whose front ends with the stored and compared
      lookup result branches on that comparison and nowhere else. */
  lemma BranchingTestsLookup(x: seq<Op>, k: nat, R: seq<Op>, W: seq<Op>, E: seq<Op>)
    requires Straight(x) && Straight(R) && Straight(W) && forall op | op in E :: !op.Brtrue?
    ensures BranchTestsLookup(Branching(x + LookupStore(k), R, W, E), k)
  {
    assert Straight(x + LookupStore(k));
    BranchingContainsTest(x, k, R, W, E);
    BranchingBranchesOnce(x + LookupStore(k), R, W, E);
  }

  /** The direct-call and dynamic virtual-call stubs branch on the lookup
      result kept in local 1. */
  lemma ResolveCodeTestsLookup(prologue: seq<Op>, recv: Op, flag: int, ret: Ty, sig: seq<Ty>)
    requires Straight(prologue) && (recv == Ldnull || recv == Ldarg(0))
    ensures BranchTestsLookup(ResolveCode(prologue, recv, flag, ret, sig), 1)
  {
    assert ShimLookup(recv) == [Ldloc(0), recv] + LookupStore(1);
    Assoc(prologue, [Ldloc(0), recv], LookupStore(1));
    ReplacementCallShape(ret, sig);
    RewriteCallShape(flag, ret, sig);
    BranchingTestsLookup(prologue + [Ldloc(0), recv], 1, ReplacementCall(ret, sig), RewriteCall(flag, ret, sig), [Ret]);
  }

  // --- the shared segments ------------------------------------------------

  lemma ShimLookupFacts(recv: Op)
    requires !IsControl(recv) && !recv.Calli? && !recv.CallHelper? && !recv.MarkLabel?
    ensures Straight(ShimLookup(recv)) && Quiet(ShimLookup(recv))
  {
  }

  lemma ShimLookupOnce(recv: Op)
    requires !recv.CallHelper?
    ensures LooksUpOnce(ShimLookup(recv), recv)
  {
    assert ShimLookup(recv)[1] == recv && ShimLookup(recv)[2] == CallHelper(GetIndexOfMatchingShim);
  }

  /** Straight code without a lookup, followed by code that looks up once. */
  lemma FrontJoin(prologue: seq<Op>, lookup: seq<Op>, recv: Op)
    requires Straight(prologue) && Quiet(prologue) && CallHelper(GetIndexOfMatchingShim) !in prologue
    requires Straight(lookup) && Quiet(lookup) && LooksUpOnce(lookup, recv)
    ensures Front(prologue + lookup, recv)
  {
    CallsWithPrefix(prologue, lookup, GetIndexOfMatchingShim, recv);
    OccurrencesAppend(prologue, lookup, CallHelper(GetIndexOfMatchingShim));
    OccurrencesAbsent(prologue, CallHelper(GetIndexOfMatchingShim));
  }

  /** A prologue without a lookup, followed by the lookup. */
  lemma FrontFacts(prologue: seq<Op>, recv: Op)
    requires Straight(prologue) && Quiet(prologue) && CallHelper(GetIndexOfMatchingShim) !in prologue
    requires !IsControl(recv) && !recv.Calli? && !recv.CallHelper? && !recv.MarkLabel?
    ensures Front(prologue + ShimLookup(recv), recv)
  {
    ShimLookupFacts(recv);
    ShimLookupOnce(recv);
    FrontJoin(prologue, ShimLookup(recv), recv);
  }

  lemma ReplacementCallShape(ret: Ty, sig: seq<Ty>)
    ensures Straight(ReplacementCall(ret, sig)) && Unlabelled(ReplacementCall(ret, sig))
    ensures CallHelper(GetIndexOfMatchingShim) !in ReplacementCall(ret, sig)
  {
    ArgumentsInert(0, |sig|);
  }

  /** No indirect call in `code`. */
  ghost predicate NoIndirect(code: seq<Op>) {
    forall op | op in code :: !op.Calli?
  }

  /** `code` makes the indirect call `call` once and no other indirect call. */
  ghost predicate CallsOnce(code: seq<Op>, call: Op) {
    Occurrences(code, call) == 1 && forall op | op in code && op.Calli? :: op == call
  }

  /** Code without an indirect call, then one that calls `call` once. */
  lemma CallsOnceAfter(x: seq<Op>, T: seq<Op>, call: Op)
    requires NoIndirect(x) && CallsOnce(T, call) && call.Calli?
    ensures CallsOnce(x + T, call)
  {
    OccurrencesAppend(x, T, call);
    OccurrencesAbsent(x, call);
  }

  /** A replacement path from a head that fetches the replacement, the
      arguments, and a tail that makes the call. */
  lemma ReplacementJoin(H: seq<Op>, A: seq<Op>, T: seq<Op>, call: Op)
    requires call.Calli? && Inert(A)
    requires CallHelper(GetShimReplacementMethod) in H && CallHelper(GetShimDelegateTarget) in H
    requires NoIndirect(H) && CallsOnce(T, call)
    requires CallHelper(CreateRewriter) !in H && CallHelper(Rewrite) !in H
    requires CallHelper(CreateRewriter) !in T && CallHelper(Rewrite) !in T
    ensures ReplacementPath(H + A + T, call)
  {
    OccurrencesOfThree(H, A, T, call);
    OccurrencesAbsent(H, call);
    OccurrencesAbsent(A, call);
  }

  /** A rewrite path from a head that calls the rewriter, the arguments,
      and a tail that makes the call. */
  lemma RewriteJoin(H: seq<Op>, A: seq<Op>, T: seq<Op>, arg: Op, call: Op)
    requires call.Calli? && Inert(A)
    requires CallsWith(H, CreateRewriter, arg) && Occurrences(H, CallHelper(CreateRewriter)) == 1
    requires CallHelper(Rewrite) in H && NoIndirect(H) && CallsOnce(T, call)
    requires CallHelper(GetShimReplacementMethod) !in H && CallHelper(GetShimDelegateTarget) !in H
    requires CallHelper(GetShimReplacementMethod) !in T && CallHelper(GetShimDelegateTarget) !in T
    requires CallHelper(CreateRewriter) !in T
    ensures RewritePath(H + A + T, arg, call)
  {
    var create := CallHelper(CreateRewriter);
    OccurrencesOfThree(H, A, T, call);
    OccurrencesAbsent(H, call);
    OccurrencesAbsent(A, call);
    OccurrencesOfThree(H, A, T, create);
    OccurrencesAbsent(A, create);
    OccurrencesAbsent(T, create);
    CallsWithSuffix(H, A, CreateRewriter, arg);
    CallsWithSuffix(H + A, T, CreateRewriter, arg);
  }

  lemma ReplacementHeadFacts()
    ensures CallHelper(GetShimReplacementMethod) in ReplacementHead()
    ensures CallHelper(GetShimDelegateTarget) in ReplacementHead()
    ensures NoIndirect(ReplacementHead())
    ensures CallHelper(CreateRewriter) !in ReplacementHead() && CallHelper(Rewrite) !in ReplacementHead()
  {
  }

  lemma ReplacementTailFacts(ret: Ty, sig: seq<Ty>)
    ensures CallsOnce(ReplacementTail(ret, sig), Calli(HasThis, ret, sig))
    ensures CallHelper(CreateRewriter) !in ReplacementTail(ret, sig) && CallHelper(Rewrite) !in ReplacementTail(ret, sig)
  {
  }

  lemma ReplacementCallPath(ret: Ty, sig: seq<Ty>)
    ensures ReplacementPath(ReplacementCall(ret, sig), Calli(HasThis, ret, sig))
  {
    ArgumentsInert(0, |sig|);
    ReplacementHeadFacts();
    ReplacementTailFacts(ret, sig);
    ReplacementJoin(ReplacementHead(), LdargRange(0, |sig|), ReplacementTail(ret, sig), Calli(HasThis, ret, sig));
  }

  lemma RewriteHeadCalls(flag: int)
    ensures CallsWith(RewriteHead(flag), CreateRewriter, LdcI4(flag))
    ensures Occurrences(RewriteHead(flag), CallHelper(CreateRewriter)) == 1
  {
    assert RewriteHead(flag)[1] == LdcI4(flag) && RewriteHead(flag)[2] == CallHelper(CreateRewriter);
  }

  lemma RewriteHeadFacts(flag: int)
    ensures CallHelper(Rewrite) in RewriteHead(flag) && NoIndirect(RewriteHead(flag))
    ensures CallHelper(GetShimReplacementMethod) !in RewriteHead(flag)
    ensures CallHelper(GetShimDelegateTarget) !in RewriteHead(flag)
  {
  }

  lemma RewriteTailFacts(ret: Ty, sig: seq<Ty>)
    ensures CallsOnce(RewriteTail(ret, sig), Calli(Standard, ret, sig))
    ensures CallHelper(GetShimReplacementMethod) !in RewriteTail(ret, sig)
    ensures CallHelper(GetShimDelegateTarget) !in RewriteTail(ret, sig)
    ensures CallHelper(CreateRewriter) !in RewriteTail(ret, sig)
  {
  }

  lemma RewriteCallShape(flag: int, ret: Ty, sig: seq<Ty>)
    ensures Straight(RewriteCall(flag, ret, sig)) && Unlabelled(RewriteCall(flag, ret, sig))
    ensures CallHelper(GetIndexOfMatchingShim) !in RewriteCall(flag, ret, sig)
  {
    ArgumentsInert(0, |sig|);
  }

  lemma RewriteCallPath(flag: int, ret: Ty, sig: seq<Ty>)
    ensures RewritePath(RewriteCall(flag, ret, sig), LdcI4(flag), Calli(Standard, ret, sig))
  {
    ArgumentsInert(0, |sig|);
    RewriteHeadCalls(flag);
    RewriteHeadFacts(flag);
    RewriteTailFacts(ret, sig);
    RewriteJoin(RewriteHead(flag), LdargRange(0, |sig|), RewriteTail(ret, sig), LdcI4(flag), Calli(Standard, ret, sig));
  }

  /**
    The protocol of the direct-call and dynamic virtual-call stubs: the
    registry is asked once, with `recv`; a found shim is called through its
    delegate target with the stub's own signature; -1 means the rewriter is
    called with interface flag `flag` and the rewritten method is called
    with the same signature.
   */
  lemma ResolutionPaths(prologue: seq<Op>, recv: Op, flag: int, ret: Ty, sig: seq<Ty>, shimIndex: int)
    requires Straight(prologue) && Quiet(prologue) && CallHelper(GetIndexOfMatchingShim) !in prologue
    requires recv == Ldnull || recv == Ldarg(0)
    ensures LooksUpOnce(Run(ResolveCode(prologue, recv, flag, ret, sig), shimIndex), recv)
    ensures shimIndex != -1 ==>
      ReplacementPath(Run(ResolveCode(prologue, recv, flag, ret, sig), shimIndex), Calli(HasThis, ret, sig))
    ensures shimIndex == -1 ==>
      RewritePath(Run(ResolveCode(prologue, recv, flag, ret, sig), shimIndex), LdcI4(flag), Calli(Standard, ret, sig))
  {
    FrontFacts(prologue, recv);
    ReplacementCallPart(ret, sig);
    RewriteCallPart(flag, ret, sig);
    RetEpilogue(shimIndex);
    BranchingPaths(prologue + ShimLookup(recv), ReplacementCall(ret, sig), RewriteCall(flag, ret, sig), [Ret],
                   recv, Calli(HasThis, ret, sig), LdcI4(flag), Calli(Standard, ret, sig), shimIndex);
  }

  lemma ReplacementCallPart(ret: Ty, sig: seq<Ty>)
    ensures ReplacementPart(ReplacementCall(ret, sig), Calli(HasThis, ret, sig))
  {
    ReplacementCallShape(ret, sig);
    ReplacementCallPath(ret, sig);
  }

  lemma RewriteCallPart(flag: int, ret: Ty, sig: seq<Ty>)
    ensures RewritePart(RewriteCall(flag, ret, sig), LdcI4(flag), Calli(Standard, ret, sig))
  {
    RewriteCallShape(flag, ret, sig);
    RewriteCallPath(flag, ret, sig);
  }

  /** Both traces run the front first. */
  lemma TracesKeepFront(L: seq<Op>, R: seq<Op>, W: seq<Op>, E: seq<Op>, a: Op, b: Op)
    requires Precedes(L, a, b)
    ensures Precedes(ReplacementTrace(L, R, E), a, b) && Precedes(RewriteTrace(L, W, E), a, b)
  {
    PrecedesSuffix(L, [Brtrue(RewriteLabel)], a, b);
    PrecedesSuffix(L + [Brtrue(RewriteLabel)], R, a, b);
    PrecedesSuffix(L + [Brtrue(RewriteLabel)] + R, [Br(ReturnLabel)], a, b);
    PrecedesSuffix(L + [Brtrue(RewriteLabel)] + R + [Br(ReturnLabel)], E, a, b);
    PrecedesSuffix(L + [Brtrue(RewriteLabel)], W, a, b);
    PrecedesSuffix(L + [Brtrue(RewriteLabel)] + W, [MarkLabel(ReturnLabel)], a, b);
    PrecedesSuffix(L + [Brtrue(RewriteLabel)] + W + [MarkLabel(ReturnLabel)], E, a, b);
  }

  /** Every op of the prologue runs before the registry is asked, on both paths. */
  lemma PrologueBeforeLookup(prologue: seq<Op>, recv: Op, flag: int, ret: Ty, sig: seq<Ty>, shimIndex: int, a: Op)
    requires Straight(prologue) && Quiet(prologue) && CallHelper(GetIndexOfMatchingShim) !in prologue
    requires recv == Ldnull || recv == Ldarg(0)
    requires a in prologue
    ensures Precedes(Run(ResolveCode(prologue, recv, flag, ret, sig), shimIndex), a, CallHelper(GetIndexOfMatchingShim))
  {
    FrontFacts(prologue, recv);
    ReplacementCallShape(ret, sig);
    RewriteCallShape(flag, ret, sig);
    RetEpilogue(shimIndex);
    var L := prologue + ShimLookup(recv);
    RunBranching(L, ReplacementCall(ret, sig), RewriteCall(flag, ret, sig), [Ret], shimIndex);
    PrologueBeforeShimLookup(prologue, recv, a);
    TracesKeepFront(L, ReplacementCall(ret, sig), RewriteCall(flag, ret, sig), [Ret], a, CallHelper(GetIndexOfMatchingShim));
  }

  /** A stretch of the replacement path still runs contiguously in the replacement trace. */
  lemma ReplacementTraceContains(L: seq<Op>, R: seq<Op>, E: seq<Op>, s: seq<Op>)
    requires Contains(R, s)
    ensures Contains(ReplacementTrace(L, R, E), s)
  {
    ContainsWithin(L + [Brtrue(RewriteLabel)], R, [Br(ReturnLabel)] + E, s);
    RightNest5(L, [Brtrue(RewriteLabel)], R, [Br(ReturnLabel)], E);
    Assoc(L + [Brtrue(RewriteLabel)], R, [Br(ReturnLabel)] + E);
    Assoc(L, [Brtrue(RewriteLabel)], R + ([Br(ReturnLabel)] + E));
  }

  /** A stretch of the rewrite path still runs contiguously in the rewrite trace. */
  lemma RewriteTraceContains(L: seq<Op>, W: seq<Op>, E: seq<Op>, s: seq<Op>)
    requires Contains(W, s)
    ensures Contains(RewriteTrace(L, W, E), s)
  {
    ContainsWithin(L + [Brtrue(RewriteLabel)], W, [MarkLabel(ReturnLabel)] + E, s);
    RightNest5(L, [Brtrue(RewriteLabel)], W, [MarkLabel(ReturnLabel)], E);
    Assoc(L + [Brtrue(RewriteLabel)], W, [MarkLabel(ReturnLabel)] + E);
    Assoc(L, [Brtrue(RewriteLabel)], W + ([MarkLabel(ReturnLabel)] + E));
  }

  /** A path ends with every argument, in order, then the indirect call's tail. */
  lemma PathEndsWithCall(head: seq<Op>, n: nat, tail: seq<Op>)
    ensures Contains(head + LdargRange(0, n) + tail, LdargRange(0, n) + tail)
  {
    ContainsMiddle(head, LdargRange(0, n) + tail, []);
    Assoc(head, LdargRange(0, n), tail);
    assert head + (LdargRange(0, n) + tail) + [] == head + (LdargRange(0, n) + tail);
  }

  /**
    On whichever path runs, the arguments `0, ..., |sig|-1` are loaded in
    order and are directly followed by the target's pointer and the
    indirect call: the replacement's pointer from local 2, or the rewritten
    method's pointer.
   */
  lemma ArgumentsReachCall(prologue: seq<Op>, recv: Op, flag: int, ret: Ty, sig: seq<Ty>, shimIndex: int)
    requires Straight(prologue) && Quiet(prologue) && CallHelper(GetIndexOfMatchingShim) !in prologue
    requires recv == Ldnull || recv == Ldarg(0)
    ensures shimIndex != -1 ==>
      Contains(Run(ResolveCode(prologue, recv, flag, ret, sig), shimIndex), LdargRange(0, |sig|) + ReplacementTail(ret, sig))
    ensures shimIndex == -1 ==>
      Contains(Run(ResolveCode(prologue, recv, flag, ret, sig), shimIndex), LdargRange(0, |sig|) + RewriteTail(ret, sig))
  {
    FrontFacts(prologue, recv);
    ReplacementCallShape(ret, sig);
    RewriteCallShape(flag, ret, sig);
    RetEpilogue(shimIndex);
    var L := prologue + ShimLookup(recv);
    RunBranching(L, ReplacementCall(ret, sig), RewriteCall(flag, ret, sig), [Ret], shimIndex);
    if shimIndex == -1 {
      PathEndsWithCall(RewriteHead(flag), |sig|, RewriteTail(ret, sig));
      RewriteTraceContains(L, RewriteCall(flag, ret, sig), [Ret], LdargRange(0, |sig|) + RewriteTail(ret, sig));
    } else {
      PathEndsWithCall(ReplacementHead(), |sig|, ReplacementTail(ret, sig));
      ReplacementTraceContains(L, ReplacementCall(ret, sig), [Ret], LdargRange(0, |sig|) + ReplacementTail(ret, sig));
    }
  }

  lemma PrologueBeforeShimLookup(prologue: seq<Op>, recv: Op, a: Op)
    requires a in prologue
    ensures Precedes(prologue + ShimLookup(recv), a, CallHelper(GetIndexOfMatchingShim))
  {
    assert ShimLookup(recv)[2] == CallHelper(GetIndexOfMatchingShim);
    PrecedesAcross(prologue, ShimLookup(recv), a, CallHelper(GetIndexOfMatchingShim));
  }

  lemma RetEpilogue(shimIndex: int)
    ensures Epilogue([Ret], shimIndex)
  {
    RunRet(shimIndex);
  }

  // --- straight-line stubs ------------------------------------------------

  /** The ops a stub ends with when it forwards to the original. */
  predicate IsForward(op: Op) {
    op.Call? || op.Callvirt? || op.Newobj? || op.Ldftn? || op.Ldvirtftn?
  }

  /** A straight-line stub runs every op whatever the registry would say. */
  lemma Unconditional(body: seq<Op>, shimIndex: int)
    requires Straight(body)
    ensures Run(body + [Ret], shimIndex) == body + [Ret]
  {
    RunStraight(body, [Ret], shimIndex);
    RunRet(shimIndex);
  }

  /** The fast path of every generator: load the first `n` arguments in
      order, forward to the original, return. Such a stub runs
      unconditionally, whatever a lookup would return. */
  function FastPath(n: nat, forward: Op): seq<Op> {
    LdargRange(0, n) + [forward] + [Ret]
  }

  lemma FastPathRuns(n: nat, forward: Op, shimIndex: int)
    requires IsForward(forward)
    ensures Run(FastPath(n, forward), shimIndex) == FastPath(n, forward)
  {
    ArgumentsInert(0, n);
    Unconditional(LdargRange(0, n) + [forward], shimIndex);
  }

  /** The fast path forwards exactly once. */
  lemma FastPathForwardsOnce(n: nat, forward: Op)
    requires IsForward(forward)
    ensures Occurrences(FastPath(n, forward), forward) == 1
  {
    LdargRangeOnlyLoads(0, n);
    OccurrencesOfThree(LdargRange(0, n), [forward], [Ret], forward);
    OccurrencesAbsent(LdargRange(0, n), forward);
  }

  /** The fast path calls no runtime helper (no lookup, no rewriting) and
      makes no indirect call. */
  lemma FastPathNoHelpers(n: nat, forward: Op)
    requires IsForward(forward)
    ensures forall op | op in FastPath(n, forward) :: !op.CallHelper? && !op.Calli?
  {
    ArgumentsInert(0, n);
  }

  // --- straight-line rewriting stubs ----------------------------------------

  /** `code` resolves `target` from its token, once, and only then calls
      the rewriter: once, right after `arg`; the pointer is taken after
      rewriting. */
  ghost predicate RewritesMethod(code: seq<Op>, target: MethodDesc, arg: Op) {
    && Contains(code, MethodFromHandle(target))
    && Occurrences(code, CallHelper(GetMethodFromHandle)) == 1
    && Precedes(code, CallHelper(GetMethodFromHandle), CallHelper(CreateRewriter))
    && CallsWith(code, CreateRewriter, arg)
    && Occurrences(code, CallHelper(CreateRewriter)) == 1
    && Precedes(code, CallHelper(Rewrite), CallHelper(GetMethodPointer))
  }

  /** The stubs that never resolve: whatever a lookup would return, every
      op runs, the registry is never asked and no shim is fetched; the
      method rebuilt from `target`'s token is rewritten once, right after
      `arg`, and the pointer is taken after rewriting. */
  ghost predicate RewritesUnconditionally(code: seq<Op>, target: MethodDesc, arg: Op) {
    && (forall shimIndex :: Run(code, shimIndex) == code)
    && CallHelper(GetIndexOfMatchingShim) !in code
    && CallHelper(GetShimReplacementMethod) !in code
    && CallHelper(GetShimDelegateTarget) !in code
    && RewritesMethod(code, target, arg)
  }

  /** Straight code that rewrites `target` once and asks no registry. */
  ghost predicate RewritingHead(code: seq<Op>, target: MethodDesc, arg: Op) {
    && Straight(code)
    && CallHelper(GetIndexOfMatchingShim) !in code
    && CallHelper(GetShimReplacementMethod) !in code
    && CallHelper(GetShimDelegateTarget) !in code
    && RewritesMethod(code, target, arg)
  }

  /** Straight code that calls none of the resolution helpers. */
  ghost predicate PlainTail(code: seq<Op>) {
    && Straight(code)
    && CallHelper(GetIndexOfMatchingShim) !in code
    && CallHelper(GetShimReplacementMethod) !in code
    && CallHelper(GetShimDelegateTarget) !in code
    && CallHelper(CreateRewriter) !in code
    && CallHelper(GetMethodFromHandle) !in code
  }

  /** Code that loads `target`'s token and rebuilds it, then code that calls
      the rewriter, resolves the token once and before the rewriter. */
  lemma TokenBeforeRewriter(target: MethodDesc, rest: seq<Op>)
    requires CallHelper(GetMethodFromHandle) !in rest && CallHelper(CreateRewriter) in rest
    ensures Contains(MethodFromHandle(target) + rest, MethodFromHandle(target))
    ensures Occurrences(MethodFromHandle(target) + rest, CallHelper(GetMethodFromHandle)) == 1
    ensures Precedes(MethodFromHandle(target) + rest, CallHelper(GetMethodFromHandle), CallHelper(CreateRewriter))
  {
    assert (MethodFromHandle(target) + rest)[0..|MethodFromHandle(target)|] == MethodFromHandle(target);
    assert StartsAt(MethodFromHandle(target) + rest, MethodFromHandle(target), 0);
    OccurrencesAppend(MethodFromHandle(target), rest, CallHelper(GetMethodFromHandle));
    OccursOnceAt(MethodFromHandle(target), 2, CallHelper(GetMethodFromHandle));
    OccurrencesAbsent(rest, CallHelper(GetMethodFromHandle));
    assert CallHelper(GetMethodFromHandle) in MethodFromHandle(target);
    PrecedesAcross(MethodFromHandle(target), rest, CallHelper(GetMethodFromHandle), CallHelper(CreateRewriter));
  }

  lemma RewritesMethodAppend(H: seq<Op>, X: seq<Op>, target: MethodDesc, arg: Op)
    requires RewritesMethod(H, target, arg)
    requires CallHelper(CreateRewriter) !in X && CallHelper(GetMethodFromHandle) !in X
    ensures RewritesMethod(H + X, target, arg)
  {
    ContainsPrefix(H, X, MethodFromHandle(target));
    OccurrencesAppend(H, X, CallHelper(GetMethodFromHandle));
    OccurrencesAbsent(X, CallHelper(GetMethodFromHandle));
    PrecedesSuffix(H, X, CallHelper(GetMethodFromHandle), CallHelper(CreateRewriter));
    CallsWithSuffix(H, X, CreateRewriter, arg);
    OccurrencesAppend(H, X, CallHelper(CreateRewriter));
    OccurrencesAbsent(X, CallHelper(CreateRewriter));
    PrecedesSuffix(H, X, CallHelper(Rewrite), CallHelper(GetMethodPointer));
  }

  lemma RewritingHeadAppend(H: seq<Op>, X: seq<Op>, target: MethodDesc, arg: Op)
    requires RewritingHead(H, target, arg) && PlainTail(X)
    ensures RewritingHead(H + X, target, arg)
  {
    RewritesMethodAppend(H, X, target, arg);
  }

  lemma RewritingStub(H: seq<Op>, target: MethodDesc, arg: Op)
    requires RewritingHead(H, target, arg)
    ensures RewritesUnconditionally(H + [Ret], target, arg)
  {
    forall shimIndex ensures Run(H + [Ret], shimIndex) == H + [Ret] {
      Unconditional(H, shimIndex);
    }
    RewritesMethodAppend(H, [Ret], target, arg);
  }

  lemma PlainTailArguments(lo: nat, hi: nat)
    ensures PlainTail(LdargRange(lo, hi))
  {
    ArgumentsInert(lo, hi);
  }

  lemma PlainTailAppend(a: seq<Op>, b: seq<Op>)
    requires PlainTail(a) && PlainTail(b)
    ensures PlainTail(a + b)
  {
  }
}
