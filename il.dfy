/**
  An abstract instruction stream standing in for System.Reflection.Emit:
  one `Op` per `ILGenerator.Emit` call of the stub generators, the
  `ILGenerator` buffer they append to, and a control-flow-only reading of a
  finished stream (which ops run, in which order, for a given registry
  lookup result).
 */
module IL {
  import opened Reflection

  /** The runtime helpers a stub calls (StubHelper, MethodRewriter, MethodBase, Type, ...). */
  datatype Helper =
    | GetMethodFromHandle      // MethodBase.GetMethodFromHandle(method, type)
    | GetIndexOfMatchingShim   // StubHelper.GetIndexOfMatchingShim(method, receiver): the registry lookup
    | GetShimReplacementMethod // StubHelper.GetShimReplacementMethod(index)
    | GetShimDelegateTarget    // StubHelper.GetShimDelegateTarget(index)
    | GetMethodPointer         // StubHelper.GetMethodPointer(method)
    | DevirtualizeMethod       // StubHelper.DevirtualizeMethod(receiver, method)
    | CreateRewriter           // MethodRewriter.CreateRewriter(method, isInterfaceDispatch)
    | Rewrite                  // MethodRewriter.Rewrite()
    | GetTypeFromHandle        // Type.GetTypeFromHandle(handle)
    | GetUninitializedObject   // GetUninitializedObject(type)

  datatype CallingConvention = Standard | HasThis

  /** The two labels every stub defines. */
  datatype Label = RewriteLabel | ReturnLabel

  datatype Op =
    | Ldarg(index: nat)
    | Starg(index: nat)
    | Ldloc(local: nat)
    | Stloc(local: nat)
    | Ldloca(local: nat)
    | Ldnull
    | LdcI4(value: int)
    | Ceq
    | Dup
    | Ldtoken(token: MethodDesc)
    | LdtokenType(ty: Ty)
    | CallHelper(helper: Helper)
    | Call(callee: MethodDesc)
    | Callvirt(callee: MethodDesc)
    | Newobj(callee: MethodDesc)
    | Ldftn(callee: MethodDesc)
    | Ldvirtftn(callee: MethodDesc)
    | Calli(convention: CallingConvention, returnType: Ty, paramTypes: seq<Ty>)
    | Castclass(ty: Ty)
    | LdindRef
    | Ldobj(ty: Ty)
    | Box(ty: Ty)
    | Initobj(ty: Ty)
    | Stobj(ty: Ty)
    | Brtrue(target: Label)
    | Br(target: Label)
    | MarkLabel(mark: Label)
    | Ret

  /** A generated stub (a DynamicMethod): its signature and its body. */
  datatype Stub = Stub(returnType: Ty, paramTypes: seq<Ty>, locals: seq<Ty>, code: seq<Op>)

  /** The instruction buffer of one DynamicMethod. */
  class ILGenerator {
    var code: seq<Op>
    var locals: seq<Ty>

    constructor ()
      ensures code == [] && locals == []
    {
      code := [];
      locals := [];
    }

    method Emit(op: Op)
      modifies this
      ensures code == old(code) + [op] && locals == old(locals)
    {
      code := code + [op];
    }

    /** A run of consecutive `Emit` calls, in order. */
    method EmitAll(ops: seq<Op>)
      modifies this
      ensures code == old(code) + ops && locals == old(locals)
    {
      code := code + ops;
    }

    method DeclareLocal(t: Ty)
      modifies this
      ensures locals == old(locals) + [t] && code == old(code)
    {
      locals := locals + [t];
    }
  }

  /** `Ldarg lo, ..., Ldarg hi-1`: what the stubs' argument loops emit. */
  function LdargRange(lo: nat, hi: nat): (r: seq<Op>)
    ensures |r| == if hi <= lo then 0 else hi - lo
    ensures forall k :: 0 <= k < |r| ==> r[k] == Ldarg(lo + k)
    decreases hi
  {
    if hi <= lo then [] else LdargRange(lo, hi - 1) + [Ldarg(hi - 1)]
  }

  lemma LdargRangeOnlyLoads(lo: nat, hi: nat)
    ensures forall op | op in LdargRange(lo, hi) :: op.Ldarg?
  {
    forall op | op in LdargRange(lo, hi) ensures op.Ldarg? {
      var k :| 0 <= k < |LdargRange(lo, hi)| && LdargRange(lo, hi)[k] == op;
    }
  }

  /** Ops that transfer control. */
  predicate IsControl(op: Op) {
    op.Brtrue? || op.Br? || op.Ret?
  }

  /** A stretch of code that runs from its first op to its last. */
  ghost predicate Straight(code: seq<Op>) {
    forall op | op in code :: !IsControl(op)
  }

  /** How many times `op` occurs in `code`. */
  function Occurrences(code: seq<Op>, op: Op): nat {
    multiset(code)[op]
  }

  lemma OccurrencesAppend(a: seq<Op>, b: seq<Op>, op: Op)
    ensures Occurrences(a + b, op) == Occurrences(a, op) + Occurrences(b, op)
  {
    assert multiset(a + b) == multiset(a) + multiset(b);
  }

  /** An op found at `k` and nowhere else occurs once. */
  lemma OccursOnceAt(code: seq<Op>, k: nat, op: Op)
    requires k < |code| && code[k] == op && op !in code[..k] && op !in code[k + 1..]
    ensures Occurrences(code, op) == 1
  {
    assert code == code[..k] + [op] + code[k + 1..];
    OccurrencesAppend(code[..k] + [op], code[k + 1..], op);
    OccurrencesAppend(code[..k], [op], op);
  }

  lemma OccurrencesAbsent(a: seq<Op>, op: Op)
    requires op !in a
    ensures Occurrences(a, op) == 0
  {
  }

  /** `code` calls helper `h` with `arg` pushed immediately before the call. */
  ghost predicate CallsWith(code: seq<Op>, h: Helper, arg: Op) {
    exists k :: 1 <= k < |code| && code[k] == CallHelper(h) && code[k - 1] == arg
  }

  lemma CallsWithPrefix(a: seq<Op>, b: seq<Op>, h: Helper, arg: Op)
    requires CallsWith(b, h, arg)
    ensures CallsWith(a + b, h, arg)
  {
    var k :| 1 <= k < |b| && b[k] == CallHelper(h) && b[k - 1] == arg;
    assert (a + b)[|a| + k] == CallHelper(h) && (a + b)[|a| + k - 1] == arg;
  }

  lemma CallsWithSuffix(a: seq<Op>, b: seq<Op>, h: Helper, arg: Op)
    requires CallsWith(a, h, arg)
    ensures CallsWith(a + b, h, arg)
  {
    var k :| 1 <= k < |a| && a[k] == CallHelper(h) && a[k - 1] == arg;
    assert (a + b)[k] == CallHelper(h) && (a + b)[k - 1] == arg;
  }

  /** `a` occurs in `code` before some occurrence of `b`. */
  ghost predicate Precedes(code: seq<Op>, a: Op, b: Op) {
    exists i, j :: 0 <= i < j < |code| && code[i] == a && code[j] == b
  }

  lemma PrecedesAcross(x: seq<Op>, y: seq<Op>, a: Op, b: Op)
    requires a in x && b in y
    ensures Precedes(x + y, a, b)
  {
    var i :| 0 <= i < |x| && x[i] == a;
    var j :| 0 <= j < |y| && y[j] == b;
    assert (x + y)[i] == a && (x + y)[|x| + j] == b;
  }

  lemma PrecedesSuffix(x: seq<Op>, y: seq<Op>, a: Op, b: Op)
    requires Precedes(x, a, b)
    ensures Precedes(x + y, a, b)
  {
    var i, j :| 0 <= i < j < |x| && x[i] == a && x[j] == b;
    assert (x + y)[i] == a && (x + y)[j] == b;
  }

  /** `s` occurs in `code` starting at index `k`. */
  predicate StartsAt(code: seq<Op>, s: seq<Op>, k: nat) {
    k + |s| <= |code| && code[k..k + |s|] == s
  }

  /** `s` occurs in `code` as one contiguous stretch. */
  ghost predicate Contains(code: seq<Op>, s: seq<Op>) {
    exists k: nat :: StartsAt(code, s, k)
  }

  lemma ContainsMiddle(x: seq<Op>, s: seq<Op>, y: seq<Op>)
    ensures Contains(x + s + y, s)
  {
    assert (x + s + y)[|x|..|x| + |s|] == s;
    assert StartsAt(x + s + y, s, |x|);
  }

  lemma ContainsWithin(x: seq<Op>, c: seq<Op>, y: seq<Op>, s: seq<Op>)
    requires Contains(c, s)
    ensures Contains(x + c + y, s)
  {
    var k: nat :| StartsAt(c, s, k);
    assert (x + c + y)[|x| + k..|x| + k + |s|] == c[k..k + |s|];
    assert StartsAt(x + c + y, s, |x| + k);
  }

  /** A stretch found in `a` is still found when code follows it. */
  lemma ContainsPrefix(a: seq<Op>, b: seq<Op>, s: seq<Op>)
    requires Contains(a, s)
    ensures Contains(a + b, s)
  {
    var k: nat :| StartsAt(a, s, k);
    assert (a + b)[k..k + |s|] == a[k..k + |s|];
    assert StartsAt(a + b, s, k);
  }

  lemma Assoc(x: seq<Op>, a: seq<Op>, b: seq<Op>)
    ensures x + a + b == x + (a + b)
  {
  }

  lemma Assoc3(x: seq<Op>, a: seq<Op>, b: seq<Op>, c: seq<Op>)
    ensures x + a + b + c == x + (a + b + c)
  {
    Assoc(x, a, b);
    Assoc(x + a, b, c);
    Assoc(x, a + b, c);
    Assoc(a, b, c);
  }

  lemma Assoc5(x: seq<Op>, a: seq<Op>, b: seq<Op>, c: seq<Op>, d: seq<Op>, e: seq<Op>)
    ensures x + a + b + c + d + e == x + (a + b + c + d + e)
  {
    Assoc3(x, a, b, c);
    Assoc(x, a + b + c, d);
    Assoc(x, a + b + c + d, e);
  }

  /** The code that follows the first `MarkLabel(l)` (empty when there is none). */
  function SkipTo(code: seq<Op>, l: Label): (rest: seq<Op>)
    ensures |rest| <= |code|
  {
    if code == [] then []
    else if code[0] == MarkLabel(l) then code[1..]
    else SkipTo(code[1..], l)
  }

  /**
    The ops a stub runs, in order, when the registry lookup returned
    `shimIndex`. Only control flow is read: `Br` jumps forward to its label,
    `Ret` ends the run and `Brtrue` jumps when the lookup found no shim.
    That reading is justified by `Resolution.BranchTestsLookup`: each
    resolving stub has exactly one `Brtrue`, directly after the lookup's
    result is stored, reloaded and compared with -1.
   */
  function Run(code: seq<Op>, shimIndex: int): seq<Op>
    decreases |code|
  {
    if code == [] then []
    else match code[0]
      case Ret => [Ret]
      case Br(l) => [code[0]] + Run(SkipTo(code[1..], l), shimIndex)
      case Brtrue(l) =>
        [code[0]] + Run(if shimIndex == -1 then SkipTo(code[1..], l) else code[1..], shimIndex)
      case _ => [code[0]] + Run(code[1..], shimIndex)
  }

  lemma {:induction false} RunStraight(a: seq<Op>, b: seq<Op>, shimIndex: int)
    requires Straight(a)
    ensures Run(a + b, shimIndex) == a + Run(b, shimIndex)
  {
    if a == [] {
      assert a + b == b;
    } else {
      assert (a + b)[0] == a[0] && !IsControl(a[0]);
      assert (a + b)[1..] == a[1..] + b;
      RunStraight(a[1..], b, shimIndex);
      assert a == [a[0]] + a[1..];
    }
  }

  lemma {:induction false} SkipPast(a: seq<Op>, l: Label, b: seq<Op>)
    requires MarkLabel(l) !in a
    ensures SkipTo(a + [MarkLabel(l)] + b, l) == b
  {
    if a == [] {
      assert a + [MarkLabel(l)] + b == [MarkLabel(l)] + b;
    } else {
      assert (a + [MarkLabel(l)] + b)[1..] == a[1..] + [MarkLabel(l)] + b;
      SkipPast(a[1..], l, b);
    }
  }

  /** A lone `Ret` runs and ends the stub. */
  lemma RunRet(shimIndex: int)
    ensures Run([Ret], shimIndex) == [Ret]
  {
  }
}
