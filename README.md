# Pose / Focks stub generation and shims in Dafny

Pose intercepts .NET method calls at run time. It rewrites a method's IL so
that every call, virtual call, constructor call and function-pointer load
goes through a generated *stub*. At run time the stub asks a registry of
*shims* whether the call is replaced. If it is, the stub calls the shim's
replacement delegate. If not, it has the method rewriter produce an
instrumented copy of the original, so that interception continues one level
down, and it calls that copy through a function pointer. Methods without a
body and compiler intrinsics get a stub that only forwards to the original.
Focks is the user-facing builder. A `Shim` names the method to intercept,
taken from a lambda expression, and accepts a replacement delegate only when
its signature matches.

What the model covers:

- **`Reflection`** (`reflection.dfy`). Runtime types, method descriptors,
  the exceptions the code raises, and the text of `Type.ToString()`.
- **`IL`** (`il.dfy`). One `Op` per `ILGenerator.Emit` call the generators
  make. `ILGenerator` is a class whose methods append to its `code` and
  `locals`. `Run(code, shimIndex)` reads a finished stub's control flow.
  - It gives the ops the stub executes, in order, when the registry lookup
    returned `shimIndex`.
  - `Brtrue` is taken exactly when the index is -1. The lemmas
    `Resolution.BranchingTestsLookup` and the per-stub resolution lemmas
    prove that each resolving stub's only `Brtrue` directly follows
    `GetIndexOfMatchingShim; Stloc k; Ldloc k; Ldc.i4.m1; Ceq`.
  - `Br` jumps to its label and `Ret` ends the run.
- **`Resolution`** (`resolution.dfy`). The layout every resolving stub
  shares:
  - the registry lookup, then a branch on -1;
  - the replacement path, then a branch to return;
  - the rewrite path, then the return label.

  It also proves, once and generically, what a run of that layout does for
  either lookup result.
- **`Stubs`** (`stubs.dfy`). The seven generators of
  `src/Pose/IL/Stubs.cs` as imperative methods.
  - They build the signature lists and append to an `ILGenerator` in the
    source's order, with the argument loops as `while` loops.
  - The constrained-call loop overwrites slot 0 of its own copy of the
    signature list.
  - Each method's postcondition fixes the stub's return type, parameter
    list and locals, and equates its code with a specification function of
    the descriptor.
- **`StubProperties`** (`stub_properties.dfy`). What each generator's code
  does when run:
  - which receiver the registry gets;
  - which path runs for which lookup result;
  - which interface flag the rewriter gets;
  - which single indirect call is made, with which signature;
  - which stubs never consult the registry;
  - the fast path.
- **`Focks`** (`shim.dfy`). `GetMethodFromExpression`, the `Replace`
  entry points, `SignatureEquals` as a comparison of formatted strings, and
  the `Shim` class with its guarded replacement update.
  - For type names without `,` or `(`, the string comparison is proved to
    be exactly the structural, order-sensitive comparison.

The helpers the stubs call are runtime services whose code is not part of
this model: `StubHelper.*`, `MethodRewriter.*`,
`MethodBase.GetMethodFromHandle`, `Type.GetTypeFromHandle` and
`GetUninitializedObject`. They appear only as `CallHelper` ops.
`StubHelper.DevirtualizeMethod`, which the constrained generator calls
while generating, becomes the parameter `actual`. `StubHelper.IsIntrinsic`
becomes the descriptor flag `isIntrinsic`. The extension `IsForValueType`
is read as "the declaring type is a value type".

Where the code is unexpected, the model follows the code:

- `GenerateStubForDirectCall` on a constructor that has a body:
  - the replacement call reads `(method as MethodInfo).ReturnType`
    (src/Pose/IL/Stubs.cs:331);
  - that dereferences null, so the model returns
    `Failure(NullReferenceException)`;
  - it does so after the lookup and its branch were emitted, at the point
    where the source would throw;
  - the partly built stub is discarded.
- The older `GenerateStubForConstructor`:
  - it hands the rewriter the constructor alone, with no interface flag
    pushed (src/Pose/IL/Stubs.cs:139-140);
  - its replacement path loads `|signature| - 1` arguments
    (src/Pose/IL/Stubs.cs:101-102);
  - both are modelled as written, and `ConstructorStubResolution` states
    the first: the op before `CreateRewriter` is `Ldloc(1)`.

## Model

| member | source | states |
|---|---|---|
| Stubs.EmitArguments | src/Pose/IL/Stubs.cs:346-349 | appends `Ldarg lo, ..., Ldarg hi-1` in order and leaves the locals alone |
| Stubs.EmitForwarding | src/Pose/IL/Stubs.cs:279-290 | the fast path: load the first `n` arguments in order, one forwarding op, `Ret` |
| Stubs.EmitShimLookup | src/Pose/IL/Stubs.cs:312-318 | appends the registry lookup of the method in local 0 with the given receiver, keeping the index in local 1 and testing it against -1 |
| Stubs.EmitReplacementCall | src/Pose/IL/Stubs.cs:320-331 | appends the replacement path: fetch the shim's method, pointer and delegate target, load every argument, make the `HasThis` indirect call |
| Stubs.EmitRewriteCall | src/Pose/IL/Stubs.cs:336-358 | appends the rewrite path: rewriter with the given flag, every argument, pointer, `Standard` indirect call |
| Stubs.GenerateStubForConstructor | src/Pose/IL/Stubs.cs:40-165 | returns the declaring type for `newobj` and `void` otherwise; the parameters are the constructor's (for `newobj`) or receiver plus the constructor's (by-ref for value types), then the method and type handles; five locals; code equal to `ConstructorStubCode` |
| Stubs.EmitConstructorStubBody | src/Pose/IL/Stubs.cs:79-163 | the whole older constructor stub body is emitted into an empty buffer, as `ConstructorStubCode` |
| Stubs.EmitCtorLookup | src/Pose/IL/Stubs.cs:85-91 | appends a lookup that always passes `null` as the receiver |
| Stubs.EmitCtorReplacement | src/Pose/IL/Stubs.cs:93-119 | appends the replacement call returning the declaring type, then for `call` the write-back through argument 0 (`stobj` for value types, `starg` otherwise) |
| Stubs.EmitCtorRewrite | src/Pose/IL/Stubs.cs:123-159 | for `newobj` allocates into local 0 first, rewrites the constructor, pushes the instance for `newobj`, and calls `void` with the full signature |
| Stubs.EmitCtorReturn | src/Pose/IL/Stubs.cs:161-163 | returns local 0 for `newobj`, nothing otherwise |
| Stubs.GenerateStubForDirectCall | src/Pose/IL/Stubs.cs:249-364 | fails with a null dereference exactly for a constructor with a body that is not intrinsic; otherwise the return type is `void` for constructors and the method's own otherwise; the parameters are the receiver slot iff non-static (by-ref iff on a value type) followed by the declared parameters; fast path iff no body or intrinsic, with `Call` and no locals; otherwise `DirectCallCode` with three locals |
| Stubs.GenerateStubForVirtualCall | src/Pose/IL/Stubs.cs:451-554 | the receiver slot is `object` for interfaces and the declaring type otherwise, then the parameters; fast path iff (no body and not abstract) or intrinsic, with `Callvirt`; otherwise `VirtualCallCode` |
| Stubs.EmitConstrainedArguments | src/Pose/IL/Stubs.cs:421-441 | loads argument 0 as the indirect call expects it (dereferenced for a reference type, loaded and boxed when the devirtualized method is on another type), then arguments 1.. in order; slot 0 of the list is retyped to the constrained type, to the devirtualized method's declaring type, or left by-ref; the other slots are unchanged |
| Stubs.GenerateStubForConstrainedVirtualCall | src/Pose/IL/Stubs.cs:366-449 | the parameters are a by-ref constrained receiver then the method's; fast path on the devirtualized method with `Call`; otherwise `ConstrainedCallCode` with one `IntPtr` local |
| Stubs.GenerateStubForObjectInitialization | src/Pose/IL/Stubs.cs:556-640 | returns the declaring type; the parameters are the constructor's without receiver; fast path with `Newobj`; otherwise `ObjectInitCode` with locals `IntPtr` and the declaring type |
| Stubs.GenerateStubForDirectLoad | src/Pose/IL/Stubs.cs:642-691 | no parameters, returns `IntPtr`; fast path `Ldftn; Ret`; otherwise `DirectLoadCode` |
| Stubs.GenerateStubForVirtualLoad | src/Pose/IL/Stubs.cs:693-744 | one parameter (`object` for interfaces), returns `IntPtr`; fast path `Ldarg 0; Ldvirtftn; Ret`; otherwise `VirtualLoadCode` with a `MethodInfo` local |
| Resolution.BranchingPaths | src/Pose/IL/Stubs.cs:312-361 | for any resolving layout, the registry is asked exactly once with the given receiver; index -1 runs the rewrite path only, and any other index runs the replacement path only, which branches to return without calling the rewriter |
| Resolution.ResolutionPaths | src/Pose/IL/Stubs.cs:312-361 | the shared direct/virtual general path: a single lookup; a found shim is called once through its delegate target with the stub's signature; -1 calls the rewriter once after pushing the flag and calls the rewritten method once with that signature |
| Resolution.ArgumentsReachCall | src/Pose/IL/Stubs.cs:328-358 | on whichever path runs, arguments `0, ..., n-1` are loaded in order, directly followed by the target's pointer and the indirect call |
| Resolution.PrologueBeforeLookup | src/Pose/IL/Stubs.cs:300-314 | every op of the prologue runs before the registry is asked, on both paths |
| Resolution.FastPathRuns | src/Pose/IL/Stubs.cs:275-291 | a fast-path stub runs every op whatever the registry would say |
| Resolution.FastPathForwardsOnce | src/Pose/IL/Stubs.cs:275-291 | a fast-path stub forwards to the original exactly once |
| Resolution.FastPathNoHelpers | src/Pose/IL/Stubs.cs:275-291 | a fast-path stub calls no runtime helper (no lookup, no rewriter) and makes no indirect call |
| Resolution.RewritingStub | src/Pose/IL/Stubs.cs:398-446 | straight-line rewriting code ending in `Ret` runs unconditionally and never consults the registry; it loads the target's token and rebuilds the method from it exactly once, before calling the rewriter once after the flag, and takes the pointer after rewriting |
| Resolution.BranchingTestsLookup | src/Pose/IL/Stubs.cs:314-319 | in a branching layout whose front ends with the lookup result stored to local `k`, the code has exactly one `Brtrue`, directly after `GetIndexOfMatchingShim; Stloc k; Ldloc k; Ldc.i4.m1; Ceq` |
| Resolution.ResolveCodeTestsLookup | src/Pose/IL/Stubs.cs:314-319 | the direct/virtual general path's only `Brtrue` tests the lookup result kept in local 1 against -1 |
| StubProperties.FastPathForwards | src/Pose/IL/Stubs.cs:384-396 | for every generator's fast path: runs unconditionally, forwards exactly once, no helper and no indirect call |
| StubProperties.ConstructorStubResolution | src/Pose/IL/Stubs.cs:85-159 | the older constructor stub asks the registry once with `null`, and its only `Brtrue` tests that result, kept in local 3, against -1; a found shim's replacement is called with the constructor's parameters returning the declaring type; -1 calls the rewriter after `Ldloc 1` (no interface flag) and makes the `void` call with the full signature |
| StubProperties.ConstructorStubWritesBack | src/Pose/IL/Stubs.cs:106-119 | for `call` with a found shim, the result is written back through argument 0 (`stobj` for value types, `starg` otherwise) |
| StubProperties.ConstructorStubReturnsInstance | src/Pose/IL/Stubs.cs:160-163 | a `newobj` stub ends by returning local 0 |
| StubProperties.DirectCallResolution | src/Pose/IL/Stubs.cs:300-361 | the direct-call stub asks once, passing `null` for static methods and value types and argument 0 otherwise; its only `Brtrue` tests that result, kept in local 1, against -1; a found shim is called with the stub's signature and the method's return type; -1 rewrites with flag 0 |
| StubProperties.DirectCallLoadsArguments | src/Pose/IL/Stubs.cs:328-358 | in a run of the direct-call stub, every argument of the stub's signature is loaded in order right before the replacement's or the rewritten method's indirect call |
| StubProperties.DirectCallResolvesTokenFirst | src/Pose/IL/Stubs.cs:301-314 | the method is rebuilt from its token before the lookup |
| StubProperties.VirtualCallResolution | src/Pose/IL/Stubs.cs:491-548 | the virtual-call stub asks once, passing `null` exactly for value types; its only `Brtrue` tests that result, kept in local 1, against -1; -1 rewrites with flag 1 exactly for an interface method |
| StubProperties.VirtualCallLoadsArguments | src/Pose/IL/Stubs.cs:520-548 | the same for the virtual-call stub: receiver and parameters, in order, right before either indirect call |
| StubProperties.VirtualCallDevirtualizesFirst | src/Pose/IL/Stubs.cs:498-506 | the method is devirtualized against the receiver before the registry is asked |
| StubProperties.ConstrainedCallRewrites | src/Pose/IL/Stubs.cs:398-446 | the constrained stub never consults the registry: it runs unconditionally, rebuilds the devirtualized method `actual` (not `m`) from its token exactly once, and then rewrites it once with flag 0 |
| StubProperties.ConstrainedCallCallsOnce | src/Pose/IL/Stubs.cs:421-443 | it makes one indirect call, whose slot 0 is retyped as the receiver was loaded, and no other |
| StubProperties.ConstrainedCallLoadsArguments | src/Pose/IL/Stubs.cs:421-443 | the receiver as loaded for the call, then arguments 1.. in order, then the pointer and the retyped indirect call |
| StubProperties.ObjectInitLoadsArguments | src/Pose/IL/Stubs.cs:628-633 | the constructor's arguments in order, right before the pointer and the `void` indirect call |
| StubProperties.ObjectInitRewrites | src/Pose/IL/Stubs.cs:591-637 | the object-initialization stub never consults the registry; it rebuilds the constructor from its token exactly once, then rewrites it once with flag 0 |
| StubProperties.ObjectInitAllocatesFirst | src/Pose/IL/Stubs.cs:612-633 | the instance is allocated (`initobj` for value types, `GetUninitializedObject` otherwise) before the `void` indirect call, and the allocation sequence with its `dup` is directly followed by the argument loads, the pointer and that call |
| StubProperties.ObjectInitReturnsInstance | src/Pose/IL/Stubs.cs:612-637 | the stub returns local 1, which the allocation fills (by address for value types, by a store otherwise) |
| StubProperties.DirectLoadRewrites | src/Pose/IL/Stubs.cs:666-688 | the direct-load stub never consults the registry; it rebuilds the method from its token exactly once, then rewrites it once with flag 0 |
| StubProperties.DirectLoadReturnsPointer | src/Pose/IL/Stubs.cs:684-688 | it returns the rewritten method's pointer and makes no indirect call |
| StubProperties.VirtualLoadRewrites | src/Pose/IL/Stubs.cs:714-741 | the virtual-load stub never consults the registry; it rebuilds the method from its token exactly once, then rewrites once, with flag 1 exactly for an interface method |
| StubProperties.VirtualLoadDevirtualizesFirst | src/Pose/IL/Stubs.cs:726-741 | it devirtualizes against the receiver before rewriting, and returns the pointer |
| Focks.GetMethodFromExpression | src/Focks/Shim.cs:113-133 | succeeds exactly for a call node (its method) and a property access (its getter, null without a public one); anything else raises `NotImplementedException("Unsupported expression")` |
| Focks.CallTarget | src/Focks/Shim.cs:37-38 | the `Action` overload reads a call node's method; any other body is a null dereference |
| Focks.ReplaceOverloadsAgree | src/Focks/Shim.cs:35-44 | both `Replace` overloads take the same method from a call node; the `Func` overload additionally accepts property reads |
| Focks.SignatureEquals | src/Focks/Shim.cs:135-146 | the declaring type stands in for a constructor's return type; equal type names and equal ordered parameter name lists always match |
| Focks.SignatureEqualsStructure | src/Focks/Shim.cs:135-146 | for type names without `,` or `(`, the signatures match iff the first type names agree, the parameter counts agree and the parameter names agree position by position |
| Focks.SwappedParametersMismatch | src/Focks/Shim.cs:139-143 | the comparison is order-sensitive: swapping two parameters of different names breaks a match |
| Focks.SignatureTextInjective | src/Focks/Shim.cs:137-143 | for plain names, a formatted signature determines the return type name and the ordered parameter names |
| Focks.JoinInjective | src/Focks/Shim.cs:139 | joining non-empty names without `,` loses nothing |
| Focks.Rejection | src/Focks/Shim.cs:46-53 | a replacement is accepted iff original and delegate are non-null and the signatures match; a mismatch raises `Exception("Signature mismatch")` and null raises a null dereference |
| Focks.Shim.constructor | src/Focks/Shim.cs:29-33 | sets the original and the replacement |
| Focks.Shim.ReplaceAction | src/Focks/Shim.cs:35-39 | a fresh shim with the called method and no replacement, or a null dereference for a non-call body |
| Focks.Shim.ReplaceFunc | src/Focks/Shim.cs:41-44 | a fresh shim with the method `GetMethodFromExpression` yields and no replacement, or its exception |
| Focks.Shim.WithImpl | src/Focks/Shim.cs:46-53 | on acceptance sets the replacement and returns the same shim; on rejection raises and leaves the replacement unchanged; the original is a `const` and never changes |
| Focks.Shim.With | src/Focks/Shim.cs:55-111 | every `With` overload behaves exactly as `WithImpl` |

## Left out

- Stack semantics of the emitted IL: stack typing, calling conventions, boxing and what `calli` does at run time. `Run` reads control flow only.
- The `DynamicMethod` itself: its name (`CreateStubNameFromMethod`), its owning module (`GetOwningModule`) and skip-visibility. A stub is modelled as its return type, parameters, locals and code.
- `Console.WriteLine` debug output (src/Pose/IL/Stubs.cs:271, 466).
- The commented-out old direct-call generator (src/Pose/IL/Stubs.cs:169-247).
- `ILGenerator.DefineLabel`: each stub defines exactly two labels, modelled as the constants `RewriteLabel` and `ReturnLabel`.
- Runs of consecutive `Emit` calls are one `EmitAll` of the same ops in the same order.
- The registry (`GetIndexOfMatchingShim`), the rewriter and the other runtime helpers: their code is not part of this model. The lookup result is the parameter `shimIndex` of `Run`.
- Stubs.GenerateStubForDirectCall: on a constructor with a body, the model returns the exception instead of a partly emitted stub.
- StubProperties.ConstructorStubResolution: the older constructor stub's rewrite path is stated as written (one argument before a two-argument `CreateRewriter`); nothing is proved about the values the replacement path's short argument loop passes.
- StubProperties.ObjectInitAllocatesFirst: with no stack model, the lemma shows only that nothing is emitted between the allocation (whose `dup` leaves a copy of the instance) and the argument loads and call. It does not derive that this copy is the value the call receives as argument 0.
- Focks.SignatureEqualsStructure: the converse of the textual comparison is proved only for type names without `,` or `(`. Names of generic types with several arguments contain `,`, and for them only the direction stated in `SignatureEquals` is proved.
- Focks.Shim.With: the twenty `With` overloads differ only in the static delegate type, so they are one method.
- `Delegate` is reduced to its target method; delegate identity and the delegate's target object are not modelled.
- Type identity in `SignatureEquals` is by `ToString()` text, as in the source: two distinct types with the same full name compare equal.
