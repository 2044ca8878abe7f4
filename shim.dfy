/**
  The shim builder of Focks: a `Shim` pairs the method to intercept, taken
  from a lambda's expression tree, with a replacement delegate that is
  accepted only when its signature matches the original's.
 */
module Focks {
  import opened Wrappers
  import opened Reflection

  /** A MemberInfo found in a member-access node. */
  datatype MemberInfo =
    | PropertyMember(getter: Option<MethodDesc>)   // PropertyInfo; GetGetMethod() is null without a public getter
    | FieldMember(name: string)

  /** The body of the lambda handed to `Shim.Replace`. */
  datatype Expression =
    | MemberAccess(member: MemberInfo)   // ExpressionType.MemberAccess (a MemberExpression)
    | MethodCall(callee: MethodDesc)     // ExpressionType.Call (a MethodCallExpression)
    | OtherNode(nodeType: string)        // any other ExpressionType

  /** A delegate; only its target method is consulted. */
  datatype Delegate = Delegate(methodInfo: MethodDesc)

  const UnsupportedExpression := NotImplementedException("Unsupported expression")
  const SignatureMismatch := PlainException("Signature mismatch")

  /** The method a lambda body denotes: the getter of an accessed property or
      the method called. Other member accesses and other node kinds are
      unsupported. */
  function GetMethodFromExpression(e: Expression): (r: Result<Option<MethodDesc>, Exception>)
    ensures r.Success? <==> e.MethodCall? || (e.MemberAccess? && e.member.PropertyMember?)
    ensures e.MethodCall? ==> r == Success(Some(e.callee))
    ensures e.MemberAccess? && e.member.PropertyMember? ==> r == Success(e.member.getter)
    ensures r.Failure? ==> r.error == UnsupportedExpression
  {
    match e
    case MemberAccess(member) =>
      if member.PropertyMember? then Success(member.getter) else Failure(UnsupportedExpression)
    case MethodCall(callee) => Success(Some(callee))
    case OtherNode(_) => Failure(UnsupportedExpression)
  }

  /** What `Replace(Expression<Action>)` reads: the body cast to a call node
      (null for any other node) and its method. */
  function CallTarget(e: Expression): (r: Result<MethodDesc, Exception>)
    ensures r.Success? <==> e.MethodCall?
    ensures r.Success? ==> r.value == e.callee
    ensures r.Failure? ==> r.error == NullReferenceException
  {
    if e.MethodCall? then Success(e.callee) else Failure(NullReferenceException)
  }

  /** On a call node both `Replace` overloads take the same method; the
      `Func` overload also accepts property reads. */
  lemma ReplaceOverloadsAgree(e: Expression)
    ensures CallTarget(e).Success? ==> GetMethodFromExpression(e) == Success(Some(CallTarget(e).value))
    ensures CallTarget(e).Failure? && GetMethodFromExpression(e).Success? ==> e.MemberAccess? && e.member.PropertyMember?
  {
  }

  // ----- Signature comparison -----

  /** `string.Join(",", names)` */
  function Join(names: seq<string>): string {
    if |names| == 0 then ""
    else if |names| == 1 then names[0]
    else names[0] + "," + Join(names[1..])
  }

  /** The `ToString()` of each type, in order. */
  function TypeNames(ts: seq<Ty>): (r: seq<string>)
    ensures |r| == |ts|
    ensures forall i :: 0 <= i < |ts| ==> r[i] == TypeName(ts[i])
  {
    if ts == [] then [] else [TypeName(ts[0])] + TypeNames(ts[1..])
  }

  /** `string.Format("{0}({1})", returnType, string.Join(",", paramTypes))` */
  function SignatureText(returnType: Ty, paramTypes: seq<Ty>): string {
    TypeName(returnType) + "(" + Join(TypeNames(paramTypes)) + ")"
  }

  /** The type that stands first in a method's signature: the declaring type
      of a constructor, the return type of a method. */
  function SignatureReturnType(m: MethodDesc): Ty {
    if m.isConstructor then m.declaringType else m.returnType
  }

  /** Whether the replacement `m2` has the signature of the original `m1`,
      compared as formatted text. Types with equal names and equal name
      lists always match. */
  function SignatureEquals(m1: MethodDesc, m2: MethodDesc): (r: bool)
    ensures (TypeName(SignatureReturnType(m1)) == TypeName(m2.returnType)
             && TypeNames(m1.paramTypes) == TypeNames(m2.paramTypes)) ==> r
  {
    SignatureText(SignatureReturnType(m1), m1.paramTypes) == SignatureText(m2.returnType, m2.paramTypes)
  }

  /** A type name that cannot be confused with the separators of a
      formatted signature. */
  predicate PlainName(s: string) {
    |s| > 0 && ',' !in s && '(' !in s
  }

  predicate PlainSignature(returnType: Ty, paramTypes: seq<Ty>) {
    PlainName(TypeName(returnType)) && forall t | t in paramTypes :: PlainName(TypeName(t))
  }

  /** The index of the first `c` in `s`, or `|s|` when there is none. */
  function FirstIndex(s: string, c: char): (k: nat)
    ensures k <= |s|
  {
    if s == [] || s[0] == c then 0 else 1 + FirstIndex(s[1..], c)
  }

  lemma {:induction false} FirstIndexAfter(a: string, x: string, c: char)
    requires c !in a
    requires x == [] || x[0] == c
    ensures FirstIndex(a + x, c) == |a|
  {
    if a == [] {
      assert a + x == x;
    } else {
      assert (a + x)[0] == a[0];
      assert (a + x)[1..] == a[1..] + x;
      FirstIndexAfter(a[1..], x, c);
    }
  }

  /** Two strings that each run up to a first separator `c` (or to the end)
      split there identically. */
  lemma SplitAtFirst(a: string, x: string, b: string, y: string, c: char)
    requires c !in a && c !in b
    requires x == [] || x[0] == c
    requires y == [] || y[0] == c
    requires a + x == b + y
    ensures a == b && x == y
  {
    FirstIndexAfter(a, x, c);
    FirstIndexAfter(b, y, c);
    assert a == (a + x)[..|a|] && b == (b + y)[..|b|];
    assert x == (a + x)[|a|..] && y == (b + y)[|b|..];
  }

  /** A list of non-empty names joins to the empty string only when empty. */
  lemma JoinEmpty(a: seq<string>)
    requires forall s | s in a :: PlainName(s)
    ensures Join(a) == "" <==> a == []
  {
    if a != [] {
      assert PlainName(a[0]);
      assert Join(a) == a[0] + (if |a| == 1 then "" else "," + Join(a[1..]));
    }
  }

  /** Joining non-empty names free of ',' loses nothing. */
  lemma {:induction false} JoinInjective(a: seq<string>, b: seq<string>)
    requires forall s | s in a :: PlainName(s)
    requires forall s | s in b :: PlainName(s)
    requires Join(a) == Join(b)
    ensures a == b
    decreases |a|
  {
    JoinEmpty(a);
    JoinEmpty(b);
    if a == [] || b == [] {
    } else {
      var x := if |a| == 1 then "" else "," + Join(a[1..]);
      var y := if |b| == 1 then "" else "," + Join(b[1..]);
      assert Join(a) == a[0] + x;
      assert Join(b) == b[0] + y;
      assert PlainName(a[0]) && PlainName(b[0]);
      SplitAtFirst(a[0], x, b[0], y, ',');
      if |a| == 1 {
        assert |b| == 1;
        assert a == [a[0]] && b == [b[0]];
      } else {
        assert |b| != 1;
        assert Join(a[1..]) == x[1..] == y[1..] == Join(b[1..]);
        forall s | s in a[1..] ensures PlainName(s) {
          assert s in a;
        }
        forall s | s in b[1..] ensures PlainName(s) {
          assert s in b;
        }
        JoinInjective(a[1..], b[1..]);
        assert a == [a[0]] + a[1..] && b == [b[0]] + b[1..];
      }
    }
  }

  lemma PlainTypeNames(ts: seq<Ty>)
    requires forall t | t in ts :: PlainName(TypeName(t))
    ensures forall s | s in TypeNames(ts) :: PlainName(s)
  {
    forall s | s in TypeNames(ts) ensures PlainName(s) {
      var i :| 0 <= i < |ts| && TypeNames(ts)[i] == s;
      assert ts[i] in ts;
    }
  }

  function Parenthesized(s: string): string {
    "(" + s + ")"
  }

  lemma TextSplit(n: string, j: string)
    ensures n + "(" + j + ")" == n + Parenthesized(j)
  {
  }

  lemma ParenthesizedInjective(a: string, b: string)
    requires Parenthesized(a) == Parenthesized(b)
    ensures a == b
  {
    var x, y := Parenthesized(a), Parenthesized(b);
    assert a == x[1..|x| - 1];
    assert b == y[1..|y| - 1];
  }

  /** For plain names a formatted signature determines its return type's
      name and its ordered list of parameter type names. */
  lemma SignatureTextInjective(r1: Ty, p1: seq<Ty>, r2: Ty, p2: seq<Ty>)
    requires PlainSignature(r1, p1) && PlainSignature(r2, p2)
    requires SignatureText(r1, p1) == SignatureText(r2, p2)
    ensures TypeName(r1) == TypeName(r2) && TypeNames(p1) == TypeNames(p2)
  {
    var j1, j2 := Join(TypeNames(p1)), Join(TypeNames(p2));
    var x, y := Parenthesized(j1), Parenthesized(j2);
    TextSplit(TypeName(r1), j1);
    TextSplit(TypeName(r2), j2);
    SplitAtFirst(TypeName(r1), x, TypeName(r2), y, '(');
    ParenthesizedInjective(j1, j2);
    PlainTypeNames(p1);
    PlainTypeNames(p2);
    JoinInjective(TypeNames(p1), TypeNames(p2));
  }

  /** For plain names, the textual comparison is exactly the structural
      one: the first type's name and the parameter type names position by
      position, so the order of parameters matters. */
  lemma SignatureEqualsStructure(m1: MethodDesc, m2: MethodDesc)
    requires PlainSignature(SignatureReturnType(m1), m1.paramTypes)
    requires PlainSignature(m2.returnType, m2.paramTypes)
    ensures SignatureEquals(m1, m2) <==>
      TypeName(SignatureReturnType(m1)) == TypeName(m2.returnType)
      && |m1.paramTypes| == |m2.paramTypes|
      && forall i :: 0 <= i < |m1.paramTypes| ==> TypeName(m1.paramTypes[i]) == TypeName(m2.paramTypes[i])
  {
    var n1, n2 := TypeNames(m1.paramTypes), TypeNames(m2.paramTypes);
    if SignatureEquals(m1, m2) {
      SignatureTextInjective(SignatureReturnType(m1), m1.paramTypes, m2.returnType, m2.paramTypes);
      assert n1 == n2;
    } else if |m1.paramTypes| == |m2.paramTypes|
              && forall i :: 0 <= i < |m1.paramTypes| ==> TypeName(m1.paramTypes[i]) == TypeName(m2.paramTypes[i]) {
      assert n1 == n2;
    }
  }

  /** The comparison is order-sensitive: swapping two parameters of
      different type names makes a matching signature mismatch. */
  lemma SwappedParametersMismatch(m1: MethodDesc, m2: MethodDesc, i: nat, j: nat)
    requires PlainSignature(SignatureReturnType(m1), m1.paramTypes)
    requires PlainSignature(m2.returnType, m2.paramTypes)
    requires i < j < |m1.paramTypes|
    requires m2.paramTypes == m1.paramTypes[i := m1.paramTypes[j]][j := m1.paramTypes[i]]
    requires TypeName(m1.paramTypes[i]) != TypeName(m1.paramTypes[j])
    ensures !SignatureEquals(m1, m2)
  {
    SignatureEqualsStructure(m1, m2);
    assert TypeName(m1.paramTypes[i]) != TypeName(m2.paramTypes[i]);
  }

  // ----- The shim -----

  /** What `WithImpl` raises for a replacement, or None when it accepts it. */
  function Rejection(original: Option<MethodDesc>, replacement: Option<Delegate>): (r: Option<Exception>)
    ensures r.None? <==> original.Some? && replacement.Some? && SignatureEquals(original.value, replacement.value.methodInfo)
    ensures r == Some(SignatureMismatch) <==>
      original.Some? && replacement.Some? && !SignatureEquals(original.value, replacement.value.methodInfo)
    ensures r.Some? && r != Some(SignatureMismatch) ==> r == Some(NullReferenceException)
  {
    if replacement.None? || original.None? then Some(NullReferenceException)
    else if SignatureEquals(original.value, replacement.value.methodInfo) then None
    else Some(SignatureMismatch)
  }

  /** A method to intercept together with its replacement (null until `With`
      accepts one). The original is fixed at construction. */
  class Shim {
    const original: Option<MethodDesc>
    var replacement: Option<Delegate>

    constructor (original: Option<MethodDesc>, replacement: Option<Delegate>)
      ensures this.original == original && this.replacement == replacement
    {
      this.original := original;
      this.replacement := replacement;
    }

    /** `Replace(Expression<Action>)`: the body must be a method call. */
    static method ReplaceAction(body: Expression) returns (r: Result<Shim, Exception>)
      ensures r.Success? <==> body.MethodCall?
      ensures r.Success? ==> fresh(r.value) && r.value.original == Some(body.callee) && r.value.replacement.None?
      ensures r.Failure? ==> r.error == NullReferenceException
    {
      var target := CallTarget(body);
      if target.Failure? {
        return Failure(target.error);
      }
      var shim := new Shim(Some(target.value), None);
      return Success(shim);
    }

    /** `Replace(Expression<Func<T>>)`: a method call or a property read. */
    static method ReplaceFunc(body: Expression) returns (r: Result<Shim, Exception>)
      ensures r.Success? <==> GetMethodFromExpression(body).Success?
      ensures r.Success? ==> fresh(r.value) && r.value.original == GetMethodFromExpression(body).value
                             && r.value.replacement.None?
      ensures r.Failure? ==> r.error == UnsupportedExpression
    {
      var target := GetMethodFromExpression(body);
      if target.Failure? {
        return Failure(target.error);
      }
      var shim := new Shim(target.value, None);
      return Success(shim);
    }

    /** Accept `replacement` if its signature matches the original's and
        return this shim; otherwise raise and keep the old replacement. */
    method WithImpl(replacement: Option<Delegate>) returns (r: Result<Shim, Exception>)
      modifies this
      ensures Rejection(original, replacement).None? ==> r == Success(this) && this.replacement == replacement
      ensures Rejection(original, replacement).Some? ==>
        r == Failure(Rejection(original, replacement).value) && this.replacement == old(this.replacement)
    {
      if replacement.None? || original.None? {
        return Failure(NullReferenceException);
      }
      if !SignatureEquals(original.value, replacement.value.methodInfo) {
        return Failure(SignatureMismatch);
      }
      this.replacement := replacement;
      return Success(this);
    }

    /** Every `With` overload: `WithImpl` on its argument. */
    method With(replacement: Option<Delegate>) returns (r: Result<Shim, Exception>)
      modifies this
      ensures Rejection(original, replacement).None? ==> r == Success(this) && this.replacement == replacement
      ensures Rejection(original, replacement).Some? ==>
        r == Failure(Rejection(original, replacement).value) && this.replacement == old(this.replacement)
    {
      r := WithImpl(replacement);
    }
  }
}
