/**
 * The binder lookup of the embedded gRPC server runner: out of the methods of a
 * service's protoc-generated outer class, the first `bindService` method
 * whose single parameter accepts the service bean's class. Java reflection is
 * modelled on plain values: a method is its name and its parameter types, and
 * `Class.isAssignableFrom` is a relation supplied by the caller.
 */
module BinderLookup {
  import opened Wrappers

  /** A fully-qualified Java class name. */
  type TypeName = string

  /** What reflection reports about one declared method. */
  datatype MethodInfo = MethodInfo(name: string, parameterTypes: seq<TypeName>)

  /**
   * `assignable(p, c)` holds when a value of class `c` may be passed where `p` is
   * declared, i.e. `p.isAssignableFrom(c)` in Java.
   */
  type Assignability = (TypeName, TypeName) -> bool

  /** Name of the method on a gRPC outer class that creates a ServerServiceDefinition. */
  const BindServiceMethodName: string := "bindService"

  /** `GRpcService.class.getName()`: the annotation lives in package org.liudi.grpc. */
  const GRpcServiceAnnotationName: string := "org.liudi.grpc.GRpcService"

  /** The filter of the lookup: the name, the arity and the parameter's type must all fit. */
  predicate IsBinderFor(m: MethodInfo, serviceClass: TypeName, assignable: Assignability)
  {
    && m.name == BindServiceMethodName
    && |m.parameterTypes| == 1
    && assignable(m.parameterTypes[0], serviceClass)
  }

  /** No method of `methods` before index `k` passes the filter. */
  predicate NoBinderBefore(methods: seq<MethodInfo>, k: nat, serviceClass: TypeName, assignable: Assignability)
    requires k <= |methods|
  {
    forall j :: 0 <= j < k ==> !IsBinderFor(methods[j], serviceClass, assignable)
  }

  /**
   * The index of the first method that passes the filter, or None when none does
   * (`stream().filter(...).findFirst()`).
   */
  function FindBinder(methods: seq<MethodInfo>, serviceClass: TypeName, assignable: Assignability): (r: Option<nat>)
    ensures r.Some? ==> r.value < |methods| && IsBinderFor(methods[r.value], serviceClass, assignable)
    ensures r.Some? ==> NoBinderBefore(methods, r.value, serviceClass, assignable)
    ensures r.None? ==> NoBinderBefore(methods, |methods|, serviceClass, assignable)
  {
    if |methods| == 0 then None
    else if IsBinderFor(methods[0], serviceClass, assignable) then Some(0)
    else match FindBinder(methods[1..], serviceClass, assignable)
      case None => None
      case Some(k) => Some(k + 1)
  }

  /** The first passing method is unique: any earliest match is the one FindBinder returns. */
  lemma FindBinderIsEarliest(methods: seq<MethodInfo>, k: nat, serviceClass: TypeName, assignable: Assignability)
    requires k < |methods| && IsBinderFor(methods[k], serviceClass, assignable)
    requires NoBinderBefore(methods, k, serviceClass, assignable)
    ensures FindBinder(methods, serviceClass, assignable) == Some(k)
  {
  }

  /** The stream filter on its own: the passing methods, in their declared order. */
  function Candidates(methods: seq<MethodInfo>, serviceClass: TypeName, assignable: Assignability): (r: seq<MethodInfo>)
    ensures |r| <= |methods|
    ensures forall m :: m in r ==> m in methods && IsBinderFor(m, serviceClass, assignable)
    ensures forall j :: 0 <= j < |methods| && IsBinderFor(methods[j], serviceClass, assignable) ==> methods[j] in r
  {
    if |methods| == 0 then []
    else
      var rest := Candidates(methods[1..], serviceClass, assignable);
      assert forall j :: 1 <= j < |methods| ==> methods[j] == methods[1..][j - 1];
      if IsBinderFor(methods[0], serviceClass, assignable) then [methods[0]] + rest else rest
  }

  /** findFirst of the filtered stream is the method FindBinder selects. */
  lemma {:induction false} FindBinderIsFirstCandidate(methods: seq<MethodInfo>, serviceClass: TypeName, assignable: Assignability)
    ensures var c := Candidates(methods, serviceClass, assignable);
            match FindBinder(methods, serviceClass, assignable)
            case None => c == []
            case Some(k) => c != [] && c[0] == methods[k]
  {
    if |methods| > 0 && !IsBinderFor(methods[0], serviceClass, assignable) {
      FindBinderIsFirstCandidate(methods[1..], serviceClass, assignable);
    }
  }

  // The IllegalArgumentException message is String.format of a fixed template with
  // three '%s' holes: the method name, the outer class name and the annotation name.
  const TemplateBeforeMethod: string := "Failed to find '"
  const TemplateBeforeClass: string := "' method on class "
  const TemplateBeforeAnnotation: string :=
    ".\r\nPlease make sure you've provided correct 'grpcServiceOuterClass' attribute for '"
  const TemplateEnd: string :=
    "' annotation.\r\nIt should be the protoc-generated outer class of your service."

  /** The message up to the outer class name. */
  const MessagePrefix: string := TemplateBeforeMethod + BindServiceMethodName + TemplateBeforeClass

  /** The message after the outer class name. */
  const MessageSuffix: string := TemplateBeforeAnnotation + GRpcServiceAnnotationName + TemplateEnd

  /** The diagnostic for a service whose outer class has no usable `bindService`. */
  function BinderNotFoundMessage(outerClassName: TypeName): string
  {
    MessagePrefix + outerClassName + MessageSuffix
  }

  /** `sub` occurs somewhere in `s`. */
  ghost predicate Contains(s: string, sub: string)
  {
    exists i :: OccursAt(s, sub, i)
  }

  /** `sub` occurs in `s` starting at index `i`. */
  ghost predicate OccursAt(s: string, sub: string, i: int)
  {
    0 <= i <= |s| - |sub| && s[i..i + |sub|] == sub
  }

  lemma ContainsMiddle(a: string, b: string, c: string)
    ensures Contains(a + b + c, b)
  {
    var s := a + b + c;
    assert s[|a|..|a| + |b|] == b;
    assert OccursAt(s, b, |a|);
  }

  lemma ContainsGrows(a: string, s: string, c: string, sub: string)
    requires Contains(s, sub)
    ensures Contains(a + s + c, sub)
  {
    var i :| OccursAt(s, sub, i);
    var t := a + s + c;
    assert t[|a| + i..|a| + i + |sub|] == s[i..i + |sub|];
    assert OccursAt(t, sub, |a| + i);
  }

  /** The diagnostic names the expected method, the outer class and the annotation to fix. */
  lemma BinderNotFoundMessageIsActionable(outerClassName: TypeName)
    ensures Contains(BinderNotFoundMessage(outerClassName), BindServiceMethodName)
    ensures Contains(BinderNotFoundMessage(outerClassName), outerClassName)
    ensures Contains(BinderNotFoundMessage(outerClassName), GRpcServiceAnnotationName)
  {
    var m := BinderNotFoundMessage(outerClassName);
    ContainsMiddle(TemplateBeforeMethod, BindServiceMethodName, TemplateBeforeClass);
    ContainsGrows("", MessagePrefix, outerClassName + MessageSuffix, BindServiceMethodName);
    assert "" + MessagePrefix + (outerClassName + MessageSuffix) == m;
    ContainsMiddle(MessagePrefix, outerClassName, MessageSuffix);
    ContainsMiddle(TemplateBeforeAnnotation, GRpcServiceAnnotationName, TemplateEnd);
    ContainsGrows(MessagePrefix + outerClassName, MessageSuffix, "", GRpcServiceAnnotationName);
    assert MessagePrefix + outerClassName + MessageSuffix + "" == m;
  }

  /** Reads the outer class name back out of a diagnostic. */
  function OuterClassOfMessage(message: string): TypeName
  {
    if |MessagePrefix| + |MessageSuffix| <= |message|
    then message[|MessagePrefix|..|message| - |MessageSuffix|]
    else ""
  }

  /** The diagnostic determines the outer class it was raised for. */
  lemma OuterClassOfBinderNotFoundMessage(outerClassName: TypeName)
    ensures OuterClassOfMessage(BinderNotFoundMessage(outerClassName)) == outerClassName
  {
  }
}
