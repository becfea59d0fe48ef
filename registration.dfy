/**
 * The register-or-throw loop of the runner, as a value: every GRpcService bean,
 * in the order the application context yields them, is turned into the service
 * definition its binder returns, and the first bean without a binder aborts the
 * whole registration with an IllegalArgumentException.
 */
module Registration {
  import opened Wrappers
  import opened BinderLookup

  /**
   * The gRPC outer class named by a bean's GRpcService annotation, with the methods
   * declared by it and by its superclasses, in the order reflection reports them.
   */
  datatype OuterClass = OuterClass(name: TypeName, methods: seq<MethodInfo>)

  /**
   * A GRpcService bean: the object (an identity), its runtime class and the outer
   * class its annotation's grpcServiceOuterClass attribute names.
   */
  datatype ServiceBean = ServiceBean(id: nat, serviceClass: TypeName, outerClass: OuterClass)

  /** io.grpc.ServerServiceDefinition, opaque apart from the service name it carries. */
  datatype ServiceDefinition = ServiceDefinition(serviceName: string)

  /** `Method.invoke(null, bean)` of the selected binder method. */
  type Invoker = (MethodInfo, ServiceBean) -> ServiceDefinition

  /** The exception `run` throws. */
  datatype RunError = IllegalArgumentException(message: string)

  /** True when the bean's outer class offers a binder for it. */
  predicate HasBinder(b: ServiceBean, assignable: Assignability)
  {
    FindBinder(b.outerClass.methods, b.serviceClass, assignable).Some?
  }

  /** The binder selected for a bean that has one. */
  function SelectedBinder(b: ServiceBean, assignable: Assignability): (m: MethodInfo)
    requires HasBinder(b, assignable)
    ensures m in b.outerClass.methods && IsBinderFor(m, b.serviceClass, assignable)
  {
    b.outerClass.methods[FindBinder(b.outerClass.methods, b.serviceClass, assignable).value]
  }

  /** One iteration of the loop: find the binder and invoke it, or report the outer class. */
  function BindOne(b: ServiceBean, assignable: Assignability, invoke: Invoker): (r: Result<ServiceDefinition, RunError>)
    ensures r.Success? <==> exists j :: 0 <= j < |b.outerClass.methods|
                                       && IsBinderFor(b.outerClass.methods[j], b.serviceClass, assignable)
    ensures r.Success? <==> HasBinder(b, assignable)
    ensures r.Success? ==> r.value == invoke(SelectedBinder(b, assignable), b)
    ensures r.Failure? ==> r.error == IllegalArgumentException(BinderNotFoundMessage(b.outerClass.name))
  {
    var methods := b.outerClass.methods;
    match FindBinder(methods, b.serviceClass, assignable)
    case Some(k) => Success(invoke(methods[k], b))
    case None => Failure(IllegalArgumentException(BinderNotFoundMessage(b.outerClass.name)))
  }

  /**
   * The definitions added to the server builder, in iteration order, or the
   * exception of the first bean without a binder. Defined as a left fold, the
   * shape of the for-loop: a prefix that failed stays failed.
   */
  function Resolve(beans: seq<ServiceBean>, assignable: Assignability, invoke: Invoker): (r: Result<seq<ServiceDefinition>, RunError>)
    ensures r.Success? ==> |r.value| == |beans|
    decreases |beans|
  {
    if |beans| == 0 then Success([])
    else
      var last := beans[|beans| - 1];
      match Resolve(beans[..|beans| - 1], assignable, invoke)
      case Failure(e) => Failure(e)
      case Success(defs) =>
        match BindOne(last, assignable, invoke)
        case Failure(e) => Failure(e)
        case Success(d) => Success(defs + [d])
  }

  /** Fail-fast: once a prefix has failed, the beans after it change nothing. */
  lemma {:induction false} ResolveStopsAtFailure(prefix: seq<ServiceBean>, rest: seq<ServiceBean>, assignable: Assignability, invoke: Invoker)
    requires Resolve(prefix, assignable, invoke).Failure?
    ensures Resolve(prefix + rest, assignable, invoke) == Resolve(prefix, assignable, invoke)
    decreases |rest|
  {
    if |rest| > 0 {
      var shorter := rest[..|rest| - 1];
      ResolveStopsAtFailure(prefix, shorter, assignable, invoke);
      assert (prefix + rest)[..|prefix + rest| - 1] == prefix + shorter;
    } else {
      assert prefix + rest == prefix;
    }
  }

  /** Registration succeeds exactly when every bean has a binder. */
  lemma {:induction false} ResolveSucceedsIffAllHaveBinders(beans: seq<ServiceBean>, assignable: Assignability, invoke: Invoker)
    ensures Resolve(beans, assignable, invoke).Success?
        <==> forall i :: 0 <= i < |beans| ==> HasBinder(beans[i], assignable)
    decreases |beans|
  {
    if |beans| > 0 {
      var init := beans[..|beans| - 1];
      ResolveSucceedsIffAllHaveBinders(init, assignable, invoke);
      assert forall i :: 0 <= i < |init| ==> init[i] == beans[i];
    }
  }

  /** On success, the i-th definition is what the i-th bean's selected binder returns for it. */
  lemma {:induction false} ResolveDefinitions(beans: seq<ServiceBean>, assignable: Assignability, invoke: Invoker)
    requires Resolve(beans, assignable, invoke).Success?
    ensures var defs := Resolve(beans, assignable, invoke).value;
            && |defs| == |beans|
            && forall i :: 0 <= i < |beans| ==>
                 HasBinder(beans[i], assignable) && defs[i] == invoke(SelectedBinder(beans[i], assignable), beans[i])
    decreases |beans|
  {
    if |beans| > 0 {
      var init := beans[..|beans| - 1];
      ResolveDefinitions(init, assignable, invoke);
      assert forall i :: 0 <= i < |init| ==> init[i] == beans[i];
    }
  }

  /**
   * On failure, the exception names the outer class of the first bean without a
   * binder; every bean before it has one.
   */
  lemma {:induction false} ResolveFailsAtFirstMissingBinder(beans: seq<ServiceBean>, assignable: Assignability, invoke: Invoker)
    requires Resolve(beans, assignable, invoke).Failure?
    ensures exists k :: 0 <= k < |beans| && IsFirstMissingBinder(beans, k, assignable)
                     && Resolve(beans, assignable, invoke).error
                        == IllegalArgumentException(BinderNotFoundMessage(beans[k].outerClass.name))
    decreases |beans|
  {
    var init := beans[..|beans| - 1];
    assert forall i :: 0 <= i < |init| ==> init[i] == beans[i];
    if Resolve(init, assignable, invoke).Failure? {
      ResolveFailsAtFirstMissingBinder(init, assignable, invoke);
      var k :| 0 <= k < |init| && IsFirstMissingBinder(init, k, assignable)
               && Resolve(init, assignable, invoke).error
                  == IllegalArgumentException(BinderNotFoundMessage(init[k].outerClass.name));
      assert IsFirstMissingBinder(beans, k, assignable);
    } else {
      ResolveSucceedsIffAllHaveBinders(init, assignable, invoke);
      assert IsFirstMissingBinder(beans, |beans| - 1, assignable);
    }
  }

  /** Bean `k` is the first one whose outer class offers no binder. */
  predicate IsFirstMissingBinder(beans: seq<ServiceBean>, k: nat, assignable: Assignability)
    requires k < |beans|
  {
    && !HasBinder(beans[k], assignable)
    && forall j :: 0 <= j < k ==> HasBinder(beans[j], assignable)
  }
}
