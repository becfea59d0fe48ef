# Embedded gRPC server runner, modelled in Dafny

This project models `GRpcServerRunner` of the grpc-starter library. This Spring
component hosts one embedded gRPC server per application:

- **Binder lookup** (`BinderLookup`, binder_lookup.dfy). Every bean annotated
  with `GRpcService` names a protoc-generated "outer class". Among the declared
  methods of that class and its superclasses, in the order reflection reports them, the runner selects the
  first method that is named `bindService`, takes exactly one parameter, and
  whose parameter type is assignable from the bean's class. When no method
  meets all three conditions, the runner throws an `IllegalArgumentException`.
  Its message names the method, the outer class and the annotation.
- **Registration** (`Registration`, registration.dfy). `Resolve` is a
  left fold over the beans in iteration order. It models the runner's for-loop:
  each bean's binder is invoked, and the first bean without a binder aborts
  the run.
- **Lifecycle** (`Lifecycle`, lifecycle.dfy). These classes mirror the objects
  the source updates in place. `ServerBuilder` holds the port and the
  definitions added so far. `Server` is the built server. `GRpcServerRunner`
  holds the configured port and the nullable `server` field. `Run` opens a
  builder for the port and adds definitions in a loop. Only after the last one
  is added does it build and start the server and assign `server`. `Destroy`
  asks the server to shut down only if `server` is non-null.
- `LifecycleScenarios` is a client of these operations. It states the Greeter
  example as assertions about these operations: a bean of class `Foo`, outer
  class `GreeterOuter`, `bindService(GreeterInterface)`, port 9090. It states
  the same way the example whose only `bindService` takes two parameters.

Reflection is represented by values:
- A method is its name and parameter types (`MethodInfo`).
- `ReflectionUtils.getAllDeclaredMethods` is the `methods` sequence of an `OuterClass`.
- `Class.isAssignableFrom` is a caller-supplied relation, `Assignability`.
- `Method.invoke` is a caller-supplied function, `Invoker`, from the selected
  method and the bean to a `ServiceDefinition`.

The Spring application context and the annotation lookup become the input
sequence of `ServiceBean`s. The configured port is a constructor argument.

Behaviour of the source worth noting:
- `destroy` does not catch exceptions from `shutdown`.
- `destroy` does not clear `server`. Every call with a non-null `server` issues
  one more shutdown request, so a second `destroy` is not a no-op.
- The lifecycle has two observable states: `server` null or non-null. There is
  no separate Starting, ShuttingDown or Stopped state.

## Model

| member | source | states |
|---|---|---|
| BinderLookup.IsBinderFor | grpc-starter/src/main/java/org/liudi/grpc/GRpcServerRunner.java:49 | The filter holds exactly when the method is named `bindService`, has one parameter, and that parameter type is assignable from the service class. (Stated by FindBinder's and Candidates' contracts, which quantify over it.) |
| BinderLookup.FindBinder | grpc-starter/src/main/java/org/liudi/grpc/GRpcServerRunner.java:48-50 | A selected index lies in range, and that method is named `bindService`, has one parameter, and that parameter is assignable from the service class. No earlier method passes the filter. When nothing is selected, no method passes. |
| BinderLookup.FindBinderIsEarliest | grpc-starter/src/main/java/org/liudi/grpc/GRpcServerRunner.java:48-50 | Conversely, any index that passes the filter with no passing method before it is exactly what the lookup selects. |
| BinderLookup.Candidates | grpc-starter/src/main/java/org/liudi/grpc/GRpcServerRunner.java:48-49 | The stream filter keeps only methods of the outer class that pass the three conditions, and it keeps every such method. |
| BinderLookup.FindBinderIsFirstCandidate | grpc-starter/src/main/java/org/liudi/grpc/GRpcServerRunner.java:48-50 | `findFirst` of the filtered stream agrees with the lookup: the filter is empty exactly when nothing is selected, and otherwise its head is the selected method. |
| BinderLookup.BinderNotFoundMessageIsActionable | grpc-starter/src/main/java/org/liudi/grpc/GRpcServerRunner.java:58-61 | The exception message contains `bindService`, the outer class's name and `org.liudi.grpc.GRpcService`. |
| BinderLookup.BinderNotFoundMessage | grpc-starter/src/main/java/org/liudi/grpc/GRpcServerRunner.java:58-61 | The message is the format template with the method name, the outer class name and the annotation name in its three holes. Its content is stated by BinderNotFoundMessageIsActionable and OuterClassOfBinderNotFoundMessage. |
| BinderLookup.OuterClassOfBinderNotFoundMessage | grpc-starter/src/main/java/org/liudi/grpc/GRpcServerRunner.java:58-61 | The outer class name can be read back from the message, so different outer classes give different messages. |
| Registration.HasBinder | grpc-starter/src/main/java/org/liudi/grpc/GRpcServerRunner.java:53 | `isPresent()` of the lookup: holds exactly when some method of the outer class passes the filter (stated by BindOne's contract). |
| Registration.SelectedBinder | grpc-starter/src/main/java/org/liudi/grpc/GRpcServerRunner.java:45-54 | The method invoked for a bean is one of its outer class's methods and passes the binder filter for the bean's class. |
| Registration.BindOne | grpc-starter/src/main/java/org/liudi/grpc/GRpcServerRunner.java:53-62 | One bean registers exactly when some method of its outer class passes the filter. The definition is the selected binder applied to the bean. Otherwise the error is the IllegalArgumentException naming the bean's outer class. |
| Registration.Resolve | grpc-starter/src/main/java/org/liudi/grpc/GRpcServerRunner.java:44-63 | A successful registration yields one definition per bean. |
| Registration.ResolveStopsAtFailure | grpc-starter/src/main/java/org/liudi/grpc/GRpcServerRunner.java:44-62 | Fail-fast: once a prefix of the beans fails, appending any beans leaves the result, including its error, unchanged. |
| Registration.ResolveSucceedsIffAllHaveBinders | grpc-starter/src/main/java/org/liudi/grpc/GRpcServerRunner.java:44-63 | Registration succeeds if and only if every bean's outer class offers a binder for it. |
| Registration.ResolveDefinitions | grpc-starter/src/main/java/org/liudi/grpc/GRpcServerRunner.java:44-55 | On success the definitions follow iteration order. The i-th definition is the i-th bean's selected binder applied to that bean. |
| Registration.ResolveFailsAtFirstMissingBinder | grpc-starter/src/main/java/org/liudi/grpc/GRpcServerRunner.java:44-61 | On failure some bean k is the first without a binder: all beans before it have one. The error is the message for bean k's outer class. |
| Lifecycle.ServerBuilder.ForPort | grpc-starter/src/main/java/org/liudi/grpc/GRpcServerRunner.java:41 | A new builder is bound to the given port and holds no services. |
| Lifecycle.ServerBuilder.AddService | grpc-starter/src/main/java/org/liudi/grpc/GRpcServerRunner.java:55 | The definition is appended after those already added. |
| Lifecycle.ServerBuilder.Build | grpc-starter/src/main/java/org/liudi/grpc/GRpcServerRunner.java:65 | Builds a new server that is not yet started, with the builder's port and exactly its added services. |
| Lifecycle.Server.Start | grpc-starter/src/main/java/org/liudi/grpc/GRpcServerRunner.java:65 | Returns the server itself, now started. No shutdown has been requested by starting. |
| Lifecycle.Server.Shutdown | grpc-starter/src/main/java/org/liudi/grpc/GRpcServerRunner.java:89 | Each call adds exactly one shutdown request. |
| Lifecycle.GRpcServerRunner.constructor | grpc-starter/src/main/java/org/liudi/grpc/GRpcServerRunner.java:33-35 | A new runner has the configured port and no server. |
| Lifecycle.GRpcServerRunner.Run | grpc-starter/src/main/java/org/liudi/grpc/GRpcServerRunner.java:38-69 | Throws exactly when registration fails, with that registration's error, and then `server` is unchanged (null on a first run). On success `server` is a new, started server on the configured port. Its services are exactly the registered definitions in bean order, and it was built only after all of them were added. |
| Lifecycle.GRpcServerRunner.Destroy | grpc-starter/src/main/java/org/liudi/grpc/GRpcServerRunner.java:87-91 | When `server` is non-null, each call issues exactly one more shutdown request. When it is null, the frame `modifies server` allows nothing to change, so no server is touched. |

## Left out

- GRpcAutoConfiguration (grpc-starter/src/main/java/org/liudi/grpc/autoconfigure/GRpcAutoConfiguration.java) only wires the runner as a Spring bean and has no logic.
- Spring collaborators: `@Autowired` injection, `getBeansWithAnnotation` and `AnnotationUtils.findAnnotation` are replaced by the input sequence of beans and the port argument. The model assumes `findAnnotation` succeeds for every returned bean; a null result, which would throw NullPointerException, is not modelled.
- Reflection's method order is whatever `ReflectionUtils.getAllDeclaredMethods` reports. The model takes it as an input sequence.
- Lifecycle.GRpcServerRunner.Run: exceptions thrown by `Method.invoke`, `build()` or `start()` (for example a port already in use) are not modelled. The binder invocation is a total function, and `start` always succeeds. The total `Invoker` also covers the NullPointerException that `invoke(null, ...)` raises when the selected `bindService` is an instance method (the filter never checks `static`), and a ClassCastException from the `(ServerServiceDefinition)` cast.
- Lifecycle.GRpcServerRunner.Destroy: an exception thrown by `Server.shutdown` is not modelled. The source does not catch it either.
- gRPC internals are not modelled: connection handling, request dispatch, graceful draining and `awaitTermination`.
- The non-daemon await thread (`startDaemonAwaitThread`) is left out. It only blocks on termination so that the process stays alive, which is concurrency outside this model.
- All `System.out` logging is left out, including the service-name and port lines.
