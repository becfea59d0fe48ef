/**
 * The runner's lifecycle: `run` opens a server builder on the configured port,
 * adds every bean's service definition to it, and only then builds and starts
 * the server and stores it in the `server` field; `destroy` shuts down whatever
 * that field holds, and does nothing while it is null.
 */
module Lifecycle {
  import opened Wrappers
  import opened BinderLookup
  import opened Registration

  /** A running (or built) gRPC server: its port and services are fixed when it is built. */
  class Server {
    const port: int
    const services: seq<ServiceDefinition>
    var started: bool
    /** How many times `shutdown` has been requested. */
    var shutdownRequests: nat

    constructor (port: int, services: seq<ServiceDefinition>)
      ensures this.port == port && this.services == services
      ensures !started && shutdownRequests == 0
    {
      this.port := port;
      this.services := services;
      started := false;
      shutdownRequests := 0;
    }

    /** `Server.start()`, which returns the server itself. */
    method Start() returns (self: Server)
      modifies this
      ensures self == this
      ensures started && shutdownRequests == old(shutdownRequests)
    {
      started := true;
      self := this;
    }

    /** `Server.shutdown()`: one more request to stop, the server's own drain semantics left out. */
    method Shutdown()
      modifies this
      ensures shutdownRequests == old(shutdownRequests) + 1
      ensures started == old(started)
    {
      shutdownRequests := shutdownRequests + 1;
    }
  }

  /** `ServerBuilder`: a port and the service definitions added so far. */
  class ServerBuilder {
    const port: int
    var services: seq<ServiceDefinition>

    /** `ServerBuilder.forPort(port)`. */
    constructor ForPort(port: int)
      ensures this.port == port && services == []
    {
      this.port := port;
      services := [];
    }

    method AddService(definition: ServiceDefinition)
      modifies this
      ensures services == old(services) + [definition]
    {
      services := services + [definition];
    }

    /** `build()`: a new, not yet started server holding exactly the added services. */
    method Build() returns (s: Server)
      ensures fresh(s)
      ensures s.port == port && s.services == services
      ensures !s.started && s.shutdownRequests == 0
    {
      s := new Server(port, services);
    }
  }

  /** `GRpcServerRunner`: the configured port and the server it started, if any. */
  class GRpcServerRunner {
    /** `gRpcServerProperties.getPort()`. */
    const port: int
    var server: Server?

    constructor (port: int)
      ensures this.port == port && server == null
    {
      this.port := port;
      server := null;
    }

    /**
     * `run`: registers every bean, in order, and starts the server, or throws at
     * the first bean without a binder, leaving `server` as it was.
     */
    method Run(beans: seq<ServiceBean>, assignable: Assignability, invoke: Invoker) returns (outcome: Outcome<RunError>)
      modifies this
      ensures outcome.Fail? <==> Resolve(beans, assignable, invoke).Failure?
      ensures outcome.Fail? ==> outcome.error == Resolve(beans, assignable, invoke).error && server == old(server)
      ensures outcome.Pass? ==>
                && server != null && fresh(server)
                && server.port == port
                && server.services == Resolve(beans, assignable, invoke).value
                && server.started && server.shutdownRequests == 0
    {
      var builder := new ServerBuilder.ForPort(port);
      var i := 0;
      while i < |beans|
        invariant 0 <= i <= |beans|
        invariant fresh(builder) && builder.port == port
        invariant server == old(server)
        invariant Resolve(beans[..i], assignable, invoke) == Success(builder.services)
      {
        var bean := beans[i];
        var methods := bean.outerClass.methods;
        assert beans[..i + 1][..i] == beans[..i];
        match FindBinder(methods, bean.serviceClass, assignable) {
          case Some(k) =>
            var definition := invoke(methods[k], bean);
            builder.AddService(definition);
          case None =>
            outcome := Fail(IllegalArgumentException(BinderNotFoundMessage(bean.outerClass.name)));
            ResolveStopsAtFailure(beans[..i + 1], beans[i + 1..], assignable, invoke);
            assert beans[..i + 1] + beans[i + 1..] == beans;
            return;
        }
        i := i + 1;
      }
      assert beans[..i] == beans;
      var built := builder.Build();
      server := built.Start();
      outcome := Pass;
    }

    /** `destroy`: a shutdown request to the server if there is one; the field itself is kept. */
    method Destroy()
      modifies server
      ensures server != null ==> server.shutdownRequests == old(server.shutdownRequests) + 1
      ensures server != null ==> server.started == old(server.started)
    {
      if server != null {
        server.Shutdown();
      }
    }
  }
}

/**
 * A client of the runner: a bean of class Foo whose outer class GreeterOuter
 * declares `bindService(GreeterInterface)`, with Foo implementing GreeterInterface,
 * is served on the configured port; a second destroy asks the server to shut
 * down once more. A bean whose outer class only offers a two-parameter
 * `bindService` makes `run` throw before any server exists.
 */
module LifecycleScenarios {
  import opened Wrappers
  import opened BinderLookup
  import opened Registration
  import opened Lifecycle

  method GreeterScenario()
  {
    var assignable: Assignability := (p, c) => p == c || (p == "GreeterInterface" && c == "Foo");
    var invoke: Invoker := (m, b) => ServiceDefinition("Greeter");
    var binder := MethodInfo("bindService", ["GreeterInterface"]);
    var bean := ServiceBean(1, "Foo", OuterClass("GreeterOuter", [MethodInfo("toString", []), binder]));
    assert FindBinder(bean.outerClass.methods, "Foo", assignable) == Some(1);

    var runner := new GRpcServerRunner(9090);
    runner.Destroy();
    assert runner.server == null;
    var outcome := runner.Run([bean], assignable, invoke);
    assert outcome == Pass;
    assert runner.server.port == 9090 && runner.server.services == [ServiceDefinition("Greeter")];
    runner.Destroy();
    runner.Destroy();
    assert runner.server.shutdownRequests == 2;
  }

  method TwoParameterBinderScenario()
  {
    var assignable: Assignability := (p, c) => p == c || (p == "OtherInterface" && c == "Foo");
    var invoke: Invoker := (m, b) => ServiceDefinition("Other");
    var bean := ServiceBean(1, "Foo", OuterClass("OtherOuter", [MethodInfo("bindService", ["OtherInterface", "int"])]));
    var runner := new GRpcServerRunner(9090);
    var outcome := runner.Run([bean], assignable, invoke);
    assert outcome == Fail(IllegalArgumentException(BinderNotFoundMessage("OtherOuter")));
    assert runner.server == null;
    runner.Destroy();
  }
}
