/**
 * The outbound pipeline: run the outgoing steps, resolve the destination
 * exchange and routing key from the message headers and the service
 * directory, and publish once.
 */
module PostProcessing {
  import opened Errors
  import opened Discovery
  import opened Pipeline

  /** A parsed routing string: the service it names and the canonical routing
      key it re-serialises to (`to_routing_key()`). */
  datatype EntryPoint = EntryPoint(service: string, routingKey: string)

  /** Where a message is published. */
  datatype Destination = Destination(exchange: string, routingKey: string)

  /** The header that names the entry point: a notification is routed by its
      publisher's own `source`, every other message by its `destination`. */
  function SelectedHeader(messageType: string): string {
    if messageType == "notification" then "source" else "destination"
  }

  /** The directory role consulted: a notification goes to the local publisher's
      exchange, every other message to the addressed service's remote exchange. */
  function SelectedRole(messageType: string): Role {
    if messageType == "notification" then LocalPublisher else Remote
  }

  /** Parse the routing string in `header`, discover its service in `role`, and
      take the routing key from the same entry point. */
  function Resolve(headers: map<string, string>, header: string, role: Role,
                   parse: string -> Result<EntryPoint>, dir: Registries): Result<Destination>
  {
    if header !in headers then Err(KeyError(header))
    else match parse(headers[header])
      case Err(e) => Err(e)
      case Ok(ep) =>
        match dir.Lookup(role, ep.service)
        case Err(e) => Err(e)
        case Ok(exchange) => Ok(Destination(exchange, ep.routingKey))
  }

  /** Destination resolution of `_send`, with its three branches. */
  function Route(headers: map<string, string>, parse: string -> Result<EntryPoint>, dir: Registries)
    : (r: Result<Destination>)
    ensures "message_type" !in headers ==> r == Err(KeyError("message_type"))
    ensures "message_type" in headers ==>
      var header := SelectedHeader(headers["message_type"]);
      var role := SelectedRole(headers["message_type"]);
      && (header !in headers ==> r == Err(KeyError(header)))
      && (header in headers && parse(headers[header]).Err? ==> r == Err(parse(headers[header]).error))
      && (header in headers && parse(headers[header]).Ok? ==>
            var ep := parse(headers[header]).value;
            && (ep.service !in dir.Get(role) ==> r == Err(UnableToDiscover(ep.service)))
            && (ep.service in dir.Get(role) ==> r == Ok(Destination(dir.Get(role)[ep.service], ep.routingKey))))
  {
    if "message_type" !in headers then Err(KeyError("message_type"))
    else if headers["message_type"] == "notification" then
      Resolve(headers, "source", LocalPublisher, parse, dir)
    else if headers["message_type"] in {"response", "error"} then
      Resolve(headers, "destination", Remote, parse, dir)
    else
      Resolve(headers, "destination", Remote, parse, dir)
  }

  /** A response or an error is routed exactly as any other non-notification
      message with the same headers, a request included. */
  lemma ReplyRoutesLikeRequest(headers: map<string, string>, parse: string -> Result<EntryPoint>,
                               dir: Registries, other: string)
    requires "message_type" in headers && headers["message_type"] in {"response", "error"}
    requires other != "notification"
    ensures Route(headers, parse, dir) == Route(headers["message_type" := other], parse, dir)
  {
  }

  /** Routing reads the message type and the one header it selects, and nothing else of the headers. */
  lemma RouteReadsSelectedHeaderOnly(h1: map<string, string>, h2: map<string, string>,
                                     parse: string -> Result<EntryPoint>, dir: Registries)
    requires "message_type" in h1 && "message_type" in h2
    requires h1["message_type"] == h2["message_type"]
    requires var header := SelectedHeader(h1["message_type"]);
      (header in h1 <==> header in h2) && (header in h1 ==> h1[header] == h2[header])
    ensures Route(h1, parse, dir) == Route(h2, parse, dir)
  {
  }

  /** Outbound routing never consults the remote publisher registry. */
  lemma RouteIgnoresRemotePublishers(headers: map<string, string>, parse: string -> Result<EntryPoint>,
                                     d1: Registries, d2: Registries)
    requires d1.remote == d2.remote && d1.localPublisher == d2.localPublisher
    ensures Route(headers, parse, d1) == Route(headers, parse, d2)
  {
  }

  /** Once the service named by the selected header is registered in the
      selected role, the message routes to that exchange, keyed by the routing
      key of the same entry point. */
  lemma RegisterThenRoute(headers: map<string, string>, parse: string -> Result<EntryPoint>,
                          dir: Registries, exchange: string)
    requires "message_type" in headers
    requires SelectedHeader(headers["message_type"]) in headers
    requires parse(headers[SelectedHeader(headers["message_type"])]).Ok?
    ensures var ep := parse(headers[SelectedHeader(headers["message_type"])]).value;
      Route(headers, parse, dir.Register(SelectedRole(headers["message_type"]), ep.service, exchange))
        == Ok(Destination(exchange, ep.routingKey))
  {
  }

  /** Once that service is unregistered, the message fails to route, naming the service. */
  lemma UnregisterThenRouteFails(headers: map<string, string>, parse: string -> Result<EntryPoint>,
                                 dir: Registries)
    requires "message_type" in headers
    requires SelectedHeader(headers["message_type"]) in headers
    requires parse(headers[SelectedHeader(headers["message_type"])]).Ok?
    requires dir.Unregister(SelectedRole(headers["message_type"]),
                            parse(headers[SelectedHeader(headers["message_type"])]).value.service).Ok?
    ensures var ep := parse(headers[SelectedHeader(headers["message_type"])]).value;
      var after := dir.Unregister(SelectedRole(headers["message_type"]), ep.service).value;
      Route(headers, parse, after) == Err(UnableToDiscover(ep.service))
  {
  }

  /** The publication `_send` makes for a resolved route; none for a failed one. */
  function SendEvents(route: Result<Destination>, message: Message): seq<Event> {
    match route
    case Err(_) => []
    case Ok(dest) => [Published(dest.exchange, dest.routingKey, message)]
  }

  /** What `process` reports: the first step failure, else the routing failure, else success. */
  function OutboundOutcome(steps: seq<Step>, parse: string -> Result<EntryPoint>, dir: Registries, m: Message)
    : Outcome
  {
    match RunSteps(steps, m)
    case Err(e) => Fail(e)
    case Ok(out) =>
      match Route(out.headers, parse, dir)
      case Err(e) => Fail(e)
      case Ok(_) => Pass
  }

  /** What `process` does: the steps that ran, then the publication of the final message, if any. */
  function OutboundTrace(steps: seq<Step>, parse: string -> Result<EntryPoint>, dir: Registries, m: Message)
    : seq<Event>
  {
    StepEvents(steps, m) +
      match RunSteps(steps, m)
      case Err(_) => []
      case Ok(out) => SendEvents(Route(out.headers, parse, dir), out)
  }

  /** The outbound pipeline publishes exactly once, the final step output to the
      resolved exchange under the resolved routing key, when every step and the
      route succeed, and never otherwise. */
  lemma OutboundPublishesOnce(steps: seq<Step>, parse: string -> Result<EntryPoint>, dir: Registries, m: Message)
    ensures var out := RunSteps(steps, m);
      Effects(OutboundTrace(steps, parse, dir, m)) ==
        if out.Ok? && Route(out.value.headers, parse, dir).Ok?
        then [Published(Route(out.value.headers, parse, dir).value.exchange,
                        Route(out.value.headers, parse, dir).value.routingKey, out.value)]
        else []
    ensures var out := RunSteps(steps, m);
      OutboundOutcome(steps, parse, dir, m) == Pass <==> out.Ok? && Route(out.value.headers, parse, dir).Ok?
    ensures RunSteps(steps, m).Ok? && Route(RunSteps(steps, m).value.headers, parse, dir).Ok? ==>
      OutboundTrace(steps, parse, dir, m)[|OutboundTrace(steps, parse, dir, m)| - 1].Published?
  {
    var tail := match RunSteps(steps, m)
      case Err(_) => []
      case Ok(out) => SendEvents(Route(out.headers, parse, dir), out);
    StepsHaveNoEffects(steps, m);
    EffectsAppend(StepEvents(steps, m), tail);
    if RunSteps(steps, m).Ok? {
      var out := RunSteps(steps, m).value;
      if Route(out.headers, parse, dir).Ok? {
        var dest := Route(out.headers, parse, dir).value;
        assert Effects(tail) == Effects([Published(dest.exchange, dest.routingKey, out)] + []);
      }
    }
  }

  /** The outbound pipeline of one process. `D` stands for the transport driver,
      whose `publish_message` calls are recorded as `Published` events. */
  class PostProcessor<D> {
    const driver: D
    var discovery: LocalDiscovery
    const steps: seq<Step>
    const parse: string -> Result<EntryPoint>
    var trace: seq<Event>

    constructor (driver: D, discovery: LocalDiscovery, parse: string -> Result<EntryPoint>,
                 createAmqp: Message -> Result<Message>, validate: Message -> Result<Message>)
      ensures this.driver == driver && this.discovery == discovery && this.parse == parse
      ensures steps == [Step(CreateAMQPMiddleware, createAmqp), Step(ValidateMessageMiddleware, validate)]
      ensures trace == []
    {
      this.driver := driver;
      this.discovery := discovery;
      this.parse := parse;
      steps := [Step(CreateAMQPMiddleware, createAmqp), Step(ValidateMessageMiddleware, validate)];
      trace := [];
    }

    /** The `discovery_service` property. */
    function DiscoveryService(): (r: LocalDiscovery)
      reads this
      ensures r == discovery
    {
      discovery
    }

    /** Later sends resolve against `d`. */
    method SetDiscovery(d: LocalDiscovery)
      modifies this`discovery
      ensures DiscoveryService() == d
    {
      discovery := d;
    }

    /** `_send`: resolve the destination of `message` and publish it once, or fail
        without publishing. The directory is read, never changed. */
    method Send(message: Message) returns (r: Outcome)
      modifies this`trace
      ensures discovery.State() == old(discovery.State())
      ensures var route := Route(message.headers, parse, discovery.State());
        && r == (if route.Ok? then Pass else Fail(route.error))
        && trace == old(trace) + SendEvents(route, message)
    {
      var discoveryService := DiscoveryService();
      var headers := message.headers;
      if "message_type" !in headers {
        return Fail(KeyError("message_type"));
      }
      var ep: EntryPoint;
      var exchange: Result<string>;
      if headers["message_type"] == "notification" {
        if "source" !in headers {
          return Fail(KeyError("source"));
        }
        var parsed := parse(headers["source"]);
        if parsed.Err? {
          return Fail(parsed.error);
        }
        ep := parsed.value;
        exchange := discoveryService.GetLocalPublisher(ep.service);
      } else if headers["message_type"] in {"response", "error"} {
        if "destination" !in headers {
          return Fail(KeyError("destination"));
        }
        var parsed := parse(headers["destination"]);
        if parsed.Err? {
          return Fail(parsed.error);
        }
        ep := parsed.value;
        exchange := discoveryService.GetRemote(ep.service);
      } else {
        if "destination" !in headers {
          return Fail(KeyError("destination"));
        }
        var parsed := parse(headers["destination"]);
        if parsed.Err? {
          return Fail(parsed.error);
        }
        ep := parsed.value;
        exchange := discoveryService.GetRemote(ep.service);
      }
      if exchange.Err? {
        return Fail(exchange.error);
      }
      var routingKey := ep.routingKey;
      trace := trace + [Published(exchange.value, routingKey, message)];
      r := Pass;
    }

    /** `process`: run the outgoing steps in order, then send their output. */
    method Process(messageObj: Message) returns (r: Outcome)
      modifies this`trace
      ensures r == OutboundOutcome(steps, parse, discovery.State(), messageObj)
      ensures trace == old(trace) + OutboundTrace(steps, parse, discovery.State(), messageObj)
    {
      var msg, ran := RunPipeline(steps, messageObj);
      trace := trace + ran;
      if msg.Err? {
        return Fail(msg.error);
      }
      r := Send(msg.value);
    }
  }
}
