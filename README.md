# Routing core of tavrida, in Dafny

This project models the routing core of tavrida, an RPC and pub/sub layer over
an AMQP broker. The core has three pieces:

- **Service directory** (`LocalDiscovery`). It holds three independent
  registries from service name to exchange name, one per role: `remote` (where
  a service is called), `remote_publisher` (where a remote service publishes)
  and `local_publisher` (where this process publishes). It supports
  registration (insert or overwrite), unregistration (`del`, a `KeyError` when
  the name is absent), discovery (`UnableToDiscover` when the name is absent)
  and a snapshot of all exchanges by role.
- **Outbound pipeline** (`PostProcessor`). It runs the outgoing steps
  `CreateAMQPMiddleware` then `ValidateMessageMiddleware`, each on the previous
  step's output. It then resolves the destination:
  - a `notification` is routed by its `source` header against the
    `local_publisher` registry;
  - every other message type is routed by its `destination` header against the
    `remote` registry.

  It publishes once, with the routing key of the same parsed entry point.
- **Inbound pipeline** (`PreProcessor`). It runs `ValidateMessageMiddleware`
  then `CreateMessageMiddleware`, and hands the result to the processor.

Files and modules:

- `errors.dfy` (`Errors`): the error kinds and the `Result`/`Outcome` types.
- `map_values.dfy` (`MapValues`): the multiset of a registry's values.
- `discovery.dfy` (`Discovery`): the directory, as the value `Registries` with
  its laws and as the class `LocalDiscovery`, whose map fields the methods
  update in place.
- `pipeline.dfy` (`Pipeline`): messages, steps, the event trace, and the step
  fold both pipelines share (`RunSteps` and its loop `RunPipeline`).
- `postprocessor.dfy` (`PostProcessing`): `Route` (destination resolution) and
  the class `PostProcessor`.
- `preprocessor.dfy` (`PreProcessing`): the class `PreProcessor`.

How collaborators outside the core are modelled:

- A middleware step is an opaque partial function `Message -> Result<Message>`
  passed to the pipeline's constructor.
- The entry-point parser is a parameter `parse: string -> Result<EntryPoint>`.
  The `routingKey` of an `EntryPoint` stands for `to_routing_key()`.
- The transport driver's `publish_message` and the processor's `process` are
  recorded as `Published` and `HandedOff` events in the pipeline's `trace`
  field. The driver and the processor themselves are opaque type parameters.

One point where the code differs from its docstrings; the model follows the
code:

- The docstrings of `register_remote_publisher` and `register_local_publisher`
  (tavrida/discovery.py:82-102) describe each other's role. The code delegates
  each to its own role, and so does the model.

The outbound steps build the AMQP envelope and then validate it
(tavrida/postprocessor.py:20-23).

## Model

| member | source | states |
|---|---|---|
| `Discovery.Registries.Register` | tavrida/discovery.py:160-167 | Registration binds the name to the exchange in its role, overwriting silently; the other two roles are unchanged |
| `Discovery.Registries.Unregister` | tavrida/discovery.py:169-176 | Succeeds exactly when the name is registered in the role and then removes only that key; otherwise fails with `KeyError(name)` |
| `Discovery.Registries.Lookup` | tavrida/discovery.py:178-191 | Returns the registered exchange exactly when the name is present in the role, else `UnableToDiscover(service=name)` |
| `Discovery.EmptyDiscoversNothing` | tavrida/discovery.py:154-158 | A fresh directory discovers no name in any role |
| `Discovery.RegisterThenLookup` | tavrida/discovery.py:160-167 | Registering `(name, ex)` in a role, then discovering `name` there, yields `ex` |
| `Discovery.RegisterOverwrites` | tavrida/discovery.py:160-167 | Registering a name twice in a role is the same as registering only the later exchange; discovery returns the later one |
| `Discovery.RegisterLeavesOthers` | tavrida/discovery.py:160-167 | Registration changes the discovery of no other name in the role and of nothing in the other roles |
| `Discovery.UnregisterRemovesOnlyThatName` | tavrida/discovery.py:169-191 | After a successful unregistration the name is no longer discovered, a second unregistration fails with `KeyError`, and every other entry is discovered as before |
| `Discovery.RegisterThenUnregister` | tavrida/discovery.py:160-176 | Unregistering a name that was just registered for the first time restores the directory exactly |
| `Discovery.RegisterSnapshot` | tavrida/discovery.py:193-198 | In a role's snapshot, registration removes one copy of the replaced exchange, if any, and adds one copy of the new one |
| `Discovery.UnregisterSnapshot` | tavrida/discovery.py:193-198 | In a role's snapshot, unregistration removes exactly one copy of the removed exchange |
| `Discovery.LocalDiscovery.constructor` | tavrida/discovery.py:154-158 | A new directory has all three registries empty |
| `Discovery.LocalDiscovery.StoreRemote` | tavrida/discovery.py:160-161 | `_register_remote`: the new state is the old one with the name registered in `remote` |
| `Discovery.LocalDiscovery.StoreRemotePublisher` | tavrida/discovery.py:163-164 | `_register_remote_publisher`: the same for `remote_publisher` |
| `Discovery.LocalDiscovery.StoreLocalPublisher` | tavrida/discovery.py:166-167 | `_register_local_publisher`: the same for `local_publisher` |
| `Discovery.LocalDiscovery.RegisterRemoteService` | tavrida/discovery.py:71-80 | Delegates to the `remote` registration and has exactly its effect |
| `Discovery.LocalDiscovery.RegisterRemotePublisher` | tavrida/discovery.py:82-91 | Delegates to the `remote_publisher` registration and has exactly its effect |
| `Discovery.LocalDiscovery.RegisterLocalPublisher` | tavrida/discovery.py:93-102 | Delegates to the `local_publisher` registration and has exactly its effect |
| `Discovery.LocalDiscovery.UnregisterRemoteService` | tavrida/discovery.py:169-170 | Removes the name from `remote` when present; otherwise fails with `KeyError` and changes nothing |
| `Discovery.LocalDiscovery.UnregisterRemotePublisher` | tavrida/discovery.py:172-173 | The same for `remote_publisher` |
| `Discovery.LocalDiscovery.UnregisterLocalPublisher` | tavrida/discovery.py:175-176 | The same for `local_publisher` |
| `Discovery.LocalDiscovery.GetRemote` | tavrida/discovery.py:178-181 | Returns the `remote` exchange exactly when the name is registered, else `UnableToDiscover(name)`; changes nothing |
| `Discovery.LocalDiscovery.GetRemotePublisher` | tavrida/discovery.py:183-186 | The same for `remote_publisher` |
| `Discovery.LocalDiscovery.GetLocalPublisher` | tavrida/discovery.py:188-191 | The same for `local_publisher` |
| `Discovery.LocalDiscovery.GetAllExchanges` | tavrida/discovery.py:193-198 | Exactly the keys `remote`, `remote_publisher` and `local_publisher`, each holding the multiset of that registry's exchanges, one per registered service |
| `MapValues.ValuesOfCount` | tavrida/discovery.py:195-197 | An exchange occurs in a role's snapshot once for every service bound to it |
| `MapValues.ValuesOfMembership` | tavrida/discovery.py:195-197 | An exchange is in a role's snapshot exactly when some service of that role is bound to it |
| `Pipeline.RunStepsAppend` | tavrida/postprocessor.py:32-35 | Running a split step list runs the first part, then the second part on its output only if the first part succeeded |
| `Pipeline.StepEventsShape` | tavrida/preprocessor.py:36-39 | Steps run strictly in declared order; the first gets the raw message and each later one its predecessor's output; a failing step is the last to run and its error is the run's error; on success all steps ran and the output is the last step's |
| `Pipeline.TwoStepRun` | tavrida/postprocessor.py:20-35 | In a two-step list the second step runs only after the first succeeded, and on the first step's output |
| `Pipeline.StepsHaveNoEffects` | tavrida/postprocessor.py:32-35 | Running steps neither publishes nor hands off anything |
| `Pipeline.RunPipeline` | tavrida/preprocessor.py:36-39 | The `msg = step.process(msg)` loop computes the step fold and reports exactly the steps that ran |
| `PostProcessing.Route` | tavrida/postprocessor.py:53-66 | A notification resolves `parse(source).service` in `local_publisher`; every other type resolves `parse(destination).service` in `remote`; the routing key is that same entry point's; a missing header, a parse failure or an unknown service is the error |
| `PostProcessing.ReplyRoutesLikeRequest` | tavrida/postprocessor.py:58-65 | A `response` or `error` routes exactly as the same headers with any other non-notification type |
| `PostProcessing.RouteReadsSelectedHeaderOnly` | tavrida/postprocessor.py:54-65 | Routing depends on the headers only through the message type and the one header it selects |
| `PostProcessing.RouteIgnoresRemotePublishers` | tavrida/postprocessor.py:53-65 | Outbound routing never consults the `remote_publisher` registry |
| `PostProcessing.RegisterThenRoute` | tavrida/postprocessor.py:54-66 | Once the selected service is registered in the selected role, the message routes to that exchange with the entry point's routing key |
| `PostProcessing.UnregisterThenRouteFails` | tavrida/postprocessor.py:54-65 | Once that service is unregistered, routing fails with `UnableToDiscover` naming it |
| `PostProcessing.OutboundPublishesOnce` | tavrida/postprocessor.py:32-67 | Exactly one publication, of the final step output to the resolved exchange and routing key, when all steps and the route succeed; none otherwise |
| `PostProcessing.PostProcessor.constructor` | tavrida/postprocessor.py:15-23 | Keeps the driver and the directory; the step list is `CreateAMQPMiddleware` then `ValidateMessageMiddleware` |
| `PostProcessing.PostProcessor.DiscoveryService` | tavrida/postprocessor.py:38-40 | The `discovery_service` property is the directory the pipeline currently holds, the one `Send` resolves against |
| `PostProcessing.PostProcessor.SetDiscovery` | tavrida/postprocessor.py:42-43 | The directory that `Send` resolves against from then on is the one given |
| `PostProcessing.PostProcessor.Send` | tavrida/postprocessor.py:45-67 | Fails with the routing error without publishing, or appends one publication of the message to the routed destination; the directory is unchanged |
| `PostProcessing.PostProcessor.Process` | tavrida/postprocessor.py:25-36 | Outcome and trace are the step runs followed by the send of their output, with nothing sent after a step failure |
| `PreProcessing.InboundHandsOffOnce` | tavrida/preprocessor.py:36-40 | The processor gets exactly one message, the last step's output, when every step succeeds, and it comes after all step runs; it gets nothing when a step fails |
| `PreProcessing.PreProcessor.constructor` | tavrida/preprocessor.py:14-25 | The `processor` property is the processor given; the step list is `ValidateMessageMiddleware` then `CreateMessageMiddleware` |
| `PreProcessing.PreProcessor.Process` | tavrida/preprocessor.py:27-40 | Outcome and trace are the step runs followed by the hand-off of their output, with no hand-off after a step failure |

## Left out

- The internals of the middleware steps, of the entry-point parser and of
  `to_routing_key()` are not part of this model. They are opaque parameters.
- Errors raised by the transport driver's `publish_message` or the processor's
  `process` are not modelled. Both calls always succeed here and are recorded
  as events; in the code a failure there would propagate unchanged.
- All three pipeline stages use one `Message` type (headers and a body). The
  real raw, envelope and typed message classes are not distinguished.
- Logging, the `abc` metaclass and the `controller.AbstractController` base
  class are not modelled. `AbstractDiscovery` is modelled only through the
  three public register methods it defines.
- The order of `dict.values()` in `get_all_exchanges` is unspecified, so the
  snapshot is a multiset. For that reason `GetAllExchanges` is a ghost
  function.
- Concurrent access to the directory is not modelled. The code has no
  synchronisation, and every operation here is sequential.
