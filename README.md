# OPC UA client core, modelled in Dafny

This project models `OpcClient`, the thin OPC UA client of the OPC-Client-lib repository, together
with `SubscribeRequest`, the request object its subscriptions deliver through. The client keeps a
connection status and one session channel, and it picks a server endpoint whose security policy is
None. It reads and writes node values in batches, sets up a subscription whose publish responses
it filters by subscription id, and runs a polling loop that logs node values until a cancellation
token is set.

The transport library (Workstation.ServiceModel.Ua) is not modelled. Its answers reach the model as
method inputs:
- the discovered endpoints, or None when GetEndpoints threw;
- whether the channel opened or closed, and the answer of IsEmpty over its publish stream, once that answer has arrived;
- the read and write results, or that the call threw;
- the subscription id and whether CreateMonitoredItems returned;
- the RegisterNodes response;
- the publish responses the channel emits after the filter is installed;
- a script of cancellation observations and read answers for the logging loop.

`NodeId.Parse` is a parameter `parse`, and a text it rejects (None) stands for Parse throwing.
`StatusCode.IsGood` is the severity test: the top two bits of the code are zero.

C# events are modelled as a list of attached handlers plus a log of deliveries. `Event?.Invoke(x)`
appends one delivery per attached handler, in attachment order (`Events.Fire`). Repeated
invocations append successive rounds (`Events.Broadcast`). `Events.Received` is what one handler
saw.

Modules:
- `Ua`: the library types the client touches.
- `Events`: multicast events.
- `DataObject`: the configuration record.
- `Channel`: the session channel and its answers.
- `Requests`: the request bodies.
- `EndpointSelection`: the endpoint choice in OpenAsync.
- `Subscribe`: `SubscribeRequest`.
- `Notifications`: the publish-stream demultiplexing.
- `DataLogging`: `DataLoggingRequest`.
- `Logging`: the logging loop as a function of its script.
- `OpcUaClient`: the client class and the methods its actions run.

Behaviour of the code that a caller may not expect, modelled as written:
- ReadValueAsync and WriteValueAsync catch their own "Not Connected" exception and return null
  (OPCClient.cs:176-177, 202-207, 215-216, 230-235).
- A successful read returns one entry per result the server sent, not one per requested id
  (OPCClient.cs:195-200).
- A registration that returns an empty RegisteredNodeIds array does not throw: only a null
  response or a null array does (OPCClient.cs:299). The loop then reads an empty batch on every
  iteration.
- When no None-policy endpoint is found, a channel built by an earlier OpenAsync is kept, its
  three handlers are attached once more and it is opened again (OPCClient.cs:133-147). One Opened
  event then tells each observer twice.
- SubscribeAsync and StartDataLoggingAsync do not check the connection status
  (OPCClient.cs:238-319).
- A new channel replaces the old one without closing it (OPCClient.cs:137). The old channel keeps
  its handlers, so its events still drive the client's status (`OpcUaClient.OpcClient.RaiseEvent`
  takes any channel).
- A null Nodes in StartDataLoggingAsync throws from Select (ArgumentNullException) before any call
  on the channel (OPCClient.cs:292).

## Model

| member | source | states |
|---|---|---|
| OpcUaClient.OpcClient.constructor | OPCClient.cs:37-51 | A new client is Disconnected, with no configuration, no channel, no selected endpoint, an anonymous identity and no ConnectChanged handler; the object invariant holds |
| OpcUaClient.OpcClient.Initialize | OPCClient.cs:95-109 | The configuration is stored even when null, and a null configuration then throws before anything else changes; otherwise the application description is a Client named after the configuration; the identity becomes a user name identity with the configured name and password exactly when the configuration carries one, and stays as it was otherwise; status, channel and endpoint are untouched |
| OpcUaClient.OpcClient.OpenAsync | OPCClient.cs:111-153 | Never throws; without a configuration or with a failed discovery nothing changes; otherwise the selection is stored; a None-policy endpoint yields a fresh channel bound to it, to the application description and to the identity, with each handler attached once; without one, no channel appears if there was none, and an earlier channel gets its handlers attached again; an opened channel sets Connected and notifies observers once per Opened attachment; the invariant (only None-policy endpoints, every channel carries its handlers) is kept |
| OpcUaClient.OpcClient.Connect | OPCClient.cs:123-147 | The part of OpenAsync after discovery, with the same outcomes for a given endpoint list |
| OpcUaClient.OpcClient.AttachAndOpen | OPCClient.cs:142-147 | Each of Closed, Opened and Faulted gets one more attachment; when the channel opens, the status is Connected and the log grows by one round of Connected per Opened attachment; otherwise status and log are unchanged |
| OpcUaClient.OpcClient.AttachHandlers | OPCClient.cs:142-145 | Each of the three handler counts grows by exactly one |
| OpcUaClient.OpcClient.CloseAsync | OPCClient.cs:155-170 | With no channel, an empty channel or a close that fails, nothing changes and nothing escapes; a completed close sets Disconnected, notifies observers once per Closed attachment, then attaches one more Closed handler and leaves the other counts alone |
| OpcUaClient.OpcClient.ChannelOpened | OPCClient.cs:335-339 | Status becomes Connected and every attached observer is invoked once, in order, with Connected |
| OpcUaClient.OpcClient.ChannelClosed | OPCClient.cs:323-327 | Status becomes Disconnected and every attached observer is invoked once, in order, with Disconnected |
| OpcUaClient.OpcClient.ChannelFaulted | OPCClient.cs:329-333 | Status becomes Faulted and every attached observer is invoked once, in order, with Faulted |
| OpcUaClient.OpcClient.Handle | OPCClient.cs:323-339 | The handler for an event sets the status that event implies (StatusAfter) and invokes every observer with it |
| OpcUaClient.OpcClient.RaiseEvent | OPCClient.cs:142-145 | A channel event runs the client's handler once per attachment: the status becomes the event's status when it is attached at all, and the log grows by one round of deliveries per attachment |
| OpcUaClient.ObserverNotifiedOnce | OPCClient.cs:323-339 | One run of a channel-event handler invokes an observer attached once exactly once, with the new status |
| OpcUaClient.OpcClient.ReadValueAsync | OPCClient.cs:172-208 | Not connected: no read and a null result; otherwise a read of one Value-attribute id per input id, in order, is sent exactly when every id parses and a channel exists; a result exists exactly when the read was sent and answered, with one entry per returned item, in order: the value for a Good status, null for any other |
| OpcUaClient.OpcClient.WriteValueAsync | OPCClient.cs:211-236 | Not connected: no write and a null result; otherwise the write sent is WriteValuesFor when a channel exists; a result exists exactly when the write was sent and answered, and it is each returned status code's numeric value, in order |
| OpcUaClient.OpcClient.SubscribeAsync | OPCClient.cs:238-286 | With a channel, a subscription with the request's four parameters is asked for; the monitored-items call is made exactly when the subscription was created and every node parses, with one Reporting item per node under the new id; the filter is installed for that id exactly when that call returned; the deliveries are then those of Demux for that id over the published stream, and nothing otherwise |
| OpcUaClient.Route | OPCClient.cs:280 | Over a stream of publish responses, the request's DataChanged log grows by exactly the rounds of Demux(id, stream), in stream order |
| OpcUaClient.OnPublish | OPCClient.cs:267-278 | For one publish response, one Trigger per DataChangeNotification, in order, each with the batch Batches builds |
| OpcUaClient.OpcClient.StartDataLoggingAsync | OPCClient.cs:288-319 | The nodes are registered only when Nodes is set, every node parses and a channel exists; the read request is sent only for a non-null registration with non-null ids, as one Value-attribute id per registered id; the outcome and the deliveries are exactly those of StartLogging |
| OpcUaClient.LoggingLoop | OPCClient.cs:304-318 | The loop delivers exactly Loop(false, script)'s batches, in order, and ends as Loop says |
| Logging.StartLogging | OPCClient.cs:290-318 | Any failure before the loop (null Nodes, a node that does not parse, no channel, a failed, null or id-less registration) throws with no batch delivered; a null response or null ids throw InvalidOperation; a set Nodes that all parse, with a channel and a non-null array of registered ids (empty or not), runs the loop exactly as Loop(false, script) |
| Logging.Values | OPCClient.cs:308 | One value per read result, in order, with no filtering by status |
| Logging.LoopBatchesAreReads | OPCClient.cs:304-318 | Batch k comes from iteration k, whose loop head saw the token unset and whose read answered; the batch is exactly that read's values |
| Logging.LoopCancelledIffObserved | OPCClient.cs:304-318 | The loop ends Cancelled exactly when the head after the last batch sees the token set; a cancelled delay never ends it; it ends by throwing only on a failed read, at the tick after the last batch |
| Logging.PromptCancellation | OPCClient.cs:304-317 | A token set before head k allows at most k batches; one set during the delay of iteration k allows at most k + 1 |
| Logging.LoopStep | OPCClient.cs:304-318 | One iteration of the loop: stop on a set token, throw on a failed read, otherwise one batch followed by the rest of the run |
| EndpointSelection.FirstNonePolicy | OPCClient.cs:129-131 | The first position whose policy is None, and None exactly when no endpoint has that policy |
| EndpointSelection.SelectEndpoint | OPCClient.cs:129-135 | An endpoint is selected exactly when some endpoint has policy None; it has policy None and the configured URL, and it is the first such endpoint with only its URL replaced |
| EndpointSelection.NonePolicyPreferred | OPCClient.cs:129-131 | A None-policy endpoint is chosen over a secured one whatever their order |
| Requests.ParseAll | OPCClient.cs:292 | All ids parse exactly when the result exists, and then element i is the parse of text i |
| Requests.ValueIds | OPCClient.cs:179-186 | One Value-attribute read id per node, in order |
| Requests.WriteValuesFor | OPCClient.cs:218-224 | A write exists exactly when every key parses; then one write per entry, in order, of the Value attribute of the parsed key, carrying the entry's value with a Good status |
| Requests.MonitoredItemsFor | OPCClient.cs:254-262 | One Reporting-mode item on the Value attribute per node, in order |
| Notifications.BatchOf | OPCClient.cs:271-277 | One record per monitored item, in order, each with the response's subscription id, the item's client handle and its value |
| Notifications.BatchesStep | OPCClient.cs:269-277 | One more notification adds one batch when it is a DataChangeNotification and nothing otherwise |
| Notifications.BatchesCount | OPCClient.cs:269-270 | One batch per DataChangeNotification |
| Notifications.BatchesCarryId | OPCClient.cs:273 | Every record of every batch carries the subscription id |
| Notifications.DemuxAppend | OPCClient.cs:280 | The stream is handled response by response: a longer stream's deliveries extend those of its prefix |
| Notifications.DemuxStep | OPCClient.cs:280 | One more response adds its batches when it carries the id, and nothing otherwise |
| Notifications.DemuxCarriesId | OPCClient.cs:273-280 | Every record delivered to a subscription carries that subscription's id |
| Notifications.DemuxOnlyMatching | OPCClient.cs:280 | Responses for other subscriptions change nothing: the deliveries equal those of the stream restricted to the id |
| Notifications.DemuxForeignStream | OPCClient.cs:280 | A stream with no response for the id delivers nothing |
| Notifications.DemuxCount | OPCClient.cs:269-280 | The number of triggers is the number of DataChangeNotifications in the matching responses |
| Notifications.NoCrossDelivery | OPCClient.cs:280 | No record carrying another subscription's id reaches this subscription |
| Notifications.Matching | OPCClient.cs:280 | The filter keeps exactly the responses carrying the id: every kept response carries it and comes from the stream, and every response of the stream that carries it is kept |
| Subscribe.SubscribeRequest.constructor | Subscribe/SubscribeRequest.cs:5-14 | Defaults: publishing interval 10, max keep-alive count 10, lifetime count 30, publishing enabled, no nodes, no handlers |
| Subscribe.SubscribeRequest.Trigger | Subscribe/SubscribeRequest.cs:30-33 | Every attached DataChanged handler receives the data unchanged, in attachment order; with no handler nothing changes |
| Events.Fire | Subscribe/SubscribeRequest.cs:32 | One invocation delivers the payload unchanged to each attached handler, once each, in attachment order |
| Events.ReceivedFire | Subscribe/SubscribeRequest.cs:32 | A handler receives one copy of the payload per time it is attached |
| Events.ReceivedBroadcast | Subscribe/SubscribeRequest.cs:30-33 | A handler attached once receives exactly the triggered payloads, in order and unchanged |
| Events.BroadcastWithoutHandlers | Subscribe/SubscribeRequest.cs:32 | An event with no handler delivers nothing however often it is triggered |
| Events.ReceivedAppend | Subscribe/SubscribeRequest.cs:32 | What a handler saw over two stretches of the log is what it saw in each, in order |
| Events.BroadcastAppend | Subscribe/SubscribeRequest.cs:30-33 | Triggering two runs of payloads in turn logs the deliveries of the first run followed by those of the second |
| Events.LogGrows | Subscribe/SubscribeRequest.cs:30-33 | A log that took the rounds of some payloads and then one more round holds the rounds of the extended payload list |
| OpcUaClient.ObserverNotifiedPerAttachment | OPCClient.cs:142-145 | One raising of a channel event whose handler is attached n times tells an observer attached once the new status n times, so exactly once iff n is 1 |
| OpcUaClient.KeptChannelNotifiesTwice | OPCClient.cs:129-147 | After an OpenAsync that builds a channel and one that finds no None-policy endpoint, the kept channel carries two Opened attachments, and one Opened event tells an observer attached once that the client is Connected twice |
| OpcUaClient.StatusAfter | OPCClient.cs:323-339 | The status each channel event's handler sets: Opened gives Connected, Closed gives Disconnected, Faulted gives Faulted |
| OpcUaClient.OpcClient.AddConnectChangedHandler | OPCClient.cs:34 | `ConnectChanged += handler` appends the handler and keeps the invariant |
| Channel.SessionChannel.constructor | OPCClient.cs:137-138 | A new channel is bound to the application description, identity and endpoint it is given, and no handler is attached to it yet |
| Logging.Loop | OPCClient.cs:304-318 | The reference run of the while loop from a head with a given token state: stop on a set token, throw on a failed read, otherwise one batch of the read's values and the rest of the run from the delay's token state |
| Logging.EmptyRegistrationDoesNotThrow | OPCClient.cs:299-318 | A registration returning an empty array of ids runs the loop as Loop(false, script), and the run never ends with InvalidOperation |
| Notifications.MatchingAppend | OPCClient.cs:280 | The filter keeps stream order: filtering a concatenation concatenates the filtered parts |
| Notifications.Batches | OPCClient.cs:269-277 | The batches the action builds for a response's notifications: one per DataChangeNotification, in order (see BatchesStep, BatchesCount) |
| Notifications.Demux | OPCClient.cs:267-280 | What a subscription delivers from a stream: the batches of every response carrying its id, in stream order (see DemuxOnlyMatching, DemuxCount, DemuxCarriesId) |
| Subscribe.SubscribeRequest.AddDataChangedHandler | Subscribe/SubscribeRequest.cs:28 | `DataChanged += handler` appends the handler |
| DataLogging.DataLoggingRequest.AddDataLoggedHandler | DataLogging/DataLoggingRequest.cs:15 | `DataLogged += handler` appends the handler |
| DataLogging.DataLoggingRequest.Trigger | DataLogging/DataLoggingRequest.cs:17-20 | Every attached DataLogged handler receives the data unchanged, in attachment order; nothing else about the request changes |
| Ua.NewDataValue | OPCClient.cs:222 | The written DataValue carries the value with a Good status |

## Left out

- Network I/O (GetEndpoints, the channel's open, close, Read, Write, RegisterNodes, CreateSubscription and CreateMonitoredItems): their answers are method inputs.
- OpcUaClient.OpcClient.CloseAsync: takes the answer of IsEmpty over the channel's publish stream as an input that has arrived. In the code that await completes only once the stream publishes a response or ends, so on a quiet open channel CloseAsync need not return at all; the model does not capture that wait.
- NodeId.Parse: a parameter, not modelled.
- StatusCode internals beyond the severity bits: not modelled.
- async/await scheduling, ConfigureAwait, Task.Delay timing and the Rx Where/Subscribe machinery: not modelled. The publish stream is a finite sequence handled after SubscribeAsync's own steps, and each delay is one step that cancellation may interrupt.
- The logging loop runs over a finite script. A run whose script ends before the token is observed ends as StillRunning, which stands for a loop that goes on.
- Logging through log4net and the console: I/O, not modelled.
- Dispose only throws NotImplementedException: not modelled.
- The static Start, a fire-and-forget Initialize and OpenAsync with the URL "opc.tcp://" + ip + ":4840" and application name "OPCClient": not modelled. It adds nothing beyond those two calls.
- The certificate-store branch of OpenAsync is empty, and the store is always null: only the no-store branch is modelled.
- The static Instance field and the public setter of ConnectionStatus: not modelled. Nothing in the core uses them.
- The publishing and logging intervals are doubles passed through uninterpreted: they are `real` values, with no arithmetic on them.
- Concurrency between the client's operations, and channel events raised during another call: operations run one at a time.
- A publish response whose NotificationMessage is null: not modelled. The action would throw inside the Rx pipeline.
- Exception messages and types that are only logged: each swallowed failure is an early return.
- DataLoggingRequest and ClientConfigurationDO are context types: modelled only as the data the client reads, plus the Trigger of DataLoggingRequest.
