/**
  OpcClient: the connection-status state machine over one session channel, the read and write
  facade, subscription set-up and routing, and the data-logging loop.

  Every exception the client catches and logs becomes an early return that leaves the remaining
  state as it was; the log itself is not modelled.
 */
module OpcUaClient {
  import opened Wrappers
  import opened Ua
  import opened Events
  import opened DataObject
  import opened Channel
  import opened Requests
  import opened EndpointSelection
  import opened Subscribe
  import opened Notifications
  import opened DataLogging
  import opened Logging

  /** The connection status the client reports to its ConnectChanged observers. */
  datatype Status = Disconnected | Connected | Faulted

  /** The status each channel event handler sets. */
  function StatusAfter(e: ChannelEvent): Status
  {
    match e
    case OpenedEvent => Connected
    case ClosedEvent => Disconnected
    case FaultedEvent => Faulted
  }

  /**
    One run of the client's channel-event handler: a ConnectChanged observer attached once is
    invoked exactly once, with the status the handler set.
   */
  lemma ObserverNotifiedOnce(handlers: seq<HandlerId>, h: HandlerId, e: ChannelEvent)
    requires Count(handlers, h) == 1
    ensures Received(Fire(handlers, StatusAfter(e)), h) == [StatusAfter(e)]
  {
    ReceivedFire(handlers, StatusAfter(e), h);
    assert Copies(StatusAfter(e), 1) == [StatusAfter(e)];
  }

  /**
    One raising of a channel event whose handler is attached `n` times (RaiseEvent's log): an
    observer attached once is told the new status `n` times, so exactly once iff `n == 1`.
   */
  lemma ObserverNotifiedPerAttachment(handlers: seq<HandlerId>, h: HandlerId, e: ChannelEvent, n: nat)
    requires Count(handlers, h) == 1
    ensures Received(Broadcast(handlers, Copies(StatusAfter(e), n)), h) == Copies(StatusAfter(e), n)
    ensures |Received(Broadcast(handlers, Copies(StatusAfter(e), n)), h)| == 1 <==> n == 1
  {
    ReceivedBroadcast(handlers, Copies(StatusAfter(e), n), h);
  }

  class OpcClient {
    var connectionStatus: Status
    var channel: SessionChannel?
    var configuration: Option<ClientConfigurationDO>
    var appDescription: Option<ApplicationDescription>
    var selectedEndpoint: Option<EndpointDescription>
    var userIdentity: UserIdentity
    /** The handlers attached to ConnectChanged, in order. */
    var connectChangedHandlers: seq<HandlerId>
    /** Every invocation of a ConnectChanged handler so far. */
    var connectChanged: seq<Delivery<Status>>

    /**
      The object invariant: the application description follows the configuration; the client
      only ever selects, and only ever builds a channel on, a None-policy endpoint; and every
      channel it built carries its three handlers.
     */
    ghost predicate Valid()
      reads this`configuration, this`appDescription, this`selectedEndpoint, this`channel, channel
    {
      && (configuration.Some? ==>
            appDescription == Some(ApplicationDescription(configuration.value.applicationName, Client)))
      && (selectedEndpoint.Some? ==> selectedEndpoint.value.securityPolicyUri == SecurityPolicyNone)
      && (channel != null ==>
            && channel.remoteEndpoint.securityPolicyUri == SecurityPolicyNone
            && channel.openedHandlers >= 1 && channel.closedHandlers >= 1 && channel.faultedHandlers >= 1)
    }

    /** A new client: disconnected, no configuration, no channel, no endpoint, anonymous. */
    constructor ()
      ensures Valid()
      ensures connectionStatus == Disconnected
      ensures channel == null && selectedEndpoint == None
      ensures userIdentity == AnonymousIdentity
      ensures configuration == None && appDescription == None
      ensures connectChangedHandlers == [] && connectChanged == []
    {
      connectionStatus := Disconnected;
      channel := null;
      configuration := None;
      appDescription := None;
      selectedEndpoint := None;
      userIdentity := AnonymousIdentity;
      connectChangedHandlers := [];
      connectChanged := [];
    }

    /** `ConnectChanged += handler`. */
    method AddConnectChangedHandler(h: HandlerId)
      requires Valid()
      modifies this`connectChangedHandlers
      ensures Valid()
      ensures connectChangedHandlers == old(connectChangedHandlers) + [h]
    {
      connectChangedHandlers := connectChangedHandlers + [h];
    }

    /**
      Initialize. A null configuration (None) is stored and then throws (`threw`) before anything
      else changes. Otherwise the application description is built from it, and a user name
      identity replaces the current one exactly when the configuration carries a user identity.
      The connection status, channel and endpoint are untouched.
     */
    method Initialize(config: Option<ClientConfigurationDO>) returns (threw: bool)
      requires Valid()
      modifies this`configuration, this`appDescription, this`userIdentity
      ensures Valid()
      ensures configuration == config
      ensures threw <==> config.None?
      ensures config.None? ==> appDescription == old(appDescription) && userIdentity == old(userIdentity)
      ensures config.Some? ==> appDescription == Some(ApplicationDescription(config.value.applicationName, Client))
      ensures config.Some? && config.value.userIdentity.Some? ==>
        userIdentity == UserNameIdentity(config.value.userIdentity.value.userName, config.value.userIdentity.value.password)
      ensures config.Some? && config.value.userIdentity.None? ==> userIdentity == old(userIdentity)
    {
      configuration := config;
      if config.None? {
        return true;
      }
      appDescription := Some(ApplicationDescription(config.value.applicationName, Client));
      if config.value.userIdentity.Some? {
        var identity := config.value.userIdentity.value;
        userIdentity := UserNameIdentity(identity.userName, identity.password);
      }
      threw := false;
    }

    /** Channel_Opened. */
    method ChannelOpened()
      modifies this`connectionStatus, this`connectChanged
      ensures connectionStatus == Connected
      ensures connectChanged == old(connectChanged) + Fire(connectChangedHandlers, Connected)
    {
      connectionStatus := Connected;
      connectChanged := connectChanged + Fire(connectChangedHandlers, connectionStatus);
    }

    /** Channel_Closed. */
    method ChannelClosed()
      modifies this`connectionStatus, this`connectChanged
      ensures connectionStatus == Disconnected
      ensures connectChanged == old(connectChanged) + Fire(connectChangedHandlers, Disconnected)
    {
      connectionStatus := Disconnected;
      connectChanged := connectChanged + Fire(connectChangedHandlers, connectionStatus);
    }

    /** Channel_Faulted. */
    method ChannelFaulted()
      modifies this`connectionStatus, this`connectChanged
      ensures connectionStatus == Faulted
      ensures connectChanged == old(connectChanged) + Fire(connectChangedHandlers, Faulted)
    {
      connectionStatus := Faulted;
      connectChanged := connectChanged + Fire(connectChangedHandlers, connectionStatus);
    }

    /** The handler the client attaches for event `e`. */
    method Handle(e: ChannelEvent)
      modifies this`connectionStatus, this`connectChanged
      ensures connectionStatus == StatusAfter(e)
      ensures connectChanged == old(connectChanged) + Fire(connectChangedHandlers, StatusAfter(e))
    {
      match e {
        case OpenedEvent => ChannelOpened();
        case ClosedEvent => ChannelClosed();
        case FaultedEvent => ChannelFaulted();
      }
    }

    /**
      Channel `ch` raises event `e`: the client's handler runs once per time it was attached to
      `ch` (any channel the client built, current or not). With one attachment, every
      ConnectChanged observer is told the new status exactly once.
     */
    method RaiseEvent(ch: SessionChannel, e: ChannelEvent)
      modifies this`connectionStatus, this`connectChanged
      ensures connectionStatus == if ch.Registrations(e) == 0 then old(connectionStatus) else StatusAfter(e)
      ensures connectChanged ==
        old(connectChanged) + Broadcast(connectChangedHandlers, Copies(StatusAfter(e), ch.Registrations(e)))
    {
      var n := ch.Registrations(e);
      var status := StatusAfter(e);
      ghost var log0 := connectChanged;
      ghost var handlers := connectChangedHandlers;
      var i := 0;
      while i < n
        invariant 0 <= i <= n
        invariant connectionStatus == if i == 0 then old(connectionStatus) else status
        invariant connectChangedHandlers == handlers
        invariant connectChanged == log0 + Broadcast(handlers, Copies(status, i))
        decreases n - i
      {
        Handle(e);
        LogGrowsByOneRound(log0, connectChanged, handlers, status, i);
        i := i + 1;
      }
    }

    /** `Closed`, `Opened` and `Faulted` of channel `ch` get the client's handler attached once more. */
    static method AttachHandlers(ch: SessionChannel)
      modifies ch
      ensures ch.closedHandlers == old(ch.closedHandlers) + 1
      ensures ch.openedHandlers == old(ch.openedHandlers) + 1
      ensures ch.faultedHandlers == old(ch.faultedHandlers) + 1
    {
      ch.closedHandlers := ch.closedHandlers + 1;
      ch.openedHandlers := ch.openedHandlers + 1;
      ch.faultedHandlers := ch.faultedHandlers + 1;
    }

    /**
      OpenAsync. `discovery` is GetEndpoints' list of endpoints (None: the call threw); `opens`
      says whether the channel's own OpenAsync completed, raising Opened. Every failure is
      swallowed: OpenAsync never throws.
     */
    method OpenAsync(discovery: Option<seq<EndpointDescription>>, opens: bool)
      requires Valid()
      modifies this, channel
      ensures Valid()
      ensures configuration == old(configuration) && appDescription == old(appDescription)
      ensures userIdentity == old(userIdentity) && connectChangedHandlers == old(connectChangedHandlers)
      // no configuration yet, or discovery failed: nothing changes
      ensures old(configuration).None? || discovery.None? ==>
        && unchanged(this)
        && (old(channel) != null ==> unchanged(old(channel)))
      // otherwise the selection is stored, even when there is none
      ensures old(configuration).Some? && discovery.Some? ==>
        selectedEndpoint == SelectEndpoint(discovery.value, old(configuration).value.endpointUrl)
      // a None-policy endpoint: a new channel bound to it, each handler attached once
      ensures old(configuration).Some? && discovery.Some? && selectedEndpoint.Some? ==>
        && channel != null && fresh(channel)
        && channel.remoteEndpoint == selectedEndpoint.value
        && channel.localDescription == appDescription.value
        && channel.userIdentity == userIdentity
        && channel.openedHandlers == 1 && channel.closedHandlers == 1 && channel.faultedHandlers == 1
        && (old(channel) != null ==> unchanged(old(channel)))
      // no None-policy endpoint and no channel: no channel is made and the status stays
      ensures old(configuration).Some? && discovery.Some? && selectedEndpoint.None? && old(channel) == null ==>
        channel == null && connectionStatus == old(connectionStatus) && connectChanged == old(connectChanged)
      // no None-policy endpoint but an earlier channel: its handlers are attached once more
      ensures old(configuration).Some? && discovery.Some? && selectedEndpoint.None? && old(channel) != null ==>
        && channel == old(channel)
        && channel.openedHandlers == old(channel.openedHandlers) + 1
        && channel.closedHandlers == old(channel.closedHandlers) + 1
        && channel.faultedHandlers == old(channel.faultedHandlers) + 1
      // the channel is opened: on success the status becomes Connected, once per attachment
      ensures old(configuration).Some? && discovery.Some? && channel != null ==>
        && connectionStatus == (if opens then Connected else old(connectionStatus))
        && connectChanged == old(connectChanged)
             + (if opens then Broadcast(connectChangedHandlers, Copies(Connected, channel.openedHandlers)) else [])
    {
      if configuration.None? {
        return;  // NullReferenceException reading EndpointUrl, swallowed
      }
      if discovery.None? {
        return;  // GetEndpointsAsync threw, swallowed
      }
      Connect(discovery.value, opens);
    }

    /** OpenAsync once the configuration is set and GetEndpoints answered with `endpoints`. */
    method Connect(endpoints: seq<EndpointDescription>, opens: bool)
      requires Valid() && configuration.Some?
      modifies this, channel
      ensures Valid()
      ensures configuration == old(configuration) && appDescription == old(appDescription)
      ensures userIdentity == old(userIdentity) && connectChangedHandlers == old(connectChangedHandlers)
      ensures selectedEndpoint == SelectEndpoint(endpoints, configuration.value.endpointUrl)
      ensures selectedEndpoint.Some? ==>
        && channel != null && fresh(channel)
        && channel.remoteEndpoint == selectedEndpoint.value
        && channel.localDescription == appDescription.value
        && channel.userIdentity == userIdentity
        && channel.openedHandlers == 1 && channel.closedHandlers == 1 && channel.faultedHandlers == 1
        && (old(channel) != null ==> unchanged(old(channel)))
      ensures selectedEndpoint.None? && old(channel) == null ==>
        channel == null && connectionStatus == old(connectionStatus) && connectChanged == old(connectChanged)
      ensures selectedEndpoint.None? && old(channel) != null ==>
        && channel == old(channel)
        && channel.openedHandlers == old(channel.openedHandlers) + 1
        && channel.closedHandlers == old(channel.closedHandlers) + 1
        && channel.faultedHandlers == old(channel.faultedHandlers) + 1
      ensures channel != null ==>
        && connectionStatus == (if opens then Connected else old(connectionStatus))
        && connectChanged == old(connectChanged)
             + (if opens then Broadcast(connectChangedHandlers, Copies(Connected, channel.openedHandlers)) else [])
    {
      selectedEndpoint := SelectEndpoint(endpoints, configuration.value.endpointUrl);
      if selectedEndpoint.Some? {
        channel := new SessionChannel(appDescription.value, userIdentity, selectedEndpoint.value);
      }
      if channel == null {
        return;  // NullReferenceException attaching the handlers, swallowed
      }
      AttachAndOpen(channel, opens);
    }

    /** The handlers are attached to `ch` and `ch` is opened; `opens` says whether it raised Opened. */
    method AttachAndOpen(ch: SessionChannel, opens: bool)
      modifies this`connectionStatus, this`connectChanged, ch
      ensures ch.closedHandlers == old(ch.closedHandlers) + 1
      ensures ch.openedHandlers == old(ch.openedHandlers) + 1
      ensures ch.faultedHandlers == old(ch.faultedHandlers) + 1
      ensures connectionStatus == (if opens then Connected else old(connectionStatus))
      ensures connectChanged == old(connectChanged)
        + (if opens then Broadcast(connectChangedHandlers, Copies(Connected, ch.openedHandlers)) else [])
    {
      AttachHandlers(ch);
      if opens {
        RaiseEvent(ch, OpenedEvent);
      } else {
        assert connectChanged + [] == connectChanged;
      }
    }

    /**
      CloseAsync. `IsEmpty()` is the reactive IsEmpty over the channel's publish stream: its await
      completes only once the stream has published a response (false) or has ended (true), and on
      a quiet open channel it never completes. `streamEmpty` is that answer once it has arrived;
      an exception there ends the call in the same way as true. `closes` says whether the
      channel's CloseAsync completed, raising Closed. Without a channel nothing happens. After a
      completed close the client attaches one more Closed handler to the closed channel.
     */
    method CloseAsync(streamEmpty: bool, closes: bool)
      requires Valid()
      modifies this`connectionStatus, this`connectChanged, channel
      ensures Valid()
      ensures old(channel) == null || streamEmpty || !closes ==>
        && connectionStatus == old(connectionStatus) && connectChanged == old(connectChanged)
        && (channel != null ==> unchanged(channel))
      ensures channel != null && !streamEmpty && closes ==>
        && connectionStatus == Disconnected
        && connectChanged == old(connectChanged)
             + Broadcast(connectChangedHandlers, Copies(Disconnected, old(channel.closedHandlers)))
        && channel.closedHandlers == old(channel.closedHandlers) + 1
        && channel.openedHandlers == old(channel.openedHandlers)
        && channel.faultedHandlers == old(channel.faultedHandlers)
    {
      if channel != null && !streamEmpty {
        if closes {
          RaiseEvent(channel, ClosedEvent);
          channel.closedHandlers := channel.closedHandlers + 1;
        }
      }
    }

    /**
      ReadValueAsync. Not connected: no read is sent and the result is null. Otherwise one
      Value-attribute ReadValueId per id, in order, is sent (`sent`), unless an id does not parse
      or there is no channel; the result has one entry per returned item, in order: the value of
      a Good item, null for any other. A failed read gives null.
     */
    method ReadValueAsync(ids: seq<string>, parse: string -> Option<NodeId>, answer: ReadAnswer)
      returns (sent: Option<seq<ReadValueId>>, values: Option<seq<Obj>>)
      ensures connectionStatus != Connected ==> sent.None? && values.None?
      ensures sent.Some? <==> connectionStatus == Connected && channel != null && ParseAll(ids, parse).Some?
      ensures sent.Some? ==> sent.value == ValueIds(ParseAll(ids, parse).value)
      ensures values.Some? <==> sent.Some? && answer.ReadResults?
      ensures values.Some? ==>
        && answer.ReadResults?
        && |values.value| == |answer.results|
        && forall i :: 0 <= i < |answer.results| ==>
             values.value[i] == if IsGood(answer.results[i].statusCode) then answer.results[i].value else Null
    {
      sent, values := None, None;
      if connectionStatus != Connected {
        return;  // InvalidDataException("Not Connected"), swallowed
      }
      var readValueIds: seq<ReadValueId> := [];
      var i := 0;
      while i < |ids|
        invariant 0 <= i <= |ids|
        invariant |readValueIds| == i
        invariant forall k :: 0 <= k < i ==>
          parse(ids[k]).Some? && readValueIds[k] == ReadValueId(parse(ids[k]).value, ValueAttribute)
      {
        var nodeId := parse(ids[i]);
        if nodeId.None? {
          return;  // NodeId.Parse threw, swallowed
        }
        readValueIds := readValueIds + [ReadValueId(nodeId.value, ValueAttribute)];
        i := i + 1;
      }
      if channel == null {
        return;  // NullReferenceException, swallowed
      }
      sent := Some(readValueIds);
      if answer.ReadThrew? {
        return;  // the read threw, swallowed
      }
      var results := answer.results;
      var shaped: seq<Obj> := [];
      var j := 0;
      while j < |results|
        invariant 0 <= j <= |results|
        invariant |shaped| == j
        invariant forall k :: 0 <= k < j ==>
          shaped[k] == if IsGood(results[k].statusCode) then results[k].value else Null
      {
        shaped := shaped + [if IsGood(results[j].statusCode) then results[j].value else Null];
        j := j + 1;
      }
      values := Some(shaped);
    }

    /**
      WriteValueAsync over a dictionary given as its entries in enumeration order. Not
      connected: no write is sent and the result is null. Otherwise the write of
      WriteValuesFor is sent when every key parses and a channel exists, and the result is the
      numeric value of each returned status code, in order. A failed write gives null.
     */
    method WriteValueAsync(entries: seq<(string, Obj)>, parse: string -> Option<NodeId>, answer: WriteAnswer)
      returns (sent: Option<seq<WriteValue>>, codes: Option<seq<uint32>>)
      ensures connectionStatus != Connected ==> sent.None? && codes.None?
      ensures sent == if connectionStatus == Connected && channel != null then WriteValuesFor(entries, parse) else None
      ensures codes.Some? <==> sent.Some? && answer.WriteResults?
      ensures codes.Some? ==>
        && answer.WriteResults?
        && |codes.value| == |answer.results|
        && forall i :: 0 <= i < |answer.results| ==> codes.value[i] == answer.results[i].value
    {
      sent, codes := None, None;
      if connectionStatus != Connected {
        return;  // InvalidDataException("Not Connected"), swallowed
      }
      var request := WriteValuesFor(entries, parse);
      if request.None? {
        return;  // NodeId.Parse threw, swallowed
      }
      if channel == null {
        return;  // NullReferenceException, swallowed
      }
      sent := request;
      if answer.WriteThrew? {
        return;  // the write threw, swallowed
      }
      var results := answer.results;
      codes := Some(seq(|results|, i requires 0 <= i < |results| => results[i].value));
    }

    /**
      SubscribeAsync. It does not check the connection status. With a channel, it asks for a
      subscription with the request's four parameters; once the server gives an id and the
      request's nodes all parse, it asks for one Reporting item per node, in order, under that
      id; once that call returns, the filter on the channel's publish stream is installed for
      that id (`routedId`), and `stream`, the responses the channel publishes from then on, is
      delivered through it. Every failure on the way is swallowed.
     */
    method SubscribeAsync(request: SubscribeRequest, parse: string -> Option<NodeId>,
                          subscription: SubscriptionAnswer, itemsCreated: bool, stream: seq<PublishResponse>)
      returns (subscriptionSent: Option<CreateSubscriptionRequest>,
               itemsSent: Option<CreateMonitoredItemsRequest>,
               routedId: Option<uint32>)
      modifies request`dataChanged
      ensures subscriptionSent.Some? <==> channel != null
      ensures subscriptionSent.Some? ==>
        subscriptionSent.value == CreateSubscriptionRequest(
          request.requestedPublishingInterval, request.requestedMaxKeepAliveCount,
          request.requestedLifetimeCount, request.publishingEnabled)
      ensures itemsSent.Some? <==>
        && channel != null && subscription.SubscriptionCreated?
        && request.nodes.Some? && ParseAll(request.nodes.value, parse).Some?
      ensures itemsSent.Some? ==>
        itemsSent.value == CreateMonitoredItemsRequest(
          subscription.subscriptionId, MonitoredItemsFor(ParseAll(request.nodes.value, parse).value))
      ensures routedId == if itemsSent.Some? && itemsCreated then Some(subscription.subscriptionId) else None
      ensures request.dataChanged == old(request.dataChanged)
        + if routedId.Some? then Broadcast(request.dataChangedHandlers, Demux(routedId.value, stream)) else []
    {
      subscriptionSent, itemsSent, routedId := None, None, None;
      if channel == null {
        return;  // NullReferenceException, swallowed
      }
      subscriptionSent := Some(CreateSubscriptionRequest(
        request.requestedPublishingInterval, request.requestedMaxKeepAliveCount,
        request.requestedLifetimeCount, request.publishingEnabled));
      if subscription.SubscriptionThrew? {
        return;  // CreateSubscriptionAsync threw, swallowed
      }
      var id := subscription.subscriptionId;
      if request.nodes.None? {
        return;  // NullReferenceException on Nodes, swallowed
      }
      var nodes := ParseAll(request.nodes.value, parse);
      if nodes.None? {
        return;  // NodeId.Parse threw, swallowed
      }
      itemsSent := Some(CreateMonitoredItemsRequest(id, MonitoredItemsFor(nodes.value)));
      if !itemsCreated {
        return;  // CreateMonitoredItemsAsync threw, swallowed
      }
      routedId := Some(id);
      Route(request, id, stream);
    }

    /**
      StartDataLoggingAsync. Nothing is caught before the loop: a null Nodes, a node that does
      not parse, a missing channel, a failing RegisterNodes, a null response or null
      RegisteredNodeIds each throw before any read. Then the registered ids are read as Value
      attributes (`readSent`) on every iteration, and the loop runs as Loop describes.
     */
    method StartDataLoggingAsync(request: DataLoggingRequest, parse: string -> Option<NodeId>,
                                 register: RegisterAnswer, script: seq<Tick>)
      returns (registerSent: Option<seq<NodeId>>, readSent: Option<seq<ReadValueId>>, outcome: LoggingOutcome)
      modifies request`dataLogged
      ensures registerSent == if request.nodes.Some? && channel != null then ParseAll(request.nodes.value, parse) else None
      ensures readSent ==
        if registerSent.Some? && register.Registered? && register.registeredNodeIds.Some?
        then Some(ValueIds(register.registeredNodeIds.value)) else None
      ensures outcome == StartLogging(request.nodes, parse, channel != null, register, script).outcome
      ensures request.dataLogged == old(request.dataLogged)
        + Broadcast(request.dataLoggedHandlers, StartLogging(request.nodes, parse, channel != null, register, script).batches)
    {
      registerSent, readSent := None, None;
      if request.nodes.None? {
        return registerSent, readSent, Threw(ArgumentNull);  // Select over a null Nodes
      }
      var toRegister := ParseAll(request.nodes.value, parse);
      if toRegister.None? {
        return registerSent, readSent, Threw(BadNodeId);
      }
      if channel == null {
        return registerSent, readSent, Threw(NullReference);
      }
      registerSent := toRegister;
      var registered: seq<NodeId>;
      match register {
        case RegisterThrew => return registerSent, readSent, Threw(Transport);
        case NullResponse => return registerSent, readSent, Threw(InvalidOperation);
        case Registered(None) => return registerSent, readSent, Threw(InvalidOperation);
        case Registered(Some(ids)) => registered := ids;
      }
      readSent := Some(ValueIds(registered));

      outcome := LoggingLoop(request, script);
    }
  }

  /**
    The `while (!request.Token.IsCancellationRequested)` loop of StartDataLoggingAsync: each
    iteration reads, hands all values to Trigger, then waits; a cancelled wait is swallowed. The
    deliveries and the way the loop ends are those of Loop(false, script).
   */
  method LoggingLoop(request: DataLoggingRequest, script: seq<Tick>) returns (outcome: LoggingOutcome)
    modifies request`dataLogged
    ensures outcome == Loop(false, script).outcome
    ensures request.dataLogged == old(request.dataLogged) + Broadcast(request.dataLoggedHandlers, Loop(false, script).batches)
  {
    ghost var log0 := request.dataLogged;
    ghost var handlers := request.dataLoggedHandlers;
    var cancelled := false;
    var i := 0;
    ghost var delivered: seq<seq<Obj>> := [];
    while i < |script|
      invariant 0 <= i <= |script|
      invariant request.dataLoggedHandlers == handlers
      invariant Loop(false, script).batches == delivered + Loop(cancelled, script[i..]).batches
      invariant Loop(false, script).outcome == Loop(cancelled, script[i..]).outcome
      invariant request.dataLogged == log0 + Broadcast(handlers, delivered)
    {
      LoopStep(cancelled, script, i);
      cancelled := cancelled || script[i].cancelRequested;  // the loop head's IsCancellationRequested
      if cancelled {
        assert delivered + [] == delivered;
        return Cancelled;
      }
      if script[i].read.ReadThrew? {
        assert delivered + [] == delivered;
        return Threw(Transport);  // ReadAsync threw: not caught
      }
      var values := Values(script[i].read.results);
      request.Trigger(values);
      LogGrows(log0, request.dataLogged, handlers, delivered, values);
      AppendRegroup(delivered, [values], Loop(script[i].delayCancelled, script[i + 1..]).batches);
      delivered := delivered + [values];
      cancelled := script[i].delayCancelled;  // a cancelled Task.Delay throws, and is swallowed
      i := i + 1;
    }
    LoopEnd(cancelled, script);
    assert delivered + [] == delivered;
    outcome := if cancelled then Cancelled else StillRunning;
  }


  /**
    The filter and action SubscribeAsync installs on the channel, applied to `stream`: each
    response whose subscription id is `id`, in order, goes to OnPublish.
   */
  method Route(request: SubscribeRequest, id: uint32, stream: seq<PublishResponse>)
    modifies request`dataChanged
    ensures request.dataChanged == old(request.dataChanged) + Broadcast(request.dataChangedHandlers, Demux(id, stream))
  {
    ghost var log0 := request.dataChanged;
    ghost var handlers := request.dataChangedHandlers;
    var i := 0;
    while i < |stream|
      invariant 0 <= i <= |stream|
      invariant request.dataChangedHandlers == handlers
      invariant request.dataChanged == log0 + Broadcast(handlers, Demux(id, stream[..i]))
    {
      ghost var done := Demux(id, stream[..i]);
      if stream[i].subscriptionId == id {
        OnPublish(request, stream[i]);
        assert request.dataChanged == log0 + Broadcast(handlers, Demux(id, stream[..i + 1])) by {
          LogExtends(log0, request.dataChanged, handlers, done, ResponseBatches(stream[i]));
          DemuxStep(id, stream, i);
        }
      } else {
        assert Demux(id, stream[..i + 1]) == done by {
          DemuxStep(id, stream, i);
        }
      }
      i := i + 1;
    }
    assert stream[..|stream|] == stream;
  }

  /**
    The action for one publish response: for each DataChangeNotification, in order, one Trigger
    with a record per monitored item carrying the response's subscription id.
   */
  method OnPublish(request: SubscribeRequest, response: PublishResponse)
    modifies request`dataChanged
    ensures request.dataChanged == old(request.dataChanged) + Broadcast(request.dataChangedHandlers, ResponseBatches(response))
  {
    var id := response.subscriptionId;
    var data := response.notificationData;
    ghost var log0 := request.dataChanged;
    ghost var handlers := request.dataChangedHandlers;
    var j := 0;
    while j < |data|
      invariant 0 <= j <= |data|
      invariant request.dataChangedHandlers == handlers
      invariant request.dataChanged == log0 + Broadcast(handlers, Batches(id, data[..j]))
    {
      ghost var done := Batches(id, data[..j]);
      if data[j].DataChangeNotification? {
        var batch := BatchOf(id, data[j].monitoredItems);
        request.Trigger(batch);
        assert request.dataChanged == log0 + Broadcast(handlers, Batches(id, data[..j + 1])) by {
          LogGrows(log0, request.dataChanged, handlers, done, batch);
          BatchesStep(id, data, j);
        }
      } else {
        assert Batches(id, data[..j + 1]) == done by {
          BatchesStep(id, data, j);
        }
      }
      j := j + 1;
    }
    assert data[..|data|] == data;
  }

  /**
    OpenAsync re-attaches the handlers of a channel it keeps: after one OpenAsync that builds a
    channel and a second that finds no None-policy endpoint, a single Opened event tells an
    observer attached once that the client is Connected twice.
   */
  method KeptChannelNotifiesTwice(client: OpcClient, h: HandlerId,
                                  first: seq<EndpointDescription>, second: seq<EndpointDescription>)
    requires client.Valid() && client.configuration.Some? && client.channel == null
    requires Count(client.connectChangedHandlers, h) == 1
    requires SelectEndpoint(first, client.configuration.value.endpointUrl).Some?
    requires SelectEndpoint(second, client.configuration.value.endpointUrl).None?
    modifies client
    ensures client.channel != null && client.channel.openedHandlers == 2
    ensures client.connectionStatus == Connected
    ensures Received(client.connectChanged, h) == old(Received(client.connectChanged, h)) + [Connected, Connected]
  {
    ghost var log0 := client.connectChanged;
    client.OpenAsync(Some(first), false);
    client.OpenAsync(Some(second), false);
    assert client.connectChanged == log0;
    var ch := client.channel;
    client.RaiseEvent(ch, OpenedEvent);
    ObserverNotifiedPerAttachment(client.connectChangedHandlers, h, OpenedEvent, 2);
    ReceivedAppend(log0, Broadcast(client.connectChangedHandlers, Copies(Connected, 2)), h);
    assert Copies(Connected, 2) == [Connected, Connected];
  }
}
