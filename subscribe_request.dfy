/** SubscribeRequest: what to monitor, the subscription parameters, and the DataChanged event. */
module Subscribe {
  import opened Wrappers
  import opened Ua
  import opened Events

  /** One data-change record delivered to a subscriber. */
  datatype SubscriptionData = SubscriptionData(subscriptionId: uint32, clientHandle: uint32, dataValue: DataValue)

  class SubscribeRequest {
    /** `string[] Nodes`: null until the caller sets it. */
    var nodes: Option<seq<string>>
    var requestedPublishingInterval: real
    var requestedMaxKeepAliveCount: uint32
    var requestedLifetimeCount: uint32
    var publishingEnabled: bool
    /** The handlers attached to DataChanged, in order. */
    var dataChangedHandlers: seq<HandlerId>
    /** Every invocation of a DataChanged handler so far. */
    var dataChanged: seq<Delivery<seq<SubscriptionData>>>

    /** The defaults: publishing interval 10, keep-alive count 10, lifetime count 30, publishing enabled. */
    constructor ()
      ensures nodes == None
      ensures requestedPublishingInterval == 10.0
      ensures requestedMaxKeepAliveCount == 10
      ensures requestedLifetimeCount == 30
      ensures publishingEnabled
      ensures dataChangedHandlers == [] && dataChanged == []
    {
      nodes := None;
      requestedPublishingInterval := 10.0;
      requestedMaxKeepAliveCount := 10;
      requestedLifetimeCount := 30;
      publishingEnabled := true;
      dataChangedHandlers := [];
      dataChanged := [];
    }

    /** `DataChanged += handler`. */
    method AddDataChangedHandler(h: HandlerId)
      modifies this`dataChangedHandlers
      ensures dataChangedHandlers == old(dataChangedHandlers) + [h]
    {
      dataChangedHandlers := dataChangedHandlers + [h];
    }

    /**
      `DataChanged?.Invoke(data)`: every attached handler receives `data` unchanged, in attachment
      order; with no handler attached nothing happens. Nothing else about the request changes.
     */
    method Trigger(data: seq<SubscriptionData>)
      modifies this`dataChanged
      ensures dataChanged == old(dataChanged) + Fire(dataChangedHandlers, data)
      ensures dataChangedHandlers == [] ==> dataChanged == old(dataChanged)
    {
      dataChanged := dataChanged + Fire(dataChangedHandlers, data);
    }
  }
}
