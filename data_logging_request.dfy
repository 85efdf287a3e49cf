/** DataLoggingRequest: the nodes to poll, the interval, and the DataLogged event. */
module DataLogging {
  import opened Wrappers
  import opened Ua
  import opened Events

  class DataLoggingRequest {
    var loggingInterval: real
    /** `string[] Nodes`: null until the caller sets it. */
    var nodes: Option<seq<string>>
    var dataLoggedHandlers: seq<HandlerId>
    /** Every invocation of a DataLogged handler so far. */
    var dataLogged: seq<Delivery<seq<Obj>>>

    constructor ()
      ensures loggingInterval == 0.0 && nodes == None
      ensures dataLoggedHandlers == [] && dataLogged == []
    {
      loggingInterval := 0.0;
      nodes := None;
      dataLoggedHandlers := [];
      dataLogged := [];
    }

    /** `DataLogged += handler`. */
    method AddDataLoggedHandler(h: HandlerId)
      modifies this`dataLoggedHandlers
      ensures dataLoggedHandlers == old(dataLoggedHandlers) + [h]
    {
      dataLoggedHandlers := dataLoggedHandlers + [h];
    }

    /** `DataLogged?.Invoke(data)`: every attached handler receives `data` unchanged, in order. */
    method Trigger(data: seq<Obj>)
      modifies this`dataLogged
      ensures dataLogged == old(dataLogged) + Fire(dataLoggedHandlers, data)
    {
      dataLogged := dataLogged + Fire(dataLoggedHandlers, data);
    }
  }
}
