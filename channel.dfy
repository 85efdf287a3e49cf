/**
  The session channel of the transport library, reduced to what the client can observe of it.
  Its answers to the client's calls are not computed here: they arrive as inputs of the client's
  methods, in the datatypes below. The channel object itself is kept because the client mutates
  it: it attaches its Opened, Closed and Faulted handlers to it, once per call that does so.
 */
module Channel {
  import opened Wrappers
  import opened Ua

  /** The three lifecycle events of a channel that the client listens to. */
  datatype ChannelEvent = OpenedEvent | ClosedEvent | FaultedEvent

  /** Answer to a batch Read: the call threw, or one DataValue per item. */
  datatype ReadAnswer = ReadThrew | ReadResults(results: seq<DataValue>)

  /** Answer to a batch Write: the call threw, or one status code per item. */
  datatype WriteAnswer = WriteThrew | WriteResults(results: seq<StatusCode>)

  /** Answer to CreateSubscription: the call threw, or the server-assigned subscription id. */
  datatype SubscriptionAnswer = SubscriptionThrew | SubscriptionCreated(subscriptionId: uint32)

  /**
    Answer to RegisterNodes: the call threw, the response was null, or a response whose
    RegisteredNodeIds may itself be null.
   */
  datatype RegisterAnswer = RegisterThrew | NullResponse | Registered(registeredNodeIds: Option<seq<NodeId>>)

  /** A UaTcpSessionChannel, with the registrations of the client's handlers on it. */
  class SessionChannel {
    const localDescription: ApplicationDescription
    const userIdentity: UserIdentity
    const remoteEndpoint: EndpointDescription
    var openedHandlers: nat
    var closedHandlers: nat
    var faultedHandlers: nat

    /** `new UaTcpSessionChannel(appDescription, null, identity, endpoint)`: no handler attached yet. */
    constructor (localDescription: ApplicationDescription, userIdentity: UserIdentity, remoteEndpoint: EndpointDescription)
      ensures this.localDescription == localDescription
      ensures this.userIdentity == userIdentity
      ensures this.remoteEndpoint == remoteEndpoint
      ensures openedHandlers == 0 && closedHandlers == 0 && faultedHandlers == 0
    {
      this.localDescription := localDescription;
      this.userIdentity := userIdentity;
      this.remoteEndpoint := remoteEndpoint;
      openedHandlers, closedHandlers, faultedHandlers := 0, 0, 0;
    }

    /** How many times the client's handler for `e` is attached. */
    function Registrations(e: ChannelEvent): nat
      reads this
    {
      match e
      case OpenedEvent => openedHandlers
      case ClosedEvent => closedHandlers
      case FaultedEvent => faultedHandlers
    }
  }
}
