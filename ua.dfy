/**
  Stand-ins for the OPC UA types of the Workstation.ServiceModel.Ua library that the client
  touches. Only the fields the client reads or writes are kept; everything else about these
  types belongs to the library.
 */
module Ua {

  /** The `uint` of the library's status codes, ids and counts. */
  newtype uint32 = x: int | 0 <= x < 0x1_0000_0000

  /** A .NET `object` reference as the client sees it: null, or some value it passes on untouched. */
  datatype Obj = Null | Ref(id: nat)

  /** A StatusCode wraps a 32-bit code; its top two bits are the severity. */
  datatype StatusCode = StatusCode(value: uint32)

  const Good: StatusCode := StatusCode(0)

  /** StatusCode.IsGood: the severity bits (31 and 30) are both zero. */
  predicate IsGood(code: StatusCode) {
    code.value / 0x4000_0000 == 0
  }

  /** A value read from, or written to, a node, with the status the server gave it. */
  datatype DataValue = DataValue(value: Obj, statusCode: StatusCode)

  /** `new DataValue(value)`: the value with a Good status. */
  function NewDataValue(value: Obj): (d: DataValue)
    ensures d.value == value && IsGood(d.statusCode)
  {
    DataValue(value, Good)
  }

  /** A parsed node identifier (namespace index and identifier). */
  datatype NodeId = NodeId(namespaceIndex: nat, identifier: string)

  /** AttributeIds.Value. */
  const ValueAttribute: uint32 := 13

  datatype ReadValueId = ReadValueId(nodeId: NodeId, attributeId: uint32)

  datatype WriteValue = WriteValue(nodeId: NodeId, attributeId: uint32, value: DataValue)

  /** SecurityPolicyUris.None. */
  const SecurityPolicyNone: string := "http://opcfoundation.org/UA/SecurityPolicy#None"

  /** An endpoint advertised by the discovery service. */
  datatype EndpointDescription = EndpointDescription(endpointUrl: string, securityPolicyUri: string)

  datatype ApplicationType = Server | Client | ClientAndServer | DiscoveryServer

  datatype ApplicationDescription = ApplicationDescription(
    applicationName: string,
    applicationType: ApplicationType)

  /** The identity a session is opened with. */
  datatype UserIdentity = AnonymousIdentity | UserNameIdentity(userName: string, password: string)

  datatype MonitoringMode = Disabled | Sampling | Reporting

  datatype CreateSubscriptionRequest = CreateSubscriptionRequest(
    requestedPublishingInterval: real,
    requestedMaxKeepAliveCount: uint32,
    requestedLifetimeCount: uint32,
    publishingEnabled: bool)

  datatype MonitoredItemCreateRequest = MonitoredItemCreateRequest(
    itemToMonitor: ReadValueId,
    monitoringMode: MonitoringMode)

  datatype CreateMonitoredItemsRequest = CreateMonitoredItemsRequest(
    subscriptionId: uint32,
    itemsToCreate: seq<MonitoredItemCreateRequest>)

  /** One changed value of one monitored item. */
  datatype MonitoredItemNotification = MonitoredItemNotification(clientHandle: uint32, value: DataValue)

  /** The kinds of notification a publish response may carry. */
  datatype NotificationData =
    | DataChangeNotification(monitoredItems: seq<MonitoredItemNotification>)
    | EventNotificationList(eventCount: nat)
    | StatusChangeNotification(status: StatusCode)

  /** A message of the channel's shared publish stream, tagged with the subscription it belongs to. */
  datatype PublishResponse = PublishResponse(subscriptionId: uint32, notificationData: seq<NotificationData>)
}
