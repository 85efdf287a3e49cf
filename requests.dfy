/**
  The request bodies the client builds from caller input before calling the channel. Parsing a
  node id is the library's NodeId.Parse, which the model takes as a parameter `parse`; a text it
  rejects (None) stands for Parse throwing, which aborts the whole request.
 */
module Requests {
  import opened Wrappers
  import opened Ua

  /** `texts.Select(NodeId.Parse).ToArray()`: all parsed ids in order, or None when one text does not parse. */
  function ParseAll(texts: seq<string>, parse: string -> Option<NodeId>): (r: Option<seq<NodeId>>)
    ensures r.Some? <==> forall i :: 0 <= i < |texts| ==> parse(texts[i]).Some?
    ensures r.Some? ==> |r.value| == |texts| && forall i :: 0 <= i < |texts| ==> parse(texts[i]) == Some(r.value[i])
  {
    if texts == [] then Some([])
    else match parse(texts[0])
      case None => None
      case Some(n) =>
        match ParseAll(texts[1..], parse)
        case None => None
        case Some(ns) => Some([n] + ns)
  }

  /** One ReadValueId for the Value attribute per node, in order. */
  function ValueIds(nodes: seq<NodeId>): (r: seq<ReadValueId>)
    ensures |r| == |nodes|
    ensures forall i :: 0 <= i < |r| ==> r[i].nodeId == nodes[i] && r[i].attributeId == ValueAttribute
  {
    seq(|nodes|, i requires 0 <= i < |nodes| => ReadValueId(nodes[i], ValueAttribute))
  }

  /** The keys of a dictionary, in its enumeration order. */
  function Keys(entries: seq<(string, Obj)>): (r: seq<string>)
    ensures |r| == |entries|
  {
    seq(|entries|, i requires 0 <= i < |entries| => entries[i].0)
  }

  /**
    The NodesToWrite of WriteValueAsync: for each dictionary entry, in enumeration order, a write
    of the Value attribute of the parsed key with the entry's value (a Good DataValue). None when
    some key does not parse.
   */
  function WriteValuesFor(entries: seq<(string, Obj)>, parse: string -> Option<NodeId>): (r: Option<seq<WriteValue>>)
    ensures r.Some? <==> forall i :: 0 <= i < |entries| ==> parse(entries[i].0).Some?
    ensures r.Some? ==> |r.value| == |entries|
    ensures r.Some? ==> forall i :: 0 <= i < |entries| ==>
      && parse(entries[i].0) == Some(r.value[i].nodeId)
      && r.value[i].attributeId == ValueAttribute
      && r.value[i].value.value == entries[i].1
      && IsGood(r.value[i].value.statusCode)
  {
    var keys := Keys(entries);
    assert forall i :: 0 <= i < |entries| ==> keys[i] == entries[i].0;
    match ParseAll(keys, parse)
    case None => None
    case Some(nodes) =>
      Some(seq(|entries|, i requires 0 <= i < |entries| => WriteValue(nodes[i], ValueAttribute, NewDataValue(entries[i].1))))
  }

  /** The ItemsToCreate of SubscribeAsync: one Reporting item on the Value attribute per node, in order. */
  function MonitoredItemsFor(nodes: seq<NodeId>): (r: seq<MonitoredItemCreateRequest>)
    ensures |r| == |nodes|
    ensures forall i :: 0 <= i < |r| ==>
      r[i].itemToMonitor == ReadValueId(nodes[i], ValueAttribute) && r[i].monitoringMode == Reporting
  {
    seq(|nodes|, i requires 0 <= i < |nodes| => MonitoredItemCreateRequest(ReadValueId(nodes[i], ValueAttribute), Reporting))
  }
}
