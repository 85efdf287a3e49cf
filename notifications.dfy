/**
  Demultiplexing of the channel's shared publish stream in SubscribeAsync. Every response goes
  through the filter `response.SubscriptionId == id`; for a response that passes, each of its
  DataChangeNotifications, in order, becomes one batch of SubscriptionData records handed to the
  request's Trigger. Other notification kinds are skipped.
 */
module Notifications {
  import opened Ua
  import opened Subscribe

  /** The records built for one DataChangeNotification. */
  function BatchOf(subscriptionId: uint32, items: seq<MonitoredItemNotification>): (b: seq<SubscriptionData>)
    ensures |b| == |items|
    ensures forall k :: 0 <= k < |b| ==>
      && b[k].subscriptionId == subscriptionId
      && b[k].clientHandle == items[k].clientHandle
      && b[k].dataValue == items[k].value
  {
    seq(|items|, k requires 0 <= k < |items| => SubscriptionData(subscriptionId, items[k].clientHandle, items[k].value))
  }

  /** The batches of one response's notification data: one per DataChangeNotification, in order. */
  function Batches(subscriptionId: uint32, data: seq<NotificationData>): seq<seq<SubscriptionData>>
  {
    if data == [] then []
    else
      (match data[0]
       case DataChangeNotification(items) => [BatchOf(subscriptionId, items)]
       case _ => [])
      + Batches(subscriptionId, data[1..])
  }

  /** The number of DataChangeNotifications in a response's notification data. */
  function DataChangeCount(data: seq<NotificationData>): nat
  {
    if data == [] then 0
    else (if data[0].DataChangeNotification? then 1 else 0) + DataChangeCount(data[1..])
  }

  /** The batches the action hands to Trigger for one publish response. */
  function ResponseBatches(response: PublishResponse): seq<seq<SubscriptionData>>
  {
    Batches(response.subscriptionId, response.notificationData)
  }

  /** Everything the subscription with id `id` delivers from a stream of publish responses, in order. */
  function Demux(id: uint32, stream: seq<PublishResponse>): seq<seq<SubscriptionData>>
  {
    if stream == [] then []
    else (if stream[0].subscriptionId == id then ResponseBatches(stream[0]) else []) + Demux(id, stream[1..])
  }

  /** The responses of the stream that carry subscription id `id`, in order. */
  function Matching(id: uint32, stream: seq<PublishResponse>): (r: seq<PublishResponse>)
    ensures forall k :: 0 <= k < |r| ==> r[k].subscriptionId == id
    ensures forall x :: x in r ==> x in stream
    ensures forall k :: 0 <= k < |stream| && stream[k].subscriptionId == id ==> stream[k] in r
  {
    if stream == [] then []
    else (if stream[0].subscriptionId == id then [stream[0]] else []) + Matching(id, stream[1..])
  }

  /** The filter keeps the stream's order: filtering a concatenation concatenates the filtered parts. */
  lemma {:induction false} MatchingAppend(id: uint32, s: seq<PublishResponse>, t: seq<PublishResponse>)
    ensures Matching(id, s + t) == Matching(id, s) + Matching(id, t)
  {
    if s == [] {
      assert s + t == t;
    } else {
      assert (s + t)[0] == s[0];
      assert (s + t)[1..] == s[1..] + t;
      MatchingAppend(id, s[1..], t);
    }
  }

  /** How many DataChangeNotifications the responses of a stream carry in all. */
  function TotalDataChanges(stream: seq<PublishResponse>): nat
  {
    if stream == [] then 0 else DataChangeCount(stream[0].notificationData) + TotalDataChanges(stream[1..])
  }

  lemma {:induction false} BatchesAppend(id: uint32, a: seq<NotificationData>, b: seq<NotificationData>)
    ensures Batches(id, a + b) == Batches(id, a) + Batches(id, b)
  {
    if a == [] {
      assert a + b == b;
    } else {
      assert (a + b)[0] == a[0];
      assert (a + b)[1..] == a[1..] + b;
      BatchesAppend(id, a[1..], b);
    }
  }

  /** A single notification gives one batch when it is a DataChangeNotification and none otherwise. */
  lemma BatchesSingle(id: uint32, d: NotificationData)
    ensures Batches(id, [d]) == if d.DataChangeNotification? then [BatchOf(id, d.monitoredItems)] else []
  {
    assert [d][1..] == [];
  }

  /** Processing one more notification of a response adds its batch, if it has one. */
  lemma BatchesStep(id: uint32, data: seq<NotificationData>, j: nat)
    requires j < |data|
    ensures data[j].DataChangeNotification? ==>
      Batches(id, data[..j + 1]) == Batches(id, data[..j]) + [BatchOf(id, data[j].monitoredItems)]
    ensures !data[j].DataChangeNotification? ==> Batches(id, data[..j + 1]) == Batches(id, data[..j])
  {
    assert data[..j + 1] == data[..j] + [data[j]];
    BatchesAppend(id, data[..j], [data[j]]);
    BatchesSingle(id, data[j]);
    assert Batches(id, data[..j]) + [] == Batches(id, data[..j]);
  }

  /** Reading one more response of the stream adds its batches when it carries `id`, and nothing otherwise. */
  lemma DemuxStep(id: uint32, stream: seq<PublishResponse>, i: nat)
    requires i < |stream|
    ensures stream[i].subscriptionId == id ==>
      Demux(id, stream[..i + 1]) == Demux(id, stream[..i]) + ResponseBatches(stream[i])
    ensures stream[i].subscriptionId != id ==> Demux(id, stream[..i + 1]) == Demux(id, stream[..i])
  {
    assert stream[..i + 1] == stream[..i] + [stream[i]];
    DemuxAppend(id, stream[..i], [stream[i]]);
    assert [stream[i]][1..] == [];
    assert Demux(id, stream[..i]) + [] == Demux(id, stream[..i]);
  }

  /** One batch per DataChangeNotification. */
  lemma {:induction false} BatchesCount(id: uint32, data: seq<NotificationData>)
    ensures |Batches(id, data)| == DataChangeCount(data)
  {
    if data != [] {
      BatchesCount(id, data[1..]);
    }
  }

  /** Every record of every batch carries subscription id `id`. */
  ghost predicate AllCarry(id: uint32, batches: seq<seq<SubscriptionData>>)
  {
    forall k, j :: 0 <= k < |batches| && 0 <= j < |batches[k]| ==> batches[k][j].subscriptionId == id
  }

  lemma AllCarryAppend(id: uint32, a: seq<seq<SubscriptionData>>, b: seq<seq<SubscriptionData>>)
    requires AllCarry(id, a) && AllCarry(id, b)
    ensures AllCarry(id, a + b)
  {
    forall k, j | 0 <= k < |a + b| && 0 <= j < |(a + b)[k]|
      ensures (a + b)[k][j].subscriptionId == id
    {
      if k >= |a| {
        assert (a + b)[k] == b[k - |a|];
      }
    }
  }

  /** Every record of every batch carries the subscription id it was built with. */
  lemma {:induction false} BatchesCarryId(id: uint32, data: seq<NotificationData>)
    ensures AllCarry(id, Batches(id, data))
  {
    if data != [] {
      BatchesCarryId(id, data[1..]);
      if data[0].DataChangeNotification? {
        AllCarryAppend(id, [BatchOf(id, data[0].monitoredItems)], Batches(id, data[1..]));
      }
    }
  }

  /** The stream is processed response by response: what a longer stream delivers extends what its prefix delivered. */
  lemma {:induction false} DemuxAppend(id: uint32, s: seq<PublishResponse>, t: seq<PublishResponse>)
    ensures Demux(id, s + t) == Demux(id, s) + Demux(id, t)
  {
    if s == [] {
      assert s + t == t;
    } else {
      assert (s + t)[0] == s[0];
      assert (s + t)[1..] == s[1..] + t;
      DemuxAppend(id, s[1..], t);
    }
  }

  /** Every record delivered to the subscription carries its own id. */
  lemma {:induction false} DemuxCarriesId(id: uint32, stream: seq<PublishResponse>)
    ensures AllCarry(id, Demux(id, stream))
  {
    if stream != [] {
      DemuxCarriesId(id, stream[1..]);
      if stream[0].subscriptionId == id {
        BatchesCarryId(id, stream[0].notificationData);
        AllCarryAppend(id, ResponseBatches(stream[0]), Demux(id, stream[1..]));
      } else {
        assert Demux(id, stream) == Demux(id, stream[1..]);
      }
    }
  }

  /**
    Responses of other subscriptions on the shared stream change nothing: the subscription
    delivers exactly what the stream restricted to its own id delivers.
   */
  lemma {:induction false} DemuxOnlyMatching(id: uint32, stream: seq<PublishResponse>)
    ensures Demux(id, stream) == Demux(id, Matching(id, stream))
  {
    if stream != [] {
      DemuxOnlyMatching(id, stream[1..]);
      var rest := Matching(id, stream[1..]);
      if stream[0].subscriptionId == id {
        assert Matching(id, stream) == [stream[0]] + rest;
        DemuxAppend(id, [stream[0]], rest);
        assert Demux(id, [stream[0]]) == ResponseBatches(stream[0]) by {
          assert [stream[0]][1..] == [];
        }
      } else {
        assert Matching(id, stream) == rest;
      }
    }
  }

  /** A stream that carries no response for the subscription delivers nothing to it. */
  lemma {:induction false} DemuxForeignStream(id: uint32, stream: seq<PublishResponse>)
    requires forall k :: 0 <= k < |stream| ==> stream[k].subscriptionId != id
    ensures Demux(id, stream) == []
  {
    if stream != [] {
      DemuxForeignStream(id, stream[1..]);
    }
  }

  /** Exactly one Trigger per DataChangeNotification of the responses that carry the id. */
  lemma {:induction false} DemuxCount(id: uint32, stream: seq<PublishResponse>)
    ensures |Demux(id, stream)| == TotalDataChanges(Matching(id, stream))
  {
    if stream != [] {
      DemuxCount(id, stream[1..]);
      BatchesCount(stream[0].subscriptionId, stream[0].notificationData);
      var rest := Matching(id, stream[1..]);
      if stream[0].subscriptionId == id {
        assert Matching(id, stream) == [stream[0]] + rest;
        assert ([stream[0]] + rest)[1..] == rest;
      } else {
        assert Matching(id, stream) == rest;
      }
    }
  }

  /** Two subscriptions on one channel never receive each other's records. */
  lemma NoCrossDelivery(id: uint32, other: uint32, stream: seq<PublishResponse>, k: nat, j: nat)
    requires id != other
    requires k < |Demux(id, stream)| && j < |Demux(id, stream)[k]|
    ensures Demux(id, stream)[k][j].subscriptionId != other
  {
    DemuxCarriesId(id, stream);
  }
}
