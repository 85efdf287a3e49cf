/**
  C# events (multicast delegates) as the model sees them. An event is a list of handlers in
  subscription order; `Event?.Invoke(x)` runs every handler once, in that order, with `x`.
  What the handlers do is outside the model, so an invocation is recorded as one Delivery per
  handler, appended to a log that the object owning the event keeps.
 */
module Events {

  /** Identifies a handler attached to an event by a caller. */
  type HandlerId = nat

  /** One handler invoked with one argument. */
  datatype Delivery<T> = Delivery(handler: HandlerId, payload: T)

  /** `Event?.Invoke(payload)`: one delivery per attached handler, in order, all with the same payload. */
  function Fire<T>(handlers: seq<HandlerId>, payload: T): (r: seq<Delivery<T>>)
    ensures |r| == |handlers|
    ensures forall i :: 0 <= i < |r| ==> r[i].handler == handlers[i] && r[i].payload == payload
  {
    if handlers == [] then [] else [Delivery(handlers[0], payload)] + Fire(handlers[1..], payload)
  }

  /** Successive invocations of one event, one per payload, in order. */
  function Broadcast<T>(handlers: seq<HandlerId>, payloads: seq<T>): seq<Delivery<T>>
  {
    if payloads == [] then [] else Fire(handlers, payloads[0]) + Broadcast(handlers, payloads[1..])
  }

  /** `n` copies of `x`. */
  function Copies<T>(x: T, n: nat): seq<T>
  {
    seq(n, _ => x)
  }

  /** Concatenation regroups freely; stated over plain sequences so no event function is in view. */
  lemma AppendRegroup<X>(a: seq<X>, b: seq<X>, c: seq<X>)
    ensures a + b + c == a + (b + c)
  {
  }

  /** A log holding `ps`'s invocations and then `p`'s holds the invocations of `ps + [p]`. */
  lemma LogGrows<T>(log0: seq<Delivery<T>>, log: seq<Delivery<T>>, handlers: seq<HandlerId>, ps: seq<T>, p: T)
    requires log == log0 + Broadcast(handlers, ps) + Fire(handlers, p)
    ensures log == log0 + Broadcast(handlers, ps + [p])
  {
    BroadcastSnoc(handlers, ps, p);
    AppendRegroup(log0, Broadcast(handlers, ps), Fire(handlers, p));
  }

  /** A log holding `ps`'s invocations and then `qs`'s holds the invocations of `ps + qs`. */
  lemma LogExtends<T>(log0: seq<Delivery<T>>, log: seq<Delivery<T>>, handlers: seq<HandlerId>, ps: seq<T>, qs: seq<T>)
    requires log == log0 + Broadcast(handlers, ps) + Broadcast(handlers, qs)
    ensures log == log0 + Broadcast(handlers, ps + qs)
  {
    BroadcastAppend(handlers, ps, qs);
    AppendRegroup(log0, Broadcast(handlers, ps), Broadcast(handlers, qs));
  }

  /** A log that has taken `n` rounds of `x` and then one more has taken `n + 1` rounds. */
  lemma LogGrowsByOneRound<T>(log0: seq<Delivery<T>>, log: seq<Delivery<T>>, handlers: seq<HandlerId>, x: T, n: nat)
    requires log == log0 + Broadcast(handlers, Copies(x, n)) + Fire(handlers, x)
    ensures log == log0 + Broadcast(handlers, Copies(x, n + 1))
  {
    assert Copies(x, n + 1) == Copies(x, n) + [x];
    LogGrows(log0, log, handlers, Copies(x, n), x);
  }

  /** How many times `h` is attached. */
  function Count(handlers: seq<HandlerId>, h: HandlerId): nat
  {
    if handlers == [] then 0 else (if handlers[0] == h then 1 else 0) + Count(handlers[1..], h)
  }

  /** The arguments handler `h` was invoked with, in order. */
  function Received<T>(log: seq<Delivery<T>>, h: HandlerId): seq<T>
  {
    if log == [] then []
    else (if log[0].handler == h then [log[0].payload] else []) + Received(log[1..], h)
  }

  lemma {:induction false} ReceivedAppend<T>(a: seq<Delivery<T>>, b: seq<Delivery<T>>, h: HandlerId)
    ensures Received(a + b, h) == Received(a, h) + Received(b, h)
  {
    if a == [] {
      assert a + b == b;
    } else {
      var ab := a + b;
      assert ab[0] == a[0];
      assert ab[1..] == a[1..] + b;
      ReceivedAppend(a[1..], b, h);
      calc {
        Received(ab, h);
        (if a[0].handler == h then [a[0].payload] else []) + Received(a[1..] + b, h);
        (if a[0].handler == h then [a[0].payload] else []) + (Received(a[1..], h) + Received(b, h));
        Received(a, h) + Received(b, h);
      }
    }
  }

  /** One invocation reaches `h` once per time it is attached, with the payload unchanged. */
  lemma {:induction false} ReceivedFire<T>(handlers: seq<HandlerId>, payload: T, h: HandlerId)
    ensures Received(Fire(handlers, payload), h) == Copies(payload, Count(handlers, h))
  {
    if handlers != [] {
      var first := [Delivery(handlers[0], payload)];
      var rest := Fire(handlers[1..], payload);
      ReceivedFire(handlers[1..], payload, h);
      ReceivedAppend(first, rest, h);
      assert Received(first, h) == if handlers[0] == h then [payload] else [] by {
        assert first[1..] == [];
      }
      var n := Count(handlers[1..], h);
      if handlers[0] == h {
        assert Copies(payload, n + 1) == [payload] + Copies(payload, n);
      }
    }
  }

  lemma {:induction false} BroadcastAppend<T>(handlers: seq<HandlerId>, ps: seq<T>, qs: seq<T>)
    ensures Broadcast(handlers, ps + qs) == Broadcast(handlers, ps) + Broadcast(handlers, qs)
  {
    if ps == [] {
      assert ps + qs == qs;
    } else {
      assert (ps + qs)[0] == ps[0];
      assert (ps + qs)[1..] == ps[1..] + qs;
      BroadcastAppend(handlers, ps[1..], qs);
    }
  }

  /** Invoking the event once more appends one round of deliveries to the log. */
  lemma BroadcastSnoc<T>(handlers: seq<HandlerId>, ps: seq<T>, p: T)
    ensures Broadcast(handlers, ps + [p]) == Broadcast(handlers, ps) + Fire(handlers, p)
  {
    BroadcastAppend(handlers, ps, [p]);
    assert [p][1..] == [];
  }

  /** An event nobody subscribed to (a null delegate) delivers nothing, however often it is invoked. */
  lemma {:induction false} BroadcastWithoutHandlers<T>(payloads: seq<T>)
    ensures Broadcast([], payloads) == []
  {
    if payloads != [] {
      BroadcastWithoutHandlers(payloads[1..]);
    }
  }

  /** A handler attached once receives exactly the payloads, in invocation order, unchanged. */
  lemma {:induction false} ReceivedBroadcast<T>(handlers: seq<HandlerId>, payloads: seq<T>, h: HandlerId)
    requires Count(handlers, h) == 1
    ensures Received(Broadcast(handlers, payloads), h) == payloads
  {
    if payloads != [] {
      ReceivedFire(handlers, payloads[0], h);
      ReceivedAppend(Fire(handlers, payloads[0]), Broadcast(handlers, payloads[1..]), h);
      ReceivedBroadcast(handlers, payloads[1..], h);
      assert Copies(payloads[0], 1) == [payloads[0]];
    }
  }
}
