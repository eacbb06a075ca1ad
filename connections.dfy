/**
 * The list of open real-time connections (ConnectionManager in server.py) and
 * its best-effort broadcast. What a send puts on the wire is recorded in an
 * append-only delivery log; the connections whose send raises are a parameter.
 */
module Connections {
  import opened Registry

  /** The identity of one websocket. */
  type ConnId = nat

  /** The two messages broadcast to every connection. */
  datatype Event =
    | DeviceUpdate(deviceId: string, device: Device)   // {"type": "device_update", ...}
    | DeviceSelected(deviceId: string)                 // {"type": "device_selected", ...}

  /** One successful send of `event` to connection `to`. */
  datatype Delivery = Delivery(to: ConnId, event: Event)

  /**
   * What one broadcast of `event` delivers: one send per entry of `conns`, in
   * order, except to the connections in `failing`, whose sends raise and are skipped.
   */
  function Deliveries(conns: seq<ConnId>, failing: set<ConnId>, event: Event): (r: seq<Delivery>)
    ensures |r| <= |conns|
  {
    if conns == [] then []
    else
      var last := conns[|conns| - 1];
      Deliveries(conns[..|conns| - 1], failing, event) + (if last in failing then [] else [Delivery(last, event)])
  }

  /** A connection receives the broadcast exactly when it is open and its send does not fail. */
  lemma {:induction false} DeliveredIff(conns: seq<ConnId>, failing: set<ConnId>, event: Event, c: ConnId)
    ensures Delivery(c, event) in Deliveries(conns, failing, event) <==> c in conns && c !in failing
  {
    if conns != [] {
      var init := conns[..|conns| - 1];
      DeliveredIff(init, failing, event, c);
      assert conns == init + [conns[|conns| - 1]];
    }
  }

  /** A broadcast delivers only its own event, and at most once per list entry. */
  lemma {:induction false} DeliveriesCarryEvent(conns: seq<ConnId>, failing: set<ConnId>, event: Event)
    ensures |Deliveries(conns, failing, event)| <= |conns|
    ensures forall d :: d in Deliveries(conns, failing, event) ==> d.event == event && d.to in conns
  {
    if conns != [] {
      var init := conns[..|conns| - 1];
      DeliveriesCarryEvent(init, failing, event);
      assert conns == init + [conns[|conns| - 1]];
    }
  }

  /** Each connection receives the event once per list entry of it, or never if its send fails. */
  lemma {:induction false} DeliveriesPerConnection(conns: seq<ConnId>, failing: set<ConnId>, event: Event, c: ConnId)
    ensures multiset(Deliveries(conns, failing, event))[Delivery(c, event)]
              == (if c in failing then 0 else multiset(conns)[c])
  {
    if conns != [] {
      var init := conns[..|conns| - 1];
      DeliveriesPerConnection(init, failing, event, c);
      assert conns == init + [conns[|conns| - 1]];
    }
  }

  /** When no send fails, every connection receives the event once, in list order. */
  lemma {:induction false} DeliveriesWithoutFailure(conns: seq<ConnId>, event: Event)
    ensures Deliveries(conns, {}, event) == seq(|conns|, i requires 0 <= i < |conns| => Delivery(conns[i], event))
  {
    if conns != [] {
      DeliveriesWithoutFailure(conns[..|conns| - 1], event);
    }
  }

  /** `conns` with its first occurrence of `c` removed (Python's `list.remove`). */
  function RemoveFirst(conns: seq<ConnId>, c: ConnId): (r: seq<ConnId>)
    ensures |r| == if c in conns then |conns| - 1 else |conns|
  {
    if conns == [] then []
    else if conns[0] == c then conns[1..]
    else [conns[0]] + RemoveFirst(conns[1..], c)
  }

  /** Removing at the first occurrence of `c`, found by scanning from the front. */
  lemma {:induction false} RemoveFirstAt(conns: seq<ConnId>, c: ConnId, i: nat)
    requires i < |conns| && conns[i] == c && c !in conns[..i]
    ensures RemoveFirst(conns, c) == conns[..i] + conns[i + 1..]
  {
    if i > 0 {
      assert conns[1..][..i - 1] == conns[1..i];
      RemoveFirstAt(conns[1..], c, i - 1);
    }
  }

  /** Removing drops exactly one occurrence of an open connection, and nothing otherwise. */
  lemma {:induction false} RemoveFirstEffect(conns: seq<ConnId>, c: ConnId)
    ensures c in conns ==> |RemoveFirst(conns, c)| == |conns| - 1
    ensures c in conns ==> multiset(RemoveFirst(conns, c)) == multiset(conns) - multiset{c}
    ensures c !in conns ==> RemoveFirst(conns, c) == conns
  {
    if conns != [] {
      RemoveFirstEffect(conns[1..], c);
      assert conns == [conns[0]] + conns[1..];
    }
  }

  /** Connecting a new websocket and disconnecting it again restores the list. */
  lemma ConnectThenDisconnect(conns: seq<ConnId>, c: ConnId)
    requires c !in conns
    ensures RemoveFirst(conns + [c], c) == conns
  {
    RemoveFirstAt(conns + [c], c, |conns|);
    assert (conns + [c])[..|conns|] == conns;
  }

  class ConnectionManager {
    /** The open connections, in the order they connected. */
    var activeConnections: seq<ConnId>
    /** Every send that succeeded so far, oldest first. */
    var sent: seq<Delivery>

    constructor ()
      ensures activeConnections == [] && sent == []
    {
      activeConnections := [];
      sent := [];
    }

    /** Registers an accepted websocket at the end of the list. */
    method Connect(websocket: ConnId)
      modifies this
      ensures activeConnections == old(activeConnections) + [websocket]
      ensures sent == old(sent)
    {
      activeConnections := activeConnections + [websocket];
    }

    /**
     * Removes the first occurrence of `websocket`. When it is not in the list,
     * `list.remove` raises: `removed` is false and nothing changes.
     */
    method Disconnect(websocket: ConnId) returns (removed: bool)
      modifies this
      ensures removed <==> websocket in old(activeConnections)
      ensures activeConnections == RemoveFirst(old(activeConnections), websocket)
      ensures sent == old(sent)
    {
      var i := 0;
      while i < |activeConnections| && activeConnections[i] != websocket
        invariant 0 <= i <= |activeConnections|
        invariant websocket !in activeConnections[..i]
      {
        i := i + 1;
      }
      if i == |activeConnections| {
        assert activeConnections[..i] == activeConnections;
        RemoveFirstEffect(activeConnections, websocket);
        return false;
      }
      RemoveFirstAt(activeConnections, websocket, i);
      activeConnections := activeConnections[..i] + activeConnections[i + 1..];
      removed := true;
    }

    /** Sends `event` to every open connection in order; a failing send is skipped. */
    method Broadcast(event: Event, failing: set<ConnId>)
      modifies this
      ensures activeConnections == old(activeConnections)
      ensures sent == old(sent) + Deliveries(activeConnections, failing, event)
    {
      var i := 0;
      while i < |activeConnections|
        invariant 0 <= i <= |activeConnections|
        invariant activeConnections == old(activeConnections)
        invariant sent == old(sent) + Deliveries(activeConnections[..i], failing, event)
      {
        var connection := activeConnections[i];
        assert activeConnections[..i + 1][..i] == activeConnections[..i];
        if connection !in failing {
          sent := sent + [Delivery(connection, event)];
        }
        i := i + 1;
      }
      assert activeConnections[..i] == activeConnections;
    }
  }
}
