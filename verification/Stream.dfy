/** The SSE fan-out: every subscriber has a bounded channel, and a full channel loses its oldest
    alert to make room for the newest. */
module Stream {
  import opened Common
  import opened AlertStore

  datatype Target = Target(clientId: Uuid, deviceId: Option<Uuid>)

  predicate Matches(t: Target, a: Alert) {
    t.clientId == a.clientId && (t.deviceId.None? || t.deviceId.value == a.deviceId)
  }

  // ================================================================ the service, one caller at a time

  class Channel {
    const capacity: nat
    var buffer: seq<Alert>

    constructor (capacity: nat)
      ensures this.capacity == capacity && buffer == []
    {
      this.capacity := capacity;
      buffer := [];
    }

    // The `case ch <- a` of a select with a default.
    method TrySend(a: Alert) returns (sent: bool)
      modifies this
      ensures sent <==> |old(buffer)| < capacity
      ensures buffer == if sent then old(buffer) + [a] else old(buffer)
    {
      sent := |buffer| < capacity;
      if sent {
        buffer := buffer + [a];
      }
    }

    // The `case <-ch` of a select with a default.
    method TryReceive() returns (received: Option<Alert>)
      modifies this
      ensures received == if old(buffer) == [] then None else Some(old(buffer)[0])
      ensures buffer == if old(buffer) == [] then [] else old(buffer)[1..]
    {
      if buffer == [] {
        return None;
      }
      received := Some(buffer[0]);
      buffer := buffer[1..];
    }

    // A plain send; it may only be reached when it does not block.
    method Send(a: Alert)
      requires |buffer| < capacity
      modifies this
      ensures buffer == old(buffer) + [a]
    {
      buffer := buffer + [a];
    }

    /** The two nested selects of Dispatch: with room for one alert the final send never blocks. */
    method Offer(a: Alert)
      requires 1 <= capacity && |buffer| <= capacity
      modifies this
      ensures Takes(old(buffer), buffer, a, capacity)
    {
      var sent := TrySend(a);
      if !sent {
        var dropped := TryReceive();
        Send(a);
      }
      NewestTakes(old(buffer), a, capacity);
    }
  }

  /** The last `n` elements of `s`, or all of them. */
  function Newest<T>(s: seq<T>, n: nat): (r: seq<T>)
    ensures |r| <= n
  {
    if |s| <= n then s else s[|s| - n..]
  }

  /** The buffer `now` is the end of `was` followed by `a`: all of it while there is room, and
      otherwise as much as fits. */
  ghost predicate Takes(was: seq<Alert>, now: seq<Alert>, a: Alert, capacity: nat) {
    && |now| == (if |was| < capacity then |was| + 1 else capacity)
    && forall i :: 0 <= i < |now| ==> now[i] == if i == |now| - 1 then a else was[|was| + 1 - |now| + i]
  }

  lemma NewestIsTheEnd<T>(s: seq<T>, n: nat)
    ensures var r := Newest(s, n); |r| == (if |s| < n then |s| else n) && r == s[|s| - |r|..]
  {
  }

  lemma NewestTakes(was: seq<Alert>, a: Alert, capacity: nat)
    requires |was| <= capacity
    ensures Takes(was, Newest(was + [a], capacity), a, capacity)
  {
    NewestIsTheEnd(was + [a], capacity);
  }

  /** A subscriber gets the alert when it belongs to the same client and the subscription is to its
      device or to none in particular; any other channel is left as it was. */
  ghost predicate Delivered(target: Target, was: seq<Alert>, now: seq<Alert>, a: Alert, capacity: nat) {
    if target.clientId == a.clientId && (target.deviceId.None? || target.deviceId.value == a.deviceId)
    then Takes(was, now, a, capacity) else now == was
  }

  datatype Subscriber = Subscriber(id: Uuid, target: Target, channel: Channel)

  ghost predicate Lists(snapshot: seq<Subscriber>, id: Uuid) {
    exists k :: 0 <= k < |snapshot| && snapshot[k].id == id
  }

  // A snapshot that lists some subscribers lists them and the next one it takes up.
  lemma ListsNext(snapshot: seq<Subscriber>, next: Subscriber, listed: set<Uuid>)
    requires forall id :: id in listed ==> Lists(snapshot, id)
    ensures forall id :: id in listed + {next.id} ==> Lists(snapshot + [next], id)
  {
    var longer := snapshot + [next];
    assert longer[|snapshot|] == next;
    forall id | id in listed ensures Lists(longer, id) {
      var k :| 0 <= k < |snapshot| && snapshot[k].id == id;
      assert longer[k].id == id;
    }
  }

  class StreamService {
    const bufferSize: nat
    var subscribers: map<Uuid, Subscriber>

    ghost predicate Valid()
      reads this, set id | id in subscribers :: subscribers[id].channel
    {
      && (forall id :: id in subscribers ==>
            && subscribers[id].id == id
            && subscribers[id].channel.capacity == bufferSize
            && |subscribers[id].channel.buffer| <= bufferSize)
      && (forall i, j :: i in subscribers && j in subscribers && i != j ==> subscribers[i].channel != subscribers[j].channel)
    }

    constructor (bufferSize: nat)
      ensures Valid() && this.bufferSize == bufferSize && subscribers == map[]
    {
      this.bufferSize := bufferSize;
      subscribers := map[];
    }

    /** `newId` is the generated id of the subscription. */
    method Subscribe(target: Target, newId: Uuid) returns (sub: Subscriber)
      requires Valid() && newId !in subscribers
      modifies this
      ensures Valid() && fresh(sub.channel) && sub.channel.buffer == [] && sub.target == target
      ensures subscribers == old(subscribers)[newId := sub]
    {
      var channel := new Channel(bufferSize);
      sub := Subscriber(newId, target, channel);
      subscribers := subscribers[newId := sub];
    }

    method Unsubscribe(id: Uuid)
      requires Valid()
      modifies this
      ensures Valid() && subscribers == old(subscribers) - {id}
    {
      subscribers := subscribers - {id};
    }

    /** The subscribers at one moment, each once, in whatever order the map yields them. */
    method Snapshot() returns (snapshot: seq<Subscriber>)
      requires Valid()
      ensures forall k :: 0 <= k < |snapshot| ==> snapshot[k].id in subscribers && subscribers[snapshot[k].id] == snapshot[k]
      ensures forall id :: id in subscribers ==> Lists(snapshot, id)
      ensures forall j, k :: 0 <= j < k < |snapshot| ==> snapshot[j].channel != snapshot[k].channel
    {
      snapshot := [];
      var ids := subscribers.Keys;
      while ids != {}
        invariant ids <= subscribers.Keys
        invariant forall k :: 0 <= k < |snapshot| ==>
                    snapshot[k].id in subscribers.Keys - ids && subscribers[snapshot[k].id] == snapshot[k]
        invariant forall id :: id in subscribers.Keys - ids ==> Lists(snapshot, id)
        invariant forall j, k :: 0 <= j < k < |snapshot| ==> snapshot[j].id != snapshot[k].id
        decreases |ids|
      {
        var id :| id in ids;
        ListsNext(snapshot, subscribers[id], subscribers.Keys - ids);
        snapshot := snapshot + [subscribers[id]];
        ids := ids - {id};
      }
    }

    /** Every matching subscriber's channel keeps the newest alerts, the dispatched one last; no
        other channel changes, and with room for one alert the final send never blocks. */
    method Dispatch(alert: Alert)
      requires Valid() && bufferSize >= 1
      modifies set id | id in subscribers :: subscribers[id].channel
      ensures Valid()
      ensures forall id :: id in subscribers ==>
        Delivered(subscribers[id].target, old(subscribers[id].channel.buffer), subscribers[id].channel.buffer, alert, bufferSize)
    {
      var snapshot := Snapshot();
      for i := 0 to |snapshot|
        invariant forall k :: i <= k < |snapshot| ==> snapshot[k].channel.buffer == old(snapshot[k].channel.buffer)
        invariant forall k :: 0 <= k < i ==>
          Delivered(snapshot[k].target, old(snapshot[k].channel.buffer), snapshot[k].channel.buffer, alert, bufferSize)
      {
        var sub := snapshot[i];
        assert subscribers[sub.id] == sub;
        if Matches(sub.target, alert) {
          sub.channel.Offer(alert);
        }
      }
      forall id | id in subscribers
        ensures Delivered(subscribers[id].target, old(subscribers[id].channel.buffer), subscribers[id].channel.buffer, alert, bufferSize)
      {
        assert Lists(snapshot, id);
        var k :| 0 <= k < |snapshot| && snapshot[k].id == id;
        assert snapshot[k] == subscribers[id];
      }
    }
  }

  // ================================================================ dispatch after dispatch

  // There is one way for a buffer to take an alert.
  lemma TakesIsNewest(was: seq<Alert>, now: seq<Alert>, a: Alert, capacity: nat)
    requires |was| <= capacity
    ensures Takes(was, now, a, capacity) <==> now == Newest(was + [a], capacity)
  {
    NewestTakes(was, a, capacity);
    if Takes(was, now, a, capacity) {
      TakesOneWay(was, now, Newest(was + [a], capacity), a, capacity);
    }
  }

  lemma TakesOneWay(was: seq<Alert>, x: seq<Alert>, y: seq<Alert>, a: Alert, capacity: nat)
    requires Takes(was, x, a, capacity) && Takes(was, y, a, capacity)
    ensures x == y
  {
  }

  /** The buffer after a series of matching dispatches that nobody drains. */
  function AfterDispatches(buffer: seq<Alert>, alerts: seq<Alert>, capacity: nat): seq<Alert> {
    if alerts == [] then buffer
    else Newest(AfterDispatches(buffer, alerts[..|alerts| - 1], capacity) + [alerts[|alerts| - 1]], capacity)
  }

  lemma {:induction false} DispatchesKeepNewest(buffer: seq<Alert>, alerts: seq<Alert>, capacity: nat)
    requires |buffer| <= capacity
    ensures AfterDispatches(buffer, alerts, capacity) == Newest(buffer + alerts, capacity)
  {
    if alerts == [] {
      assert buffer + alerts == buffer;
    } else {
      var front, last := alerts[..|alerts| - 1], alerts[|alerts| - 1];
      DispatchesKeepNewest(buffer, front, capacity);
      assert buffer + alerts == (buffer + front) + [last];
      NewestOfNewest(buffer + front, last, capacity);
    }
  }

  /** Dropping the oldest at every full send amounts to keeping the newest of everything ever sent:
      the end of it, as much as the capacity allows. */
  lemma KeepsTheNewest(buffer: seq<Alert>, alerts: seq<Alert>, capacity: nat)
    requires |buffer| <= capacity
    ensures var (all, kept) := (buffer + alerts, AfterDispatches(buffer, alerts, capacity));
      |kept| == (if |all| < capacity then |all| else capacity) && kept == all[|all| - |kept|..]
  {
    DispatchesKeepNewest(buffer, alerts, capacity);
    NewestIsTheEnd(buffer + alerts, capacity);
  }

  lemma NewestOfNewest(s: seq<Alert>, a: Alert, n: nat)
    ensures Newest(Newest(s, n) + [a], n) == Newest(s + [a], n)
  {
  }
}
