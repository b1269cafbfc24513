/** The append-only `alerts` table and the repository over it. */
module AlertStore {
  import opened Common

  const TYPE_AUTO_ESCALATED := "auto_escalated"
  const SEVERITY_CRITICAL := "critical"
  const BURST_MESSAGE := "Repeated alert burst auto-escalated"

  // The text of a UUID determines the UUID.
  datatype UuidText = UuidText(id: Uuid)

  datatype Payload =
    | DevicePayload(fields: map<string, string>)
    | EscalationPayload(sourceAlertIds: seq<UuidText>, count: nat, windowSeconds: int, threshold: int, detectedAt: Time)

  datatype Alert = Alert(
    id: Uuid, deviceId: Uuid, clientId: Uuid, alertType: string, severity: string,
    message: string, payload: Payload, occurredAt: Time)
  {
    predicate IsMarker() {
      alertType == TYPE_AUTO_ESCALATED
    }
  }

  predicate ValidSeverity(s: string) {
    s == "info" || s == "warning" || s == "critical"
  }

  datatype StoreError = AlertNotFound | StorageFailure

  ghost predicate UniqueIds(rows: seq<Alert>) {
    forall i, j :: 0 <= i < j < |rows| ==> rows[i].id != rows[j].id
  }

  // ---------------------------------------------------------------- lookup

  function FindRow(rows: seq<Alert>, id: Uuid): (r: Option<Alert>)
    ensures r.Some? ==> r.value in rows && r.value.id == id
    ensures r.None? <==> forall a :: a in rows ==> a.id != id
  {
    if rows == [] then None
    else if rows[0].id == id then Some(rows[0])
    else FindRow(rows[1..], id)
  }

  lemma FindsUnique(rows: seq<Alert>, a: Alert)
    requires UniqueIds(rows) && a in rows
    ensures FindRow(rows, a.id) == Some(a)
  {
  }

  // ---------------------------------------------------------------- ORDER BY occurred_at, id

  predicate Before(a: Alert, b: Alert) {
    a.occurredAt < b.occurredAt || (a.occurredAt == b.occurredAt && a.id < b.id)
  }

  ghost predicate StrictlyOrdered(s: seq<Alert>) {
    forall i, j :: 0 <= i < j < |s| ==> Before(s[i], s[j])
  }

  function InsertInOrder(a: Alert, s: seq<Alert>): seq<Alert> {
    if s == [] then [a]
    else if Before(s[0], a) then [s[0]] + InsertInOrder(a, s[1..])
    else [a] + s
  }

  function OrderByTime(rows: seq<Alert>): seq<Alert> {
    if rows == [] then [] else InsertInOrder(rows[0], OrderByTime(rows[1..]))
  }

  lemma {:induction false} InsertKeeps(a: Alert, s: seq<Alert>)
    ensures multiset(InsertInOrder(a, s)) == multiset{a} + multiset(s)
  {
    if s != [] {
      assert s == [s[0]] + s[1..];
      InsertKeeps(a, s[1..]);
    }
  }

  lemma {:induction false} InsertOrdered(a: Alert, s: seq<Alert>)
    requires StrictlyOrdered(s)
    requires forall b :: b in s ==> b.id != a.id
    ensures StrictlyOrdered(InsertInOrder(a, s))
  {
    if s != [] && Before(s[0], a) {
      InsertOrdered(a, s[1..]);
      var t := InsertInOrder(a, s[1..]);
      InsertKeeps(a, s[1..]);
      forall b | b in t ensures Before(s[0], b) {
        assert b in multiset(t);
      }
    }
  }

  /** ORDER BY keeps every row once and, ids being unique, orders strictly: earlier alerts first,
      and alerts of one instant by their ids. */
  lemma {:induction false} OrderByTimeSorts(rows: seq<Alert>)
    requires UniqueIds(rows)
    ensures multiset(OrderByTime(rows)) == multiset(rows)
    ensures StrictlyOrdered(OrderByTime(rows))
    ensures var s := OrderByTime(rows);
      forall i, j :: 0 <= i < j < |s| ==>
        s[i].occurredAt < s[j].occurredAt || (s[i].occurredAt == s[j].occurredAt && s[i].id < s[j].id)
  {
    if rows != [] {
      var rest := OrderByTime(rows[1..]);
      OrderByTimeSorts(rows[1..]);
      assert rows == [rows[0]] + rows[1..];
      InsertKeeps(rows[0], rest);
      forall b | b in rest ensures b.id != rows[0].id {
        assert b in multiset(rest);
        assert b in rows[1..];
      }
      InsertOrdered(rows[0], rest);
    }
  }

  // One bag of rows less its first row, seen from either arrangement.
  lemma TailsAgree(s: seq<Alert>, t: seq<Alert>)
    requires s != [] && t != [] && s[0] == t[0] && multiset(s) == multiset(t)
    ensures multiset(s[1..]) == multiset(t[1..])
  {
    assert s == [s[0]] + s[1..] && t == [t[0]] + t[1..];
    assert multiset(s[1..]) == multiset(s) - multiset{s[0]};
    assert multiset(t[1..]) == multiset(t) - multiset{s[0]};
  }

  lemma HeadsAgree(s: seq<Alert>, t: seq<Alert>)
    requires s != [] && t != []
    requires StrictlyOrdered(s) && StrictlyOrdered(t) && multiset(s) == multiset(t)
    ensures s[0] == t[0]
  {
    assert s[0] in multiset(t) && t[0] in multiset(s);
    var i :| 0 <= i < |s| && s[i] == t[0];
    var j :| 0 <= j < |t| && t[j] == s[0];
  }

  /** There is one strictly ordered arrangement of a bag of rows, so ORDER BY is deterministic. */
  lemma {:induction false} OrderIsUnique(s: seq<Alert>, t: seq<Alert>)
    requires StrictlyOrdered(s) && StrictlyOrdered(t) && multiset(s) == multiset(t)
    ensures s == t
  {
    assert |s| == |multiset(s)| && |t| == |multiset(t)|;
    if s != [] {
      HeadsAgree(s, t);
      TailsAgree(s, t);
      OrderIsUnique(s[1..], t[1..]);
    }
  }

  // ---------------------------------------------------------------- the escalation window

  predicate InWindow(a: Alert, deviceId: Uuid, alertType: string, since: Time) {
    a.deviceId == deviceId && a.alertType == alertType && a.occurredAt >= since
  }

  function WindowRows(rows: seq<Alert>, deviceId: Uuid, alertType: string, since: Time): seq<Alert> {
    OrderByTime(Select(rows, (a: Alert) => InWindow(a, deviceId, alertType, since)))
  }

  function Ids(rows: seq<Alert>): (r: seq<Uuid>)
    ensures |r| == |rows| && forall i :: 0 <= i < |r| ==> r[i] == rows[i].id
  {
    seq(|rows|, i requires 0 <= i < |rows| => rows[i].id)
  }

  function WindowIds(rows: seq<Alert>, deviceId: Uuid, alertType: string, since: Time): seq<Uuid> {
    Ids(WindowRows(rows, deviceId, alertType, since))
  }

  lemma {:induction false} SelectUnique(rows: seq<Alert>, keep: Alert -> bool)
    requires UniqueIds(rows)
    ensures UniqueIds(Select(rows, keep))
  {
    if rows != [] {
      var front := rows[..|rows| - 1];
      SelectUnique(front, keep);
      SelectMembers(front, keep);
      forall a | a in Select(front, keep) ensures a.id != rows[|rows| - 1].id {
        var i :| 0 <= i < |front| && front[i] == a;
      }
    }
  }

  /** The window query returns the rows of the device and type that are recent enough, each
      once, strictly ordered by (occurred_at, id). */
  lemma WindowExact(rows: seq<Alert>, deviceId: Uuid, alertType: string, since: Time)
    requires UniqueIds(rows)
    ensures var w := WindowRows(rows, deviceId, alertType, since);
      && StrictlyOrdered(w)
      && UniqueIds(w)
      && (forall i, j :: 0 <= i < j < |w| ==>
            w[i].occurredAt < w[j].occurredAt || (w[i].occurredAt == w[j].occurredAt && w[i].id < w[j].id))
      && (forall a :: a in w <==> a in rows && a.deviceId == deviceId && a.alertType == alertType && since <= a.occurredAt)
  {
    var keep := (a: Alert) => InWindow(a, deviceId, alertType, since);
    var chosen := Select(rows, keep);
    SelectUnique(rows, keep);
    SelectMembers(rows, keep);
    OrderByTimeSorts(chosen);
    var w := WindowRows(rows, deviceId, alertType, since);
    forall a ensures a in w <==> a in chosen {
      assert a in multiset(w) <==> a in multiset(chosen);
    }
    forall i, j | 0 <= i < j < |w| ensures w[i].id != w[j].id {
      assert Before(w[i], w[j]);
      if w[i].id == w[j].id {
        assert w[i] in chosen && w[j] in chosen;
        FindsUnique(chosen, w[i]);
        FindsUnique(chosen, w[j]);
        assert false;
      }
    }
  }

  // ---------------------------------------------------------------- insertion

  // No text of the row holds a NUL character; the payload's keys and values are text as well.
  predicate Storable(a: Alert) {
    && NulFree(a.alertType) && NulFree(a.message)
    && (a.payload.DevicePayload? ==>
          forall k :: k in a.payload.fields ==> NulFree(k) && NulFree(a.payload.fields[k]))
  }

  /** What keeps a row out of the table whatever its id: a NUL character in one of its texts. */
  lemma StorableIff(a: Alert)
    ensures !Storable(a) <==>
              || '\0' in a.alertType || '\0' in a.message
              || (a.payload.DevicePayload? && exists k :: k in a.payload.fields && ('\0' in k || '\0' in a.payload.fields[k]))
  {
  }

  /** INSERT ... RETURNING under a generated id: the primary key refuses an id in use, and the
      database refuses text it cannot store. */
  function InsertRow(rows: seq<Alert>, a: Alert, newId: Uuid): (r: Option<seq<Alert>>)
    ensures UniqueIds(rows) && r.Some? ==> UniqueIds(r.value)
    ensures r.Some? ==> r.value == rows + [a.(id := newId)]
    ensures r.Some? <==> Storable(a) && forall x :: x in rows ==> x.id != newId
  {
    if !Storable(a) || FindRow(rows, newId).Some? then None else Some(rows + [a.(id := newId)])
  }

  function BatchRows(alerts: seq<Alert>, newIds: seq<Uuid>): (r: seq<Alert>)
    requires |newIds| == |alerts|
    ensures |r| == |alerts| && forall i :: 0 <= i < |r| ==> r[i] == alerts[i].(id := newIds[i])
  {
    seq(|alerts|, i requires 0 <= i < |alerts| => alerts[i].(id := newIds[i]))
  }

  // The table, with the rows of the batch before it, refuses row `i` of a batch.
  ghost predicate Refused(rows: seq<Alert>, alerts: seq<Alert>, newIds: seq<Uuid>, i: nat)
    requires i < |alerts| == |newIds|
  {
    !Storable(alerts[i]) || FindRow(rows, newIds[i]).Some? || newIds[i] in newIds[..i]
  }

  ghost predicate NoneRefused(rows: seq<Alert>, alerts: seq<Alert>, newIds: seq<Uuid>)
    requires |alerts| == |newIds|
  {
    forall i :: 0 <= i < |alerts| ==> !Refused(rows, alerts, newIds, i)
  }

  lemma BatchKeepsUniqueIds(rows: seq<Alert>, alerts: seq<Alert>, newIds: seq<Uuid>)
    requires UniqueIds(rows) && |alerts| == |newIds| && NoneRefused(rows, alerts, newIds)
    ensures UniqueIds(rows + BatchRows(alerts, newIds))
  {
    var all := rows + BatchRows(alerts, newIds);
    forall i, j | 0 <= i < j < |all| ensures all[i].id != all[j].id {
      if j >= |rows| {
        assert !Refused(rows, alerts, newIds, j - |rows|);
        if i < |rows| {
          assert rows[i] in rows;
        } else {
          assert newIds[..j - |rows|][i - |rows|] == all[i].id;
        }
      }
    }
  }

  lemma ClashMeansRefused(rows: seq<Alert>, alerts: seq<Alert>, newIds: seq<Uuid>, i: nat)
    requires i < |alerts| == |newIds|
    ensures var pending := rows + BatchRows(alerts[..i], newIds[..i]);
      FindRow(pending, newIds[i]).Some? <==> FindRow(rows, newIds[i]).Some? || newIds[i] in newIds[..i]
  {
    var added := BatchRows(alerts[..i], newIds[..i]);
    var pending := rows + added;
    if newIds[i] in newIds[..i] {
      var k :| 0 <= k < i && newIds[k] == newIds[i];
      assert added[k].id == newIds[i] && added[k] in pending;
    }
    if FindRow(rows, newIds[i]).Some? {
      assert FindRow(rows, newIds[i]).value in pending;
    }
    if FindRow(pending, newIds[i]).Some? && FindRow(pending, newIds[i]).value !in rows {
      var k :| 0 <= k < i && added[k] == FindRow(pending, newIds[i]).value;
      assert newIds[..i][k] == newIds[i];
    }
  }

  class AlertRepository {
    var rows: seq<Alert>

    constructor ()
      ensures rows == []
    {
      rows := [];
    }

    method Create(a: Alert, newId: Uuid, fault: Fault) returns (r: Result<Alert, StoreError>)
      modifies this
      ensures var stored := !fault.LostRequest? && Storable(a) && forall x :: x in old(rows) ==> x.id != newId;
        && rows == (if stored then old(rows) + [a.(id := newId)] else old(rows))
        && r == if stored && fault.Healthy? then Ok(a.(id := newId)) else Err(StorageFailure)
    {
      if fault.LostRequest? {
        return Err(StorageFailure);
      }
      var clash := FindRow(rows, newId);
      if clash.Some? || !Storable(a) {
        return Err(StorageFailure);
      }
      var saved := a.(id := newId);
      rows := rows + [saved];
      if fault.LostReply? {
        return Err(StorageFailure);
      }
      return Ok(saved);
    }

    /** One transaction: all rows are stored in request order, or none is. */
    method CreateBatch(alerts: seq<Alert>, newIds: seq<Uuid>, fault: Fault) returns (r: Result<seq<Alert>, StoreError>)
      requires |newIds| == |alerts|
      modifies this
      ensures var stored := !fault.LostRequest? && NoneRefused(old(rows), alerts, newIds);
        && rows == (if stored then old(rows) + BatchRows(alerts, newIds) else old(rows))
        && (r.Ok? <==> alerts == [] || (stored && fault.Healthy?))
        && (r.Ok? ==> r.value == BatchRows(alerts, newIds))
        && (r.Err? ==> r.error == StorageFailure)
      ensures old(UniqueIds(rows)) ==> UniqueIds(rows)
    {
      if |alerts| == 0 {
        return Ok([]);
      }
      if fault.LostRequest? {
        return Err(StorageFailure);
      }
      var pending := rows;
      var results: seq<Alert> := [];
      var i := 0;
      while i < |alerts|
        invariant 0 <= i <= |alerts|
        invariant rows == old(rows) && pending == rows + results
        invariant results == BatchRows(alerts[..i], newIds[..i])
        invariant forall k :: 0 <= k < i ==> !Refused(rows, alerts, newIds, k)
      {
        ClashMeansRefused(rows, alerts, newIds, i);
        var clash := FindRow(pending, newIds[i]);
        if clash.Some? || !Storable(alerts[i]) {
          assert Refused(rows, alerts, newIds, i);
          return Err(StorageFailure);
        }
        var saved := alerts[i].(id := newIds[i]);
        pending := pending + [saved];
        results := results + [saved];
        i := i + 1;
      }
      assert alerts[..i] == alerts && newIds[..i] == newIds;
      if UniqueIds(rows) {
        BatchKeepsUniqueIds(rows, alerts, newIds);
      }
      rows := pending;
      if fault.LostReply? {
        return Err(StorageFailure);
      }
      return Ok(results);
    }

    method FindByID(alertId: Uuid, fault: Fault) returns (r: Result<Alert, StoreError>)
      ensures r == if !fault.Healthy? then Err(StorageFailure)
                   else if FindRow(rows, alertId).Some? then Ok(FindRow(rows, alertId).value)
                   else Err(AlertNotFound)
    {
      if !fault.Healthy? {
        return Err(StorageFailure);
      }
      var found := FindRow(rows, alertId);
      if found.None? {
        return Err(AlertNotFound);
      }
      return Ok(found.value);
    }

    method ListSameTypeIDsWithinWindow(deviceId: Uuid, alertType: string, since: Time, fault: Fault)
      returns (r: Result<seq<Uuid>, StoreError>)
      ensures r == if fault.Healthy? then Ok(WindowIds(rows, deviceId, alertType, since)) else Err(StorageFailure)
    {
      if !fault.Healthy? {
        return Err(StorageFailure);
      }
      var found := WindowRows(rows, deviceId, alertType, since);
      var ids: seq<Uuid> := [];
      var i := 0;
      while i < |found|
        invariant 0 <= i <= |found|
        invariant ids == Ids(found[..i])
      {
        ids := ids + [found[i].id];
        i := i + 1;
      }
      assert found[..i] == found;
      return Ok(ids);
    }
  }
}
