/** Device ingest: one event, or a batch in which every event is judged on its own. */
module Ingest {
  import opened Common
  import opened AlertStore
  import opened Escalation
  import opened Text

  const BATCH_MAX_SIZE := 100

  datatype IngestRequest = IngestRequest(
    alertType: string, severity: string, message: string,
    payload: Option<map<string, string>>, occurredAt: Option<Time>)

  datatype IngestError =
    | InvalidSeverity | InvalidType | InvalidMessage
    | EmptyBatch | BatchTooLarge
    | StoreFailed | NotificationFailed

  // ---------------------------------------------------------------- building one alert

  predicate ValidateType(t: string) {
    TrimSpace(t) != "" && ByteLength(t) <= 100
  }

  predicate ValidateMessage(m: string) {
    TrimSpace(m) != ""
  }

  function BuildAlert(deviceId: Uuid, clientId: Uuid, req: IngestRequest, now: Time): Result<Alert, IngestError> {
    if !ValidSeverity(req.severity) then Err(InvalidSeverity)
    else if !ValidateType(req.alertType) then Err(InvalidType)
    else if !ValidateMessage(req.message) then Err(InvalidMessage)
    else
      var occurredAt := if req.occurredAt.Some? then req.occurredAt.value else now;
      var payload := if req.payload.Some? then req.payload.value else map[];
      Ok(Alert(0, deviceId, clientId, TrimSpace(req.alertType), req.severity, TrimSpace(req.message),
               DevicePayload(payload), occurredAt))
  }

  predicate NamesSeverity(s: string) {
    s in ["info", "warning", "critical"]
  }

  /** An event becomes an alert exactly when its severity is known, its type is not blank and at
      most 100 bytes long, and its message is not blank; the alert is the device's own, with type
      and message freed of surrounding blanks, and with the event's time and payload if it has them.
      Otherwise the error is that of the first of the three fields that is wrong. */
  lemma BuildAlertExact(deviceId: Uuid, clientId: Uuid, req: IngestRequest, now: Time)
    ensures var built := BuildAlert(deviceId, clientId, req, now);
      && (built.Ok? <==> NamesSeverity(req.severity) && !Blank(req.alertType) && ByteLength(req.alertType) <= 100 && !Blank(req.message))
      && (built.Err? ==>
            built.error == (if !NamesSeverity(req.severity) then InvalidSeverity
                            else if Blank(req.alertType) || ByteLength(req.alertType) > 100 then InvalidType
                            else InvalidMessage))
      && (built.Ok? ==>
            var a := built.value;
            && a.deviceId == deviceId && a.clientId == clientId && a.severity == req.severity
            && a.alertType != "" && !IsSpace(a.alertType[0]) && a.alertType == TrimSpace(req.alertType)
            && a.message != "" && !IsSpace(a.message[0]) && a.message == TrimSpace(req.message)
            && (req.occurredAt.None? ==> a.occurredAt == now) && (req.occurredAt.Some? ==> Some(a.occurredAt) == req.occurredAt)
            && (req.payload.None? ==> a.payload == DevicePayload(map[]))
            && (req.payload.Some? ==> a.payload == DevicePayload(req.payload.value)))
  {
    TrimSpaceExact(req.alertType);
    TrimSpaceExact(req.message);
  }

  function BatchErrorCode(e: IngestError): string {
    match e
    case InvalidSeverity => "INVALID_SEVERITY"
    case InvalidType => "INVALID_TYPE"
    case InvalidMessage => "INVALID_MESSAGE"
    case _ => "INVALID_EVENT"
  }

  // ---------------------------------------------------------------- the shape of a batch

  datatype BatchAcceptedAlert = BatchAcceptedAlert(index: nat, alertId: UuidText)
  datatype BatchError = BatchError(index: nat, code: string)
  datatype BatchResponse = BatchResponse(accepted: nat, rejected: nat, alerts: seq<BatchAcceptedAlert>, errors: seq<BatchError>)

  type Built = seq<Result<Alert, IngestError>>

  function BuildAll(deviceId: Uuid, clientId: Uuid, events: seq<IngestRequest>, clock: seq<Time>): (r: Built)
    requires |clock| == |events|
    ensures |r| == |events|
    ensures forall i :: 0 <= i < |r| ==> r[i] == BuildAlert(deviceId, clientId, events[i], clock[i])
  {
    seq(|events|, i requires 0 <= i < |events| => BuildAlert(deviceId, clientId, events[i], clock[i]))
  }

  /** The positions of the events that were built, or of those that were not. */
  function Positions(built: Built, ok: bool): (r: seq<nat>)
    ensures |r| <= |built|
    ensures forall k :: 0 <= k < |r| ==> r[k] < |built| && built[r[k]].Ok? == ok
    ensures forall j, k :: 0 <= j < k < |r| ==> r[j] < r[k]
  {
    if built == [] then []
    else
      var n := |built| - 1;
      var front := Positions(built[..n], ok);
      if built[n].Ok? == ok then front + [n] else front
  }

  lemma {:induction false} PositionsCover(built: Built, i: nat)
    requires i < |built|
    ensures i in Positions(built, built[i].Ok?)
  {
    var n := |built| - 1;
    if i < n {
      PositionsCover(built[..n], i);
    }
  }

  lemma {:induction false} PositionsCount(built: Built)
    ensures |Positions(built, true)| + |Positions(built, false)| == |built|
  {
    if built != [] {
      PositionsCount(built[..|built| - 1]);
    }
  }

  /** Accepted and rejected positions together are all of `0..n`, each once. */
  lemma PositionsPartition(built: Built)
    ensures |Positions(built, true)| + |Positions(built, false)| == |built|
    ensures forall i :: 0 <= i < |built| ==> i in Positions(built, built[i].Ok?) && i !in Positions(built, !built[i].Ok?)
  {
    PositionsCount(built);
    forall i | 0 <= i < |built| ensures i in Positions(built, built[i].Ok?) {
      PositionsCover(built, i);
    }
  }

  function ValidAlerts(built: Built): (r: seq<Alert>)
    ensures |r| == |Positions(built, true)|
    ensures forall k :: 0 <= k < |r| ==> r[k] == built[Positions(built, true)[k]].value
  {
    var good := Positions(built, true);
    seq(|good|, k requires 0 <= k < |good| => built[good[k]].value)
  }

  /** The rows that a batch makes of its valid events. */
  function Rows(built: Built, newIds: seq<Uuid>): (r: seq<Alert>)
    requires |newIds| == |built|
    ensures |r| == |Positions(built, true)|
    ensures forall k :: 0 <= k < |r| ==> r[k] == built[Positions(built, true)[k]].value.(id := newIds[k])
  {
    BatchRows(ValidAlerts(built), newIds[..|ValidAlerts(built)|])
  }

  /** The table takes every row of the batch: all texts can be stored, and no id is in use or repeated. */
  ghost predicate TakesAll(before: seq<Alert>, built: Built, newIds: seq<Uuid>)
    requires |newIds| == |built|
  {
    NoneRefused(before, ValidAlerts(built), newIds[..|ValidAlerts(built)|])
  }

  function Announcements(rows: seq<Alert>): (r: seq<Notification>)
    ensures |r| == |rows|
    ensures forall k :: 0 <= k < |r| ==> r[k] == Notification(rows[k].clientId, rows[k].id)
  {
    seq(|rows|, k requires 0 <= k < |rows| => Notification(rows[k].clientId, rows[k].id))
  }

  /** The number of calls that work before the first that does not. */
  function FirstFailure(faults: seq<Fault>): (k: nat)
    ensures k <= |faults| && (k < |faults| ==> !faults[k].Healthy?)
    ensures forall i :: 0 <= i < k ==> faults[i].Healthy?
  {
    if faults == [] || !faults[0].Healthy? then 0 else 1 + FirstFailure(faults[1..])
  }

  /** How many announcements leave: those before the first failing call, and its own when only
      the reply to it was lost. */
  function SentCount(faults: seq<Fault>): (n: nat)
    ensures FirstFailure(faults) <= n <= |faults|
  {
    var k := FirstFailure(faults);
    if k < |faults| && faults[k].LostReply? then k + 1 else k
  }

  /** Each of these announcements names a stored row and the row's client. */
  ghost predicate OnlyStored(rows: seq<Alert>, sent: seq<Notification>) {
    forall x :: x in sent ==> exists a :: a in rows && a.id == x.alertId && a.clientId == x.clientId
  }

  lemma AnnouncedAreStored(before: seq<Alert>, rows: seq<Alert>, n: nat)
    requires n <= |rows|
    ensures OnlyStored(before + rows, Announcements(rows)[..n])
  {
    forall x | x in Announcements(rows)[..n]
      ensures exists a :: a in before + rows && a.id == x.alertId && a.clientId == x.clientId
    {
      var k :| 0 <= k < n && Announcements(rows)[k] == x;
      assert rows[k] in before + rows;
    }
  }

  // The rows of the table after an ingest call, and what the call announced.
  datatype Effect = Effect(rows: seq<Alert>, sent: seq<Notification>)

  /** An event is stored unless it is not valid, the request is lost or the table refuses the row;
      it is announced when the call has seen it stored, unless that request is lost. */
  function EventEffect(before: seq<Alert>, built: Result<Alert, IngestError>, newId: Uuid, createFault: Fault, notifyFault: Fault): Effect {
    if built.Err? || createFault.LostRequest? || InsertRow(before, built.value, newId).None? then Effect(before, [])
    else
      var row := built.value.(id := newId);
      Effect(before + [row],
             if createFault.Healthy? && !notifyFault.LostRequest? then [Notification(row.clientId, newId)] else [])
  }

  ghost predicate BatchStored(before: seq<Alert>, built: Built, newIds: seq<Uuid>, fault: Fault)
    requires |newIds| == |built|
  {
    !fault.LostRequest? && TakesAll(before, built, newIds)
  }

  // The call has seen its rows stored; without a valid event there are none to store.
  ghost predicate BatchSaved(before: seq<Alert>, built: Built, newIds: seq<Uuid>, fault: Fault)
    requires |newIds| == |built|
  {
    Rows(built, newIds) == [] || (BatchStored(before, built, newIds, fault) && fault.Healthy?)
  }

  /** A batch is stored as a whole or not at all, and its rows are announced in order, up to the
      first announcement that fails, once the call has seen them stored. */
  ghost function BatchEffect(before: seq<Alert>, built: Built, newIds: seq<Uuid>, createFault: Fault, notifyFaults: seq<Fault>): Effect
    requires |newIds| == |notifyFaults| == |built|
  {
    var rows := Rows(built, newIds);
    Effect(if BatchStored(before, built, newIds, createFault) then before + rows else before,
           if BatchSaved(before, built, newIds, createFault) then Announcements(rows)[..SentCount(notifyFaults[..|rows|])] else [])
  }

  /** What a batch leaves behind. It has seen its rows stored when it has none, or when the call
      worked and the table takes them all: then they are all there, and announced in order until an
      announcement fails. Otherwise it announces nothing, and the rows are there only when they
      were stored and the reply was lost. */
  lemma BatchEffectIs(before: seq<Alert>, built: Built, newIds: seq<Uuid>, createFault: Fault, notifyFaults: seq<Fault>)
    requires |newIds| == |notifyFaults| == |built|
    ensures var rows := Rows(built, newIds);
      var e := BatchEffect(before, built, newIds, createFault, notifyFaults);
      var k := FirstFailure(notifyFaults[..|rows|]);
      if rows == [] then BatchSaved(before, built, newIds, createFault) && e == Effect(before, [])
      else if createFault.Healthy? && TakesAll(before, built, newIds) then
        && BatchSaved(before, built, newIds, createFault)
        && e.rows == before + rows
        && e.sent == (if k == |rows| then Announcements(rows)
                      else if notifyFaults[k].LostReply? then Announcements(rows)[..k + 1]
                      else Announcements(rows)[..k])
      else
        && !BatchSaved(before, built, newIds, createFault)
        && e == Effect(if createFault.LostReply? && TakesAll(before, built, newIds) then before + rows else before, [])
  {
    var rows := Rows(built, newIds);
    assert before + [] == before;
    assert Announcements(rows)[..|rows|] == Announcements(rows);
  }

  ghost predicate ResponseFor(resp: BatchResponse, built: Built, rows: seq<Alert>)
    requires |rows| == |Positions(built, true)|
  {
    var (good, bad) := (Positions(built, true), Positions(built, false));
    && resp.accepted == |resp.alerts| == |good|
    && resp.rejected == |resp.errors| == |bad|
    && (forall k :: 0 <= k < |good| ==> resp.alerts[k] == BatchAcceptedAlert(good[k], UuidText(rows[k].id)))
    && (forall k :: 0 <= k < |bad| ==> resp.errors[k] == BatchError(bad[k], BatchErrorCode(built[bad[k]].error)))
  }

  class IngestService {
    const repo: AlertRepository
    const notifier: Notifier

    constructor (repo: AlertRepository, notifier: Notifier)
      ensures this.repo == repo && this.notifier == notifier
    {
      this.repo, this.notifier := repo, notifier;
    }

    method IngestEvent(deviceId: Uuid, clientId: Uuid, req: IngestRequest, now: Time, newId: Uuid,
                       createFault: Fault, notifyFault: Fault)
      returns (r: Result<UuidText, IngestError>)
      modifies repo, notifier
      ensures var built := BuildAlert(deviceId, clientId, req, now);
        var e := EventEffect(old(repo.rows), built, newId, createFault, notifyFault);
        && repo.rows == e.rows && notifier.sent == old(notifier.sent) + e.sent
        && r == (if built.Err? then Err(built.error)
                 else if !createFault.Healthy? || InsertRow(old(repo.rows), built.value, newId).None? then Err(StoreFailed)
                 else if !notifyFault.Healthy? then Err(NotificationFailed)
                 else Ok(UuidText(newId)))
      ensures r.Ok? ==>
                && repo.rows == old(repo.rows) + [BuildAlert(deviceId, clientId, req, now).value.(id := newId)]
                && notifier.sent == old(notifier.sent) + [Notification(clientId, newId)]
      ensures r == Err(NotificationFailed) ==>
                && repo.rows == old(repo.rows) + [BuildAlert(deviceId, clientId, req, now).value.(id := newId)]
                && notifier.sent == old(notifier.sent) + if notifyFault.LostReply? then [Notification(clientId, newId)] else []
      ensures r.Err? && r != Err(NotificationFailed) ==> notifier.sent == old(notifier.sent)
      ensures repo.rows != old(repo.rows) ==> r.Ok? || r == Err(NotificationFailed) || (r == Err(StoreFailed) && createFault.LostReply?)
      ensures r == Err(StoreFailed) && createFault.LostReply? ==>
                repo.rows == old(repo.rows) || repo.rows == old(repo.rows) + [BuildAlert(deviceId, clientId, req, now).value.(id := newId)]
      ensures OnlyStored(repo.rows, notifier.sent[|old(notifier.sent)|..])
      ensures old(UniqueIds(repo.rows)) ==> UniqueIds(repo.rows)
    {
      var built := BuildAlert(deviceId, clientId, req, now);
      if built.Err? {
        return Err(built.error);
      }
      var saved := repo.Create(built.value, newId, createFault);
      if saved.Err? {
        return Err(StoreFailed);
      }
      assert saved.value in repo.rows;
      var ok := notifier.NotifyAlertCreated(saved.value.clientId, saved.value.id, notifyFault);
      if !ok {
        return Err(NotificationFailed);
      }
      return Ok(UuidText(saved.value.id));
    }

    method IngestBatch(deviceId: Uuid, clientId: Uuid, events: seq<IngestRequest>, clock: seq<Time>,
                       newIds: seq<Uuid>, createFault: Fault, notifyFaults: seq<Fault>)
      returns (r: Result<BatchResponse, IngestError>)
      requires |clock| == |newIds| == |notifyFaults| == |events|
      modifies repo, notifier
      ensures |events| == 0 ==> r == Err(EmptyBatch)
      ensures |events| > 100 ==> r == Err(BatchTooLarge)
      ensures |events| == 0 || |events| > 100 ==>
                repo.rows == old(repo.rows) && notifier.sent == old(notifier.sent)
      ensures 0 < |events| <= 100 ==>
        var built := BuildAll(deviceId, clientId, events, clock);
        var rows := Rows(built, newIds);
        var e := BatchEffect(old(repo.rows), built, newIds, createFault, notifyFaults);
        && repo.rows == e.rows && notifier.sent == old(notifier.sent) + e.sent
        && (if !BatchSaved(old(repo.rows), built, newIds, createFault) then r == Err(StoreFailed)
            else if FirstFailure(notifyFaults[..|rows|]) < |rows| then r == Err(NotificationFailed)
            else r.Ok? && ResponseFor(r.value, built, rows))
      ensures OnlyStored(repo.rows, notifier.sent[|old(notifier.sent)|..])
      ensures old(UniqueIds(repo.rows)) ==> UniqueIds(repo.rows)
    {
      if |events| == 0 {
        return Err(EmptyBatch);
      }
      if |events| > BATCH_MAX_SIZE {
        return Err(BatchTooLarge);
      }
      ghost var built := BuildAll(deviceId, clientId, events, clock);
      ghost var rows := Rows(built, newIds);
      var valid, indexes, errors := Judge(deviceId, clientId, events, clock);
      assert valid == ValidAlerts(built);

      var created := repo.CreateBatch(valid, newIds[..|valid|], createFault);
      if created.Err? {
        return Err(StoreFailed);
      }
      var saved := created.value;
      assert saved == rows;
      AnnouncedAreStored(old(repo.rows), rows, SentCount(notifyFaults[..|rows|]));
      var ok, accepted := Announce(saved, indexes, notifyFaults[..|saved|]);
      if !ok {
        return Err(NotificationFailed);
      }
      return Ok(BatchResponse(|accepted|, |errors|, accepted, errors));
    }

    // The validation loop of IngestBatch.
    method Judge(deviceId: Uuid, clientId: Uuid, events: seq<IngestRequest>, clock: seq<Time>)
      returns (valid: seq<Alert>, indexes: seq<nat>, errors: seq<BatchError>)
      requires |clock| == |events|
      ensures Judged(BuildAll(deviceId, clientId, events, clock), valid, indexes, errors)
    {
      ghost var built := BuildAll(deviceId, clientId, events, clock);
      valid, indexes, errors := [], [], [];
      for i := 0 to |events|
        invariant Judged(built[..i], valid, indexes, errors)
      {
        var alert := BuildAlert(deviceId, clientId, events[i], clock[i]);
        JudgeNext(built[..i], alert, valid, indexes, errors);
        assert built[..i + 1] == built[..i] + [alert];
        if alert.Err? {
          errors := errors + [BatchError(i, BatchErrorCode(alert.error))];
        } else {
          valid := valid + [alert.value];
          indexes := indexes + [i];
        }
      }
      assert built[..|events|] == built;
    }

    // The notification loop of IngestBatch.
    method Announce(saved: seq<Alert>, indexes: seq<nat>, faults: seq<Fault>)
      returns (ok: bool, accepted: seq<BatchAcceptedAlert>)
      requires |saved| == |indexes| == |faults|
      modifies notifier
      ensures ok <==> FirstFailure(faults) == |saved|
      ensures notifier.sent == old(notifier.sent) + Announcements(saved)[..SentCount(faults)]
      ensures ok ==>
                && |accepted| == |saved|
                && (forall k :: 0 <= k < |saved| ==> accepted[k] == BatchAcceptedAlert(indexes[k], UuidText(saved[k].id)))
    {
      ghost var before := notifier.sent;
      accepted := [];
      for i := 0 to |saved|
        invariant |accepted| == i <= FirstFailure(faults)
        invariant forall k :: 0 <= k < i ==> accepted[k] == BatchAcceptedAlert(indexes[k], UuidText(saved[k].id))
        invariant notifier.sent == before + Announcements(saved)[..i]
      {
        var sent := notifier.NotifyAlertCreated(saved[i].clientId, saved[i].id, faults[i]);
        if !sent {
          return false, accepted;
        }
        accepted := accepted + [BatchAcceptedAlert(indexes[i], UuidText(saved[i].id))];
      }
      return true, accepted;
    }
  }

  ghost predicate Judged(built: Built, valid: seq<Alert>, indexes: seq<nat>, errors: seq<BatchError>) {
    var bad := Positions(built, false);
    && indexes == Positions(built, true)
    && |valid| == |indexes|
    && (forall k :: 0 <= k < |valid| ==> valid[k] == built[indexes[k]].value)
    && |errors| == |bad|
    && (forall k :: 0 <= k < |errors| ==> errors[k] == BatchError(bad[k], BatchErrorCode(built[bad[k]].error)))
  }

  lemma JudgeNext(front: Built, next: Result<Alert, IngestError>, valid: seq<Alert>, indexes: seq<nat>, errors: seq<BatchError>)
    requires Judged(front, valid, indexes, errors)
    ensures next.Ok? ==> Judged(front + [next], valid + [next.value], indexes + [|front|], errors)
    ensures next.Err? ==> Judged(front + [next], valid, indexes, errors + [BatchError(|front|, BatchErrorCode(next.error))])
  {
  }

  ghost predicate Lists(indexes: seq<nat>, i: nat) {
    exists k :: 0 <= k < |indexes| && indexes[k] == i
  }

  ghost predicate Increasing(indexes: seq<nat>) {
    forall j, k :: 0 <= j < k < |indexes| ==> indexes[j] < indexes[k]
  }

  function AcceptedIndexes(resp: BatchResponse): (r: seq<nat>)
    ensures |r| == |resp.alerts|
  {
    seq(|resp.alerts|, k requires 0 <= k < |resp.alerts| => resp.alerts[k].index)
  }

  function RejectedIndexes(resp: BatchResponse): (r: seq<nat>)
    ensures |r| == |resp.errors|
  {
    seq(|resp.errors|, k requires 0 <= k < |resp.errors| => resp.errors[k].index)
  }

  /** A response accounts for every event exactly once: the accepted and the rejected indexes
      are increasing, and each index is in the list its event belongs to and not in the other. */
  lemma BatchResponsePartitions(resp: BatchResponse, built: Built, rows: seq<Alert>)
    requires |rows| == |Positions(built, true)| && ResponseFor(resp, built, rows)
    ensures resp.accepted + resp.rejected == |built| && resp.accepted == |resp.alerts| && resp.rejected == |resp.errors|
    ensures |resp.alerts| == |rows| && forall k :: 0 <= k < |rows| ==> resp.alerts[k].alertId.id == rows[k].id
    ensures Increasing(AcceptedIndexes(resp)) && Increasing(RejectedIndexes(resp))
    ensures forall i :: 0 <= i < |built| ==>
              && (Lists(AcceptedIndexes(resp), i) <==> built[i].Ok?)
              && (Lists(RejectedIndexes(resp), i) <==> built[i].Err?)
  {
    PositionsPartition(built);
    assert AcceptedIndexes(resp) == Positions(built, true);
    assert RejectedIndexes(resp) == Positions(built, false);
    forall i | 0 <= i < |built|
      ensures Lists(Positions(built, true), i) <==> built[i].Ok?
      ensures Lists(Positions(built, false), i) <==> built[i].Err?
    {
      assert i in Positions(built, built[i].Ok?);
    }
  }

  /** A batch of valid events is stored exactly when no text in it holds a NUL character and all
      its generated ids are new: one event the database refuses keeps out the whole batch. */
  lemma TakesAllIff(before: seq<Alert>, built: Built, newIds: seq<Uuid>)
    requires |newIds| == |built| && UniqueIds(before)
    ensures TakesAll(before, built, newIds) <==>
            UniqueIds(before + Rows(built, newIds)) && forall a :: a in ValidAlerts(built) ==> Storable(a)
  {
    var valid := ValidAlerts(built);
    var ids := newIds[..|valid|];
    var rows := Rows(built, newIds);
    if TakesAll(before, built, newIds) {
      BatchKeepsUniqueIds(before, valid, ids);
      forall a | a in valid ensures Storable(a) {
        var i: nat :| i < |valid| && valid[i] == a;
        assert !Refused(before, valid, ids, i);
      }
    } else {
      var i: nat :| i < |valid| && Refused(before, valid, ids, i);
      var all := before + rows;
      assert all[|before| + i].id == ids[i];
      if FindRow(before, ids[i]).Some? {
        var k :| 0 <= k < |before| && before[k] == FindRow(before, ids[i]).value;
        assert all[k].id == ids[i];
      } else if ids[i] in ids[..i] {
        var k :| 0 <= k < i && ids[k] == ids[i];
        assert all[|before| + k].id == ids[k];
      }
    }
  }

  /** Each rejected event is answered with the code of the first of its fields that is wrong. */
  lemma RejectionCodes(resp: BatchResponse, built: Built, rows: seq<Alert>, deviceId: Uuid, clientId: Uuid,
                       events: seq<IngestRequest>, clock: seq<Time>, k: nat)
    requires |clock| == |events| && built == BuildAll(deviceId, clientId, events, clock)
    requires |rows| == |Positions(built, true)| && ResponseFor(resp, built, rows) && k < |resp.errors|
    ensures resp.errors[k].index < |events|
    ensures var event := events[resp.errors[k].index];
      resp.errors[k].code ==
        if !NamesSeverity(event.severity) then "INVALID_SEVERITY"
        else if Blank(event.alertType) || ByteLength(event.alertType) > 100 then "INVALID_TYPE"
        else "INVALID_MESSAGE"
  {
    var i := resp.errors[k].index;
    assert i == Positions(built, false)[k];
    BuildAlertExact(deviceId, clientId, events[i], clock[i]);
  }

  // One valid event with text the database cannot store is enough.
  lemma OneKeepsOutAll(before: seq<Alert>, built: Built, newIds: seq<Uuid>, i: nat)
    requires |newIds| == |built| && i < |built| && built[i].Ok? && !Storable(built[i].value)
    ensures !TakesAll(before, built, newIds)
  {
    var good, valid := Positions(built, true), ValidAlerts(built);
    PositionsCover(built, i);
    var k: nat :| k < |good| && good[k] == i;
    assert valid[k] == built[i].value;
    assert Refused(before, valid, newIds[..|valid|], k);
  }
}
