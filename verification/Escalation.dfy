/** The escalation handler: as the service writes it, and cut into the atomic steps between
    which handlers of other API instances may run. */
module Escalation {
  import opened Common
  import opened AlertStore
  import opened Cooldown

  datatype Config = Config(enabled: bool, threshold: int, window: int, cooldown: int)

  datatype Outcome = Disabled | SkippedMarker | BelowThreshold | CooldownActive | Emitted

  datatype HandlerError = LookupFailed | WindowFailed | ClaimFailed | InsertFailed | NotifyFailed

  type HandlerResult = Result<Outcome, HandlerError>

  datatype Notification = Notification(clientId: Uuid, alertId: Uuid)

  // `pg_notify` on the alert channel.
  class Notifier {
    var sent: seq<Notification>

    constructor ()
      ensures sent == []
    {
      sent := [];
    }

    method NotifyAlertCreated(clientId: Uuid, alertId: Uuid, fault: Fault) returns (ok: bool)
      modifies this
      ensures ok <==> fault.Healthy?
      ensures sent == if fault.LostRequest? then old(sent) else old(sent) + [Notification(clientId, alertId)]
    {
      if !fault.LostRequest? {
        sent := sent + [Notification(clientId, alertId)];
      }
      ok := fault.Healthy?;
    }
  }

  function Texts(ids: seq<Uuid>): (r: seq<UuidText>)
    ensures |r| == |ids| && forall i :: 0 <= i < |r| ==> r[i] == UuidText(ids[i])
  {
    seq(|ids|, i requires 0 <= i < |ids| => UuidText(ids[i]))
  }

  method StringifyUUIDs(ids: seq<Uuid>) returns (out: seq<UuidText>)
    ensures out == Texts(ids)
  {
    out := [];
    for i := 0 to |ids|
      invariant out == Texts(ids[..i])
    {
      out := out + [UuidText(ids[i])];
    }
    assert ids[..|ids|] == ids;
  }

  function BuildEscalation(cfg: Config, source: Alert, sourceIds: seq<Uuid>, now: Time): Alert {
    Alert(0, source.deviceId, source.clientId, TYPE_AUTO_ESCALATED, SEVERITY_CRITICAL,
          BURST_MESSAGE,
          EscalationPayload(Texts(sourceIds), |sourceIds|, Quotient(cfg.window, 1_000_000_000), cfg.threshold, now),
          now)
  }

  /** The row that an escalation stores, field by field. */
  lemma EscalationRowIs(cfg: Config, source: Alert, sourceIds: seq<Uuid>, now: Time)
    ensures var row := BuildEscalation(cfg, source, sourceIds, now);
      && row.deviceId == source.deviceId && row.clientId == source.clientId
      && row.alertType == "auto_escalated" && row.severity == "critical"
      && row.message == "Repeated alert burst auto-escalated"
      && row.occurredAt == now
      && row.payload.EscalationPayload?
      && |row.payload.sourceAlertIds| == |sourceIds| == row.payload.count
      && (forall i :: 0 <= i < |sourceIds| ==> row.payload.sourceAlertIds[i].id == sourceIds[i])
      && row.payload.threshold == cfg.threshold && row.payload.detectedAt == now
      && (cfg.window >= 0 ==> 0 <= cfg.window - row.payload.windowSeconds * 1_000_000_000 < 1_000_000_000)
      && (cfg.window <= 0 ==> -1_000_000_000 < cfg.window - row.payload.windowSeconds * 1_000_000_000 <= 0)
  {
    QuotientTruncates(cfg.window, 1_000_000_000);
  }

  lemma MessageIsStorable()
    ensures NulFree(BURST_MESSAGE)
  {
  }

  // The database has no reason but its key to refuse an escalation row.
  lemma EscalationIsStorable(cfg: Config, source: Alert, sourceIds: seq<Uuid>, now: Time)
    ensures Storable(BuildEscalation(cfg, source, sourceIds, now))
  {
    MessageIsStorable();
  }

  function KeyOf(source: Alert): CooldownKey {
    CooldownKey(source.deviceId, source.alertType)
  }

  // ---------------------------------------------------------------- atomic steps

  /** Where a handler call stands. `seen` is the length of the append-only table at the window
      read and `since` the cut-off used there; they record what was read, for the proofs. */
  datatype Handler =
    | AtLookup(alertId: Uuid)
    | AtWindow(source: Alert)
    | AtClaim(source: Alert, sourceIds: seq<Uuid>, seen: nat, since: Time)
    | AtInsert(source: Alert, sourceIds: seq<Uuid>, seen: nat, since: Time)
    | AtNotify(escalated: Alert)
    | Done(result: HandlerResult)

  datatype Store = Store(alerts: seq<Alert>, expires: Expiries)

  /** What one step meets: the health of its storage call, the clock of its own process, the
      clock of the cooldown store and the id the database generates. */
  datatype Conditions = Conditions(fault: Fault, appNow: Time, storeNow: Time, newId: Uuid)

  datatype Step = Step(store: Store, handler: Handler, sent: seq<Notification>)

  function Start(cfg: Config, alertId: Uuid): Handler {
    if cfg.enabled then AtLookup(alertId) else Done(Ok(Disabled))
  }

  function Advance(cfg: Config, st: Store, h: Handler, c: Conditions): Step {
    match h
    case Done(_) => Step(st, h, [])
    case AtLookup(alertId) =>
      var found := FindRow(st.alerts, alertId);
      if !c.fault.Healthy? || found.None? then Step(st, Done(Err(LookupFailed)), [])
      else if found.value.IsMarker() then Step(st, Done(Ok(SkippedMarker)), [])
      else Step(st, AtWindow(found.value), [])
    case AtWindow(source) =>
      if !c.fault.Healthy? then Step(st, Done(Err(WindowFailed)), [])
      else
        var since := c.appNow - cfg.window;
        var ids := WindowIds(st.alerts, source.deviceId, source.alertType, since);
        if |ids| < cfg.threshold then Step(st, Done(Ok(BelowThreshold)), [])
        else Step(st, AtClaim(source, ids, |st.alerts|, since), [])
    case AtClaim(source, ids, seen, since) =>
      if c.fault.LostRequest? then Step(st, Done(Err(ClaimFailed)), [])
      else if Cooling(st.expires, KeyOf(source), c.storeNow) then
        Step(st, Done(if c.fault.Healthy? then Ok(CooldownActive) else Err(ClaimFailed)), [])
      else
        Step(st.(expires := st.expires[KeyOf(source) := c.storeNow + cfg.cooldown]),
             if c.fault.Healthy? then AtInsert(source, ids, seen, since) else Done(Err(ClaimFailed)), [])
    case AtInsert(source, ids, seen, since) =>
      var row := BuildEscalation(cfg, source, ids, c.appNow);
      var rows := InsertRow(st.alerts, row, c.newId);
      if c.fault.LostRequest? || rows.None? then Step(st, Done(Err(InsertFailed)), [])
      else
        Step(st.(alerts := rows.value),
             if c.fault.Healthy? then AtNotify(row.(id := c.newId)) else Done(Err(InsertFailed)), [])
    case AtNotify(row) =>
      Step(st,
           Done(if c.fault.Healthy? then Ok(Emitted) else Err(NotifyFailed)),
           if c.fault.LostRequest? then [] else [Notification(row.clientId, row.id)])
  }

  /** The conditions each of the five storage calls of one handler run meets. */
  datatype Script = Script(lookup: Conditions, window: Conditions, claim: Conditions, insert: Conditions, notify: Conditions)

  function ConditionsFor(s: Script, h: Handler): Conditions {
    match h
    case AtLookup(_) => s.lookup
    case AtWindow(_) => s.window
    case AtClaim(_, _, _, _) => s.claim
    case AtInsert(_, _, _, _) => s.insert
    case _ => s.notify
  }

  function Rank(h: Handler): nat {
    match h
    case AtLookup(_) => 5
    case AtWindow(_) => 4
    case AtClaim(_, _, _, _) => 3
    case AtInsert(_, _, _, _) => 2
    case AtNotify(_) => 1
    case Done(_) => 0
  }

  /** A handler run to its end with no other handler in between; only its last step sends. */
  function Uninterrupted(cfg: Config, st: Store, h: Handler, s: Script): (r: Step)
    ensures r.handler.Done?
    decreases Rank(h)
  {
    var next := Advance(cfg, st, h, ConditionsFor(s, h));
    if next.handler.Done? then next else Uninterrupted(cfg, next.store, next.handler, s)
  }

  // ---------------------------------------------------------------- the run, stage by stage

  /** What a run that has come to `h` goes on to, or ends with. */
  ghost predicate GoesOn(cfg: Config, st: Store, h: Handler, s: Script, st': Store, h': Handler) {
    Uninterrupted(cfg, st, h, s) == if h'.Done? then Step(st', h', []) else Uninterrupted(cfg, st', h', s)
  }

  lemma LookupStage(cfg: Config, st: Store, alertId: Uuid, s: Script)
    ensures var found := FindRow(st.alerts, alertId);
      GoesOn(cfg, st, AtLookup(alertId), s, st,
        if !s.lookup.fault.Healthy? || found.None? then Done(Err(LookupFailed))
        else if found.value.IsMarker() then Done(Ok(SkippedMarker))
        else AtWindow(found.value))
  {
  }

  lemma WindowStage(cfg: Config, st: Store, source: Alert, s: Script)
    ensures var since := s.window.appNow - cfg.window;
      var ids := WindowIds(st.alerts, source.deviceId, source.alertType, since);
      GoesOn(cfg, st, AtWindow(source), s, st,
        if !s.window.fault.Healthy? then Done(Err(WindowFailed))
        else if |ids| < cfg.threshold then Done(Ok(BelowThreshold))
        else AtClaim(source, ids, |st.alerts|, since))
  {
  }

  lemma ClaimStage(cfg: Config, st: Store, h: Handler, s: Script)
    requires h.AtClaim?
    ensures var cooling := Cooling(st.expires, KeyOf(h.source), s.claim.storeNow);
      GoesOn(cfg, st, h, s,
        if s.claim.fault.LostRequest? || cooling then st
        else st.(expires := st.expires[KeyOf(h.source) := s.claim.storeNow + cfg.cooldown]),
        if !s.claim.fault.Healthy? then Done(Err(ClaimFailed))
        else if cooling then Done(Ok(CooldownActive))
        else AtInsert(h.source, h.sourceIds, h.seen, h.since))
  {
  }

  lemma InsertStage(cfg: Config, st: Store, h: Handler, s: Script)
    requires h.AtInsert?
    ensures var row := BuildEscalation(cfg, h.source, h.sourceIds, s.insert.appNow);
      var rows := InsertRow(st.alerts, row, s.insert.newId);
      GoesOn(cfg, st, h, s,
        if s.insert.fault.LostRequest? || rows.None? then st else st.(alerts := rows.value),
        if s.insert.fault.Healthy? && rows.Some? then AtNotify(row.(id := s.insert.newId)) else Done(Err(InsertFailed)))
  {
  }

  // ---------------------------------------------------------------- the service

  class EscalationService {
    const cfg: Config
    const alerts: AlertRepository
    const cooldown: MemoryCooldownStore
    const notifier: Notifier

    constructor (cfg: Config, alerts: AlertRepository, cooldown: MemoryCooldownStore, notifier: Notifier)
      ensures this.cfg == cfg && this.alerts == alerts && this.cooldown == cooldown && this.notifier == notifier
    {
      this.cfg, this.alerts, this.cooldown, this.notifier := cfg, alerts, cooldown, notifier;
    }

    method BuildRow(source: Alert, sourceIds: seq<Uuid>, now: Time) returns (row: Alert)
      ensures row == BuildEscalation(cfg, source, sourceIds, now)
    {
      var texts := StringifyUUIDs(sourceIds);
      var payload := EscalationPayload(texts, |sourceIds|, Quotient(cfg.window, 1_000_000_000), cfg.threshold, now);
      return Alert(0, source.deviceId, source.clientId, TYPE_AUTO_ESCALATED, SEVERITY_CRITICAL,
                   BURST_MESSAGE, payload, now);
    }

    /** The straight-line service call is the uninterrupted run of the atomic steps. */
    method HandleNewAlert(alertId: Uuid, s: Script) returns (r: HandlerResult)
      modifies alerts, cooldown, notifier
      ensures var end := Uninterrupted(cfg, Store(old(alerts.rows), old(cooldown.expires)), Start(cfg, alertId), s);
        && Store(alerts.rows, cooldown.expires) == end.store
        && Done(r) == end.handler
        && notifier.sent == old(notifier.sent) + end.sent
    {
      ghost var st := Store(alerts.rows, cooldown.expires);
      if !cfg.enabled {
        return Ok(Disabled);
      }
      LookupStage(cfg, st, alertId, s);
      var found := alerts.FindByID(alertId, s.lookup.fault);
      if found.Err? {
        return Err(LookupFailed);
      }
      var source := found.value;
      if source.IsMarker() {
        return Ok(SkippedMarker);
      }
      ghost var since := s.window.appNow - cfg.window;
      WindowStage(cfg, st, source, s);
      var listed := alerts.ListSameTypeIDsWithinWindow(
        source.deviceId, source.alertType, s.window.appNow - cfg.window, s.window.fault);
      if listed.Err? {
        return Err(WindowFailed);
      }
      if |listed.value| < cfg.threshold {
        return Ok(BelowThreshold);
      }
      r := Escalate(source, listed.value, |alerts.rows|, since, s);
    }

    // The second half of the call, from the cooldown claim on.
    method Escalate(source: Alert, sourceIds: seq<Uuid>, ghost seen: nat, ghost since: Time, s: Script) returns (r: HandlerResult)
      modifies alerts, cooldown, notifier
      ensures var st := Store(old(alerts.rows), old(cooldown.expires));
        var end := Uninterrupted(cfg, st, AtClaim(source, sourceIds, seen, since), s);
        && Store(alerts.rows, cooldown.expires) == end.store
        && Done(r) == end.handler
        && notifier.sent == old(notifier.sent) + end.sent
    {
      ClaimStage(cfg, Store(alerts.rows, cooldown.expires), AtClaim(source, sourceIds, seen, since), s);
      if s.claim.fault.LostRequest? {
        return Err(ClaimFailed);
      }
      var claimed := cooldown.ClaimEscalation(KeyOf(source), cfg.cooldown, s.claim.storeNow);
      if !s.claim.fault.Healthy? {
        return Err(ClaimFailed);
      }
      if !claimed {
        return Ok(CooldownActive);
      }
      InsertStage(cfg, Store(alerts.rows, cooldown.expires), AtInsert(source, sourceIds, seen, since), s);
      var row := BuildRow(source, sourceIds, s.insert.appNow);
      EscalationIsStorable(cfg, source, sourceIds, s.insert.appNow);
      var created := alerts.Create(row, s.insert.newId, s.insert.fault);
      if created.Err? {
        return Err(InsertFailed);
      }
      var escalated := created.value;
      var ok := notifier.NotifyAlertCreated(escalated.clientId, escalated.id, s.notify.fault);
      if !ok {
        return Err(NotifyFailed);
      }
      return Ok(Emitted);
    }
  }

  // ---------------------------------------------------------------- when a call emits

  predicate AllHealthy(s: Script) {
    && s.lookup.fault.Healthy? && s.window.fault.Healthy? && s.claim.fault.Healthy?
    && s.insert.fault.Healthy? && s.notify.fault.Healthy?
  }

  predicate Ends(end: Step, st: Store, r: HandlerResult) {
    end == Step(st, Done(r), [])
  }

  /** What a call does from its insertion on, whatever fails. */
  lemma FromInsert(cfg: Config, st: Store, h: Handler, s: Script)
    requires h.AtInsert?
    ensures var end := Uninterrupted(cfg, st, h, s);
      var row := BuildEscalation(cfg, h.source, h.sourceIds, s.insert.appNow).(id := s.insert.newId);
      var stored := st.(alerts := st.alerts + [row]);
      if s.insert.fault.LostRequest? || FindRow(st.alerts, s.insert.newId).Some? then Ends(end, st, Err(InsertFailed))
      else if s.insert.fault.LostReply? then Ends(end, stored, Err(InsertFailed))
      else
        && end.store == stored
        && end.handler == Done(if s.notify.fault.Healthy? then Ok(Emitted) else Err(NotifyFailed))
        && end.sent == if s.notify.fault.LostRequest? then [] else [Notification(h.source.clientId, s.insert.newId)]
  {
    EscalationIsStorable(cfg, h.source, h.sourceIds, s.insert.appNow);
    InsertStage(cfg, st, h, s);
  }

  /** What a call does from its claim on. The cooldown runs per device and type of the source. */
  lemma FromClaim(cfg: Config, st: Store, h: Handler, s: Script)
    requires h.AtClaim?
    ensures var end := Uninterrupted(cfg, st, h, s);
      var key := CooldownKey(h.source.deviceId, h.source.alertType);
      var claimed := st.(expires := st.expires[key := s.claim.storeNow + cfg.cooldown]);
      if s.claim.fault.LostRequest? then Ends(end, st, Err(ClaimFailed))
      else if Cooling(st.expires, key, s.claim.storeNow) then
        Ends(end, st, if s.claim.fault.Healthy? then Ok(CooldownActive) else Err(ClaimFailed))
      else if s.claim.fault.LostReply? then Ends(end, claimed, Err(ClaimFailed))
      else end == Uninterrupted(cfg, claimed, AtInsert(h.source, h.sourceIds, h.seen, h.since), s)
  {
    ClaimStage(cfg, st, h, s);
  }

  /** What a call does up to its claim: it leaves everything as it was unless it gets that far. */
  lemma UpToClaim(cfg: Config, st: Store, alertId: Uuid, s: Script)
    ensures var end := Uninterrupted(cfg, st, Start(cfg, alertId), s);
      var found := FindRow(st.alerts, alertId);
      if !cfg.enabled then Ends(end, st, Ok(Disabled))
      else if !s.lookup.fault.Healthy? || found.None? then Ends(end, st, Err(LookupFailed))
      else if found.value.alertType == "auto_escalated" then Ends(end, st, Ok(SkippedMarker))
      else if !s.window.fault.Healthy? then Ends(end, st, Err(WindowFailed))
      else
        var since := s.window.appNow - cfg.window;
        var ids := WindowIds(st.alerts, found.value.deviceId, found.value.alertType, since);
        if |ids| < cfg.threshold then Ends(end, st, Ok(BelowThreshold))
        else end == Uninterrupted(cfg, st, AtClaim(found.value, ids, |st.alerts|, since), s)
  {
    var found := FindRow(st.alerts, alertId);
    if cfg.enabled {
      LookupStage(cfg, st, alertId, s);
      if s.lookup.fault.Healthy? && found.Some? && !found.value.IsMarker() {
        WindowStage(cfg, st, found.value, s);
      }
    }
  }

  /** The five conditions for an escalation. */
  predicate Escalates(cfg: Config, st: Store, alertId: Uuid, s: Script) {
    var found := FindRow(st.alerts, alertId);
    && cfg.enabled && found.Some? && found.value.alertType != "auto_escalated"
    && |WindowRows(st.alerts, found.value.deviceId, found.value.alertType, s.window.appNow - cfg.window)| >= cfg.threshold
    && !Cooling(st.expires, CooldownKey(found.value.deviceId, found.value.alertType), s.claim.storeNow)
    && FindRow(st.alerts, s.insert.newId).None?
  }

  /** `end` appended one row to `st`, announced it to its client and reported so. */
  predicate EmittedOnly(end: Step, st: Store, row: Alert) {
    && end.handler == Done(Ok(Emitted))
    && end.store.alerts == st.alerts + [row]
    && end.sent == [Notification(row.clientId, row.id)]
  }

  predicate EmittedNothing(end: Step, st: Store) {
    end.handler != Done(Ok(Emitted)) && end.store.alerts == st.alerts && end.sent == []
  }

  lemma HealthyFromClaim(cfg: Config, st: Store, h: Handler, s: Script)
    requires AllHealthy(s) && h.AtClaim?
    ensures var end := Uninterrupted(cfg, st, h, s);
      if && !Cooling(st.expires, CooldownKey(h.source.deviceId, h.source.alertType), s.claim.storeNow)
         && FindRow(st.alerts, s.insert.newId).None?
      then EmittedOnly(end, st, BuildEscalation(cfg, h.source, h.sourceIds, s.insert.appNow).(id := s.insert.newId))
      else EmittedNothing(end, st)
  {
    FromClaim(cfg, st, h, s);
    var key := CooldownKey(h.source.deviceId, h.source.alertType);
    if !Cooling(st.expires, key, s.claim.storeNow) {
      var claimed := st.(expires := st.expires[key := s.claim.storeNow + cfg.cooldown]);
      FromInsert(cfg, claimed, AtInsert(h.source, h.sourceIds, h.seen, h.since), s);
    }
  }

  // The ids found, and what follows from them.
  lemma HealthyFromSource(cfg: Config, st: Store, alertId: Uuid, source: Alert, ids: seq<Uuid>, s: Script)
    requires AllHealthy(s) && cfg.enabled && FindRow(st.alerts, alertId) == Some(source) && source.alertType != "auto_escalated"
    requires ids == WindowIds(st.alerts, source.deviceId, source.alertType, s.window.appNow - cfg.window)
    ensures var end := Uninterrupted(cfg, st, Start(cfg, alertId), s);
      if && |ids| >= cfg.threshold
         && !Cooling(st.expires, CooldownKey(source.deviceId, source.alertType), s.claim.storeNow)
         && FindRow(st.alerts, s.insert.newId).None?
      then EmittedOnly(end, st, BuildEscalation(cfg, source, ids, s.insert.appNow).(id := s.insert.newId))
      else EmittedNothing(end, st)
  {
    UpToClaim(cfg, st, alertId, s);
    if |ids| >= cfg.threshold {
      HealthyFromClaim(cfg, st, AtClaim(source, ids, |st.alerts|, s.window.appNow - cfg.window), s);
    }
  }

  /** A call whose storage calls all work emits exactly when escalation is on, the alert is
      stored and ordinary, its window has reached the threshold, no cooldown is running for its
      device and type, and the generated id is new; it then appends the one escalation row and
      announces it. Otherwise it appends and announces nothing. */
  lemma EmitsExactlyWhen(cfg: Config, st: Store, alertId: Uuid, s: Script)
    requires AllHealthy(s)
    ensures var end := Uninterrupted(cfg, st, Start(cfg, alertId), s);
      if Escalates(cfg, st, alertId, s) then
        var source := FindRow(st.alerts, alertId).value;
        var ids := WindowIds(st.alerts, source.deviceId, source.alertType, s.window.appNow - cfg.window);
        EmittedOnly(end, st, BuildEscalation(cfg, source, ids, s.insert.appNow).(id := s.insert.newId))
      else EmittedNothing(end, st)
  {
    var found := FindRow(st.alerts, alertId);
    if cfg.enabled && found.Some? && found.value.alertType != "auto_escalated" {
      var source := found.value;
      var ids := WindowIds(st.alerts, source.deviceId, source.alertType, s.window.appNow - cfg.window);
      HealthyFromSource(cfg, st, alertId, source, ids, s);
    } else {
      UpToClaim(cfg, st, alertId, s);
    }
  }
}
