/** The alert pipeline as one transition system: devices ingest, rows are announced to every API
    instance, and the instances' escalation handlers interleave, fail and crash at any step. */
module Pipeline {
  import opened Common
  import opened AlertStore
  import opened Cooldown
  import opened Escalation
  import Ingest

  // A granted cooldown claim, by the clock of the cooldown store.
  datatype Claim = Claim(key: CooldownKey, at: Time)

  // An escalation row that was stored, what it was computed from, and the claim it is charged to.
  datatype Emission = Emission(row: Alert, source: Alert, sourceIds: seq<Uuid>, seen: nat, since: Time, claim: nat)

  /** `claims` and `emissions` are the history of the run, and `charges[i]` is the claim under
      which instance `i` is inserting; no step reads them. */
  datatype World = World(
    owner: map<Uuid, Uuid>,
    store: Store,
    clock: Time,
    awaiting: set<Uuid>,
    queues: seq<seq<Notification>>,
    handlers: seq<Handler>,
    charges: seq<nat>,
    claims: seq<Claim>,
    emissions: seq<Emission>)

  datatype Event =
    | AddDevice(deviceId: Uuid, clientId: Uuid)
    | Tick(now: Time)
    | StoreAlert(sender: Uuid, req: Ingest.IngestRequest, received: Time, newId: Uuid)
    | AnnounceAlert(alertId: Uuid)
    | FailToAnnounce(alertId: Uuid)
    | Deliver(instance: nat)
    | StepHandler(instance: nat, conditions: Conditions)
    | LoseNotifications(instance: nat)
    | Crash(instance: nat)

  function Initial(instances: nat, now: Time): World {
    World(map[], Store([], map[]), now, {},
          seq(instances, _ => []), seq(instances, _ => Done(Ok(Disabled))), seq(instances, _ => 0), [], [])
  }

  // PostgreSQL hands a NOTIFY to every listening connection.
  function Broadcast(queues: seq<seq<Notification>>, sent: seq<Notification>): (r: seq<seq<Notification>>)
    ensures |r| == |queues| && forall k :: 0 <= k < |r| ==> r[k] == queues[k] + sent
  {
    seq(|queues|, k requires 0 <= k < |queues| => queues[k] + sent)
  }

  ghost predicate Shape(w: World) {
    |w.queues| == |w.handlers| == |w.charges|
  }

  function Apply(cfg: Config, w: World, e: Event): (w': World)
    requires Shape(w)
    ensures Shape(w') && |w'.handlers| == |w.handlers|
  {
    match e
    case AddDevice(d, c) => if d in w.owner then w else w.(owner := w.owner[d := c])
    case Tick(now) => if w.clock <= now then w.(clock := now) else w
    case StoreAlert(d, req, received, newId) => ApplyStore(w, d, req, received, newId)
    case AnnounceAlert(id) =>
      var found := FindRow(w.store.alerts, id);
      if id in w.awaiting && found.Some? then
        w.(awaiting := w.awaiting - {id},
           queues := Broadcast(w.queues, [Notification(found.value.clientId, id)]))
      else w
    case FailToAnnounce(id) => w.(awaiting := w.awaiting - {id})
    case Deliver(i) =>
      if Delivers(w, i) then
        w.(queues := w.queues[i := w.queues[i][1..]], handlers := w.handlers[i := Start(cfg, w.queues[i][0].alertId)])
      else w
    case StepHandler(i, c) => if i < |w.handlers| then ApplyStep(cfg, w, i, c) else w
    case LoseNotifications(i) => if i < |w.queues| then w.(queues := w.queues[i := []]) else w
    case Crash(i) =>
      if i < |w.handlers| then
        w.(queues := w.queues[i := []], handlers := w.handlers[i := Done(Ok(Disabled))])
      else w
  }

  // A listener handles its notifications one at a time.
  predicate Delivers(w: World, i: nat)
    requires |w.queues| == |w.handlers|
  {
    i < |w.handlers| && w.handlers[i].Done? && w.queues[i] != []
  }

  /** A device authenticates; its owner and id go into the row it ingests, if the table takes it. */
  function ApplyStore(w: World, d: Uuid, req: Ingest.IngestRequest, received: Time, newId: Uuid): World {
    if d !in w.owner then w
    else
      var built := Ingest.BuildAlert(d, w.owner[d], req, received);
      if built.Err? then w
      else
        var rows := InsertRow(w.store.alerts, built.value, newId);
        if rows.None? then w
        else w.(store := w.store.(alerts := rows.value), awaiting := w.awaiting + {newId})
  }

  function StepOf(cfg: Config, w: World, i: nat, c: Conditions): Step
    requires i < |w.handlers|
  {
    Advance(cfg, w.store, w.handlers[i], c.(storeNow := w.clock))
  }

  function ApplyStep(cfg: Config, w: World, i: nat, c: Conditions): World
    requires Shape(w) && i < |w.handlers|
  {
    var h := w.handlers[i];
    var step := StepOf(cfg, w, i, c);
    var claimed := h.AtClaim? && step.handler.AtInsert?;
    var inserted := h.AtInsert? && |step.store.alerts| > |w.store.alerts|;
    w.(store := step.store,
       handlers := w.handlers[i := step.handler],
       queues := Broadcast(w.queues, step.sent),
       claims := if claimed then w.claims + [Claim(KeyOf(h.source), w.clock)] else w.claims,
       charges := if claimed then w.charges[i := |w.claims|] else w.charges,
       emissions :=
         if inserted then
           w.emissions + [Emission(step.store.alerts[|w.store.alerts|], h.source, h.sourceIds, h.seen, h.since, w.charges[i])]
         else w.emissions)
  }

  function Run(cfg: Config, w: World, es: seq<Event>): (w': World)
    requires Shape(w)
    ensures Shape(w') && |w'.handlers| == |w.handlers|
  {
    if es == [] then w else Apply(cfg, Run(cfg, w, es[..|es| - 1]), es[|es| - 1])
  }

  lemma RunNext(cfg: Config, w: World, es: seq<Event>, e: Event)
    requires Shape(w)
    ensures Run(cfg, w, es + [e]) == Apply(cfg, Run(cfg, w, es), e)
  {
    assert (es + [e])[..|es|] == es;
  }

  lemma {:induction false} RunJoined(cfg: Config, w: World, es: seq<Event>, es': seq<Event>)
    requires Shape(w)
    ensures Run(cfg, w, es + es') == Run(cfg, Run(cfg, w, es), es')
  {
    if es' == [] {
      assert es + [] == es;
    } else {
      var front := es'[..|es'| - 1];
      RunJoined(cfg, w, es, front);
      assert es + es' == es + front + [es'[|front|]];
      RunNext(cfg, w, es + front, es'[|front|]);
    }
  }

  // ================================================================ the invariant

  /** Every row belongs to the owner of its device. */
  ghost predicate Owned(owner: map<Uuid, Uuid>, rows: seq<Alert>) {
    && UniqueIds(rows)
    && forall a :: a in rows ==> a.deviceId in owner && a.clientId == owner[a.deviceId]
  }

  /** A notification names a stored row and that row's client. */
  predicate Announces(rows: seq<Alert>, x: Notification) {
    FindRow(rows, x.alertId).Some? && FindRow(rows, x.alertId).value.clientId == x.clientId
  }

  ghost predicate Known(rows: seq<Alert>, queues: seq<seq<Notification>>) {
    forall k, x :: 0 <= k < |queues| && x in queues[k] ==> Announces(rows, x)
  }

  /** `ids` is what the window query returned on the first `seen` rows of the table. */
  ghost predicate Recorded(cfg: Config, rows: seq<Alert>, source: Alert, ids: seq<Uuid>, seen: nat, since: Time) {
    && !source.IsMarker()
    && seen <= |rows| && source in rows[..seen]
    && ids == WindowIds(rows[..seen], source.deviceId, source.alertType, since)
    && |ids| >= cfg.threshold
  }

  ghost predicate HandlerOk(cfg: Config, rows: seq<Alert>, h: Handler) {
    match h
    case AtWindow(source) => source in rows && !source.IsMarker()
    case AtClaim(source, ids, seen, since) => Recorded(cfg, rows, source, ids, seen, since)
    case AtInsert(source, ids, seen, since) => Recorded(cfg, rows, source, ids, seen, since)
    case AtNotify(row) => row in rows && row.IsMarker()
    case _ => true
  }

  ghost predicate HandlersOk(cfg: Config, rows: seq<Alert>, handlers: seq<Handler>) {
    forall i :: 0 <= i < |handlers| ==> HandlerOk(cfg, rows, handlers[i])
  }

  /** Claims on one key are a cooldown apart, and the store remembers the latest. */
  ghost predicate ClaimsOk(cfg: Config, start: Time, clock: Time, expires: Expiries, claims: seq<Claim>) {
    && (forall a, b :: 0 <= a < b < |claims| && claims[a].key == claims[b].key ==>
          claims[a].at + cfg.cooldown <= claims[b].at)
    && (forall a :: 0 <= a < |claims| ==>
          && claims[a].key in expires
          && claims[a].at + cfg.cooldown <= expires[claims[a].key]
          && start <= claims[a].at <= clock)
    && start <= clock
  }

  ghost predicate Charged(emissions: seq<Emission>, claim: nat) {
    exists e :: 0 <= e < |emissions| && emissions[e].claim == claim
  }

  /** An inserting instance holds a claim of its own that no stored row was charged to. */
  ghost predicate ChargesOk(handlers: seq<Handler>, charges: seq<nat>, claims: seq<Claim>, emissions: seq<Emission>)
    requires |handlers| == |charges|
  {
    && (forall i :: 0 <= i < |handlers| && handlers[i].AtInsert? ==>
          && charges[i] < |claims|
          && claims[charges[i]].key == KeyOf(handlers[i].source)
          && !Charged(emissions, charges[i]))
    && (forall i, j :: 0 <= i < j < |handlers| && handlers[i].AtInsert? && handlers[j].AtInsert? ==>
          charges[i] != charges[j])
  }

  /** A logged row is in the table and is what its inserter computed, under a claim on its key. */
  ghost predicate EmissionOk(cfg: Config, rows: seq<Alert>, claims: seq<Claim>, x: Emission) {
    && x.claim < |claims|
    && claims[x.claim].key == KeyOf(x.source)
    && x.row in rows
    && x.row == BuildEscalation(cfg, x.source, x.sourceIds, x.row.occurredAt).(id := x.row.id)
    && Recorded(cfg, rows, x.source, x.sourceIds, x.seen, x.since)
  }

  ghost predicate Logged(emissions: seq<Emission>, row: Alert) {
    exists e :: 0 <= e < |emissions| && emissions[e].row == row
  }

  ghost predicate EmissionsOk(cfg: Config, rows: seq<Alert>, claims: seq<Claim>, emissions: seq<Emission>) {
    forall e :: 0 <= e < |emissions| ==> EmissionOk(cfg, rows, claims, emissions[e])
  }

  /** The log holds each stored escalation row once, each under its own claim. */
  ghost predicate LogOk(rows: seq<Alert>, emissions: seq<Emission>) {
    && (forall e, f :: 0 <= e < f < |emissions| ==>
          emissions[e].claim != emissions[f].claim && emissions[e].row.id != emissions[f].row.id)
    && (forall a :: a in rows && a.payload.EscalationPayload? ==> Logged(emissions, a))
  }

  ghost predicate Inv(cfg: Config, start: Time, w: World) {
    && Shape(w)
    && Owned(w.owner, w.store.alerts)
    && Known(w.store.alerts, w.queues)
    && HandlersOk(cfg, w.store.alerts, w.handlers)
    && ClaimsOk(cfg, start, w.clock, w.store.expires, w.claims)
    && ChargesOk(w.handlers, w.charges, w.claims, w.emissions)
    && EmissionsOk(cfg, w.store.alerts, w.claims, w.emissions)
    && LogOk(w.store.alerts, w.emissions)
  }

  // ================================================================ appending a row

  lemma {:induction false} FindRowAfterAppend(rows: seq<Alert>, a: Alert, id: Uuid)
    ensures FindRow(rows + [a], id) ==
            if FindRow(rows, id).Some? then FindRow(rows, id) else if a.id == id then Some(a) else None
  {
    if rows != [] {
      assert (rows + [a])[1..] == rows[1..] + [a];
      FindRowAfterAppend(rows[1..], a, id);
    }
  }

  lemma RecordsSurviveAppend(cfg: Config, rows: seq<Alert>, a: Alert, source: Alert, ids: seq<Uuid>, seen: nat, since: Time)
    requires Recorded(cfg, rows, source, ids, seen, since)
    ensures Recorded(cfg, rows + [a], source, ids, seen, since)
  {
    assert (rows + [a])[..seen] == rows[..seen];
  }

  /** What readers of the append-only table recorded stays true when a row is appended. */
  lemma AppendKeeps(cfg: Config, w: World, a: Alert)
    requires Owned(w.owner, w.store.alerts) && Known(w.store.alerts, w.queues)
    requires HandlersOk(cfg, w.store.alerts, w.handlers)
    requires EmissionsOk(cfg, w.store.alerts, w.claims, w.emissions)
    requires FindRow(w.store.alerts, a.id).None?
    requires a.deviceId in w.owner && a.clientId == w.owner[a.deviceId]
    ensures var rows' := w.store.alerts + [a];
      && Owned(w.owner, rows') && Known(rows', w.queues)
      && HandlersOk(cfg, rows', w.handlers) && EmissionsOk(cfg, rows', w.claims, w.emissions)
  {
    var rows := w.store.alerts;
    forall k, x | 0 <= k < |w.queues| && x in w.queues[k] ensures Announces(rows + [a], x) {
      assert Announces(rows, x);
      FindRowAfterAppend(rows, a, x.alertId);
    }
    forall i | 0 <= i < |w.handlers| ensures HandlerOk(cfg, rows + [a], w.handlers[i]) {
      var h := w.handlers[i];
      assert HandlerOk(cfg, rows, h);
      if h.AtClaim? || h.AtInsert? {
        RecordsSurviveAppend(cfg, rows, a, h.source, h.sourceIds, h.seen, h.since);
      }
    }
    forall e | 0 <= e < |w.emissions| ensures EmissionOk(cfg, rows + [a], w.claims, w.emissions[e]) {
      var x := w.emissions[e];
      assert EmissionOk(cfg, rows, w.claims, x);
      RecordsSurviveAppend(cfg, rows, a, x.source, x.sourceIds, x.seen, x.since);
    }
  }

  lemma StoreAlertKeepsInv(cfg: Config, start: Time, w: World, d: Uuid, req: Ingest.IngestRequest, received: Time, newId: Uuid)
    requires Inv(cfg, start, w)
    ensures Inv(cfg, start, ApplyStore(w, d, req, received, newId))
  {
    var w' := ApplyStore(w, d, req, received, newId);
    if w' != w {
      AppendKeeps(cfg, w, w'.store.alerts[|w.store.alerts|]);
    }
  }

  // ================================================================ the steps of a handler

  lemma BroadcastNothing(queues: seq<seq<Notification>>)
    ensures Broadcast(queues, []) == queues
  {
    assert forall k :: 0 <= k < |queues| ==> Broadcast(queues, [])[k] == queues[k];
  }

  // Moving one handler to a stage that inserts nothing.
  lemma MoveKeeps(cfg: Config, w: World, i: nat, h: Handler)
    requires Shape(w) && i < |w.handlers| && !h.AtInsert?
    requires HandlersOk(cfg, w.store.alerts, w.handlers) && HandlerOk(cfg, w.store.alerts, h)
    requires ChargesOk(w.handlers, w.charges, w.claims, w.emissions)
    ensures HandlersOk(cfg, w.store.alerts, w.handlers[i := h])
    ensures ChargesOk(w.handlers[i := h], w.charges, w.claims, w.emissions)
  {
  }

  lemma ReadStep(cfg: Config, st: Store, h: Handler, c: Conditions)
    requires h.AtLookup? || h.AtWindow? || h.Done?
    requires HandlerOk(cfg, st.alerts, h)
    ensures var step := Advance(cfg, st, h, c);
      && step == Step(st, step.handler, [])
      && !step.handler.AtInsert? && HandlerOk(cfg, st.alerts, step.handler)
  {
    assert st.alerts[..|st.alerts|] == st.alerts;
  }

  // Steps that only read: the lookup, the window query, and a stutter of an idle handler.
  lemma ReadKeepsInv(cfg: Config, start: Time, w: World, i: nat, c: Conditions)
    requires Inv(cfg, start, w) && i < |w.handlers|
    requires w.handlers[i].AtLookup? || w.handlers[i].AtWindow? || w.handlers[i].Done?
    ensures Inv(cfg, start, ApplyStep(cfg, w, i, c))
  {
    var step := StepOf(cfg, w, i, c);
    BroadcastNothing(w.queues);
    assert HandlerOk(cfg, w.store.alerts, w.handlers[i]);
    ReadStep(cfg, w.store, w.handlers[i], c.(storeNow := w.clock));
    MoveKeeps(cfg, w, i, step.handler);
    assert ApplyStep(cfg, w, i, c) == w.(handlers := w.handlers[i := step.handler]);
  }

  // A key that is not cooling was last claimed at least one cooldown ago.
  lemma GrantKeepsClaims(cfg: Config, start: Time, clock: Time, expires: Expiries, claims: seq<Claim>, key: CooldownKey)
    requires cfg.cooldown > 0 && ClaimsOk(cfg, start, clock, expires, claims)
    requires !Cooling(expires, key, clock)
    ensures ClaimsOk(cfg, start, clock, expires[key := clock + cfg.cooldown], claims)
    ensures ClaimsOk(cfg, start, clock, expires[key := clock + cfg.cooldown], claims + [Claim(key, clock)])
  {
  }

  // The winner of a claim goes on to insert under it; a logged claim disturbs no other charge.
  lemma EnterKeeps(cfg: Config, w: World, i: nat)
    requires Shape(w) && i < |w.handlers| && w.handlers[i].AtClaim?
    requires HandlersOk(cfg, w.store.alerts, w.handlers)
    requires ChargesOk(w.handlers, w.charges, w.claims, w.emissions)
    requires EmissionsOk(cfg, w.store.alerts, w.claims, w.emissions)
    ensures var h := w.handlers[i];
      var handlers' := w.handlers[i := AtInsert(h.source, h.sourceIds, h.seen, h.since)];
      var claims' := w.claims + [Claim(KeyOf(h.source), w.clock)];
      && HandlersOk(cfg, w.store.alerts, handlers')
      && ChargesOk(handlers', w.charges[i := |w.claims|], claims', w.emissions)
      && EmissionsOk(cfg, w.store.alerts, claims', w.emissions)
  {
  }

  lemma ClaimKeepsInv(cfg: Config, start: Time, w: World, i: nat, c: Conditions)
    requires cfg.cooldown > 0
    requires Inv(cfg, start, w) && i < |w.handlers| && w.handlers[i].AtClaim?
    ensures Inv(cfg, start, ApplyStep(cfg, w, i, c))
  {
    var h, step := w.handlers[i], StepOf(cfg, w, i, c);
    var key := KeyOf(h.source);
    BroadcastNothing(w.queues);
    if step.store == w.store {
      MoveKeeps(cfg, w, i, step.handler);
      assert ApplyStep(cfg, w, i, c) == w.(handlers := w.handlers[i := step.handler]);
    } else {
      GrantKeepsClaims(cfg, start, w.clock, w.store.expires, w.claims, key);
      var granted := w.(store := w.store.(expires := w.store.expires[key := w.clock + cfg.cooldown]));
      if step.handler.AtInsert? {
        EnterKeeps(cfg, w, i);
        assert ApplyStep(cfg, w, i, c) ==
               granted.(handlers := w.handlers[i := AtInsert(h.source, h.sourceIds, h.seen, h.since)],
                        charges := w.charges[i := |w.claims|], claims := w.claims + [Claim(key, w.clock)]);
      } else {
        MoveKeeps(cfg, w, i, step.handler);
        assert ApplyStep(cfg, w, i, c) == granted.(handlers := w.handlers[i := step.handler]);
      }
    }
  }

  // The row is charged to the claim of its inserter, which holds it no longer.
  lemma EmitKeepsCharges(w: World, i: nat, h': Handler, x: Emission)
    requires Shape(w) && ChargesOk(w.handlers, w.charges, w.claims, w.emissions)
    requires i < |w.handlers| && w.handlers[i].AtInsert? && !h'.AtInsert? && x.claim == w.charges[i]
    ensures ChargesOk(w.handlers[i := h'], w.charges, w.claims, w.emissions + [x])
  {
  }

  lemma EmitKeepsLog(cfg: Config, rows: seq<Alert>, claims: seq<Claim>, emissions: seq<Emission>, x: Emission)
    requires LogOk(rows, emissions) && EmissionsOk(cfg, rows, claims, emissions)
    requires FindRow(rows, x.row.id).None? && !Charged(emissions, x.claim)
    ensures LogOk(rows + [x.row], emissions + [x])
  {
    var emissions' := emissions + [x];
    forall e | 0 <= e < |emissions| ensures emissions[e].claim != x.claim && emissions[e].row.id != x.row.id {
      assert EmissionOk(cfg, rows, claims, emissions[e]);
    }
    forall a | a in rows + [x.row] && a.payload.EscalationPayload? ensures Logged(emissions', a) {
      if a == x.row {
        assert emissions'[|emissions|].row == a;
      } else {
        assert Logged(emissions, a);
        var e :| 0 <= e < |emissions| && emissions[e].row == a;
        assert emissions'[e].row == a;
      }
    }
  }

  // What an insertion does to the world: one row and its record, or a move of the handler only.
  lemma InsertStep(cfg: Config, w: World, i: nat, c: Conditions)
    requires Shape(w) && i < |w.handlers| && w.handlers[i].AtInsert?
    ensures var h := w.handlers[i];
      var row := BuildEscalation(cfg, h.source, h.sourceIds, c.appNow).(id := c.newId);
      var step := StepOf(cfg, w, i, c);
      && !step.handler.AtInsert?
      && if step.store.alerts == w.store.alerts then
           ApplyStep(cfg, w, i, c) == w.(handlers := w.handlers[i := step.handler]) && step.handler.Done?
         else
           && ApplyStep(cfg, w, i, c) ==
              w.(store := w.store.(alerts := w.store.alerts + [row]), handlers := w.handlers[i := step.handler],
                 emissions := w.emissions + [Emission(row, h.source, h.sourceIds, h.seen, h.since, w.charges[i])])
           && FindRow(w.store.alerts, c.newId).None?
           && (step.handler.Done? || step.handler == AtNotify(row))
  {
    BroadcastNothing(w.queues);
  }

  lemma EmissionIsOk(cfg: Config, rows: seq<Alert>, claims: seq<Claim>, h: Handler, row: Alert, now: Time, claim: nat)
    requires h.AtInsert? && HandlerOk(cfg, rows, h)
    requires row == BuildEscalation(cfg, h.source, h.sourceIds, now).(id := row.id)
    requires claim < |claims| && claims[claim].key == KeyOf(h.source)
    ensures EmissionOk(cfg, rows + [row], claims, Emission(row, h.source, h.sourceIds, h.seen, h.since, claim))
  {
    RecordsSurviveAppend(cfg, rows, row, h.source, h.sourceIds, h.seen, h.since);
  }

  lemma InsertKeepsInv(cfg: Config, start: Time, w: World, i: nat, c: Conditions)
    requires Inv(cfg, start, w) && i < |w.handlers| && w.handlers[i].AtInsert?
    ensures Inv(cfg, start, ApplyStep(cfg, w, i, c))
  {
    var h, rows := w.handlers[i], w.store.alerts;
    var h' := StepOf(cfg, w, i, c).handler;
    InsertStep(cfg, w, i, c);
    if StepOf(cfg, w, i, c).store.alerts == rows {
      MoveKeeps(cfg, w, i, h');
    } else {
      var row := BuildEscalation(cfg, h.source, h.sourceIds, c.appNow).(id := c.newId);
      var x := Emission(row, h.source, h.sourceIds, h.seen, h.since, w.charges[i]);
      assert HandlerOk(cfg, rows, h);
      assert h.source in rows;
      AppendKeeps(cfg, w, row);
      EmitKeepsCharges(w, i, h', x);
      EmitKeepsLog(cfg, rows, w.claims, w.emissions, x);
      EmissionIsOk(cfg, rows, w.claims, h, row, c.appNow, w.charges[i]);
    }
  }

  lemma NotifyKeepsInv(cfg: Config, start: Time, w: World, i: nat, c: Conditions)
    requires Inv(cfg, start, w) && i < |w.handlers| && w.handlers[i].AtNotify?
    ensures Inv(cfg, start, ApplyStep(cfg, w, i, c))
  {
    var step := StepOf(cfg, w, i, c);
    assert HandlerOk(cfg, w.store.alerts, w.handlers[i]);
    FindsUnique(w.store.alerts, w.handlers[i].escalated);
    assert forall x :: x in step.sent ==> Announces(w.store.alerts, x);
    MoveKeeps(cfg, w, i, step.handler);
    assert ApplyStep(cfg, w, i, c) ==
           w.(handlers := w.handlers[i := step.handler], queues := Broadcast(w.queues, step.sent));
  }

  lemma StepKeepsInv(cfg: Config, start: Time, w: World, i: nat, c: Conditions)
    requires cfg.cooldown > 0 && Inv(cfg, start, w) && i < |w.handlers|
    ensures Inv(cfg, start, ApplyStep(cfg, w, i, c))
  {
    match w.handlers[i]
    case AtClaim(_, _, _, _) => ClaimKeepsInv(cfg, start, w, i, c);
    case AtInsert(_, _, _, _) => InsertKeepsInv(cfg, start, w, i, c);
    case AtNotify(_) => NotifyKeepsInv(cfg, start, w, i, c);
    case _ => ReadKeepsInv(cfg, start, w, i, c);
  }

  lemma BroadcastKeepsKnown(rows: seq<Alert>, queues: seq<seq<Notification>>, x: Notification)
    requires Known(rows, queues) && Announces(rows, x)
    ensures Known(rows, Broadcast(queues, [x]))
  {
  }

  lemma AnnounceKeepsInv(cfg: Config, start: Time, w: World, id: Uuid)
    requires Inv(cfg, start, w)
    ensures Inv(cfg, start, Apply(cfg, w, AnnounceAlert(id)))
  {
    var found := FindRow(w.store.alerts, id);
    if found.Some? {
      BroadcastKeepsKnown(w.store.alerts, w.queues, Notification(found.value.clientId, id));
    }
  }

  // A handler that starts over, and the queue it took a notification from or lost.
  lemma RestartKeepsInv(cfg: Config, start: Time, w: World, i: nat, q: seq<Notification>, h: Handler)
    requires Inv(cfg, start, w) && i < |w.handlers| && (h.Done? || h.AtLookup?)
    requires forall x :: x in q ==> x in w.queues[i]
    ensures Inv(cfg, start, w.(queues := w.queues[i := q], handlers := w.handlers[i := h]))
  {
    MoveKeeps(cfg, w, i, h);
  }

  // A device joins, time passes, or an announcement or a queue of them is lost.
  lemma LossKeepsInv(cfg: Config, start: Time, w: World, e: Event)
    requires Inv(cfg, start, w) && (e.AddDevice? || e.Tick? || e.FailToAnnounce? || e.LoseNotifications?)
    ensures Inv(cfg, start, Apply(cfg, w, e))
  {
  }

  lemma ApplyKeepsInv(cfg: Config, start: Time, w: World, e: Event)
    requires cfg.cooldown > 0 && Inv(cfg, start, w)
    ensures Inv(cfg, start, Apply(cfg, w, e))
  {
    match e
    case StoreAlert(d, req, received, newId) => StoreAlertKeepsInv(cfg, start, w, d, req, received, newId);
    case AnnounceAlert(id) => AnnounceKeepsInv(cfg, start, w, id);
    case StepHandler(i, c) =>
      if i < |w.handlers| {
        StepKeepsInv(cfg, start, w, i, c);
      }
    case Deliver(i) =>
      if Delivers(w, i) {
        RestartKeepsInv(cfg, start, w, i, w.queues[i][1..], Start(cfg, w.queues[i][0].alertId));
      }
    case Crash(i) =>
      if i < |w.handlers| {
        RestartKeepsInv(cfg, start, w, i, [], Done(Ok(Disabled)));
      }
    case _ => LossKeepsInv(cfg, start, w, e);
  }

  /** The invariant holds in every state that any interleaving of any number of instances reaches. */
  lemma {:induction false} Reachable(cfg: Config, instances: nat, start: Time, es: seq<Event>)
    requires cfg.cooldown > 0
    ensures Inv(cfg, start, Run(cfg, Initial(instances, start), es))
  {
    if es != [] {
      Reachable(cfg, instances, start, es[..|es| - 1]);
      ApplyKeepsInv(cfg, start, Run(cfg, Initial(instances, start), es[..|es| - 1]), es[|es| - 1]);
    }
  }
}
