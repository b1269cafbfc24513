/** Ingest calls are runs of the pipeline, whatever fails in them. */
module IngestRuns {
  import opened Common
  import opened AlertStore
  import opened Escalation
  import opened Ingest
  import opened Pipeline

  // Nothing of what ingest does not touch has changed.
  ghost predicate Untouched(w: World, w': World) {
    && w'.owner == w.owner && w'.clock == w.clock && w'.store.expires == w.store.expires
    && w'.handlers == w.handlers && w'.charges == w.charges && w'.claims == w.claims && w'.emissions == w.emissions
  }

  /** `w'` is `w` after an ingest call that left `rows` and announced `sent`; handlers, claims,
      owners and the clock are as they were. */
  ghost predicate IngestedTo(w: World, w': World, rows: seq<Alert>, sent: seq<Notification>) {
    Untouched(w, w') && w'.store.alerts == rows && w'.queues == Broadcast(w.queues, sent)
  }

  lemma RunTakesOneMore(cfg: Config, w: World, es: seq<Event>, n: nat)
    requires Shape(w) && n < |es|
    ensures Run(cfg, w, es[..n + 1]) == Apply(cfg, Run(cfg, w, es[..n]), es[n])
  {
    assert es[..n + 1][..n] == es[..n];
  }

  lemma BroadcastMore(queues: seq<seq<Notification>>, sent: seq<Notification>, x: Notification)
    ensures Broadcast(Broadcast(queues, sent), [x]) == Broadcast(queues, sent + [x])
  {
    forall k | 0 <= k < |queues| ensures Broadcast(Broadcast(queues, sent), [x])[k] == Broadcast(queues, sent + [x])[k] {
      assert queues[k] + sent + [x] == queues[k] + (sent + [x]);
    }
  }

  lemma StoreStep(cfg: Config, w: World, d: Uuid, req: IngestRequest, now: Time, newId: Uuid)
    requires Shape(w) && d in w.owner && BuildAlert(d, w.owner[d], req, now).Ok?
    requires InsertRow(w.store.alerts, BuildAlert(d, w.owner[d], req, now).value, newId).Some?
    ensures Apply(cfg, w, StoreAlert(d, req, now, newId))
            == w.(store := w.store.(alerts := InsertRow(w.store.alerts, BuildAlert(d, w.owner[d], req, now).value, newId).value),
                  awaiting := w.awaiting + {newId})
  {
  }

  lemma AnnounceStep(cfg: Config, w: World, row: Alert)
    requires Shape(w) && row.id in w.awaiting && FindRow(w.store.alerts, row.id) == Some(row)
    ensures Apply(cfg, w, AnnounceAlert(row.id))
            == w.(awaiting := w.awaiting - {row.id}, queues := Broadcast(w.queues, [Notification(row.clientId, row.id)]))
  {
  }

  // ================================================================ one event

  /** A call of IngestEvent is a run: it leaves the same rows and announces the same. */
  lemma EventIsARun(cfg: Config, w: World, d: Uuid, req: IngestRequest, now: Time, newId: Uuid, createFault: Fault, notifyFault: Fault)
    returns (es: seq<Event>)
    requires Shape(w) && d in w.owner
    ensures var e := EventEffect(w.store.alerts, BuildAlert(d, w.owner[d], req, now), newId, createFault, notifyFault);
      IngestedTo(w, Run(cfg, w, es), e.rows, e.sent)
  {
    var built := BuildAlert(d, w.owner[d], req, now);
    var store := StoreAlert(d, req, now, newId);
    BroadcastNothing(w.queues);
    if built.Err? || createFault.LostRequest? || InsertRow(w.store.alerts, built.value, newId).None? {
      es := [];
    } else {
      var row := built.value.(id := newId);
      StoreStep(cfg, w, d, req, now, newId);
      RunNext(cfg, w, [], store);
      es := [] + [store];
      if createFault.Healthy? && !notifyFault.LostRequest? {
        FindRowAfterAppend(w.store.alerts, row, newId);
        AnnounceStep(cfg, Apply(cfg, w, store), row);
        RunNext(cfg, w, es, AnnounceAlert(newId));
        es := es + [AnnounceAlert(newId)];
      }
    }
  }

  // ================================================================ a batch

  /** One StoreAlert for each valid event of a batch. */
  function StoreEvents(d: Uuid, events: seq<IngestRequest>, clock: seq<Time>, newIds: seq<Uuid>, built: Built): (es: seq<Event>)
    requires |events| == |clock| == |newIds| == |built|
    ensures |es| == |Positions(built, true)|
  {
    var good := Positions(built, true);
    seq(|good|, k requires 0 <= k < |good| => StoreAlert(d, events[good[k]], clock[good[k]], newIds[k]))
  }

  ghost predicate AllAwait(rows: seq<Alert>, from: nat, awaiting: set<Uuid>) {
    forall k :: from <= k < |rows| ==> rows[k].id in awaiting
  }

  // The table takes the next row of a batch it takes as a whole.
  lemma NextRowIsTaken(before: seq<Alert>, built: Built, newIds: seq<Uuid>, n: nat)
    requires |newIds| == |built| && TakesAll(before, built, newIds) && n < |Rows(built, newIds)|
    ensures var rows := Rows(built, newIds);
      InsertRow(before + rows[..n], built[Positions(built, true)[n]].value, newIds[n]) == Some(before + rows[..n + 1])
  {
    var valid := ValidAlerts(built);
    var ids, rows := newIds[..|valid|], Rows(built, newIds);
    assert !Refused(before, valid, ids, n);
    ClashMeansRefused(before, valid, ids, n);
    assert BatchRows(valid[..n], ids[..n]) == rows[..n];
    assert rows[..n] + [rows[n]] == rows[..n + 1];
    assert before + rows[..n] + [rows[n]] == before + rows[..n + 1];
  }

  lemma StoresNext(cfg: Config, w: World, before: seq<Alert>, d: Uuid, events: seq<IngestRequest>, clock: seq<Time>,
                   newIds: seq<Uuid>, built: Built, n: nat)
    requires Shape(w) && d in w.owner && |events| == |clock| == |newIds| && built == BuildAll(d, w.owner[d], events, clock)
    requires TakesAll(before, built, newIds) && n < |Positions(built, true)|
    requires w.store.alerts == before + Rows(built, newIds)[..n]
    ensures Apply(cfg, w, StoreEvents(d, events, clock, newIds, built)[n])
            == w.(store := w.store.(alerts := before + Rows(built, newIds)[..n + 1]), awaiting := w.awaiting + {newIds[n]})
  {
    var g := Positions(built, true)[n];
    NextRowIsTaken(before, built, newIds, n);
    assert BuildAlert(d, w.owner[d], events[g], clock[g]) == built[g];
    StoreStep(cfg, w, d, events[g], clock[g], newIds[n]);
  }

  ghost predicate StoredSoFar(w: World, w': World, rows: seq<Alert>) {
    Untouched(w, w') && w'.queues == w.queues && w'.store.alerts == w.store.alerts + rows && AllAwait(rows, 0, w'.awaiting)
  }

  lemma OneMoreAwaits(rows: seq<Alert>, n: nat, awaiting: set<Uuid>)
    requires n < |rows| && AllAwait(rows[..n], 0, awaiting)
    ensures AllAwait(rows[..n + 1], 0, awaiting + {rows[n].id})
  {
    assert forall k :: 0 <= k < n ==> rows[..n + 1][k] == rows[..n][k];
  }

  lemma StoresOneMore(cfg: Config, w: World, w': World, d: Uuid, events: seq<IngestRequest>, clock: seq<Time>,
                      newIds: seq<Uuid>, built: Built, n: nat)
    requires Shape(w') && d in w.owner && |events| == |clock| == |newIds| && built == BuildAll(d, w.owner[d], events, clock)
    requires TakesAll(w.store.alerts, built, newIds) && n < |Positions(built, true)|
    requires StoredSoFar(w, w', Rows(built, newIds)[..n])
    ensures StoredSoFar(w, Apply(cfg, w', StoreEvents(d, events, clock, newIds, built)[n]), Rows(built, newIds)[..n + 1])
  {
    StoresNext(cfg, w', w.store.alerts, d, events, clock, newIds, built, n);
    OneMoreAwaits(Rows(built, newIds), n, w'.awaiting);
  }

  lemma {:induction false} StoresRows(cfg: Config, w: World, d: Uuid, events: seq<IngestRequest>, clock: seq<Time>,
                                      newIds: seq<Uuid>, built: Built, n: nat)
    requires Shape(w) && d in w.owner && |events| == |clock| == |newIds| && built == BuildAll(d, w.owner[d], events, clock)
    requires TakesAll(w.store.alerts, built, newIds) && n <= |Positions(built, true)|
    ensures StoredSoFar(w, Run(cfg, w, StoreEvents(d, events, clock, newIds, built)[..n]), Rows(built, newIds)[..n])
  {
    var es := StoreEvents(d, events, clock, newIds, built);
    if n == 0 {
      assert Run(cfg, w, es[..0]) == w;
    } else {
      StoresRows(cfg, w, d, events, clock, newIds, built, n - 1);
      StoresOneMore(cfg, w, Run(cfg, w, es[..n - 1]), d, events, clock, newIds, built, n - 1);
      RunTakesOneMore(cfg, w, es, n - 1);
    }
  }

  function AnnounceEvents(rows: seq<Alert>): (es: seq<Event>)
    ensures |es| == |rows| && forall k :: 0 <= k < |es| ==> es[k] == AnnounceAlert(rows[k].id)
  {
    seq(|rows|, k requires 0 <= k < |rows| => AnnounceAlert(rows[k].id))
  }

  lemma AnnouncesNext(cfg: Config, w: World, before: seq<Alert>, rows: seq<Alert>, n: nat)
    requires Shape(w) && w.store.alerts == before + rows && UniqueIds(before + rows)
    requires n < |rows| && AllAwait(rows, n, w.awaiting)
    ensures var w' := Apply(cfg, w, AnnounceAlert(rows[n].id));
      && IngestedTo(w, w', w.store.alerts, [Announcements(rows)[n]])
      && AllAwait(rows, n + 1, w'.awaiting)
  {
    assert (before + rows)[|before| + n] == rows[n];
    FindsUnique(before + rows, rows[n]);
    AnnounceStep(cfg, w, rows[n]);
    forall k | n < k < |rows| ensures rows[k].id != rows[n].id {
      assert (before + rows)[|before| + k] == rows[k];
    }
  }

  ghost predicate AnnouncedSoFar(w: World, w': World, rows: seq<Alert>, n: nat) {
    n <= |rows| && IngestedTo(w, w', w.store.alerts, Announcements(rows)[..n]) && AllAwait(rows, n, w'.awaiting)
  }

  lemma AnnouncedNone(w: World, rows: seq<Alert>)
    requires AllAwait(rows, 0, w.awaiting)
    ensures AnnouncedSoFar(w, w, rows, 0)
  {
    BroadcastNothing(w.queues);
  }

  lemma AnnouncesOneMore(cfg: Config, w: World, w': World, before: seq<Alert>, rows: seq<Alert>, n: nat)
    requires Shape(w') && w.store.alerts == before + rows && UniqueIds(before + rows) && n < |rows|
    requires AnnouncedSoFar(w, w', rows, n)
    ensures AnnouncedSoFar(w, Apply(cfg, w', AnnounceAlert(rows[n].id)), rows, n + 1)
  {
    AnnouncesNext(cfg, w', before, rows, n);
    BroadcastMore(w.queues, Announcements(rows)[..n], Announcements(rows)[n]);
    assert Announcements(rows)[..n + 1] == Announcements(rows)[..n] + [Announcements(rows)[n]];
  }

  lemma {:induction false} AnnouncesRows(cfg: Config, w: World, before: seq<Alert>, rows: seq<Alert>, n: nat)
    requires Shape(w) && w.store.alerts == before + rows && UniqueIds(before + rows)
    requires n <= |rows| && AllAwait(rows, 0, w.awaiting)
    ensures AnnouncedSoFar(w, Run(cfg, w, AnnounceEvents(rows)[..n]), rows, n)
  {
    var es := AnnounceEvents(rows);
    if n == 0 {
      assert Run(cfg, w, es[..0]) == w;
      AnnouncedNone(w, rows);
    } else {
      AnnouncesRows(cfg, w, before, rows, n - 1);
      AnnouncesOneMore(cfg, w, Run(cfg, w, es[..n - 1]), before, rows, n - 1);
      RunTakesOneMore(cfg, w, es, n - 1);
    }
  }

  lemma StoredBatchIsARun(cfg: Config, w: World, d: Uuid, events: seq<IngestRequest>, clock: seq<Time>, newIds: seq<Uuid>, n: nat)
    returns (es: seq<Event>)
    requires Shape(w) && UniqueIds(w.store.alerts) && d in w.owner && |events| == |clock| == |newIds|
    requires TakesAll(w.store.alerts, BuildAll(d, w.owner[d], events, clock), newIds)
    requires n <= |Rows(BuildAll(d, w.owner[d], events, clock), newIds)|
    ensures var rows := Rows(BuildAll(d, w.owner[d], events, clock), newIds);
      IngestedTo(w, Run(cfg, w, es), w.store.alerts + rows, Announcements(rows)[..n])
  {
    var built := BuildAll(d, w.owner[d], events, clock);
    var rows, stores := Rows(built, newIds), StoreEvents(d, events, clock, newIds, built);
    StoresRows(cfg, w, d, events, clock, newIds, built, |rows|);
    assert stores[..|rows|] == stores && rows[..|rows|] == rows;
    BatchKeepsUniqueIds(w.store.alerts, ValidAlerts(built), newIds[..|ValidAlerts(built)|]);
    AnnouncesRows(cfg, Run(cfg, w, stores), w.store.alerts, rows, n);
    es := stores + AnnounceEvents(rows)[..n];
    RunJoined(cfg, w, stores, AnnounceEvents(rows)[..n]);
  }

  /** A call of IngestBatch is a run: it leaves the same rows and announces the same, in the same
      order, whether it is stored or not and wherever its announcements stop. */
  lemma BatchIsARun(cfg: Config, w: World, d: Uuid, events: seq<IngestRequest>, clock: seq<Time>, newIds: seq<Uuid>,
                    createFault: Fault, notifyFaults: seq<Fault>)
    returns (es: seq<Event>)
    requires Shape(w) && UniqueIds(w.store.alerts) && d in w.owner && |events| == |clock| == |newIds| == |notifyFaults|
    ensures var e := BatchEffect(w.store.alerts, BuildAll(d, w.owner[d], events, clock), newIds, createFault, notifyFaults);
      IngestedTo(w, Run(cfg, w, es), e.rows, e.sent)
  {
    var built := BuildAll(d, w.owner[d], events, clock);
    var rows := Rows(built, newIds);
    if BatchStored(w.store.alerts, built, newIds, createFault) {
      var n := if createFault.Healthy? then SentCount(notifyFaults[..|rows|]) else 0;
      es := StoredBatchIsARun(cfg, w, d, events, clock, newIds, n);
    } else {
      es := [];
      BroadcastNothing(w.queues);
    }
  }
}
