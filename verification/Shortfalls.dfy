/** One run for each way in which the code does less than one might expect: states that are
    reached from the empty tables, not merely allowed by an invariant. */
module Shortfalls {
  import opened Common
  import opened Text
  import opened AlertStore
  import opened Escalation
  import opened Pipeline
  import opened Tokens
  import Auth
  import Devices
  import DeviceService
  import Ingest

  // ================================================================ an escalation without its trigger

  const REPORT := Ingest.IngestRequest("t", "info", "m", None, None)

  function Reported(id: Uuid, occurredAt: Time): Alert {
    Alert(id, 1, 7, "t", "info", "m", DevicePayload(map[]), occurredAt)
  }

  lemma BuildsReport(occurredAt: Time)
    ensures Ingest.BuildAlert(1, 7, REPORT.(occurredAt := Some(occurredAt)), 0)
            == Ok(Alert(0, 1, 7, "t", "info", "m", DevicePayload(map[]), occurredAt))
  {
    assert TrimSpace("t") == "t" && TrimSpace("m") == "m";
    assert ByteLength("t") == 1;
  }

  function TwoReports(cfg: Config): seq<Alert> {
    [Reported(1, -cfg.window - 1), Reported(2, -cfg.window)]
  }

  // At time 0 the window holds the second report only.
  lemma WindowHoldsTheSecond(cfg: Config)
    ensures WindowIds(TwoReports(cfg), 1, "t", -cfg.window) == [2]
  {
    var (a, b) := (Reported(1, -cfg.window - 1), Reported(2, -cfg.window));
    var keep := (x: Alert) => InWindow(x, 1, "t", -cfg.window);
    assert TwoReports(cfg) == [a] + [b] && [a] == [] + [a];
    SelectSnoc([], a, keep);
    SelectSnoc([a], b, keep);
    assert Select(TwoReports(cfg), keep) == [b];
    assert OrderByTime([b]) == [b];
  }

  function Report(occurredAt: Time, newId: Uuid): Event {
    StoreAlert(1, REPORT.(occurredAt := Some(occurredAt)), 0, newId)
  }

  /** One instance with its queue and its handler, over device 1 of client 7 and a table of alerts. */
  function At(start: Time, rows: seq<Alert>, awaiting: set<Uuid>, queue: seq<Notification>, h: Handler): World {
    World(map[1 := 7], Store(rows, map[]), start, awaiting, [queue], [h], [0], [], [])
  }

  // A run that has come to `w` goes on to what the next event makes of it.
  lemma Then(cfg: Config, start: Time, es: seq<Event>, w: World, e: Event, w': World)
    requires Pipeline.Run(cfg, Initial(1, start), es) == w && Shape(w) && Apply(cfg, w, e) == w'
    ensures Pipeline.Run(cfg, Initial(1, start), es + [e]) == w'
  {
    assert (es + [e])[..|es|] == es;
  }

  lemma Begins(cfg: Config, start: Time)
    ensures Pipeline.Run(cfg, Initial(1, start), [AddDevice(1, 7)]) == At(start, [], {}, [], Done(Ok(Disabled)))
  {
    assert [AddDevice(1, 7)][..0] == [];
    assert Apply(cfg, Initial(1, start), AddDevice(1, 7)) == At(start, [], {}, [], Done(Ok(Disabled)));
  }

  lemma Reports(cfg: Config, start: Time, rows: seq<Alert>, awaiting: set<Uuid>, occurredAt: Time, newId: Uuid)
    requires FindRow(rows, newId).None?
    ensures Apply(cfg, At(start, rows, awaiting, [], Done(Ok(Disabled))), Report(occurredAt, newId))
            == At(start, rows + [Reported(newId, occurredAt)], awaiting + {newId}, [], Done(Ok(Disabled)))
  {
    BuildsReport(occurredAt);
  }

  lemma AnnouncesTheFirst(cfg: Config, start: Time, rows: seq<Alert>, awaiting: set<Uuid>)
    requires FindRow(rows, 1).Some? && FindRow(rows, 1).value.clientId == 7 && 1 in awaiting
    ensures Apply(cfg, At(start, rows, awaiting, [], Done(Ok(Disabled))), AnnounceAlert(1))
            == At(start, rows, awaiting - {1}, [Notification(7, 1)], Done(Ok(Disabled)))
  {
    var x := Notification(7, 1);
    var idle: seq<seq<Notification>> := [[]];
    assert idle[0] + [x] == [x];
    assert Broadcast(idle, [x]) == [[x]];
  }

  lemma DeliversTheFirst(cfg: Config, start: Time, rows: seq<Alert>, awaiting: set<Uuid>)
    requires cfg.enabled
    ensures Apply(cfg, At(start, rows, awaiting, [Notification(7, 1)], Done(Ok(Disabled))), Deliver(0))
            == At(start, rows, awaiting, [], AtLookup(1))
  {
    assert [Notification(7, 1)][1..] == [];
  }

  lemma StoresBoth(cfg: Config, start: Time) returns (es: seq<Event>)
    ensures Pipeline.Run(cfg, Initial(1, start), es) == At(start, TwoReports(cfg), {1, 2}, [], Done(Ok(Disabled)))
  {
    var rest := Done(Ok(Disabled));
    var a, b := Reported(1, -cfg.window - 1), Reported(2, -cfg.window);
    es := [AddDevice(1, 7)];
    Begins(cfg, start);
    Reports(cfg, start, [], {}, -cfg.window - 1, 1);
    Then(cfg, start, es, At(start, [], {}, [], rest), Report(-cfg.window - 1, 1), At(start, [] + [a], {} + {1}, [], rest));
    es := es + [Report(-cfg.window - 1, 1)];
    Reports(cfg, start, [] + [a], {} + {1}, -cfg.window, 2);
    Then(cfg, start, es, At(start, [] + [a], {} + {1}, [], rest), Report(-cfg.window, 2),
         At(start, [] + [a] + [b], {} + {1} + {2}, [], rest));
    es := es + [Report(-cfg.window, 2)];
    assert [] + [a] + [b] == TwoReports(cfg) && {} + {1} + {2} == {1, 2};
  }

  // Two reports are stored and the first is announced to the only instance, which takes it up.
  lemma TakesUpTheFirst(cfg: Config, start: Time) returns (es: seq<Event>)
    requires cfg.enabled
    ensures Pipeline.Run(cfg, Initial(1, start), es) == At(start, TwoReports(cfg), {2}, [], AtLookup(1))
  {
    var rest, rows := Done(Ok(Disabled)), TwoReports(cfg);
    es := StoresBoth(cfg, start);
    assert {1, 2} - {1} == {2};
    AnnouncesTheFirst(cfg, start, rows, {1, 2});
    Then(cfg, start, es, At(start, rows, {1, 2}, [], rest), AnnounceAlert(1), At(start, rows, {2}, [Notification(7, 1)], rest));
    es := es + [AnnounceAlert(1)];
    DeliversTheFirst(cfg, start, rows, {2});
    Then(cfg, start, es, At(start, rows, {2}, [Notification(7, 1)], rest), Deliver(0), At(start, rows, {2}, [], AtLookup(1)));
    es := es + [Deliver(0)];
  }

  // One step of the only handler that sends nothing.
  lemma StepsTo(cfg: Config, w: World, c: Conditions, h: Handler)
    requires Shape(w) && |w.handlers| == 1 && c.storeNow == w.clock
    requires !w.handlers[0].AtClaim? && !w.handlers[0].AtInsert?
    requires Advance(cfg, w.store, w.handlers[0], c) == Step(w.store, h, [])
    ensures Apply(cfg, w, StepHandler(0, c)) == w.(handlers := [h])
  {
    BroadcastNothing(w.queues);
  }

  // The claim of the only handler, granted by an empty cooldown store.
  lemma ClaimsAndInserts(cfg: Config, w: World, c: Conditions)
    requires Shape(w) && |w.handlers| == 1 && w.handlers[0].AtClaim? && w.store.expires == map[]
    requires c.fault.Healthy? && c.storeNow == w.clock && FindRow(w.store.alerts, c.newId).None? && w.emissions == []
    ensures var h := w.handlers[0];
      var w' := Apply(cfg, Apply(cfg, w, StepHandler(0, c)), StepHandler(0, c));
      && |w'.emissions| == 1 && w'.emissions[0].source == h.source
      && w'.emissions[0].row == BuildEscalation(cfg, h.source, h.sourceIds, c.appNow).(id := c.newId)
      && w.store.alerts <= w'.store.alerts
  {
    var h := w.handlers[0];
    EscalationIsStorable(cfg, h.source, h.sourceIds, c.appNow);
    assert Apply(cfg, w, StepHandler(0, c)).handlers[0] == AtInsert(h.source, h.sourceIds, h.seen, h.since);
  }

  lemma LooksUp(cfg: Config, st: Store, c: Conditions)
    requires st.alerts == TwoReports(cfg) && c.fault.Healthy?
    ensures Advance(cfg, st, AtLookup(1), c) == Step(st, AtWindow(st.alerts[0]), [])
  {
  }

  lemma ReadsTheWindow(cfg: Config, st: Store, c: Conditions)
    requires st.alerts == TwoReports(cfg) && c.fault.Healthy? && c.appNow == 0 && cfg.threshold <= 1
    ensures Advance(cfg, st, AtWindow(st.alerts[0]), c) == Step(st, AtClaim(st.alerts[0], [2], 2, -cfg.window), [])
  {
    WindowHoldsTheSecond(cfg);
  }

  // Its window query finds the second report only, which is enough.
  lemma ComesToClaim(cfg: Config, start: Time, c: Conditions) returns (es: seq<Event>)
    requires cfg.enabled && cfg.threshold <= 1 && c.fault.Healthy? && c.appNow == 0 && c.storeNow == start
    ensures Pipeline.Run(cfg, Initial(1, start), es)
            == At(start, TwoReports(cfg), {2}, [], AtClaim(TwoReports(cfg)[0], [2], 2, -cfg.window))
  {
    es := TakesUpTheFirst(cfg, start);
    var rows, a, e := TwoReports(cfg), TwoReports(cfg)[0], StepHandler(0, c);
    var st := Store(rows, map[]);
    LooksUp(cfg, st, c);
    StepsTo(cfg, At(start, rows, {2}, [], AtLookup(1)), c, AtWindow(a));
    Then(cfg, start, es, At(start, rows, {2}, [], AtLookup(1)), e, At(start, rows, {2}, [], AtWindow(a)));
    es := es + [e];
    ReadsTheWindow(cfg, st, c);
    var claiming := AtClaim(a, [2], 2, -cfg.window);
    StepsTo(cfg, At(start, rows, {2}, [], AtWindow(a)), c, claiming);
    Then(cfg, start, es, At(start, rows, {2}, [], AtWindow(a)), e, At(start, rows, {2}, [], claiming));
    es := es + [e];
  }

  /** Two alerts of one device and type are stored, the first a little older than the window, and
      the first is handled: the escalation that it triggers lists the second alone. */
  lemma EscalatesWithoutItsTrigger(cfg: Config, start: Time) returns (es: seq<Event>)
    requires cfg.enabled && cfg.threshold <= 1 && cfg.cooldown > 0
    ensures var w := Pipeline.Run(cfg, Initial(1, start), es);
      && |w.emissions| == 1
      && w.emissions[0].source.id == 1 && w.emissions[0].source in w.store.alerts
      && w.emissions[0].row.payload.EscalationPayload?
      && w.emissions[0].row.payload.sourceAlertIds == [UuidText(2)]
  {
    var c := Conditions(Healthy, 0, start, 3);
    es := ComesToClaim(cfg, start, c);
    var claiming := AtClaim(TwoReports(cfg)[0], [2], 2, -cfg.window);
    var w := At(start, TwoReports(cfg), {2}, [], claiming);
    var e := StepHandler(0, c);
    ClaimsAndInserts(cfg, w, c);
    Then(cfg, start, es, w, e, Apply(cfg, w, e));
    Then(cfg, start, es + [e], Apply(cfg, w, e), e, Apply(cfg, Apply(cfg, w, e), e));
    es := es + [e] + [e];
    assert Texts([2]) == [UuidText(2)];
  }

  // ================================================================ sessions that outlive their end

  lemma AuthRunNext(ops: seq<Auth.Op>, op: Auth.Op)
    ensures Auth.Run(Auth.NOBODY, ops + [op]) == Auth.Apply(Auth.Run(Auth.NOBODY, ops), op)
    ensures Auth.Legal(Auth.NOBODY, ops) && Auth.Fresh(Auth.Run(Auth.NOBODY, ops), op) ==> Auth.Legal(Auth.NOBODY, ops + [op])
  {
    assert (ops + [op])[..|ops|] == ops;
  }

  // One client registers and refreshes once: the first token is replaced by the second.
  function Rotation(d0: Auth.Draw, d1: Auth.Draw): seq<Auth.Op> {
    [Auth.Register(1, d0)] + [Auth.Refresh(d0.raw, d1)]
  }

  function Rotated(d0: Auth.Draw, d1: Auth.Draw): (rows: seq<Token>)
    ensures |rows| == 2
  {
    [Auth.NewToken(1, d0.family, d0).(lastUsedAt := Some(d1.now), replacedBy := Some(d1.id)), Auth.NewToken(1, d0.family, d1)]
  }

  lemma RotationRuns(d0: Auth.Draw, d1: Auth.Draw)
    requires d1.now < d0.expiresAt && d0.raw != d1.raw && d0.id != d1.id
    ensures Auth.Run(Auth.NOBODY, Rotation(d0, d1)) == Auth.State({1}, Rotated(d0, d1))
    ensures Auth.Legal(Auth.NOBODY, Rotation(d0, d1))
  {
    var t := Auth.NewToken(1, d0.family, d0);
    AuthRunNext([], Auth.Register(1, d0));
    assert [] + [Auth.Register(1, d0)] == [Auth.Register(1, d0)];
    AuthRunNext([Auth.Register(1, d0)], Auth.Refresh(d0.raw, d1));
    var s := Auth.State({1}, [t]);
    assert Auth.Apply(Auth.NOBODY, Auth.Register(1, d0)) == s;
    var used := MarkUsed([t], t.id, d1.now);
    assert used == [t.(lastUsedAt := Some(d1.now))];
    assert Auth.Apply(s, Auth.Refresh(d0.raw, d1)).rows == Rotated(d0, d1);
  }

  lemma SecondTokenIsAccepted(rows: seq<Token>, d0: Auth.Draw, d1: Auth.Draw, d: Auth.Draw)
    requires |rows| == 2 && rows[1] == Auth.NewToken(1, d0.family, d1)
    requires rows[0].hash == Sha256(d0.raw) && rows[0].id == d0.id && d0.raw != d1.raw
    requires d.raw !in {d0.raw, d1.raw} && d.id !in {d0.id, d1.id} && d.now < d1.expiresAt
    ensures Auth.Accepts(Auth.State({1}, rows), d1.raw, d)
  {
    assert IndexOfHash(rows, Sha256(d1.raw)) == Some(1);
    assert IndexOfHash(rows, Sha256(d.raw)).None? && IndexOfId(rows, d.id).None?;
  }

  /** The first token is presented again after its expiry: the reuse goes unnoticed, nothing at all
      changes, and the second token of the family is accepted as before. */
  lemma LateReplayGoesUnnoticed(d0: Auth.Draw, d1: Auth.Draw, replay: Auth.Draw, d: Auth.Draw)
    requires d1.now < d0.expiresAt <= replay.now && d0.raw != d1.raw && d0.id != d1.id
    requires d.raw !in {d0.raw, d1.raw} && d.id !in {d0.id, d1.id} && d.now < d1.expiresAt
    ensures var ops := Rotation(d0, d1) + [Auth.Refresh(d0.raw, replay)];
      && Auth.Legal(Auth.NOBODY, ops)
      && Auth.Run(Auth.NOBODY, Rotation(d0, d1)) == Auth.State({1}, Rotated(d0, d1)) && Rotated(d0, d1)[0].IsReplaced()
      && Auth.Run(Auth.NOBODY, ops) == Auth.Run(Auth.NOBODY, Rotation(d0, d1))
      && Auth.Accepts(Auth.Run(Auth.NOBODY, ops), d1.raw, d)
  {
    RotationRuns(d0, d1);
    AuthRunNext(Rotation(d0, d1), Auth.Refresh(d0.raw, replay));
    SecondTokenIsAccepted(Rotated(d0, d1), d0, d1, d);
  }

  /** The session is revoked by the id of its first token, which the session list still shows: the
      second token is accepted as before. */
  lemma RevokedSessionGoesOn(d0: Auth.Draw, d1: Auth.Draw, now: Time, d: Auth.Draw)
    requires d1.now < d0.expiresAt && d0.raw != d1.raw && d0.id != d1.id
    requires d.raw !in {d0.raw, d1.raw} && d.id !in {d0.id, d1.id} && d.now < d1.expiresAt
    ensures var ops := Rotation(d0, d1) + [Auth.RevokeSession(1, d0.id, now)];
      && Auth.Legal(Auth.NOBODY, ops)
      && |Auth.Run(Auth.NOBODY, ops).rows| == 2 && Auth.Run(Auth.NOBODY, ops).rows[0].IsRevoked()
      && Auth.Accepts(Auth.Run(Auth.NOBODY, ops), d1.raw, d)
  {
    RotationRuns(d0, d1);
    AuthRunNext(Rotation(d0, d1), Auth.RevokeSession(1, d0.id, now));
    var rows := RevokeOne(Rotated(d0, d1), 1, d0.id, "session_revoked", now);
    assert rows[0].IsRevoked() && rows[1] == Auth.NewToken(1, d0.family, d1);
    SecondTokenIsAccepted(rows, d0, d1, d);
  }

  // ================================================================ a name that only the index refuses

  function Named(name: string): DeviceService.CreateRequest {
    DeviceService.CreateRequest(name, DeviceService.Valid(Devices.Camera), None, None, None)
  }

  function Letters(n: nat): (s: string)
    ensures |s| == n && forall i :: 0 <= i < n ==> s[i] == 'a'
  {
    seq(n, _ => 'a')
  }

  lemma LongNames()
    ensures Devices.StoredName(Letters(100)) == Some(Letters(100))
    ensures Devices.StoredName(Letters(100) + " ") == Some(Letters(100))
    ensures NulFree(Letters(100) + " ") && Letters(100) != Letters(100) + " "
  {
    var (name, spaced) := (Letters(100), Letters(100) + " ");
    assert name[0] == 'a';
    assert spaced[..100] == name && spaced[100..] == " ";
  }

  /** A client creates a device whose name fills the column, and then one of the same name with a
      space after it. The check finds the second name free, and the index refuses it. */
  lemma IndexRefusesWhatTheCheckPassed(days: int, clientId: Uuid, first: Uuid, second: Uuid)
    requires first != second
    ensures var cfg := DeviceService.Config((s: string) => s, days);
      var t := DeviceService.Call(cfg, map[], DeviceService.Create(clientId, Named(Letters(100)), "k1", first));
      var op := DeviceService.Create(clientId, Named(Letters(100) + " "), "k2", second);
      && first in t
      && DeviceService.Precheck(cfg, t, op).Ok?
      && DeviceService.CallError(cfg, t, op) == Some(Devices.NameConflict)
  {
    LongNames();
    var cfg := DeviceService.Config((s: string) => s, days);
    var create := DeviceService.Create(clientId, Named(Letters(100)), "k1", first);
    var d := DeviceService.NewDevice(clientId, create.create, "k1", first);
    assert Devices.Kept(d.name) == d.name;
    assert DeviceService.Call(cfg, map[], create) == map[first := d];
    assert Devices.LiveName(cfg.lower, d, clientId, Letters(100));
  }

  // ================================================================ an event that keeps out its batch

  lemma BuildsUnstorable()
    ensures Ingest.BuildAlert(1, 7, REPORT.(message := "m\U{0}"), 0)
            == Ok(Alert(0, 1, 7, "t", "info", "m\U{0}", DevicePayload(map[]), 0))
  {
    assert TrimSpace("t") == "t" && ByteLength("t") == 1;
    assert TrimSpace("m\U{0}") == "m\U{0}";
  }

  /** Two valid events, the second with a NUL character in its message: each alone is built, and
      together neither is stored. */
  lemma OneEventKeepsOutTheBatch(id1: Uuid, id2: Uuid)
    ensures var first := REPORT.(occurredAt := Some(0));
      var built := Ingest.BuildAll(1, 7, [first, REPORT.(message := "m\U{0}")], [0, 0]);
      && built[0].Ok? && built[1].Ok?
      && InsertRow([], built[0].value, id1).Some?
      && !Ingest.TakesAll([], built, [id1, id2])
  {
    BuildsReport(0);
    BuildsUnstorable();
    var first := REPORT.(occurredAt := Some(0));
    var built := Ingest.BuildAll(1, 7, [first, REPORT.(message := "m\U{0}")], [0, 0]);
    assert built[1].value.message[1] == '\U{0}';
    Ingest.OneKeepsOutAll([], built, [id1, id2], 1);
  }
}
