/** Where the parts meet: the services against the pipeline they run in, over one alert store. */
module Composition {
  import opened Common
  import opened AlertStore
  import opened Escalation
  import opened Pipeline
  import opened Stream
  import opened Listener
  import Query
  import QueryService
  import Devices
  import DeviceProperties

  // ================================================================ the service call is a run

  /** The script with the clock of the cooldown store standing still. */
  function AtClock(s: Script, clock: Time): Script {
    s.(claim := s.claim.(storeNow := clock))
  }

  /** A service call of one instance that no other step interrupts is a run of the pipeline: it
      leaves the same tables, and its announcements reach every queue. So whatever holds of all
      runs holds of the service as written. */
  lemma {:induction false} ServiceCallIsARun(cfg: Config, w: World, i: nat, s: Script) returns (es: seq<Event>)
    requires Shape(w) && i < |w.handlers| && !w.handlers[i].Done?
    ensures var end := Uninterrupted(cfg, w.store, w.handlers[i], AtClock(s, w.clock));
      var w' := Pipeline.Run(cfg, w, es);
      && w'.store == end.store && w'.handlers[i] == end.handler
      && w'.queues == Broadcast(w.queues, end.sent)
      && w'.clock == w.clock
    decreases Rank(w.handlers[i])
  {
    var h := w.handlers[i];
    var e := StepHandler(i, ConditionsFor(s, h));
    var w1 := Apply(cfg, w, e);
    SameStep(cfg, w.store, h, s, w.clock);
    RunNext(cfg, w, [], e);
    assert [] + [e] == [e];
    if w1.handlers[i].Done? {
      es := [e];
    } else {
      BroadcastNothing(w.queues);
      var rest := ServiceCallIsARun(cfg, w1, i, s);
      RunJoined(cfg, w, [e], rest);
      es := [e] + rest;
    }
  }

  lemma SameStep(cfg: Config, st: Store, h: Handler, s: Script, clock: Time)
    ensures var step := Advance(cfg, st, h, ConditionsFor(s, h).(storeNow := clock));
      && step == Advance(cfg, st, h, ConditionsFor(AtClock(s, clock), h))
      && (!step.handler.Done? ==> step.sent == [] && Rank(step.handler) < Rank(h))
  {
  }

  // ================================================================ the stream

  /** In every run of the pipeline, each notification on its way makes the listener dispatch the
      row it names, never stopping at the client check, and whoever is streamed that row is the
      client that owns the row's device. */
  lemma StreamsReachOnlyOwners(cfg: Config, instances: nat, start: Time, es: seq<Event>, i: nat, x: Notification, t: Target)
    requires cfg.cooldown > 0
    requires i < instances && x in Pipeline.Run(cfg, Initial(instances, start), es).queues[i]
    ensures var w := Pipeline.Run(cfg, Initial(instances, start), es);
      var handled := HandledAlert(w.store.alerts, Some(Payload(Names(x.clientId), Some(x.alertId))));
      && handled.Some? && handled.value.id == x.alertId
      && handled.value.deviceId in w.owner && w.owner[handled.value.deviceId] == handled.value.clientId
      && (Matches(t, handled.value) ==> t.clientId == w.owner[handled.value.deviceId])
  {
    Reachable(cfg, instances, start, es);
    assert Announces(Pipeline.Run(cfg, Initial(instances, start), es).store.alerts, x);
  }

  // ================================================================ devices and alerts together

  /** The device table next to the pipeline: a device is known to the pipeline from the statement
      on that inserts it. */
  datatype Joint = Joint(table: Devices.Table, world: World)

  datatype JointEvent = DeviceStatement(w: Devices.Write) | AlertEvent(e: Pipeline.Event)

  function ApplyJoint(lower: Devices.Folding, cfg: Config, j: Joint, e: JointEvent): (j': Joint)
    requires Shape(j.world)
    ensures Shape(j'.world)
  {
    match e
    case DeviceStatement(w) =>
      var table := Devices.Execute(lower, j.table, w);
      if w.Insert? && w.d.id !in j.table && w.d.id in table
      then Joint(table, Apply(cfg, j.world, AddDevice(w.d.id, w.d.clientId)))
      else Joint(table, j.world)
    case AlertEvent(e) => if e.AddDevice? then j else Joint(j.table, Apply(cfg, j.world, e))
  }

  function RunJoint(lower: Devices.Folding, cfg: Config, j: Joint, es: seq<JointEvent>): (j': Joint)
    requires Shape(j.world)
    ensures Shape(j'.world)
  {
    if es == [] then j else ApplyJoint(lower, cfg, RunJoint(lower, cfg, j, es[..|es| - 1]), es[|es| - 1])
  }

  function Nothing(instances: nat, start: Time): (j: Joint)
    ensures Shape(j.world)
  {
    Joint(map[], Initial(instances, start))
  }

  /** The pipeline knows exactly the owners that the table holds. */
  ghost predicate JointOk(lower: Devices.Folding, cfg: Config, start: Time, j: Joint) {
    && DeviceProperties.TableOk(lower, j.table)
    && j.world.owner == DeviceProperties.Owners(j.table)
    && Inv(cfg, start, j.world)
  }

  lemma OnlyDevicesAddOwners(cfg: Config, w: World, e: Pipeline.Event)
    requires Shape(w) && !e.AddDevice?
    ensures Apply(cfg, w, e).owner == w.owner
  {
  }

  lemma ApplyKeepsJoint(lower: Devices.Folding, cfg: Config, start: Time, j: Joint, e: JointEvent)
    requires cfg.cooldown > 0 && JointOk(lower, cfg, start, j)
    ensures JointOk(lower, cfg, start, ApplyJoint(lower, cfg, j, e))
  {
    match e
    case DeviceStatement(w) =>
      DeviceProperties.ExecuteKeepsTable(lower, j.table, w);
      DeviceProperties.OwnersOnlyGrow(lower, j.table, w);
      if w.Insert? && w.d.id !in j.table && w.d.id in Devices.Execute(lower, j.table, w) {
        ApplyKeepsInv(cfg, start, j.world, AddDevice(w.d.id, w.d.clientId));
        assert w.d.id in DeviceProperties.Owners(Devices.Execute(lower, j.table, w));
      }
    case AlertEvent(e) =>
      if !e.AddDevice? {
        ApplyKeepsInv(cfg, start, j.world, e);
        OnlyDevicesAddOwners(cfg, j.world, e);
      }
  }

  /** In every run of device statements and pipeline events, however they interleave, the table and
      the pipeline agree on who owns which device. */
  lemma {:induction false} JointReachable(lower: Devices.Folding, cfg: Config, instances: nat, start: Time, es: seq<JointEvent>)
    requires cfg.cooldown > 0
    ensures JointOk(lower, cfg, start, RunJoint(lower, cfg, Nothing(instances, start), es))
  {
    if es != [] {
      JointReachable(lower, cfg, instances, start, es[..|es| - 1]);
      ApplyKeepsJoint(lower, cfg, start, RunJoint(lower, cfg, Nothing(instances, start), es[..|es| - 1]), es[|es| - 1]);
    }
  }

  // ================================================================ the search

  /** `devices` lists the device table, row by row in some order. */
  ghost predicate Lists(devices: seq<Query.DeviceRow>, t: Devices.Table) {
    && (forall i, j :: 0 <= i < j < |devices| ==> devices[i].id != devices[j].id)
    && (forall d :: d in devices ==> d.id in t)
    && forall id :: id in t ==> Query.DeviceRow(id, t[id].clientId, t[id].name) in devices
  }

  lemma OwnedTables(j: Joint, devices: seq<Query.DeviceRow>)
    requires Owned(j.world.owner, j.world.store.alerts) && j.world.owner == DeviceProperties.Owners(j.table)
    requires Lists(devices, j.table)
    ensures Query.OwnedDatabase(Query.Database(j.world.store.alerts, devices))
  {
    forall a | a in j.world.store.alerts ensures Query.HasOwner(devices, a) {
      assert a.deviceId in DeviceProperties.Owners(j.table);
      assert Query.DeviceRow(a.deviceId, a.clientId, j.table[a.deviceId].name) in devices;
    }
  }

  /** In every state that device statements and pipeline events reach together, alerts belong to the
      owners of their devices: the search join is lossless, and the list query returns the page of
      exactly the wanted alerts. */
  lemma ListingsAreExactInRuns(lower: Devices.Folding, cfg: Config, instances: nat, start: Time, es: seq<JointEvent>,
                               devices: seq<Query.DeviceRow>, env: Query.Env, clientId: Uuid, f: Query.ListFilter)
    requires cfg.cooldown > 0 && Query.Sendable(f)
    requires Lists(devices, RunJoint(lower, cfg, Nothing(instances, start), es).table)
    ensures var db := Query.Database(RunJoint(lower, cfg, Nothing(instances, start), es).world.store.alerts, devices);
      && Query.OwnedDatabase(db) && UniqueIds(db.alerts)
      && Query.RunList(env, db, Query.AlertListQueries(env, f).list,
                       Query.AlertListArgs(env, clientId, f) + [Query.IntArg(f.pageSize), Query.IntArg(f.offset)])
         == QueryService.PageAt(Query.WantedAlerts(env, db, clientId, f), f.pageSize, f.offset)
  {
    JointReachable(lower, cfg, instances, start, es);
    var j := RunJoint(lower, cfg, Nothing(instances, start), es);
    OwnedTables(j, devices);
    Query.ListMeansTheFilter(env, Query.Database(j.world.store.alerts, devices), clientId, f);
  }
}
