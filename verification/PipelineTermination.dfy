/** The escalation feedback loop dies out: without further ingest, the work left in the pipeline
    bounds every run, whatever the interleaving. */
module PipelineTermination {
  import opened Common
  import opened AlertStore
  import opened Escalation
  import opened Pipeline

  /** Prices of a handler call and of a handler step, and the price `echo` of the marker
      notifications that one escalation puts on the queues of all instances. */
  datatype Tariff = Tariff(call: nat, step: nat, echo: nat)

  function TariffFor(instances: nat, call: nat, step: nat): Tariff {
    Tariff(call, step, instances * (call + step))
  }

  predicate Ordinary(rows: seq<Alert>, id: Uuid) {
    FindRow(rows, id).Some? && !FindRow(rows, id).value.IsMarker()
  }

  function ItemCost(rows: seq<Alert>, t: Tariff, x: Notification): nat {
    if Ordinary(rows, x.alertId) then t.call + 5 * t.step + t.echo else t.call + t.step
  }

  function HandlerCost(rows: seq<Alert>, t: Tariff, h: Handler): nat {
    match h
    case AtLookup(id) => if Ordinary(rows, id) then 5 * t.step + t.echo else t.step
    case AtWindow(_) => 4 * t.step + t.echo
    case AtClaim(_, _, _, _) => 3 * t.step + t.echo
    case AtInsert(_, _, _, _) => 2 * t.step + t.echo
    case AtNotify(_) => t.step + t.echo
    case Done(_) => 0
  }

  function QueueCost(rows: seq<Alert>, t: Tariff, q: seq<Notification>): nat {
    if q == [] then 0 else ItemCost(rows, t, q[0]) + QueueCost(rows, t, q[1..])
  }

  function Sum(s: seq<nat>): nat {
    if s == [] then 0 else s[0] + Sum(s[1..])
  }

  function QueueCosts(rows: seq<Alert>, t: Tariff, qs: seq<seq<Notification>>): (r: seq<nat>)
    ensures |r| == |qs| && forall i :: 0 <= i < |r| ==> r[i] == QueueCost(rows, t, qs[i])
  {
    seq(|qs|, i requires 0 <= i < |qs| => QueueCost(rows, t, qs[i]))
  }

  function HandlerCosts(rows: seq<Alert>, t: Tariff, hs: seq<Handler>): (r: seq<nat>)
    ensures |r| == |hs| && forall i :: 0 <= i < |r| ==> r[i] == HandlerCost(rows, t, hs[i])
  {
    seq(|hs|, i requires 0 <= i < |hs| => HandlerCost(rows, t, hs[i]))
  }

  /** What is left to do: a queued ordinary alert costs a call, its steps and one echo; a queued
      marker costs a call and the one step that skips it. */
  function Potential(t: Tariff, w: World): nat {
    Sum(QueueCosts(w.store.alerts, t, w.queues)) + Sum(HandlerCosts(w.store.alerts, t, w.handlers))
  }

  predicate Quiet(e: Event) {
    !e.StoreAlert? && !e.AnnounceAlert?
  }

  function EventCost(t: Tariff, w: World, e: Event): nat
    requires Shape(w)
  {
    match e
    case Deliver(i) => if Delivers(w, i) then t.call else 0
    case StepHandler(i, _) => if i < |w.handlers| && !w.handlers[i].Done? then t.step else 0
    case _ => 0
  }

  function Spent(cfg: Config, t: Tariff, w: World, es: seq<Event>): nat
    requires Shape(w)
  {
    if es == [] then 0
    else
      var front := es[..|es| - 1];
      Spent(cfg, t, w, front) + EventCost(t, Run(cfg, w, front), es[|es| - 1])
  }

  // ---------------------------------------------------------------- sums

  lemma {:induction false} SumUpdate(s: seq<nat>, i: nat, x: nat)
    requires i < |s|
    ensures Sum(s[i := x]) + s[i] == Sum(s) + x
  {
    if i == 0 {
      assert s[0 := x][1..] == s[1..];
    } else {
      assert s[i := x][1..] == s[1..][i - 1 := x];
      SumUpdate(s[1..], i - 1, x);
    }
  }

  lemma {:induction false} SumRaised(s: seq<nat>, r: seq<nat>, d: nat)
    requires |s| == |r| && forall i :: 0 <= i < |s| ==> r[i] == s[i] + d
    ensures Sum(r) == Sum(s) + |s| * d
  {
    if s != [] {
      SumRaised(s[1..], r[1..], d);
      assert |s| * d == d + (|s| - 1) * d;
    }
  }

  lemma {:induction false} SumZero(s: seq<nat>)
    ensures Sum(s) == 0 <==> forall i :: 0 <= i < |s| ==> s[i] == 0
  {
    if s != [] {
      SumZero(s[1..]);
      assert forall i :: 0 <= i < |s| - 1 ==> s[1..][i] == s[i + 1];
      assert (forall i :: 0 <= i < |s| ==> s[i] == 0) ==> forall i :: 0 <= i < |s[1..]| ==> s[1..][i] == 0;
    }
  }

  lemma {:induction false} QueueAppend(rows: seq<Alert>, t: Tariff, q: seq<Notification>, x: Notification)
    ensures QueueCost(rows, t, q + [x]) == QueueCost(rows, t, q) + ItemCost(rows, t, x)
  {
    if q != [] {
      assert (q + [x])[1..] == q[1..] + [x];
      QueueAppend(rows, t, q[1..], x);
    } else {
      assert (q + [x])[1..] == [];
    }
  }

  // A new marker row changes no price.
  lemma {:induction false} MarkerKeepsQueue(rows: seq<Alert>, row: Alert, t: Tariff, q: seq<Notification>)
    requires row.IsMarker()
    ensures QueueCost(rows + [row], t, q) == QueueCost(rows, t, q)
  {
    if q != [] {
      FindRowAfterAppend(rows, row, q[0].alertId);
      MarkerKeepsQueue(rows, row, t, q[1..]);
    }
  }

  lemma MarkerKeepsPotential(t: Tariff, w: World, row: Alert)
    requires row.IsMarker()
    ensures Potential(t, w.(store := w.store.(alerts := w.store.alerts + [row]))) == Potential(t, w)
  {
    var rows := w.store.alerts;
    forall i | 0 <= i < |w.queues| ensures QueueCost(rows + [row], t, w.queues[i]) == QueueCost(rows, t, w.queues[i]) {
      MarkerKeepsQueue(rows, row, t, w.queues[i]);
    }
    assert QueueCosts(rows + [row], t, w.queues) == QueueCosts(rows, t, w.queues);
    forall i | 0 <= i < |w.handlers| ensures HandlerCost(rows + [row], t, w.handlers[i]) == HandlerCost(rows, t, w.handlers[i]) {
      if w.handlers[i].AtLookup? {
        FindRowAfterAppend(rows, row, w.handlers[i].alertId);
      }
    }
    assert HandlerCosts(rows + [row], t, w.handlers) == HandlerCosts(rows, t, w.handlers);
  }

  // ---------------------------------------------------------------- each event pays its way

  lemma ChangeHandler(t: Tariff, w: World, i: nat, h: Handler)
    requires i < |w.handlers|
    ensures Potential(t, w.(handlers := w.handlers[i := h])) + HandlerCost(w.store.alerts, t, w.handlers[i])
            == Potential(t, w) + HandlerCost(w.store.alerts, t, h)
  {
    var rows := w.store.alerts;
    SumUpdate(HandlerCosts(rows, t, w.handlers), i, HandlerCost(rows, t, h));
    assert HandlerCosts(rows, t, w.handlers[i := h]) == HandlerCosts(rows, t, w.handlers)[i := HandlerCost(rows, t, h)];
  }

  lemma ChangeQueue(t: Tariff, w: World, i: nat, q: seq<Notification>)
    requires i < |w.queues|
    ensures Potential(t, w.(queues := w.queues[i := q])) + QueueCost(w.store.alerts, t, w.queues[i])
            == Potential(t, w) + QueueCost(w.store.alerts, t, q)
  {
    var rows := w.store.alerts;
    SumUpdate(QueueCosts(rows, t, w.queues), i, QueueCost(rows, t, q));
    assert QueueCosts(rows, t, w.queues[i := q]) == QueueCosts(rows, t, w.queues)[i := QueueCost(rows, t, q)];
  }

  lemma BroadcastCost(t: Tariff, w: World, x: Notification)
    ensures Potential(t, w.(queues := Broadcast(w.queues, [x])))
            == Potential(t, w) + |w.queues| * ItemCost(w.store.alerts, t, x)
  {
    var rows := w.store.alerts;
    var qs := Broadcast(w.queues, [x]);
    forall i | 0 <= i < |qs| ensures QueueCost(rows, t, qs[i]) == QueueCost(rows, t, w.queues[i]) + ItemCost(rows, t, x) {
      QueueAppend(rows, t, w.queues[i], x);
    }
    SumRaised(QueueCosts(rows, t, w.queues), QueueCosts(rows, t, qs), ItemCost(rows, t, x));
  }

  lemma DeliverPays(cfg: Config, t: Tariff, w: World, i: nat)
    requires Shape(w) && Delivers(w, i)
    ensures t.call + Potential(t, Apply(cfg, w, Deliver(i))) <= Potential(t, w)
  {
    var q := w.queues[i];
    var taken := w.(queues := w.queues[i := q[1..]]);
    ChangeQueue(t, w, i, q[1..]);
    ChangeHandler(t, taken, i, Start(cfg, q[0].alertId));
  }

  lemma StageIsCheaper(cfg: Config, t: Tariff, st: Store, h: Handler, c: Conditions)
    requires !h.Done? && !h.AtNotify?
    ensures var step := Advance(cfg, st, h, c);
      && t.step + HandlerCost(st.alerts, t, step.handler) <= HandlerCost(st.alerts, t, h)
      && step.sent == []
      && (step.store.alerts == st.alerts
          || (h.AtInsert? && exists row: Alert :: row.IsMarker() && step.store.alerts == st.alerts + [row]))
  {
  }

  lemma StepPays(cfg: Config, t: Tariff, w: World, i: nat, c: Conditions)
    requires Shape(w) && i < |w.handlers| && !w.handlers[i].Done? && !w.handlers[i].AtNotify?
    ensures t.step + Potential(t, ApplyStep(cfg, w, i, c)) <= Potential(t, w)
  {
    var step := StepOf(cfg, w, i, c);
    var w' := ApplyStep(cfg, w, i, c);
    var moved := w.(handlers := w.handlers[i := step.handler]);
    ChangeHandler(t, w, i, step.handler);
    StageIsCheaper(cfg, t, w.store, w.handlers[i], c.(storeNow := w.clock));
    BroadcastNothing(w.queues);
    if step.store.alerts == w.store.alerts {
      SamePotential(t, moved, w');
    } else {
      var row: Alert :| row.IsMarker() && step.store.alerts == w.store.alerts + [row];
      MarkerKeepsPotential(t, moved, row);
      SamePotential(t, moved.(store := moved.store.(alerts := moved.store.alerts + [row])), w');
    }
  }

  lemma NotifyPays(cfg: Config, t: Tariff, w: World, i: nat, c: Conditions)
    requires Shape(w) && UniqueIds(w.store.alerts) && HandlersOk(cfg, w.store.alerts, w.handlers)
    requires i < |w.handlers| && w.handlers[i].AtNotify?
    requires t.echo == |w.handlers| * (t.call + t.step)
    ensures t.step + Potential(t, ApplyStep(cfg, w, i, c)) <= Potential(t, w)
  {
    var h := w.handlers[i];
    var step := StepOf(cfg, w, i, c);
    var w' := ApplyStep(cfg, w, i, c);
    var moved := w.(handlers := w.handlers[i := step.handler]);
    ChangeHandler(t, w, i, step.handler);
    assert HandlerOk(cfg, w.store.alerts, h);
    FindsUnique(w.store.alerts, h.escalated);
    if step.sent == [] {
      BroadcastNothing(w.queues);
      SamePotential(t, moved, w');
    } else {
      BroadcastCost(t, moved, step.sent[0]);
      SamePotential(t, moved.(queues := Broadcast(moved.queues, step.sent)), w');
    }
  }

  lemma SamePotential(t: Tariff, w: World, w': World)
    requires w.store.alerts == w'.store.alerts && w.queues == w'.queues && w.handlers == w'.handlers
    ensures Potential(t, w) == Potential(t, w')
  {
  }

  lemma QuietEventPays(cfg: Config, start: Time, t: Tariff, w: World, e: Event)
    requires Inv(cfg, start, w) && Quiet(e)
    requires t.echo == |w.handlers| * (t.call + t.step)
    ensures EventCost(t, w, e) + Potential(t, Apply(cfg, w, e)) <= Potential(t, w)
  {
    match e
    case Deliver(i) =>
      if Delivers(w, i) {
        DeliverPays(cfg, t, w, i);
      }
    case StepHandler(i, c) =>
      if i < |w.handlers| {
        if w.handlers[i].Done? {
          BroadcastNothing(w.queues);
          assert ApplyStep(cfg, w, i, c).handlers == w.handlers;
        } else if w.handlers[i].AtNotify? {
          NotifyPays(cfg, t, w, i, c);
        } else {
          StepPays(cfg, t, w, i, c);
        }
      }
    case LoseNotifications(i) =>
      if i < |w.queues| {
        ChangeQueue(t, w, i, []);
      }
    case Crash(i) =>
      if i < |w.handlers| {
        ChangeQueue(t, w, i, []);
        ChangeHandler(t, w.(queues := w.queues[i := []]), i, Done(Ok(Disabled)));
      }
    case _ =>
  }

  lemma {:induction false} SpendsDown(cfg: Config, start: Time, t: Tariff, w: World, es: seq<Event>)
    requires cfg.cooldown > 0 && Inv(cfg, start, w) && t.echo == |w.handlers| * (t.call + t.step)
    requires forall e :: e in es ==> Quiet(e)
    ensures Spent(cfg, t, w, es) + Potential(t, Run(cfg, w, es)) <= Potential(t, w)
    ensures Inv(cfg, start, Run(cfg, w, es))
  {
    if es != [] {
      var front, e := es[..|es| - 1], es[|es| - 1];
      SpendsDown(cfg, start, t, w, front);
      ApplyKeepsInv(cfg, start, Run(cfg, w, front), e);
      QuietEventPays(cfg, start, t, Run(cfg, w, front), e);
    }
  }

  /** Without further ingest, whatever is spent on handler calls and steps comes out of the
      work that was pending at the outset: every such run is finite. */
  lemma FeedbackDiesOut(cfg: Config, start: Time, w: World, es: seq<Event>, call: nat, step: nat)
    requires cfg.cooldown > 0 && Inv(cfg, start, w)
    requires forall e :: e in es ==> Quiet(e)
    ensures var t := TariffFor(|w.handlers|, call, step);
      Spent(cfg, t, w, es) + Potential(t, Run(cfg, w, es)) <= Potential(t, w)
    ensures Inv(cfg, start, Run(cfg, w, es))
  {
    SpendsDown(cfg, start, TariffFor(|w.handlers|, call, step), w, es);
  }

  // ---------------------------------------------------------------- calls and steps, counted

  // Event `k` of the run begins a handler call: a delivery to an instance at rest.
  ghost predicate CallAt(cfg: Config, w: World, es: seq<Event>, k: nat)
    requires Shape(w)
  {
    k < |es| && es[k].Deliver? && Delivers(Run(cfg, w, es[..k]), es[k].instance)
  }

  predicate Moves(w: World, i: nat) {
    i < |w.handlers| && !w.handlers[i].Done?
  }

  // Event `k` of the run is a step of a handler that is not at rest.
  ghost predicate StepAt(cfg: Config, w: World, es: seq<Event>, k: nat)
    requires Shape(w)
  {
    k < |es| && es[k].StepHandler? && Moves(Run(cfg, w, es[..k]), es[k].instance)
  }

  ghost function Calls(cfg: Config, w: World, es: seq<Event>): set<nat>
    requires Shape(w)
  {
    set k: nat | k < |es| && CallAt(cfg, w, es, k)
  }

  ghost function Steps(cfg: Config, w: World, es: seq<Event>): set<nat>
    requires Shape(w)
  {
    set k: nat | k < |es| && StepAt(cfg, w, es, k)
  }

  lemma SameBefore(cfg: Config, w: World, es: seq<Event>, e: Event, k: nat)
    requires Shape(w) && k < |es|
    ensures CallAt(cfg, w, es + [e], k) <==> CallAt(cfg, w, es, k)
    ensures StepAt(cfg, w, es + [e], k) <==> StepAt(cfg, w, es, k)
  {
    assert (es + [e])[..k] == es[..k];
  }

  lemma AtTheEnd(cfg: Config, w: World, es: seq<Event>, e: Event)
    requires Shape(w)
    ensures CallAt(cfg, w, es + [e], |es|) <==> e.Deliver? && Delivers(Run(cfg, w, es), e.instance)
    ensures StepAt(cfg, w, es + [e], |es|) <==> e.StepHandler? && Moves(Run(cfg, w, es), e.instance)
  {
    assert (es + [e])[..|es|] == es;
  }

  lemma CallsNext(cfg: Config, w: World, es: seq<Event>, e: Event)
    requires Shape(w)
    ensures |Calls(cfg, w, es + [e])| == |Calls(cfg, w, es)| + (if CallAt(cfg, w, es + [e], |es|) then 1 else 0)
  {
    forall k: nat | k < |es| ensures CallAt(cfg, w, es + [e], k) <==> CallAt(cfg, w, es, k) {
      SameBefore(cfg, w, es, e, k);
    }
    assert Calls(cfg, w, es + [e]) == Calls(cfg, w, es) + (if CallAt(cfg, w, es + [e], |es|) then {|es|} else {});
  }

  lemma StepsNext(cfg: Config, w: World, es: seq<Event>, e: Event)
    requires Shape(w)
    ensures |Steps(cfg, w, es + [e])| == |Steps(cfg, w, es)| + (if StepAt(cfg, w, es + [e], |es|) then 1 else 0)
  {
    forall k: nat | k < |es| ensures StepAt(cfg, w, es + [e], k) <==> StepAt(cfg, w, es, k) {
      SameBefore(cfg, w, es, e, k);
    }
    assert Steps(cfg, w, es + [e]) == Steps(cfg, w, es) + (if StepAt(cfg, w, es + [e], |es|) then {|es|} else {});
  }

  lemma {:induction false} SpentOnCalls(cfg: Config, t: Tariff, w: World, es: seq<Event>)
    requires Shape(w)
    ensures t.call == 1 && t.step == 0 ==> Spent(cfg, t, w, es) == |Calls(cfg, w, es)|
    ensures t.call == 0 && t.step == 1 ==> Spent(cfg, t, w, es) == |Steps(cfg, w, es)|
  {
    if es != [] {
      var front, e := es[..|es| - 1], es[|es| - 1];
      assert es == front + [e];
      SpentOnCalls(cfg, t, w, front);
      AtTheEnd(cfg, w, front, e);
      CallsNext(cfg, w, front, e);
      StepsNext(cfg, w, front, e);
    }
  }

  // ---------------------------------------------------------------- what is queued, counted

  function CountOrdinary(rows: seq<Alert>, q: seq<Notification>): nat {
    if q == [] then 0 else (if Ordinary(rows, q[0].alertId) then 1 else 0) + CountOrdinary(rows, q[1..])
  }

  // The notification is of a stored alert that is no escalation.
  predicate OrdinaryAt(rows: seq<Alert>, q: seq<Notification>, k: nat) {
    k < |q| && FindRow(rows, q[k].alertId).Some? && FindRow(rows, q[k].alertId).value.alertType != "auto_escalated"
  }

  ghost function OrdinaryPlaces(rows: seq<Alert>, q: seq<Notification>): set<nat> {
    set k: nat | k < |q| && OrdinaryAt(rows, q, k)
  }

  lemma OrdinaryPlacesSnoc(rows: seq<Alert>, q: seq<Notification>, x: Notification)
    ensures |OrdinaryPlaces(rows, q + [x])| == |OrdinaryPlaces(rows, q)| + (if OrdinaryAt(rows, q + [x], |q|) then 1 else 0)
  {
    assert forall k: nat :: k < |q| ==> (OrdinaryAt(rows, q + [x], k) <==> OrdinaryAt(rows, q, k));
    assert OrdinaryPlaces(rows, q + [x]) == OrdinaryPlaces(rows, q) + if OrdinaryAt(rows, q + [x], |q|) then {|q|} else {};
  }

  lemma {:induction false} CountOrdinaryIs(rows: seq<Alert>, q: seq<Notification>)
    ensures CountOrdinary(rows, q) == |OrdinaryPlaces(rows, q)|
  {
    if q == [] {
      assert OrdinaryPlaces(rows, q) == {};
    } else {
      var front, x := q[..|q| - 1], q[|q| - 1];
      CountOrdinaryIs(rows, front);
      CountOrdinarySnoc(rows, front, x);
      OrdinaryPlacesSnoc(rows, front, x);
      assert q == front + [x];
    }
  }

  lemma {:induction false} CountOrdinarySnoc(rows: seq<Alert>, q: seq<Notification>, x: Notification)
    ensures CountOrdinary(rows, q + [x]) == CountOrdinary(rows, q) + (if Ordinary(rows, x.alertId) then 1 else 0)
  {
    if q == [] {
      assert [] + [x] == [x] && [x][1..] == [];
    } else {
      assert (q + [x])[1..] == q[1..] + [x];
      CountOrdinarySnoc(rows, q[1..], x);
    }
  }

  function Queued(queues: seq<seq<Notification>>): nat {
    if queues == [] then 0 else |queues[0]| + Queued(queues[1..])
  }

  function QueuedOrdinary(rows: seq<Alert>, queues: seq<seq<Notification>>): nat {
    if queues == [] then 0 else CountOrdinary(rows, queues[0]) + QueuedOrdinary(rows, queues[1..])
  }

  lemma Distributes(m: nat, a: nat, b: nat)
    ensures m * (a + b) == m * a + m * b
  {
  }

  lemma {:induction false} QueuePrice(rows: seq<Alert>, m: nat, q: seq<Notification>)
    ensures QueueCost(rows, TariffFor(m, 1, 0), q) == |q| + m * CountOrdinary(rows, q)
    ensures QueueCost(rows, TariffFor(m, 0, 1), q) == |q| + (4 + m) * CountOrdinary(rows, q)
  {
    if q != [] {
      QueuePrice(rows, m, q[1..]);
      Distributes(m, 1, CountOrdinary(rows, q[1..]));
      Distributes(4 + m, 1, CountOrdinary(rows, q[1..]));
    }
  }

  lemma {:induction false} QueuesPrice(rows: seq<Alert>, m: nat, qs: seq<seq<Notification>>)
    ensures Sum(QueueCosts(rows, TariffFor(m, 1, 0), qs)) == Queued(qs) + m * QueuedOrdinary(rows, qs)
    ensures Sum(QueueCosts(rows, TariffFor(m, 0, 1), qs)) == Queued(qs) + (4 + m) * QueuedOrdinary(rows, qs)
  {
    if qs != [] {
      QueuesPrice(rows, m, qs[1..]);
      QueuePrice(rows, m, qs[0]);
      assert QueueCosts(rows, TariffFor(m, 1, 0), qs)[1..] == QueueCosts(rows, TariffFor(m, 1, 0), qs[1..]);
      assert QueueCosts(rows, TariffFor(m, 0, 1), qs)[1..] == QueueCosts(rows, TariffFor(m, 0, 1), qs[1..]);
      Distributes(m, CountOrdinary(rows, qs[0]), QueuedOrdinary(rows, qs[1..]));
      Distributes(4 + m, CountOrdinary(rows, qs[0]), QueuedOrdinary(rows, qs[1..]));
    }
  }

  lemma RestingCostsNothing(rows: seq<Alert>, t: Tariff, handlers: seq<Handler>)
    requires forall i :: 0 <= i < |handlers| ==> handlers[i].Done?
    ensures Sum(HandlerCosts(rows, t, handlers)) == 0
  {
    SumZero(HandlerCosts(rows, t, handlers));
  }

  /** With any number m of instances, all at rest, and n notifications on their queues, o of them for
      ordinary alerts, every run without further ingest makes at most n + m * o handler calls, which
      take at most n + (4 + m) * o steps. */
  lemma CallsAndStepsAreBounded(cfg: Config, start: Time, w: World, es: seq<Event>)
    requires cfg.cooldown > 0 && Inv(cfg, start, w)
    requires forall i :: 0 <= i < |w.handlers| ==> w.handlers[i].Done?
    requires forall e :: e in es ==> Quiet(e)
    ensures |Calls(cfg, w, es)| <= Queued(w.queues) + |w.handlers| * QueuedOrdinary(w.store.alerts, w.queues)
    ensures |Steps(cfg, w, es)| <= Queued(w.queues) + (4 + |w.handlers|) * QueuedOrdinary(w.store.alerts, w.queues)
  {
    var m, rows := |w.handlers|, w.store.alerts;
    QueuesPrice(rows, m, w.queues);
    RestingCostsNothing(rows, TariffFor(m, 1, 0), w.handlers);
    RestingCostsNothing(rows, TariffFor(m, 0, 1), w.handlers);
    FeedbackDiesOut(cfg, start, w, es, 1, 0);
    FeedbackDiesOut(cfg, start, w, es, 0, 1);
    SpentOnCalls(cfg, TariffFor(m, 1, 0), w, es);
    SpentOnCalls(cfg, TariffFor(m, 0, 1), w, es);
  }

  /** With one instance at rest and n notifications queued, o of them for ordinary alerts, any run
      without further ingest makes at most n + o handler calls: 2n when all are ordinary. */
  lemma SingleInstanceCalls(cfg: Config, start: Time, w: World, es: seq<Event>)
    requires cfg.cooldown > 0 && Inv(cfg, start, w)
    requires |w.handlers| == 1 && w.handlers[0].Done?
    requires forall e :: e in es ==> Quiet(e)
    ensures |Calls(cfg, w, es)| <= |w.queues[0]| + CountOrdinary(w.store.alerts, w.queues[0])
  {
    CallsAndStepsAreBounded(cfg, start, w, es);
    assert w.queues == [w.queues[0]] && w.queues[1..] == [];
  }

  /** Nothing is left to pay exactly when every queue is empty and every handler is at rest. */
  lemma DrainedIff(w: World)
    ensures Potential(TariffFor(|w.handlers|, 1, 1), w) == 0 <==>
            && (forall i :: 0 <= i < |w.queues| ==> w.queues[i] == [])
            && (forall i :: 0 <= i < |w.handlers| ==> w.handlers[i].Done?)
  {
    var t := TariffFor(|w.handlers|, 1, 1);
    var rows := w.store.alerts;
    SumZero(QueueCosts(rows, t, w.queues));
    SumZero(HandlerCosts(rows, t, w.handlers));
    assert forall i :: 0 <= i < |w.queues| ==> (QueueCosts(rows, t, w.queues)[i] == 0 <==> w.queues[i] == []);
    assert forall i :: 0 <= i < |w.handlers| ==> (HandlerCosts(rows, t, w.handlers)[i] == 0 <==> w.handlers[i].Done?);
  }
}
