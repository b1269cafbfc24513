/** What every run of the pipeline guarantees. */
module PipelineProperties {
  import opened Common
  import opened AlertStore
  import opened Cooldown
  import opened Escalation
  import opened Pipeline

  // ================================================================ append-only history

  ghost predicate Extends(w: World, w': World) {
    && w.store.alerts <= w'.store.alerts
    && w.claims <= w'.claims
    && w.emissions <= w'.emissions
    && (forall d :: d in w.owner ==> d in w'.owner && w'.owner[d] == w.owner[d])
  }

  lemma AdvanceExtends(cfg: Config, st: Store, h: Handler, c: Conditions)
    ensures st.alerts <= Advance(cfg, st, h, c).store.alerts
  {
  }

  lemma ApplyExtends(cfg: Config, w: World, e: Event)
    requires Shape(w)
    ensures Extends(w, Apply(cfg, w, e))
  {
    if e.StepHandler? && e.instance < |w.handlers| {
      AdvanceExtends(cfg, w.store, w.handlers[e.instance], e.conditions.(storeNow := w.clock));
    }
  }

  /** Rows, claims and emissions are only ever appended, and the owner of a device never changes. */
  lemma {:induction false} RunsExtend(cfg: Config, w: World, es: seq<Event>)
    requires Shape(w)
    ensures Extends(w, Run(cfg, w, es))
  {
    if es != [] {
      RunsExtend(cfg, w, es[..|es| - 1]);
      ApplyExtends(cfg, Run(cfg, w, es[..|es| - 1]), es[|es| - 1]);
    }
  }

  // ================================================================ the rate bound

  /** The stored escalation rows of a device that alerts of one type triggered, charged to a claim
      made in `[lo, hi)`. */
  function EmittedIn(w: World, deviceId: Uuid, alertType: string, lo: Time, hi: Time): set<nat> {
    set e: nat | e < |w.emissions| && w.emissions[e].claim < |w.claims|
                 && w.emissions[e].row.deviceId == deviceId && w.emissions[e].source.alertType == alertType
                 && lo <= w.claims[w.emissions[e].claim].at < hi
  }

  function CeilDiv(a: nat, b: nat): nat
    requires b > 0
  {
    (a + b - 1) / b
  }

  lemma DivStep(x: int, y: int, c: int)
    requires c > 0 && x + c <= y
    ensures x / c < y / c
  {
  }

  /** Instants of `[lo, hi)` that are pairwise at least `c` apart are at most ceil((hi - lo) / c). */
  lemma SpacedInstantsAreFew(s: set<nat>, at: nat -> Time, lo: Time, hi: Time, c: nat)
    requires c > 0 && lo <= hi
    requires forall e :: e in s ==> lo <= at(e) < hi
    requires forall e, f :: e in s && f in s && e != f ==> at(e) + c <= at(f) || at(f) + c <= at(e)
    ensures |s| <= CeilDiv(hi - lo, c)
  {
    var slot := (e: nat) => (at(e) - lo) / c;
    forall e | e in s ensures 0 <= slot(e) < CeilDiv(hi - lo, c) {
      DivStep(at(e) - lo, hi - lo + c - 1, c);
    }
    forall e, f | e in s && f in s && slot(e) == slot(f) ensures e == f {
      if e != f {
        if at(e) + c <= at(f) {
          DivStep(at(e) - lo, at(f) - lo, c);
        } else {
          DivStep(at(f) - lo, at(e) - lo, c);
        }
      }
    }
    Pigeonhole(s, slot, CeilDiv(hi - lo, c));
  }

  function ChargedAt(w: World, e: nat): Time {
    if e < |w.emissions| && w.emissions[e].claim < |w.claims| then w.claims[w.emissions[e].claim].at else 0
  }

  /** At most the interval divided by the cooldown, rounded up. */
  ghost predicate RateWithin(cfg: Config, w: World, deviceId: Uuid, alertType: string, lo: Time, hi: Time)
    requires cfg.cooldown > 0
  {
    |EmittedIn(w, deviceId, alertType, lo, hi)| <= (hi - lo + cfg.cooldown - 1) / cfg.cooldown
  }

  ghost predicate Apart(cfg: Config, w: World, e: nat, f: nat) {
    ChargedAt(w, e) + cfg.cooldown <= ChargedAt(w, f) || ChargedAt(w, f) + cfg.cooldown <= ChargedAt(w, e)
  }

  // Rows of one device and type are charged to different claims on one key.
  lemma ChargedApart(cfg: Config, start: Time, w: World, e: nat, f: nat)
    requires Inv(cfg, start, w) && e < |w.emissions| && f < |w.emissions| && e != f
    requires w.emissions[e].row.deviceId == w.emissions[f].row.deviceId
    requires w.emissions[e].source.alertType == w.emissions[f].source.alertType
    ensures Apart(cfg, w, e, f)
  {
    var (x, y) := (w.emissions[e], w.emissions[f]);
    assert EmissionOk(cfg, w.store.alerts, w.claims, x) && EmissionOk(cfg, w.store.alerts, w.claims, y);
    assert x.source.deviceId == y.source.deviceId;
    assert x.claim != y.claim && w.claims[x.claim].key == w.claims[y.claim].key;
  }

  lemma FewWhenApart(cfg: Config, w: World, deviceId: Uuid, alertType: string, lo: Time, hi: Time)
    requires cfg.cooldown > 0 && lo <= hi
    requires forall e, f :: e in EmittedIn(w, deviceId, alertType, lo, hi) && f in EmittedIn(w, deviceId, alertType, lo, hi) && e != f
                            ==> Apart(cfg, w, e, f)
    ensures RateWithin(cfg, w, deviceId, alertType, lo, hi)
  {
    var s, at := EmittedIn(w, deviceId, alertType, lo, hi), (e: nat) => ChargedAt(w, e);
    forall e, f | e in s && f in s && e != f ensures at(e) + cfg.cooldown <= at(f) || at(f) + cfg.cooldown <= at(e) {
      assert Apart(cfg, w, e, f);
    }
    SpacedInstantsAreFew(s, at, lo, hi, cfg.cooldown);
  }

  lemma SpacedClaimsAreFew(cfg: Config, start: Time, w: World, deviceId: Uuid, alertType: string, lo: Time, hi: Time)
    requires cfg.cooldown > 0 && lo <= hi && Inv(cfg, start, w)
    ensures RateWithin(cfg, w, deviceId, alertType, lo, hi)
  {
    var s := EmittedIn(w, deviceId, alertType, lo, hi);
    forall e, f | e in s && f in s && e != f ensures Apart(cfg, w, e, f) {
      ChargedApart(cfg, start, w, e, f);
    }
    FewWhenApart(cfg, w, deviceId, alertType, lo, hi);
  }

  /** Under every interleaving of any number of instances, with storage failures and crashes
      between steps, the claims made in an interval of length L yield, for each device and alert
      type, at most ceil(L / cooldown) stored escalation rows. */
  lemma EscalationRate(cfg: Config, instances: nat, start: Time, es: seq<Event>, deviceId: Uuid, alertType: string, lo: Time, hi: Time)
    requires cfg.cooldown > 0 && lo <= hi
    ensures RateWithin(cfg, Run(cfg, Initial(instances, start), es), deviceId, alertType, lo, hi)
  {
    Reachable(cfg, instances, start, es);
    SpacedClaimsAreFew(cfg, start, Run(cfg, Initial(instances, start), es), deviceId, alertType, lo, hi);
  }

  function EmittedFor(w: World, deviceId: Uuid, alertType: string): set<nat> {
    set e: nat | e < |w.emissions| && w.emissions[e].row.deviceId == deviceId && w.emissions[e].source.alertType == alertType
  }

  /** At most one escalation row for the device and type, and one more for each cooldown that has passed. */
  ghost predicate TotalWithinPeriods(cfg: Config, start: Time, w: World, deviceId: Uuid, alertType: string)
    requires cfg.cooldown > 0
  {
    |EmittedFor(w, deviceId, alertType)| <= 1 + (w.clock - start) / cfg.cooldown
  }

  lemma EmittedForIsEmittedIn(cfg: Config, start: Time, w: World, deviceId: Uuid, alertType: string)
    requires Inv(cfg, start, w)
    ensures EmittedFor(w, deviceId, alertType) <= EmittedIn(w, deviceId, alertType, start, w.clock + 1)
  {
  }

  lemma ClockHasMoved(cfg: Config, start: Time, w: World)
    requires Inv(cfg, start, w)
    ensures start <= w.clock
  {
  }

  lemma TotalFromHistory(cfg: Config, start: Time, w: World, deviceId: Uuid, alertType: string)
    requires cfg.cooldown > 0 && start <= w.clock
    requires EmittedFor(w, deviceId, alertType) <= EmittedIn(w, deviceId, alertType, start, w.clock + 1)
    requires RateWithin(cfg, w, deviceId, alertType, start, w.clock + 1)
    ensures TotalWithinPeriods(cfg, start, w, deviceId, alertType)
  {
    FewerInSubset(EmittedFor(w, deviceId, alertType), EmittedIn(w, deviceId, alertType, start, w.clock + 1));
    WholeRun(w.clock - start, cfg.cooldown);
  }

  lemma {:induction false} FewerInSubset(s: set<nat>, t: set<nat>)
    requires s <= t
    ensures |s| <= |t|
  {
    if s != {} {
      var x :| x in s;
      FewerInSubset(s - {x}, t - {x});
    }
  }

  /** Since the run began, each device and alert type has at most 1 + elapsed / cooldown escalation rows. */
  lemma EscalationTotal(cfg: Config, instances: nat, start: Time, es: seq<Event>, deviceId: Uuid, alertType: string)
    requires cfg.cooldown > 0
    ensures TotalWithinPeriods(cfg, start, Run(cfg, Initial(instances, start), es), deviceId, alertType)
  {
    Reachable(cfg, instances, start, es);
    var w := Run(cfg, Initial(instances, start), es);
    ClockHasMoved(cfg, start, w);
    SpacedClaimsAreFew(cfg, start, w, deviceId, alertType, start, w.clock + 1);
    EmittedForIsEmittedIn(cfg, start, w, deviceId, alertType);
    TotalFromHistory(cfg, start, w, deviceId, alertType);
  }

  lemma CancelLess(p: int, n: int, c: nat)
    requires p * c < n * c
    ensures p < n
  {
  }

  lemma WholeRun(elapsed: nat, c: nat)
    requires c > 0
    ensures CeilDiv(elapsed + 1, c) <= 1 + elapsed / c
  {
    var q, p := elapsed / c, (elapsed + c) / c;
    var r, s := elapsed % c, (elapsed + c) % c;
    assert elapsed == q * c + r;
    assert elapsed + c == p * c + s;
    assert (q + 2) * c == q * c + 2 * c;
    CancelLess(p, q + 2, c);
  }

  ghost predicate LoggedOnce(emissions: seq<Emission>, a: Alert) {
    exists e :: 0 <= e < |emissions| && emissions[e].row == a
                && forall f :: 0 <= f < |emissions| && f != e ==> emissions[f].row.id != a.id
  }

  lemma LogIsExact(rows: seq<Alert>, claims: seq<Claim>, emissions: seq<Emission>, cfg: Config, a: Alert)
    requires LogOk(rows, emissions) && EmissionsOk(cfg, rows, claims, emissions)
    ensures a in rows && a.payload.EscalationPayload? <==> LoggedOnce(emissions, a)
  {
  }

  /** The history the bounds count is the table: every stored escalation row, whoever stored it
      and whether or not its insertion was acknowledged, appears in it exactly once. */
  lemma HistoryIsExact(cfg: Config, instances: nat, start: Time, es: seq<Event>, a: Alert)
    requires cfg.cooldown > 0
    ensures var w := Run(cfg, Initial(instances, start), es);
      a in w.store.alerts && a.payload.EscalationPayload? <==> LoggedOnce(w.emissions, a)
  {
    Reachable(cfg, instances, start, es);
    var w := Run(cfg, Initial(instances, start), es);
    LogIsExact(w.store.alerts, w.claims, w.emissions, cfg, a);
  }

  // ================================================================ when claims were made

  /** Step `k` of the run was the claim of an instance, granted on the device and type of its
      source by the clock of the cooldown store, with no cooldown running on them. */
  ghost predicate GrantedAt(cfg: Config, w0: World, es: seq<Event>, k: nat, c: Claim)
    requires Shape(w0)
  {
    && k < |es| && es[k].StepHandler?
    && var w := Run(cfg, w0, es[..k]);
       && es[k].instance < |w.handlers| && w.handlers[es[k].instance].AtClaim?
       && c.key == CooldownKey(w.handlers[es[k].instance].source.deviceId, w.handlers[es[k].instance].source.alertType)
       && c.at == w.clock && !Cooling(w.store.expires, c.key, w.clock)
  }

  ghost predicate WasGranted(cfg: Config, w0: World, es: seq<Event>, c: Claim)
    requires Shape(w0)
  {
    exists k: nat :: GrantedAt(cfg, w0, es, k, c)
  }

  lemma StillGranted(cfg: Config, w0: World, es: seq<Event>, e: Event, c: Claim)
    requires Shape(w0) && WasGranted(cfg, w0, es, c)
    ensures WasGranted(cfg, w0, es + [e], c)
  {
    var k: nat :| GrantedAt(cfg, w0, es, k, c);
    assert (es + [e])[..k] == es[..k];
    assert GrantedAt(cfg, w0, es + [e], k, c);
  }

  lemma NewClaim(cfg: Config, w: World, e: Event)
    requires Shape(w)
    ensures var w' := Apply(cfg, w, e);
      w'.claims == w.claims
      || (&& e.StepHandler? && e.instance < |w.handlers| && w.handlers[e.instance].AtClaim?
          && var source := w.handlers[e.instance].source;
             && w'.claims == w.claims + [Claim(CooldownKey(source.deviceId, source.alertType), w.clock)]
             && !Cooling(w.store.expires, CooldownKey(source.deviceId, source.alertType), w.clock))
  {
  }

  lemma {:induction false} EveryClaimWasGranted(cfg: Config, instances: nat, start: Time, es: seq<Event>, c: Claim)
    ensures c in Run(cfg, Initial(instances, start), es).claims ==> WasGranted(cfg, Initial(instances, start), es, c)
  {
    var w0 := Initial(instances, start);
    if es != [] && c in Run(cfg, w0, es).claims {
      var front, e := es[..|es| - 1], es[|es| - 1];
      assert es == front + [e];
      NewClaim(cfg, Run(cfg, w0, front), e);
      if c in Run(cfg, w0, front).claims {
        EveryClaimWasGranted(cfg, instances, start, front, c);
        StillGranted(cfg, w0, front, e, c);
      } else {
        assert es[..|front|] == front;
        assert GrantedAt(cfg, w0, es, |front|, c);
      }
    }
  }

  // ================================================================ what a handler has read

  /** Step `k` of the run was the window query of an instance for `source`: it found `ids` in the
      table as it stood then, of `seen` rows, with the cut-off `since` one window before the clock
      of that instance. */
  ghost predicate ReadAt(cfg: Config, w0: World, es: seq<Event>, k: nat, source: Alert, ids: seq<Uuid>, seen: nat, since: Time)
    requires Shape(w0)
  {
    && k < |es| && es[k].StepHandler?
    && var w := Run(cfg, w0, es[..k]);
       && es[k].instance < |w.handlers| && w.handlers[es[k].instance] == AtWindow(source)
       && seen == |w.store.alerts|
       && since == es[k].conditions.appNow - cfg.window
       && ids == WindowIds(w.store.alerts, source.deviceId, source.alertType, since)
  }

  ghost predicate WasRead(cfg: Config, w0: World, es: seq<Event>, source: Alert, ids: seq<Uuid>, seen: nat, since: Time)
    requires Shape(w0)
  {
    exists k: nat :: ReadAt(cfg, w0, es, k, source, ids, seen, since)
  }

  ghost predicate HandlerRead(cfg: Config, w0: World, es: seq<Event>, h: Handler)
    requires Shape(w0)
  {
    h.AtClaim? || h.AtInsert? ==> WasRead(cfg, w0, es, h.source, h.sourceIds, h.seen, h.since)
  }

  ghost predicate EmissionRead(cfg: Config, w0: World, es: seq<Event>, x: Emission)
    requires Shape(w0)
  {
    WasRead(cfg, w0, es, x.source, x.sourceIds, x.seen, x.since)
  }

  // What a run has read, a longer run has read.
  lemma StillRead(cfg: Config, w0: World, es: seq<Event>, e: Event, source: Alert, ids: seq<Uuid>, seen: nat, since: Time)
    requires Shape(w0) && WasRead(cfg, w0, es, source, ids, seen, since)
    ensures WasRead(cfg, w0, es + [e], source, ids, seen, since)
  {
    var k: nat :| ReadAt(cfg, w0, es, k, source, ids, seen, since);
    assert (es + [e])[..k] == es[..k];
    assert ReadAt(cfg, w0, es + [e], k, source, ids, seen, since);
  }

  // A handler comes to its claim from the window query.
  lemma ClaimsWhatItRead(cfg: Config, w: World, i: nat, c: Conditions)
    requires i < |w.handlers| && StepOf(cfg, w, i, c).handler.AtClaim?
    ensures var h := StepOf(cfg, w, i, c).handler;
      && w.handlers[i] == AtWindow(h.source)
      && h.seen == |w.store.alerts| && h.since == c.appNow - cfg.window
      && h.sourceIds == WindowIds(w.store.alerts, h.source.deviceId, h.source.alertType, h.since)
  {
  }

  // It keeps what that returned.
  lemma StepRead(cfg: Config, w0: World, es: seq<Event>, i: nat, c: Conditions)
    requires Shape(w0)
    requires i < |Run(cfg, w0, es).handlers| && HandlerRead(cfg, w0, es, Run(cfg, w0, es).handlers[i])
    ensures HandlerRead(cfg, w0, es + [StepHandler(i, c)], StepOf(cfg, Run(cfg, w0, es), i, c).handler)
  {
    var w := Run(cfg, w0, es);
    var h := w.handlers[i];
    var h' := StepOf(cfg, w, i, c).handler;
    if h'.AtClaim? {
      ClaimsWhatItRead(cfg, w, i, c);
      assert (es + [StepHandler(i, c)])[..|es|] == es;
      assert ReadAt(cfg, w0, es + [StepHandler(i, c)], |es|, h'.source, h'.sourceIds, h'.seen, h'.since);
    } else if h'.AtInsert? {
      StillRead(cfg, w0, es, StepHandler(i, c), h.source, h.sourceIds, h.seen, h.since);
    }
  }

  // Apart from the handler that steps, an event leaves handlers as they were or puts them elsewhere.
  lemma OtherHandlers(cfg: Config, w: World, e: Event, i: nat)
    requires Shape(w) && i < |w.handlers| && !(e.StepHandler? && e.instance == i)
    ensures var h := Apply(cfg, w, e).handlers[i];
      h == w.handlers[i] || !(h.AtClaim? || h.AtInsert?)
  {
  }

  lemma NewEmission(cfg: Config, w: World, e: Event)
    requires Shape(w)
    ensures var w' := Apply(cfg, w, e);
      w'.emissions == w.emissions
      || (&& e.StepHandler? && e.instance < |w.handlers| && w.handlers[e.instance].AtInsert?
          && var h := w.handlers[e.instance];
             && |w'.emissions| == |w.emissions| + 1 && w.emissions == w'.emissions[..|w.emissions|]
             && var x := w'.emissions[|w.emissions|];
                x.source == h.source && x.sourceIds == h.sourceIds && x.seen == h.seen && x.since == h.since)
  {
  }

  ghost predicate AllHandlersRead(cfg: Config, w0: World, es: seq<Event>, handlers: seq<Handler>)
    requires Shape(w0)
  {
    forall i :: 0 <= i < |handlers| ==> HandlerRead(cfg, w0, es, handlers[i])
  }

  ghost predicate AllEmissionsRead(cfg: Config, w0: World, es: seq<Event>, emissions: seq<Emission>)
    requires Shape(w0)
  {
    forall e :: 0 <= e < |emissions| ==> EmissionRead(cfg, w0, es, emissions[e])
  }

  lemma HandlersStayRead(cfg: Config, w0: World, es: seq<Event>, e: Event)
    requires Shape(w0) && AllHandlersRead(cfg, w0, es, Run(cfg, w0, es).handlers)
    ensures AllHandlersRead(cfg, w0, es + [e], Apply(cfg, Run(cfg, w0, es), e).handlers)
  {
    var w := Run(cfg, w0, es);
    forall i | 0 <= i < |w.handlers| ensures HandlerRead(cfg, w0, es + [e], Apply(cfg, w, e).handlers[i]) {
      var h := w.handlers[i];
      assert HandlerRead(cfg, w0, es, h);
      if e.StepHandler? && e.instance == i {
        StepRead(cfg, w0, es, i, e.conditions);
      } else {
        OtherHandlers(cfg, w, e, i);
        if h.AtClaim? || h.AtInsert? {
          StillRead(cfg, w0, es, e, h.source, h.sourceIds, h.seen, h.since);
        }
      }
    }
  }

  lemma EmissionsStayRead(cfg: Config, w0: World, es: seq<Event>, e: Event)
    requires Shape(w0) && AllHandlersRead(cfg, w0, es, Run(cfg, w0, es).handlers)
    requires AllEmissionsRead(cfg, w0, es, Run(cfg, w0, es).emissions)
    ensures AllEmissionsRead(cfg, w0, es + [e], Apply(cfg, Run(cfg, w0, es), e).emissions)
  {
    var w := Run(cfg, w0, es);
    var emissions := Apply(cfg, w, e).emissions;
    NewEmission(cfg, w, e);
    forall n | 0 <= n < |emissions| ensures EmissionRead(cfg, w0, es + [e], emissions[n]) {
      var x := emissions[n];
      if n < |w.emissions| {
        assert EmissionRead(cfg, w0, es, w.emissions[n]);
      } else {
        assert HandlerRead(cfg, w0, es, w.handlers[e.instance]);
      }
      StillRead(cfg, w0, es, e, x.source, x.sourceIds, x.seen, x.since);
    }
  }

  /** Whatever run it is, a handler that is claiming or inserting, and an escalation that was
      stored, go back to one window query of that run. */
  lemma {:induction false} EverythingWasRead(cfg: Config, instances: nat, start: Time, es: seq<Event>)
    ensures var w0 := Initial(instances, start);
      var w := Run(cfg, w0, es);
      AllHandlersRead(cfg, w0, es, w.handlers) && AllEmissionsRead(cfg, w0, es, w.emissions)
  {
    if es != [] {
      var w0 := Initial(instances, start);
      var front, e := es[..|es| - 1], es[|es| - 1];
      assert es == front + [e];
      EverythingWasRead(cfg, instances, start, front);
      HandlersStayRead(cfg, w0, front, e);
      EmissionsStayRead(cfg, w0, front, e);
    }
  }

  // ================================================================ exact sources

  /** What an emitted row says about its sources, against the table `read` it was computed from
      and the cut-off `since`. */
  ghost predicate SourcesExact(cfg: Config, read: seq<Alert>, since: Time, x: Emission) {
    && x.row.payload.EscalationPayload?
    && x.row.alertType == "auto_escalated" && x.row.severity == "critical"
    && x.row.message == "Repeated alert burst auto-escalated"
    && x.row.deviceId == x.source.deviceId && x.row.clientId == x.source.clientId
    && x.row.payload.threshold == cfg.threshold && x.row.payload.detectedAt == x.row.occurredAt
    && (cfg.window >= 0 ==> 0 <= cfg.window - x.row.payload.windowSeconds * 1_000_000_000 < 1_000_000_000)
    && var sources := WindowRows(read, x.source.deviceId, x.source.alertType, since);
       && x.row.payload.sourceAlertIds == Texts(Ids(sources))
       && x.row.payload.count == |sources| >= cfg.threshold
       && StrictlyOrdered(sources) && UniqueIds(sources)
       && (forall a :: a in sources <==>
             a in read && a.deviceId == x.row.deviceId && a.alertType == x.source.alertType && a.occurredAt >= since)
       && (forall a :: a in sources ==> a.alertType != "auto_escalated" && a.clientId == x.row.clientId)
       && (x.source in sources <==> x.source.occurredAt >= since)
  }

  /** Step `k` of the run was the window query of the row's handler, and the row lists exactly what
      the table held at that step and had occurred no more than one window before that handler's clock. */
  ghost predicate ListsItsRead(cfg: Config, w0: World, es: seq<Event>, k: nat, x: Emission)
    requires Shape(w0)
  {
    && k < |es| && es[k].StepHandler?
    && var w := Run(cfg, w0, es[..k]);
       && es[k].instance < |w.handlers| && w.handlers[es[k].instance] == AtWindow(x.source)
       && SourcesExact(cfg, w.store.alerts, es[k].conditions.appNow - cfg.window, x)
  }

  ghost predicate ListsSomeRead(cfg: Config, w0: World, es: seq<Event>, x: Emission)
    requires Shape(w0)
  {
    exists k: nat :: ListsItsRead(cfg, w0, es, k, x)
  }

  /** In every run each escalation row goes back to one step of the run, the window query of its
      handler: it is a critical marker for the device and client of its trigger and lists exactly
      the rows of that device and type which the table held at that step and which had occurred no
      more than one window before the handler's clock, once each and in (occurred_at, id) order,
      with the right count, at or above the threshold; no marker is ever a source, sources share
      the row's device and client, and the alert that triggered the row is listed exactly when it
      is itself that recent. */
  lemma EverySourceListIsExact(cfg: Config, instances: nat, start: Time, es: seq<Event>, x: Emission)
    requires cfg.cooldown > 0
    ensures x in Run(cfg, Initial(instances, start), es).emissions ==> ListsSomeRead(cfg, Initial(instances, start), es, x)
  {
    var w0 := Initial(instances, start);
    if x in Run(cfg, w0, es).emissions {
      EmittedAsBuilt(cfg, instances, start, es, x);
      var k := ReadOf(cfg, instances, start, es, x);
      ListsWhatWasRead(cfg, instances, start, es, k, x);
    }
  }

  lemma ListsWhatWasRead(cfg: Config, instances: nat, start: Time, es: seq<Event>, k: nat, x: Emission)
    requires cfg.cooldown > 0
    requires ReadAt(cfg, Initial(instances, start), es, k, x.source, x.sourceIds, x.seen, x.since)
    requires x.row == BuildEscalation(cfg, x.source, x.sourceIds, x.row.occurredAt).(id := x.row.id)
    requires |x.sourceIds| >= cfg.threshold
    ensures ListsItsRead(cfg, Initial(instances, start), es, k, x)
  {
    OwnedAtRead(cfg, instances, start, es, k, x);
    var w := Run(cfg, Initial(instances, start), es[..k]);
    ListsItsSources(cfg, w.owner, w.store.alerts, x);
  }

  lemma EmittedAsBuilt(cfg: Config, instances: nat, start: Time, es: seq<Event>, x: Emission)
    requires cfg.cooldown > 0 && x in Run(cfg, Initial(instances, start), es).emissions
    ensures x.row == BuildEscalation(cfg, x.source, x.sourceIds, x.row.occurredAt).(id := x.row.id)
    ensures |x.sourceIds| >= cfg.threshold
  {
    Reachable(cfg, instances, start, es);
    var w := Run(cfg, Initial(instances, start), es);
    assert EmissionOk(cfg, w.store.alerts, w.claims, x);
  }

  lemma ReadOf(cfg: Config, instances: nat, start: Time, es: seq<Event>, x: Emission) returns (k: nat)
    requires x in Run(cfg, Initial(instances, start), es).emissions
    ensures ReadAt(cfg, Initial(instances, start), es, k, x.source, x.sourceIds, x.seen, x.since)
  {
    EverythingWasRead(cfg, instances, start, es);
    assert EmissionRead(cfg, Initial(instances, start), es, x);
    k :| ReadAt(cfg, Initial(instances, start), es, k, x.source, x.sourceIds, x.seen, x.since);
  }

  // What a handler at its window query knows of the table.
  lemma OwnedAtRead(cfg: Config, instances: nat, start: Time, es: seq<Event>, k: nat, x: Emission)
    requires cfg.cooldown > 0
    requires ReadAt(cfg, Initial(instances, start), es, k, x.source, x.sourceIds, x.seen, x.since)
    ensures var at := Run(cfg, Initial(instances, start), es[..k]);
      Owned(at.owner, at.store.alerts) && x.source in at.store.alerts && !x.source.IsMarker()
  {
    Reachable(cfg, instances, start, es[..k]);
    var at := Run(cfg, Initial(instances, start), es[..k]);
    assert HandlerOk(cfg, at.store.alerts, at.handlers[es[k].instance]);
  }

  lemma ListsItsSources(cfg: Config, owner: map<Uuid, Uuid>, read: seq<Alert>, x: Emission)
    requires Owned(owner, read) && x.source in read && !x.source.IsMarker()
    requires x.row == BuildEscalation(cfg, x.source, x.sourceIds, x.row.occurredAt).(id := x.row.id)
    requires x.sourceIds == WindowIds(read, x.source.deviceId, x.source.alertType, x.since) && |x.sourceIds| >= cfg.threshold
    ensures SourcesExact(cfg, read, x.since, x)
  {
    WindowExact(read, x.source.deviceId, x.source.alertType, x.since);
  }

  // ================================================================ ownership and the stream listener

  /** Every row carries the client that owns its device, and every pending notification names a
      stored row together with that client: the listener's lookup finds the row and its
      client-mismatch branch is never taken. */
  lemma NotificationsMatchOwners(cfg: Config, instances: nat, start: Time, es: seq<Event>, i: nat, x: Notification)
    requires cfg.cooldown > 0
    requires i < instances && x in Run(cfg, Initial(instances, start), es).queues[i]
    ensures var w := Run(cfg, Initial(instances, start), es);
      var found := FindRow(w.store.alerts, x.alertId);
      && found.Some? && found.value.clientId == x.clientId
      && found.value.deviceId in w.owner && w.owner[found.value.deviceId] == x.clientId
  {
    Reachable(cfg, instances, start, es);
    var w := Run(cfg, Initial(instances, start), es);
    assert Announces(w.store.alerts, x);
  }
}
