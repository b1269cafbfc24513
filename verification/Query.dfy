/** The alert list: a query assembled from optional conditions, its argument list, and what the
    database makes of the two together. */
module Query {
  import opened Common
  import opened AlertStore
  import opened Pagination

  /** Reading a UUID or a time from text, and ILIKE, are taken as given functions. */
  datatype Env = Env(parseUuid: string -> Option<Uuid>, parseTime: string -> Option<Time>, like: (string, string) -> bool)

  datatype DeviceRow = DeviceRow(id: Uuid, clientId: Uuid, name: string)

  datatype Database = Database(alerts: seq<Alert>, devices: seq<DeviceRow>)

  datatype ListFilter = ListFilter(
    deviceId: Option<Uuid>, severities: seq<string>, from: Option<Time>, to: Option<Time>, search: Option<string>,
    pageSize: nat, offset: int)

  // ================================================================ the query and its arguments

  // A typed argument; a nil pointer or slice is NULL.
  datatype Arg =
    | UuidArg(id: Uuid)
    | OptUuidArg(optId: Option<Uuid>)
    | SeveritiesArg(names: Option<seq<string>>)
    | OptTimeArg(time: Option<Time>)
    | TextArg(text: string)
    | IntArg(n: int)

  // The numbers are placeholders: $1, $2, ...
  datatype Clause =
    | ClientIs(p: nat)
    | DeviceIs(p: nat)
    | SeverityIn(p: nat)
    | OccurredFrom(p: nat)
    | OccurredTo(p: nat)
    | SearchMatches(p: nat, idAt: Option<nat>)

  datatype Source = Alerts | AlertsJoinDevices(clientAt: nat)

  datatype Limits = Limits(limitAt: nat, offsetAt: nat)

  /** SELECT ... ORDER BY occurred_at DESC, id DESC LIMIT OFFSET, or SELECT COUNT(*) without limits. */
  datatype Sql = Sql(source: Source, where: seq<Clause>, limits: Option<Limits>)

  datatype Queries = Queries(list: Sql, count: Sql)

  const FIXED: seq<Clause> := [ClientIs(1), DeviceIs(2), SeverityIn(3), OccurredFrom(4), OccurredTo(5)]

  function AlertListQueries(env: Env, f: ListFilter): Queries {
    if f.search.None? then Queries(Sql(Alerts, FIXED, Some(Limits(6, 7))), Sql(Alerts, FIXED, None))
    else
      var joined := AlertsJoinDevices(1);
      if env.parseUuid(f.search.value).Some? then
        var where := FIXED + [SearchMatches(6, Some(7))];
        Queries(Sql(joined, where, Some(Limits(8, 9))), Sql(joined, where, None))
      else
        var where := FIXED + [SearchMatches(6, None)];
        Queries(Sql(joined, where, Some(Limits(7, 8))), Sql(joined, where, None))
  }

  method BuildAlertListQueries(env: Env, f: ListFilter) returns (q: Queries)
    ensures q == AlertListQueries(env, f)
  {
    var source := Alerts;
    var where := FIXED;
    var hasSearchDeviceId := false;
    if f.search.Some? {
      source := AlertsJoinDevices(1);
      var idAt: Option<nat> := None;
      if env.parseUuid(f.search.value).Some? {
        hasSearchDeviceId := true;
        idAt := Some(7);
      }
      where := where + [SearchMatches(6, idAt)];
    }
    var limitAt, offsetAt := 6, 7;
    if f.search.Some? {
      limitAt, offsetAt := 7, 8;
    }
    if hasSearchDeviceId {
      limitAt, offsetAt := 8, 9;
    }
    return Queries(Sql(source, where, Some(Limits(limitAt, offsetAt))), Sql(source, where, None));
  }

  function Pattern(search: string): string {
    "%" + search + "%"
  }

  function AlertListArgs(env: Env, clientId: Uuid, f: ListFilter): seq<Arg> {
    [UuidArg(clientId), OptUuidArg(f.deviceId),
     SeveritiesArg(if f.severities == [] then None else Some(f.severities)), OptTimeArg(f.from), OptTimeArg(f.to)]
    + (if f.search.None? then []
       else if env.parseUuid(f.search.value).Some?
       then [TextArg(Pattern(f.search.value)), UuidArg(env.parseUuid(f.search.value).value)]
       else [TextArg(Pattern(f.search.value))])
  }

  // ================================================================ how the database runs it

  predicate BoundClause(c: Clause, args: seq<Arg>) {
    && 1 <= c.p <= |args|
    && match c
       case ClientIs(p) => args[p - 1].UuidArg?
       case DeviceIs(p) => args[p - 1].OptUuidArg?
       case SeverityIn(p) => args[p - 1].SeveritiesArg?
       case OccurredFrom(p) => args[p - 1].OptTimeArg?
       case OccurredTo(p) => args[p - 1].OptTimeArg?
       case SearchMatches(p, idAt) =>
         args[p - 1].TextArg? && NulFree(args[p - 1].text) && (idAt.Some? ==> 1 <= idAt.value <= |args| && args[idAt.value - 1].UuidArg?)
  }

  predicate Mentions(q: Sql, p: nat) {
    || (exists k :: 0 <= k < |q.where| &&
          (q.where[k].p == p || (q.where[k].SearchMatches? && q.where[k].idAt == Some(p))))
    || (q.source.AlertsJoinDevices? && q.source.clientAt == p)
    || (q.limits.Some? && (q.limits.value.limitAt == p || q.limits.value.offsetAt == p))
  }

  /** Every placeholder has an argument of its type that PostgreSQL can take, and every argument a
      placeholder: the statement is refused otherwise. */
  predicate Bound(q: Sql, args: seq<Arg>) {
    && (forall k :: 0 <= k < |q.where| ==> BoundClause(q.where[k], args))
    && (q.source.AlertsJoinDevices? ==> 1 <= q.source.clientAt <= |args| && args[q.source.clientAt - 1].UuidArg?)
    && (q.limits.Some? ==>
          var l := q.limits.value;
          && 1 <= l.limitAt <= |args| && args[l.limitAt - 1].IntArg? && args[l.limitAt - 1].n >= 0
          && 1 <= l.offsetAt <= |args| && args[l.offsetAt - 1].IntArg?)
    && (forall p :: 1 <= p <= |args| ==> Mentions(q, p))
  }

  // A row of the FROM clause; the device's name is there only in a join.
  datatype Row = Row(alert: Alert, deviceName: Option<string>)

  function JoinOne(a: Alert, devices: seq<DeviceRow>, clientId: Uuid): seq<Row> {
    if devices == [] then []
    else
      var d := devices[|devices| - 1];
      JoinOne(a, devices[..|devices| - 1], clientId)
      + if d.id == a.deviceId && d.clientId == clientId then [Row(a, Some(d.name))] else []
  }

  function FromRows(alerts: seq<Alert>, devices: seq<DeviceRow>, clientId: Option<Uuid>): seq<Row> {
    if alerts == [] then []
    else
      var a := alerts[|alerts| - 1];
      FromRows(alerts[..|alerts| - 1], devices, clientId)
      + if clientId.Some? then JoinOne(a, devices, clientId.value) else [Row(a, None)]
  }

  predicate Holds(env: Env, c: Clause, args: seq<Arg>, r: Row)
    requires BoundClause(c, args)
  {
    match c
    case ClientIs(p) => r.alert.clientId == args[p - 1].id
    case DeviceIs(p) => args[p - 1].optId.None? || r.alert.deviceId == args[p - 1].optId.value
    case SeverityIn(p) => args[p - 1].names.None? || r.alert.severity in args[p - 1].names.value
    case OccurredFrom(p) => args[p - 1].time.None? || r.alert.occurredAt >= args[p - 1].time.value
    case OccurredTo(p) => args[p - 1].time.None? || r.alert.occurredAt <= args[p - 1].time.value
    case SearchMatches(p, idAt) =>
      var pattern := args[p - 1].text;
      || env.like(r.alert.message, pattern) || env.like(r.alert.alertType, pattern)
      || (r.deviceName.Some? && env.like(r.deviceName.value, pattern))
      || (idAt.Some? && r.alert.deviceId == args[idAt.value - 1].id)
  }

  predicate Keeps(env: Env, q: Sql, args: seq<Arg>, r: Row) {
    forall k :: 0 <= k < |q.where| ==> BoundClause(q.where[k], args) && Holds(env, q.where[k], args, r)
  }

  function JoinClient(q: Sql, args: seq<Arg>): Option<Uuid>
    requires Bound(q, args)
  {
    if q.source.AlertsJoinDevices? then Some(args[q.source.clientAt - 1].id) else None
  }

  function KeptRows(env: Env, db: Database, q: Sql, args: seq<Arg>): seq<Row>
    requires Bound(q, args)
  {
    Select(FromRows(db.alerts, db.devices, JoinClient(q, args)), (r: Row) => Keeps(env, q, args, r))
  }

  function AlertsOf(rows: seq<Row>): (r: seq<Alert>)
    ensures |r| == |rows| && forall i :: 0 <= i < |r| ==> r[i] == rows[i].alert
  {
    seq(|rows|, i requires 0 <= i < |rows| => rows[i].alert)
  }

  function NewestFirst(rows: seq<Alert>): seq<Alert> {
    Reverse(OrderByTime(rows))
  }

  function Reverse<T>(s: seq<T>): (r: seq<T>)
    ensures |r| == |s| && forall i :: 0 <= i < |s| ==> r[i] == s[|s| - 1 - i]
  {
    seq(|s|, i requires 0 <= i < |s| => s[|s| - 1 - i])
  }

  function RunList(env: Env, db: Database, q: Sql, args: seq<Arg>): Option<seq<Alert>> {
    if !Bound(q, args) || q.limits.None? then None
    else
      var l := q.limits.value;
      Slice(NewestFirst(AlertsOf(KeptRows(env, db, q, args))), args[l.limitAt - 1].n, args[l.offsetAt - 1].n)
  }

  function RunCount(env: Env, db: Database, q: Sql, args: seq<Arg>): Option<nat> {
    if !Bound(q, args) then None else Some(|KeptRows(env, db, q, args)|)
  }

  // ================================================================ the plain filter

  function NameOf(devices: seq<DeviceRow>, id: Uuid): Option<string> {
    if devices == [] then None
    else if devices[0].id == id then Some(devices[0].name)
    else NameOf(devices[1..], id)
  }

  /** What the caller asked for. */
  predicate Wanted(env: Env, devices: seq<DeviceRow>, clientId: Uuid, f: ListFilter, a: Alert) {
    && a.clientId == clientId
    && (f.deviceId.Some? ==> a.deviceId == f.deviceId.value)
    && (f.severities != [] ==> a.severity in f.severities)
    && (f.from.Some? ==> f.from.value <= a.occurredAt)
    && (f.to.Some? ==> a.occurredAt <= f.to.value)
    && (f.search.Some? ==>
          var pattern := Pattern(f.search.value);
          || env.like(a.message, pattern) || env.like(a.alertType, pattern)
          || (NameOf(devices, a.deviceId).Some? && env.like(NameOf(devices, a.deviceId).value, pattern))
          || env.parseUuid(f.search.value) == Some(a.deviceId))
  }

  function WantedAlerts(env: Env, db: Database, clientId: Uuid, f: ListFilter): seq<Alert> {
    Select(db.alerts, (a: Alert) => Wanted(env, db.devices, clientId, f, a))
  }

  // A search text that the database takes.
  predicate Sendable(f: ListFilter) {
    f.search.Some? ==> NulFree(f.search.value)
  }

  /** Device ids are keys, and every alert belongs to the owner of its device. */
  ghost predicate OwnedDatabase(db: Database) {
    && KeyedDevices(db.devices)
    && forall a :: a in db.alerts ==> HasOwner(db.devices, a)
  }

  ghost predicate HasOwner(devices: seq<DeviceRow>, a: Alert) {
    exists d :: d in devices && d.id == a.deviceId && d.clientId == a.clientId
  }

  // ================================================================ the two agree

  lemma BindsList(env: Env, clientId: Uuid, f: ListFilter)
    ensures Bound(AlertListQueries(env, f).list, AlertListArgs(env, clientId, f) + [IntArg(f.pageSize), IntArg(f.offset)])
            <==> Sendable(f)
  {
    PatternIsSendable(f);
    var q := AlertListQueries(env, f).list;
    var args := AlertListArgs(env, clientId, f) + [IntArg(f.pageSize), IntArg(f.offset)];
    MentionsAll(q, |args|);
  }

  lemma PatternIsSendable(f: ListFilter)
    ensures f.search.Some? ==> (NulFree(Pattern(f.search.value)) <==> Sendable(f))
  {
  }

  lemma BindsCount(env: Env, clientId: Uuid, f: ListFilter)
    ensures Bound(AlertListQueries(env, f).count, AlertListArgs(env, clientId, f)) <==> Sendable(f)
  {
    PatternIsSendable(f);
    MentionsAll(AlertListQueries(env, f).count, |AlertListArgs(env, clientId, f)|);
  }

  /** Both statements get an argument of the right type for every placeholder, and no argument that
      no placeholder mentions; the one thing that can be refused is a NUL character in the search. */
  lemma BindsEveryArgument(env: Env, clientId: Uuid, f: ListFilter)
    ensures var q := AlertListQueries(env, f);
      var args := AlertListArgs(env, clientId, f);
      && (Bound(q.list, args + [IntArg(f.pageSize), IntArg(f.offset)]) <==> Sendable(f))
      && (Bound(q.count, args) <==> Sendable(f))
  {
    BindsList(env, clientId, f);
    BindsCount(env, clientId, f);
  }

  // The fixed clauses mention $1..$5 and the rest follow without a gap.
  lemma MentionsAll(q: Sql, n: nat)
    requires 5 <= |q.where| && q.where[..5] == FIXED
    requires n == 5 + (if |q.where| == 6 then (if q.where[5].SearchMatches? && q.where[5].idAt.Some? then 2 else 1) else 0)
                  + (if q.limits.Some? then 2 else 0)
    requires |q.where| <= 6 && (|q.where| == 6 ==>
               q.where[5].SearchMatches? && q.where[5].p == 6 && (q.where[5].idAt.Some? ==> q.where[5].idAt == Some(7)))
    requires q.limits.Some? ==> q.limits.value == Limits(n - 1, n)
    ensures forall p :: 1 <= p <= n ==> Mentions(q, p)
  {
    forall p | 1 <= p <= n ensures Mentions(q, p) {
      if p <= 5 {
        assert q.where[p - 1] == q.where[..5][p - 1];
        assert q.where[p - 1].p == p;
      }
    }
  }

  ghost predicate KeyedDevices(devices: seq<DeviceRow>) {
    forall i, j :: 0 <= i < j < |devices| ==> devices[i].id != devices[j].id
  }

  lemma {:induction false} JoinMisses(a: Alert, devices: seq<DeviceRow>, clientId: Uuid)
    requires forall i :: 0 <= i < |devices| ==> devices[i].id != a.deviceId
    ensures JoinOne(a, devices, clientId) == []
  {
    if devices != [] {
      JoinMisses(a, devices[..|devices| - 1], clientId);
    }
  }

  lemma {:induction false} JoinFindsOwner(a: Alert, devices: seq<DeviceRow>, k: nat, clientId: Uuid)
    requires KeyedDevices(devices) && k < |devices| && devices[k].id == a.deviceId
    ensures JoinOne(a, devices, clientId) ==
            if devices[k].clientId == clientId then [Row(a, Some(devices[k].name))] else []
  {
    var n := |devices| - 1;
    if k == n {
      JoinMisses(a, devices[..n], clientId);
    } else {
      JoinFindsOwner(a, devices[..n], k, clientId);
    }
  }

  lemma {:induction false} NameOfDevice(devices: seq<DeviceRow>, d: DeviceRow)
    requires KeyedDevices(devices) && d in devices
    ensures NameOf(devices, d.id) == Some(d.name)
  {
    if devices[0] != d {
      assert d in devices[1..];
      var i :| 0 <= i < |devices| && devices[i] == d;
      assert devices[0].id != devices[i].id;
      NameOfDevice(devices[1..], d);
    }
  }

  predicate HoldsBound(env: Env, c: Clause, args: seq<Arg>, r: Row) {
    BoundClause(c, args) && Holds(env, c, args, r)
  }

  lemma FixedClauses(env: Env, clientId: Uuid, f: ListFilter, args: seq<Arg>, r: Row)
    requires AlertListArgs(env, clientId, f.(search := None)) <= args
    ensures (forall k :: 0 <= k < 5 ==> HoldsBound(env, FIXED[k], args, r)) <==>
            && r.alert.clientId == clientId
            && (f.deviceId.Some? ==> r.alert.deviceId == f.deviceId.value)
            && (f.severities != [] ==> r.alert.severity in f.severities)
            && (f.from.Some? ==> f.from.value <= r.alert.occurredAt)
            && (f.to.Some? ==> r.alert.occurredAt <= f.to.value)
  {
    var base := AlertListArgs(env, clientId, f.(search := None));
    assert args[0] == base[0] && args[1] == base[1] && args[2] == base[2] && args[3] == base[3] && args[4] == base[4];
    assert (forall k :: 0 <= k < 5 ==> HoldsBound(env, FIXED[k], args, r)) <==>
           && HoldsBound(env, FIXED[0], args, r) && HoldsBound(env, FIXED[1], args, r) && HoldsBound(env, FIXED[2], args, r)
           && HoldsBound(env, FIXED[3], args, r) && HoldsBound(env, FIXED[4], args, r);
  }

  lemma SearchClause(env: Env, clientId: Uuid, f: ListFilter, args: seq<Arg>, r: Row)
    requires f.search.Some? && Sendable(f) && AlertListArgs(env, clientId, f) <= args
    ensures HoldsBound(env, SearchMatches(6, if env.parseUuid(f.search.value).Some? then Some(7) else None), args, r) <==>
            var pattern := Pattern(f.search.value);
            || env.like(r.alert.message, pattern) || env.like(r.alert.alertType, pattern)
            || (r.deviceName.Some? && env.like(r.deviceName.value, pattern))
            || env.parseUuid(f.search.value) == Some(r.alert.deviceId)
  {
    PatternIsSendable(f);
  }

  // On a row of an owned database the assembled conditions say what the plain filter says.
  lemma KeepsIffWanted(env: Env, devices: seq<DeviceRow>, clientId: Uuid, f: ListFilter, q: Sql, args: seq<Arg>, r: Row)
    requires q == AlertListQueries(env, f).list || q == AlertListQueries(env, f).count
    requires Sendable(f) && AlertListArgs(env, clientId, f) <= args
    requires f.search.Some? ==> r.deviceName == NameOf(devices, r.alert.deviceId)
    ensures Keeps(env, q, args, r) <==> Wanted(env, devices, clientId, f, r.alert)
  {
    assert AlertListArgs(env, clientId, f.(search := None)) <= AlertListArgs(env, clientId, f);
    FixedClauses(env, clientId, f, args, r);
    assert forall k :: 0 <= k < 5 ==> q.where[k] == FIXED[k];
    if f.search.Some? {
      SearchClause(env, clientId, f, args, r);
      assert |q.where| == 6;
      assert Keeps(env, q, args, r) <==>
             (forall k :: 0 <= k < 5 ==> HoldsBound(env, FIXED[k], args, r)) && HoldsBound(env, q.where[5], args, r);
    } else {
      assert |q.where| == 5;
    }
  }

  /** The rows kept are, one each and in table order, the alerts wanted. A search needs for this
      that alerts belong to the owners of their devices: its join then neither drops nor doubles
      an alert. */
  lemma {:induction false} KeptAreWanted(env: Env, alerts: seq<Alert>, devices: seq<DeviceRow>, clientId: Uuid, f: ListFilter,
                                         q: Sql, args: seq<Arg>)
    requires f.search.Some? ==> OwnedDatabase(Database(alerts, devices))
    requires q == AlertListQueries(env, f).list || q == AlertListQueries(env, f).count
    requires Sendable(f) && AlertListArgs(env, clientId, f) <= args
    ensures var joined := if f.search.Some? then Some(clientId) else None;
      AlertsOf(Select(FromRows(alerts, devices, joined), (r: Row) => Keeps(env, q, args, r)))
      == Select(alerts, (a: Alert) => Wanted(env, devices, clientId, f, a))
  {
    var joined := if f.search.Some? then Some(clientId) else None;
    var keep := (r: Row) => Keeps(env, q, args, r);
    var want := (a: Alert) => Wanted(env, devices, clientId, f, a);
    if alerts != [] {
      var front, a := alerts[..|alerts| - 1], alerts[|alerts| - 1];
      assert forall x :: x in front ==> x in alerts;
      KeptAreWanted(env, front, devices, clientId, f, q, args);
      var before := FromRows(front, devices, joined);
      var name := None;
      if f.search.Some? {
        var found := OwnersRow(alerts, a, devices, joined);
        name := Some(found);
      }
      if f.search.Some? && a.clientId != clientId {
        assert FromRows(alerts, devices, joined) == before;
      } else {
        var r := Row(a, name);
        assert FromRows(alerts, devices, joined) == before + [r];
        SelectSnoc(before, r, keep);
        KeepsIffWanted(env, devices, clientId, f, q, args, r);
        assert AlertsOf(Select(before, keep) + [r]) == AlertsOf(Select(before, keep)) + [a];
      }
    }
  }

  // The one row that the FROM clause makes of an alert, if its device is in the join.
  lemma OwnersRow(alerts: seq<Alert>, a: Alert, devices: seq<DeviceRow>, joined: Option<Uuid>) returns (name: string)
    requires OwnedDatabase(Database(alerts, devices)) && a in alerts
    ensures NameOf(devices, a.deviceId) == Some(name)
    ensures joined.Some? ==> JoinOne(a, devices, joined.value) == if a.clientId == joined.value then [Row(a, Some(name))] else []
  {
    assert HasOwner(devices, a);
    var d :| d in devices && d.id == a.deviceId && d.clientId == a.clientId;
    var k :| 0 <= k < |devices| && devices[k] == d;
    name := d.name;
    NameOfDevice(devices, d);
    if joined.Some? {
      JoinFindsOwner(a, devices, k, joined.value);
    }
  }

  lemma ListMeansTheFilter(env: Env, db: Database, clientId: Uuid, f: ListFilter)
    requires Sendable(f) && (f.search.Some? ==> OwnedDatabase(db))
    ensures RunList(env, db, AlertListQueries(env, f).list, AlertListArgs(env, clientId, f) + [IntArg(f.pageSize), IntArg(f.offset)])
            == Slice(NewestFirst(WantedAlerts(env, db, clientId, f)), f.pageSize, f.offset)
  {
    var q := AlertListQueries(env, f).list;
    var args := AlertListArgs(env, clientId, f);
    var full := args + [IntArg(f.pageSize), IntArg(f.offset)];
    BindsEveryArgument(env, clientId, f);
    KeptAreWanted(env, db.alerts, db.devices, clientId, f, q, full);
    assert JoinClient(q, full) == if f.search.Some? then Some(clientId) else None;
    assert AlertsOf(KeptRows(env, db, q, full)) == WantedAlerts(env, db, clientId, f);
    assert q.limits == Some(Limits(|args| + 1, |args| + 2));
  }

  lemma CountMeansTheFilter(env: Env, db: Database, clientId: Uuid, f: ListFilter)
    requires Sendable(f) && (f.search.Some? ==> OwnedDatabase(db))
    ensures RunCount(env, db, AlertListQueries(env, f).count, AlertListArgs(env, clientId, f))
            == Some(|WantedAlerts(env, db, clientId, f)|)
  {
    var q := AlertListQueries(env, f).count;
    var args := AlertListArgs(env, clientId, f);
    BindsEveryArgument(env, clientId, f);
    KeptAreWanted(env, db.alerts, db.devices, clientId, f, q, args);
    assert JoinClient(q, args) == if f.search.Some? then Some(clientId) else None;
    assert AlertsOf(KeptRows(env, db, q, args)) == WantedAlerts(env, db, clientId, f);
  }

  /** For every filter, the assembled queries run with their arguments return the wanted alerts,
      newest first, cut to the page, and the count is the number of wanted alerts; both are refused
      when the search holds a NUL character. */
  lemma QueriesMeanTheFilter(env: Env, db: Database, clientId: Uuid, f: ListFilter)
    requires f.search.Some? ==> OwnedDatabase(db)
    ensures var q := AlertListQueries(env, f);
      var args := AlertListArgs(env, clientId, f);
      var wanted := WantedAlerts(env, db, clientId, f);
      && RunList(env, db, q.list, args + [IntArg(f.pageSize), IntArg(f.offset)])
         == (if Sendable(f) then Slice(NewestFirst(wanted), f.pageSize, f.offset) else None)
      && RunCount(env, db, q.count, args) == if Sendable(f) then Some(|wanted|) else None
  {
    BindsEveryArgument(env, clientId, f);
    if Sendable(f) {
      ListMeansTheFilter(env, db, clientId, f);
      CountMeansTheFilter(env, db, clientId, f);
    }
  }

  datatype ListResult = ListResult(alerts: seq<Alert>, total: nat)

  /** The repository call: both statements, each with its arguments. It fails when the database
      refuses one of them. */
  method List(env: Env, db: Database, clientId: Uuid, f: ListFilter) returns (r: Option<ListResult>)
    ensures r.None? <==> !Sendable(f) || f.offset < 0
    ensures r.Some? && (f.search.Some? ==> OwnedDatabase(db)) ==>
              var wanted := WantedAlerts(env, db, clientId, f);
              Slice(NewestFirst(wanted), f.pageSize, f.offset) == Some(r.value.alerts) && r.value.total == |wanted|
  {
    var queries := BuildAlertListQueries(env, f);
    var args := AlertListArgs(env, clientId, f);
    BindsEveryArgument(env, clientId, f);
    LimitsFollow(env, clientId, f);
    var alerts := RunList(env, db, queries.list, args + [IntArg(f.pageSize), IntArg(f.offset)]);
    if alerts.None? {
      return None;
    }
    var total := RunCount(env, db, queries.count, args);
    if total.None? {
      return None;
    }
    if f.search.Some? ==> OwnedDatabase(db) {
      QueriesMeanTheFilter(env, db, clientId, f);
    }
    return Some(ListResult(alerts.value, total.value));
  }

  // LIMIT and OFFSET take the last two arguments.
  lemma LimitsFollow(env: Env, clientId: Uuid, f: ListFilter)
    ensures var args := AlertListArgs(env, clientId, f);
      var l := AlertListQueries(env, f).list.limits;
      l == Some(Limits(|args| + 1, |args| + 2))
  {
  }

  /** Without the ownership invariant the join is not lossless: an alert stored for a client other
      than its device's owner is found by a plain listing and lost by a search that matches it. */
  lemma OwnershipIsNeeded(env: Env, a: Alert, search: string)
    requires env.like(a.message, Pattern(search)) && env.parseUuid(search).None? && NulFree(search)
    ensures var db := Database([a], [DeviceRow(a.deviceId, a.clientId + 1, "")]);
      var f := ListFilter(None, [], None, None, Some(search), 1, 0);
      && RunCount(env, db, AlertListQueries(env, f).count, AlertListArgs(env, a.clientId, f)) == Some(0)
      && WantedAlerts(env, db, a.clientId, f) == [a]
  {
    var devices := [DeviceRow(a.deviceId, a.clientId + 1, "")];
    var f := ListFilter(None, [], None, None, Some(search), 1, 0);
    BindsEveryArgument(env, a.clientId, f);
    assert [a][..0] == [] && devices[..0] == [];
    assert JoinOne(a, devices, a.clientId) == [];
    assert FromRows([a], devices, Some(a.clientId)) == [];
    assert Wanted(env, devices, a.clientId, f, a);
    SelectSnoc([], a, (x: Alert) => Wanted(env, devices, a.clientId, f, x));
    assert [] + [a] == [a];
  }
}
