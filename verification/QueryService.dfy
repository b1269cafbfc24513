/** Validating a list request, and what its pages add up to. */
module QueryService {
  import opened Common
  import opened AlertStore
  import opened Text
  import opened Pagination
  import opened Query

  datatype QueryError =
    | InvalidPagination | InvalidDeviceId | InvalidSeverity | InvalidTimeFormat | InvalidTimeRange | InvalidSearch
    | StorageFailed

  datatype ListAlertsInput = ListAlertsInput(
    deviceId: Option<string>, severities: seq<string>, from: Option<string>, to: Option<string>, search: Option<string>,
    page: int, pageSize: int)

  datatype ListAlertsOutput = ListAlertsOutput(alerts: seq<Alert>, page: int, pageSize: int, total: nat)

  // ---------------------------------------------------------------- severities

  /** The named severities without blanks and repeats, each at its first place. */
  function Severities(raw: seq<string>): Result<seq<string>, QueryError> {
    if raw == [] then Ok([])
    else
      var front, last := Severities(raw[..|raw| - 1]), raw[|raw| - 1];
      if front.Err? then front
      else if last == "" || last in front.value then front
      else if !ValidSeverity(last) then Err(InvalidSeverity)
      else Ok(front.value + [last])
  }

  method ParseSeverities(raw: seq<string>) returns (r: Result<seq<string>, QueryError>)
    ensures r == Severities(raw)
  {
    var seen: set<string> := {};
    var out: seq<string> := [];
    for i := 0 to |raw|
      invariant Severities(raw[..i]) == Ok(out)
      invariant seen == set s | s in out
    {
      assert raw[..i + 1][..i] == raw[..i];
      var value := raw[i];
      if value == "" {
        continue;
      }
      if !ValidSeverity(value) {
        SeverityErrorStays(raw, i);
        return Err(InvalidSeverity);
      }
      if value in seen {
        continue;
      }
      seen := seen + {value};
      out := out + [value];
    }
    assert raw[..|raw|] == raw;
    return Ok(out);
  }

  // One invalid name fails the request wherever it stands.
  lemma {:induction false} SeverityErrorStays(raw: seq<string>, i: nat)
    requires i < |raw| && raw[i] != "" && !ValidSeverity(raw[i])
    ensures Severities(raw) == Err(InvalidSeverity)
    ensures Severities(raw[..i]).Ok? ==> forall s :: s in Severities(raw[..i]).value ==> ValidSeverity(s)
  {
    SeveritiesExact(raw[..i]);
    SeveritiesExact(raw);
    if i < |raw| - 1 {
      SeverityErrorStays(raw[..|raw| - 1], i);
    }
  }

  ghost predicate Distinct(s: seq<string>) {
    forall i, j :: 0 <= i < j < |s| ==> s[i] != s[j]
  }

  /** A list of names is refused exactly when one is neither blank nor a severity; otherwise the
      result names exactly the severities given, none twice. */
  lemma {:induction false} SeveritiesExact(raw: seq<string>)
    ensures Severities(raw).Err? <==> exists s :: s in raw && s != "" && !ValidSeverity(s)
    ensures Severities(raw).Err? ==> Severities(raw) == Err(InvalidSeverity)
    ensures Severities(raw).Ok? ==>
              Distinct(Severities(raw).value) && forall s :: s in Severities(raw).value <==> s in raw && s != ""
  {
    if raw != [] {
      var front, last := raw[..|raw| - 1], raw[|raw| - 1];
      SeveritiesExact(front);
      assert raw == front + [last];
    }
  }

  // ---------------------------------------------------------------- the request

  function NormalizeSearch(raw: Option<string>): Result<Option<string>, QueryError> {
    if raw.None? then Ok(None)
    else
      var search := TrimSpace(raw.value);
      if search == "" then Ok(None)
      else if ByteLength(search) < 2 || ByteLength(search) > 100 then Err(InvalidSearch)
      else Ok(Some(search))
  }

  /** A blank or absent text is no condition; any other must parse. */
  function Optional<T>(raw: Option<string>, parse: string -> Option<T>, e: QueryError): Result<Option<T>, QueryError> {
    if raw.None? || raw.value == "" then Ok(None)
    else if parse(raw.value).None? then Err(e)
    else Ok(parse(raw.value))
  }

  function ToFilter(env: Env, input: ListAlertsInput): Result<ListFilter, QueryError> {
    if input.page < 1 || input.pageSize < 1 || input.pageSize > MAX_PAGE_SIZE then Err(InvalidPagination)
    else
      var deviceId := Optional(input.deviceId, env.parseUuid, InvalidDeviceId);
      var severities := Severities(input.severities);
      var from := Optional(input.from, env.parseTime, InvalidTimeFormat);
      var to := Optional(input.to, env.parseTime, InvalidTimeFormat);
      var search := NormalizeSearch(input.search);
      if deviceId.Err? then Err(deviceId.error)
      else if severities.Err? then Err(severities.error)
      else if from.Err? then Err(from.error)
      else if to.Err? then Err(to.error)
      else if from.value.Some? && to.value.Some? && from.value.value > to.value.value then Err(InvalidTimeRange)
      else if search.Err? then Err(search.error)
      else Ok(ListFilter(deviceId.value, severities.value, from.value, to.value, search.value, input.pageSize,
                         Offset(input.page, input.pageSize)))
  }

  /** The rows of a listing that a page shows. */
  function PageAt(wanted: seq<Alert>, pageSize: nat, offset: int): Option<seq<Alert>> {
    Slice(NewestFirst(wanted), pageSize, offset)
  }

  // ---------------------------------------------------------------- the request in its own words

  // An absent or empty text names no condition.
  ghost predicate Given(raw: Option<string>) {
    raw.Some? && raw.value != ""
  }

  ghost predicate Searches(input: ListAlertsInput) {
    input.search.Some? && TrimSpace(input.search.value) != ""
  }

  ghost predicate MisnamesSeverity(input: ListAlertsInput) {
    exists s :: s in input.severities && s !in ["", "info", "warning", "critical"]
  }

  ghost predicate RangeIsBackwards(env: Env, input: ListAlertsInput) {
    && Given(input.from) && Given(input.to)
    && var from, to := env.parseTime(input.from.value), env.parseTime(input.to.value);
       from.Some? && to.Some? && to.value < from.value
  }

  ghost predicate SearchLengthFits(input: ListAlertsInput) {
    2 <= ByteLength(TrimSpace(if input.search.Some? then input.search.value else "")) <= 100
  }

  /** The first thing wrong with a request; what the database alone refuses comes last. */
  ghost function Defect(env: Env, input: ListAlertsInput): Option<QueryError> {
    if !(1 <= input.page && 1 <= input.pageSize <= 100) then Some(InvalidPagination)
    else if Given(input.deviceId) && env.parseUuid(input.deviceId.value) == None then Some(InvalidDeviceId)
    else if MisnamesSeverity(input) then Some(InvalidSeverity)
    else if Given(input.from) && env.parseTime(input.from.value) == None then Some(InvalidTimeFormat)
    else if Given(input.to) && env.parseTime(input.to.value) == None then Some(InvalidTimeFormat)
    else if RangeIsBackwards(env, input) then Some(InvalidTimeRange)
    else if Searches(input) && !SearchLengthFits(input) then Some(InvalidSearch)
    else if Searches(input) && '\0' in TrimSpace(input.search.value) then Some(StorageFailed)
    else if Wrap64(Wrap64(input.page - 1) * input.pageSize) < 0 then Some(StorageFailed)
    else None
  }

  // Where a search finds an alert: in its message, its type, its device's name or its device's id.
  ghost predicate FoundBy(env: Env, devices: seq<DeviceRow>, text: string, a: Alert) {
    || env.like(a.message, "%" + text + "%")
    || env.like(a.alertType, "%" + text + "%")
    || (exists d :: d in devices && d.id == a.deviceId && env.like(d.name, "%" + text + "%"))
    || env.parseUuid(text) == Some(a.deviceId)
  }

  /** The alert is the client's and meets every condition that the request names. */
  ghost predicate AskedFor(env: Env, devices: seq<DeviceRow>, clientId: Uuid, input: ListAlertsInput, a: Alert) {
    && a.clientId == clientId
    && (Given(input.deviceId) ==> env.parseUuid(input.deviceId.value) == Some(a.deviceId))
    && ((exists s :: s in input.severities && s != "") ==> a.severity != "" && a.severity in input.severities)
    && (Given(input.from) ==>
          env.parseTime(input.from.value).Some? && env.parseTime(input.from.value).value <= a.occurredAt)
    && (Given(input.to) ==>
          env.parseTime(input.to.value).Some? && a.occurredAt <= env.parseTime(input.to.value).value)
    && (Searches(input) ==> FoundBy(env, devices, TrimSpace(input.search.value), a))
  }

  ghost predicate NewestFirstOrder(s: seq<Alert>) {
    forall i, j :: 0 <= i < j < |s| ==>
      s[j].occurredAt < s[i].occurredAt || (s[j].occurredAt == s[i].occurredAt && s[j].id < s[i].id)
  }

  /** Every alert asked for, none twice, newest first. */
  ghost predicate ListingIs(env: Env, db: Database, clientId: Uuid, input: ListAlertsInput, listing: seq<Alert>) {
    && NewestFirstOrder(listing)
    && forall a :: a in listing <==> a in db.alerts && AskedFor(env, db.devices, clientId, input, a)
  }

  /** The answer shows its page of that listing and the length of all of it. */
  ghost predicate Shows(output: ListAlertsOutput, input: ListAlertsInput, listing: seq<Alert>) {
    var from := Wrap64(Wrap64(input.page - 1) * input.pageSize);
    && output.page == input.page && output.pageSize == input.pageSize && output.total == |listing|
    && |output.alerts| == (if from + input.pageSize <= |listing| then input.pageSize
                           else if from <= |listing| then |listing| - from else 0)
    && forall i :: 0 <= i < |output.alerts| ==> 0 <= from + i < |listing| && output.alerts[i] == listing[from + i]
  }

  ghost predicate Answers(env: Env, db: Database, clientId: Uuid, input: ListAlertsInput, output: ListAlertsOutput) {
    exists listing :: ListingIs(env, db, clientId, input, listing) && Shows(output, input, listing)
  }

  /** There is one such listing. */
  lemma {:induction false} ListingIsUnique(s: seq<Alert>, t: seq<Alert>)
    requires NewestFirstOrder(s) && NewestFirstOrder(t) && forall a :: a in s <==> a in t
    ensures s == t
  {
    assert s == [] <==> t == [] by {
      if s != [] {
        assert s[0] in t;
      }
      if t != [] {
        assert t[0] in s;
      }
    }
    if s != [] {
      assert s[0] in t && t[0] in s;
      forall a ensures a in s[1..] <==> a in t[1..] {
        assert a in s <==> a == s[0] || a in s[1..];
        assert a in t <==> a == t[0] || a in t[1..];
      }
      ListingIsUnique(s[1..], t[1..]);
      assert s == [s[0]] + s[1..] && t == [t[0]] + t[1..];
    }
  }

  /** A request becomes a filter unless a check fails, and the first check that fails decides the
      error; the database can take the filter exactly when nothing is left wrong. */
  lemma DefectIs(env: Env, input: ListAlertsInput)
    ensures var f := ToFilter(env, input);
      && (f.Err? ==> Defect(env, input) == Some(f.error))
      && (f.Ok? ==> Defect(env, input) == if Sendable(f.value) && f.value.offset >= 0 then None else Some(StorageFailed))
  {
    SeveritiesExact(input.severities);
    assert MisnamesSeverity(input) <==> Severities(input.severities).Err?;
  }

  /** What a filter made of a request wants is what the request asked for. */
  lemma WantedIsAskedFor(env: Env, devices: seq<DeviceRow>, clientId: Uuid, input: ListAlertsInput, a: Alert)
    requires ToFilter(env, input).Ok?
    requires Searches(input) ==> KeyedDevices(devices)
    ensures Wanted(env, devices, clientId, ToFilter(env, input).value, a) <==> AskedFor(env, devices, clientId, input, a)
  {
    var f := ToFilter(env, input).value;
    SeveritiesExact(input.severities);
    assert (exists s :: s in input.severities && s != "") <==> f.severities != [] by {
      assert f.severities != [] ==> f.severities[0] in f.severities;
    }
    assert Searches(input) <==> f.search.Some?;
    if f.search.Some? {
      NamedIffFound(env, devices, a.deviceId, Pattern(f.search.value));
    }
  }

  lemma NamedIffFound(env: Env, devices: seq<DeviceRow>, id: Uuid, pattern: string)
    requires KeyedDevices(devices)
    ensures NameOf(devices, id).Some? && env.like(NameOf(devices, id).value, pattern) <==>
            exists d :: d in devices && d.id == id && env.like(d.name, pattern)
  {
    NamedRow(devices, id);
    forall d | d in devices && d.id == id ensures NameOf(devices, id) == Some(d.name) {
      NameOfDevice(devices, d);
    }
  }

  lemma {:induction false} NamedRow(devices: seq<DeviceRow>, id: Uuid)
    ensures NameOf(devices, id).Some? ==> exists d :: d in devices && d.id == id && d.name == NameOf(devices, id).value
  {
    if devices != [] && devices[0].id != id {
      NamedRow(devices[1..], id);
    }
  }

  // Sorted the other way round, the wanted alerts are the listing.
  lemma NewestFirstLists(env: Env, db: Database, clientId: Uuid, f: ListFilter)
    requires UniqueIds(db.alerts)
    ensures var listing := NewestFirst(WantedAlerts(env, db, clientId, f));
      && |listing| == |WantedAlerts(env, db, clientId, f)|
      && NewestFirstOrder(listing)
      && forall a :: a in listing <==> a in db.alerts && Wanted(env, db.devices, clientId, f, a)
  {
    var want := (a: Alert) => Wanted(env, db.devices, clientId, f, a);
    var wanted := WantedAlerts(env, db, clientId, f);
    SelectMembers(db.alerts, want);
    SelectUnique(db.alerts, want);
    OrderByTimeSorts(wanted);
    var sorted := OrderByTime(wanted);
    assert |sorted| == |multiset(sorted)| == |multiset(wanted)| == |wanted|;
    ReversedMembers(sorted);
    forall a ensures a in sorted <==> a in wanted {
      assert a in multiset(sorted) <==> a in multiset(wanted);
    }
  }

  lemma ReversedMembers(s: seq<Alert>)
    ensures forall a :: a in Reverse(s) <==> a in s
  {
    forall a | a in s ensures a in Reverse(s) {
      var i :| 0 <= i < |s| && s[i] == a;
      assert Reverse(s)[|s| - 1 - i] == a;
    }
  }

  lemma SliceShows(listing: seq<Alert>, input: ListAlertsInput, alerts: seq<Alert>)
    requires input.pageSize >= 0 && Slice(listing, input.pageSize, Offset(input.page, input.pageSize)) == Some(alerts)
    ensures Shows(ListAlertsOutput(alerts, input.page, input.pageSize, |listing|), input, listing)
  {
  }

  /** A request without a defect has a listing, and the page cut out of it is the one asked for. */
  lemma ListingMeansTheRequest(env: Env, db: Database, clientId: Uuid, input: ListAlertsInput, alerts: seq<Alert>)
    requires Defect(env, input) == None && UniqueIds(db.alerts) && (Searches(input) ==> OwnedDatabase(db))
    requires ToFilter(env, input).Ok?
    requires var f := ToFilter(env, input).value;
      PageAt(WantedAlerts(env, db, clientId, f), f.pageSize, f.offset) == Some(alerts)
    ensures var total := |WantedAlerts(env, db, clientId, ToFilter(env, input).value)|;
      Answers(env, db, clientId, input, ListAlertsOutput(alerts, input.page, input.pageSize, total))
  {
    var f := ToFilter(env, input).value;
    var listing := NewestFirst(WantedAlerts(env, db, clientId, f));
    NewestFirstLists(env, db, clientId, f);
    forall a ensures Wanted(env, db.devices, clientId, f, a) <==> AskedFor(env, db.devices, clientId, input, a) {
      WantedIsAskedFor(env, db.devices, clientId, input, a);
    }
    assert ListingIs(env, db, clientId, input, listing);
    SliceShows(listing, input, alerts);
  }

  /** The list call: validation in the order of the checks, then the two statements. */
  method ListAlerts(env: Env, db: Database, clientId: Uuid, input: ListAlertsInput)
    returns (r: Result<ListAlertsOutput, QueryError>)
    ensures var f := ToFilter(env, input);
      && (f.Err? ==> r == Err(f.error))
      && (f.Ok? && !Sendable(f.value) ==> r == Err(StorageFailed))
      && (f.Ok? && Sendable(f.value) && (f.value.search.Some? ==> OwnedDatabase(db)) ==>
            var wanted := WantedAlerts(env, db, clientId, f.value);
            var page := PageAt(wanted, f.value.pageSize, f.value.offset);
            r == if page.None? then Err(StorageFailed) else Ok(ListAlertsOutput(page.value, input.page, input.pageSize, |wanted|)))
    ensures r.Err? <==> Defect(env, input).Some?
    ensures r.Err? ==> Some(r.error) == Defect(env, input)
    ensures r.Ok? && UniqueIds(db.alerts) && (Searches(input) ==> OwnedDatabase(db)) ==>
              Answers(env, db, clientId, input, r.value)
  {
    DefectIs(env, input);
    if input.page < 1 || input.pageSize < 1 || input.pageSize > MAX_PAGE_SIZE {
      return Err(InvalidPagination);
    }
    var deviceId := Optional(input.deviceId, env.parseUuid, InvalidDeviceId);
    if deviceId.Err? {
      return Err(deviceId.error);
    }
    var severities := ParseSeverities(input.severities);
    if severities.Err? {
      return Err(severities.error);
    }
    var from := Optional(input.from, env.parseTime, InvalidTimeFormat);
    if from.Err? {
      return Err(from.error);
    }
    var to := Optional(input.to, env.parseTime, InvalidTimeFormat);
    if to.Err? {
      return Err(to.error);
    }
    if from.value.Some? && to.value.Some? && from.value.value > to.value.value {
      return Err(InvalidTimeRange);
    }
    var search := NormalizeSearch(input.search);
    if search.Err? {
      return Err(search.error);
    }
    var f := ListFilter(deviceId.value, severities.value, from.value, to.value, search.value, input.pageSize,
                        Offset(input.page, input.pageSize));
    var result := List(env, db, clientId, f);
    if result.None? {
      return Err(StorageFailed);
    }
    if UniqueIds(db.alerts) && (Searches(input) ==> OwnedDatabase(db)) {
      ListingMeansTheRequest(env, db, clientId, input, result.value.alerts);
    }
    return Ok(ListAlertsOutput(result.value.alerts, input.page, input.pageSize, result.value.total));
  }

  // ================================================================ what the pages add up to

  /** The list statement of a filter for any page of it. */
  function PageOf(env: Env, db: Database, clientId: Uuid, f: ListFilter): nat -> Option<seq<Alert>> {
    (page: nat) =>
      var g := f.(offset := Offset(page, f.pageSize));
      RunList(env, db, AlertListQueries(env, g).list, AlertListArgs(env, clientId, g) + [IntArg(g.pageSize), IntArg(g.offset)])
  }

  /** Pages 1..k, one after the other. */
  function FetchPages(page: nat -> Option<seq<Alert>>, k: nat): Option<seq<Alert>> {
    if k == 0 then Some([])
    else
      var before := FetchPages(page, k - 1);
      if before.Some? && page(k).Some? then Some(before.value + page(k).value) else None
  }

  // The page asked for has no part in what is wanted.
  lemma WantedOnAnyPage(env: Env, db: Database, clientId: Uuid, f: ListFilter, offset: int)
    ensures WantedAlerts(env, db, clientId, f.(offset := offset)) == WantedAlerts(env, db, clientId, f)
  {
    var g := f.(offset := offset);
    SelectAgrees(db.alerts, (a: Alert) => Wanted(env, db.devices, clientId, g, a), (a: Alert) => Wanted(env, db.devices, clientId, f, a));
  }

  lemma FetchedPage(env: Env, db: Database, clientId: Uuid, f: ListFilter, page: nat)
    requires Sendable(f) && (f.search.Some? ==> OwnedDatabase(db))
    ensures PageOf(env, db, clientId, f)(page)
            == Slice(NewestFirst(WantedAlerts(env, db, clientId, f)), f.pageSize, Offset(page, f.pageSize))
  {
    var g := f.(offset := Offset(page, f.pageSize));
    ListMeansTheFilter(env, db, clientId, g);
    WantedOnAnyPage(env, db, clientId, f, g.offset);
  }

  lemma {:induction false} FetchedPages(page: nat -> Option<seq<Alert>>, listing: seq<Alert>, pageSize: nat, k: nat)
    requires forall p: nat :: page(p) == Slice(listing, pageSize, Offset(p, pageSize))
    ensures FetchPages(page, k) == Pages(listing, pageSize, k)
  {
    if k > 0 {
      FetchedPages(page, listing, pageSize, k - 1);
    }
  }

  /** Against a fixed table the pages 1..TotalPages of any filter, concatenated, list every wanted
      alert of the client exactly once, strictly by (occurred_at DESC, id DESC). */
  lemma PagesListEverythingOnce(env: Env, db: Database, clientId: Uuid, f: ListFilter)
    requires UniqueIds(db.alerts) && Sendable(f) && (f.search.Some? ==> OwnedDatabase(db))
    requires 1 <= f.pageSize <= MAX_PAGE_SIZE && |WantedAlerts(env, db, clientId, f)| + f.pageSize - 1 <= MAX_INT64
    ensures var total := |WantedAlerts(env, db, clientId, f)|;
      && TotalPages(f.pageSize, total) >= 0
      && var listing := FetchPages(PageOf(env, db, clientId, f), TotalPages(f.pageSize, total));
         && listing.Some? && |listing.value| == total
         && NewestFirstOrder(listing.value)
         && forall a :: a in listing.value <==> a in db.alerts && Wanted(env, db.devices, clientId, f, a)
  {
    var wanted := WantedAlerts(env, db, clientId, f);
    NewestFirstLists(env, db, clientId, f);
    var listing := NewestFirst(wanted);
    PagesTile(listing, f.pageSize);
    var page := PageOf(env, db, clientId, f);
    forall p: nat ensures page(p) == Slice(listing, f.pageSize, Offset(p, f.pageSize)) {
      FetchedPage(env, db, clientId, f, p);
    }
    FetchedPages(page, listing, f.pageSize, TotalPages(f.pageSize, |wanted|));
  }
}
