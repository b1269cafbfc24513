/** The device service: check-then-write calls over the device table. */
module DeviceService {
  import opened Common
  import opened Devices

  const HOUR: int := 3_600_000_000_000
  const DAY: int := 24 * HOUR

  // A text field that did or did not name a member of its enumeration.
  datatype Parsed<T> = Valid(value: T) | Invalid

  datatype CreateRequest = CreateRequest(
    name: string, deviceType: Parsed<DeviceType>, status: Option<Parsed<DeviceStatus>>,
    tags: Option<seq<string>>, metadata: Option<map<string, string>>)

  datatype UpdateRequest = UpdateRequest(
    name: Option<string>, deviceType: Option<Parsed<DeviceType>>, status: Option<Parsed<DeviceStatus>>,
    tags: Option<seq<string>>, metadata: Option<map<string, string>>)

  datatype Config = Config(lower: Folding, restoreWindowDays: int)

  // ---------------------------------------------------------------- the restore window

  /** time.Duration(days) * 24 * time.Hour, in wrapping 64-bit arithmetic. */
  function RestoreWindow(days: int): int {
    Wrap64(Wrap64(days * 24) * HOUR)
  }

  /** time.Since saturates at the longest durations. */
  function Since(now: Time, t: Time): int {
    if now - t > MAX_INT64 then MAX_INT64 else if now - t < MIN_INT64 then MIN_INT64 else now - t
  }

  predicate WindowExpired(days: int, deletedAt: Time, now: Time) {
    Since(now, deletedAt) > RestoreWindow(days)
  }

  /** AddDate(0, 0, days) on a clock of fixed offset. */
  function PurgeAfter(days: int, deletedAt: Time): Time {
    deletedAt + days * DAY
  }

  // ---------------------------------------------------------------- calls as state changes

  function Merge(d: Device, req: UpdateRequest): Device {
    d.(name := if req.name.Some? then req.name.value else d.name,
       deviceType := if req.deviceType.Some? && req.deviceType.value.Valid? then req.deviceType.value.value else d.deviceType,
       status := if req.status.Some? && req.status.value.Valid? then req.status.value.value else d.status,
       tags := if req.tags.Some? then req.tags.value else d.tags,
       metadata := if req.metadata.Some? then req.metadata.value else d.metadata)
  }

  function NewDevice(clientId: Uuid, req: CreateRequest, raw: string, newId: Uuid): Device
    requires req.deviceType.Valid? && (req.status.Some? ==> req.status.value.Valid?)
  {
    Device(newId, clientId, req.name, req.deviceType.value, if req.status.Some? then req.status.value.value else Active,
           Sha256(raw), if req.tags.Some? then req.tags.value else [],
           if req.metadata.Some? then req.metadata.value else map[], None)
  }

  datatype Op =
    | Create(clientId: Uuid, create: CreateRequest, raw: string, newId: Uuid)
    | Update(clientId: Uuid, id: Uuid, update: UpdateRequest)
    | Delete(clientId: Uuid, id: Uuid, now: Time)
    | RestoreIt(clientId: Uuid, id: Uuid, now: Time)
    | Rotate(clientId: Uuid, id: Uuid, raw: string)

  /** The outcome of the checks a call makes before it writes. */
  function Precheck(cfg: Config, t: Table, op: Op): Result<Write, DeviceError> {
    match op
    case Create(c, req, raw, newId) =>
      if req.deviceType.Invalid? then Err(InvalidDeviceType)
      else if req.status.Some? && req.status.value.Invalid? then Err(InvalidDeviceStatus)
      else if !NulFree(req.name) then Err(StorageFailure)
      else if ExistsActiveName(cfg.lower, t, c, req.name, None) then Err(NameConflict)
      else Ok(Insert(NewDevice(c, req, raw, newId)))
    case Update(c, id, req) =>
      if !OwnedBy(t, c, id) then Err(DeviceNotFound)
      else if t[id].IsDeleted() then Err(DeviceDeleted)
      else if req.name.Some? && !NulFree(req.name.value) then Err(StorageFailure)
      else if req.name.Some? && ExistsActiveName(cfg.lower, t, c, req.name.value, Some(id)) then Err(NameConflict)
      else if req.deviceType.Some? && req.deviceType.value.Invalid? then Err(InvalidDeviceType)
      else if req.status.Some? && req.status.value.Invalid? then Err(InvalidDeviceStatus)
      else Ok(UpdateFields(Merge(t[id], req)))
    case Delete(c, id, now) => Ok(SoftDelete(c, id, now))
    case RestoreIt(c, id, now) =>
      if !OwnedBy(t, c, id) then Err(DeviceNotFound)
      else if !t[id].IsDeleted() then Err(DeviceNotDeleted)
      else if WindowExpired(cfg.restoreWindowDays, t[id].deletedAt.value, now) then Err(RestoreWindowExpired)
      else if !NulFree(t[id].name) then Err(StorageFailure)
      else if ExistsActiveName(cfg.lower, t, c, t[id].name, Some(id)) then Err(NameConflict)
      else Ok(Restore(c, id))
    case Rotate(c, id, raw) =>
      if !OwnedBy(t, c, id) then Err(DeviceNotFound)
      else if t[id].IsDeleted() then Err(DeviceDeleted)
      else Ok(UpdateKey(c, id, Sha256(raw)))
  }

  function CallError(cfg: Config, t: Table, op: Op): Option<DeviceError> {
    var w := Precheck(cfg, t, op);
    if w.Err? then Some(w.error) else WriteError(cfg.lower, t, w.value)
  }

  function Call(cfg: Config, t: Table, op: Op): Table {
    var w := Precheck(cfg, t, op);
    if w.Err? then t else Execute(cfg.lower, t, w.value)
  }

  // ---------------------------------------------------------------- what the calls do

  predicate Refuses<T>(asked: Option<Parsed<T>>) {
    asked == Some(Invalid)
  }

  // What the request asks for, or what was there.
  function Asked<T>(asked: Option<T>, before: T): T {
    match asked
    case Some(value) => value
    case None => before
  }

  function AskedName<T>(asked: Option<Parsed<T>>, before: T): T {
    match asked
    case Some(Valid(value)) => value
    case _ => before
  }

  /** The device after an update: the fields that the request gives, and the others as they were. */
  ghost predicate UpdatedAsAsked(before: Device, req: UpdateRequest, after: Device) {
    && after.name == Kept(Asked(req.name, before.name))
    && after.deviceType == AskedName(req.deviceType, before.deviceType)
    && after.status == AskedName(req.status, before.status)
    && after.tags == Asked(req.tags, before.tags)
    && after.metadata == Asked(req.metadata, before.metadata)
    && after.id == before.id && after.clientId == before.clientId
    && after.keyHash == before.keyHash && after.deletedAt == before.deletedAt
  }

  lemma MergeIs(d: Device, req: UpdateRequest)
    requires !Refuses(req.deviceType) && !Refuses(req.status)
    ensures UpdatedAsAsked(d, req, Merge(d, req).(name := Kept(Merge(d, req).name)))
  {
  }

  /** A creation stores the device asked for, active unless another status is given, under the hash
      of its key; it fails with the error of the first check that it does not pass. */
  lemma CreateIs(cfg: Config, t: Table, c: Uuid, req: CreateRequest, raw: string, newId: Uuid)
    requires Keyed(t)
    ensures var op := Create(c, req, raw, newId);
      var tags, metadata := Asked(req.tags, []), Asked(req.metadata, map[]);
      && CallError(cfg, t, op) ==
         (if req.deviceType.Invalid? then Some(InvalidDeviceType)
          else if Refuses(req.status) then Some(InvalidDeviceStatus)
          else if '\0' in req.name then Some(StorageFailure)
          else if NameInUse(cfg.lower, t, c, req.name, None) then Some(NameConflict)
          else if newId in t then Some(ConstraintViolation)
          else if !TextFits(req.name, tags, metadata) then Some(StorageFailure)
          else if NameInUse(cfg.lower, t, c, Kept(req.name), Some(newId)) then Some(NameConflict)
          else if HashInUse(t, Sha256(raw), newId) then Some(ConstraintViolation)
          else None)
      && Call(cfg, t, op) ==
         if CallError(cfg, t, op).Some? then t
         else t[newId := Device(newId, c, Kept(req.name), req.deviceType.value, AskedName(req.status, Active), Sha256(raw),
                                tags, metadata, None)]
  {
    if req.deviceType.Valid? && !Refuses(req.status) {
      ConflictIs(cfg.lower, t, NewDevice(c, req, raw, newId).(name := Kept(req.name), deletedAt := None));
    }
  }

  /** An update writes what it is asked to, or fails with the error of the first check. */
  lemma UpdateIs(cfg: Config, t: Table, c: Uuid, id: Uuid, req: UpdateRequest)
    requires Keyed(t)
    ensures var op := Update(c, id, req);
      && (CallError(cfg, t, op).Some? ==> Call(cfg, t, op) == t)
      && (id !in t || t[id].clientId != c ==> CallError(cfg, t, op) == Some(DeviceNotFound))
      && (id in t && t[id].clientId == c ==>
            var (before, name) := (t[id], Asked(req.name, t[id].name));
            && CallError(cfg, t, op) ==
               (if before.deletedAt != None then Some(DeviceDeleted)
                else if req.name.Some? && '\0' in name then Some(StorageFailure)
                else if req.name.Some? && NameInUse(cfg.lower, t, c, name, Some(id)) then Some(NameConflict)
                else if Refuses(req.deviceType) then Some(InvalidDeviceType)
                else if Refuses(req.status) then Some(InvalidDeviceStatus)
                else if !TextFits(name, Asked(req.tags, before.tags), Asked(req.metadata, before.metadata)) then Some(StorageFailure)
                else if NameInUse(cfg.lower, t, c, Kept(name), Some(id)) then Some(NameConflict)
                else if HashInUse(t, before.keyHash, id) then Some(ConstraintViolation)
                else None)
            && (CallError(cfg, t, op).None? ==>
                  id in Call(cfg, t, op) && Call(cfg, t, op) == t[id := Call(cfg, t, op)[id]]
                  && UpdatedAsAsked(before, req, Call(cfg, t, op)[id])))
  {
    if id in t && t[id].clientId == c && t[id].deletedAt == None {
      var merged := Merge(t[id], req);
      ConflictIs(cfg.lower, t, merged.(name := Kept(merged.name)));
    }
  }

  /** A deletion marks the device deleted at that time, unless it is marked already. */
  lemma DeleteIs(cfg: Config, t: Table, c: Uuid, id: Uuid, now: Time)
    requires Keyed(t)
    ensures var op := Delete(c, id, now);
      && (id !in t || t[id].clientId != c ==> CallError(cfg, t, op) == Some(DeviceNotFound) && Call(cfg, t, op) == t)
      && (id in t && t[id].clientId == c ==>
            && CallError(cfg, t, op) == (if HashInUse(t, t[id].keyHash, id) then Some(ConstraintViolation) else None)
            && Call(cfg, t, op) ==
               if CallError(cfg, t, op).Some? || t[id].deletedAt != None then t else t[id := t[id].(deletedAt := Some(now))])
  {
    if id in t {
      ConflictIs(cfg.lower, t, t[id].(deletedAt := Some(if t[id].deletedAt == None then now else t[id].deletedAt.value)));
    }
  }

  /** A restore brings a deleted device back as inactive, or fails with the error of the first check. */
  lemma RestoreIs(cfg: Config, t: Table, c: Uuid, id: Uuid, now: Time)
    requires Keyed(t)
    ensures var op := RestoreIt(c, id, now);
      && (id !in t || t[id].clientId != c ==> CallError(cfg, t, op) == Some(DeviceNotFound) && Call(cfg, t, op) == t)
      && (id in t && t[id].clientId == c ==>
            && CallError(cfg, t, op) ==
               (if t[id].deletedAt == None then Some(DeviceNotDeleted)
                else if WindowExpired(cfg.restoreWindowDays, t[id].deletedAt.value, now) then Some(RestoreWindowExpired)
                else if '\0' in t[id].name then Some(StorageFailure)
                else if NameInUse(cfg.lower, t, c, t[id].name, Some(id)) then Some(NameConflict)
                else if HashInUse(t, t[id].keyHash, id) then Some(ConstraintViolation)
                else None)
            && Call(cfg, t, op) ==
               if CallError(cfg, t, op).Some? then t else t[id := t[id].(deletedAt := None, status := Inactive)])
  {
    if id in t {
      ConflictIs(cfg.lower, t, t[id].(deletedAt := None, status := Inactive));
    }
  }

  /** A rotation stores the hash of the new key, or fails with the error of the first check. */
  lemma RotateIs(cfg: Config, t: Table, c: Uuid, id: Uuid, raw: string)
    requires Keyed(t)
    ensures var op := Rotate(c, id, raw);
      && (id !in t || t[id].clientId != c ==> CallError(cfg, t, op) == Some(DeviceNotFound) && Call(cfg, t, op) == t)
      && (id in t && t[id].clientId == c ==>
            && CallError(cfg, t, op) ==
               (if t[id].deletedAt != None then Some(DeviceDeleted)
                else if NameInUse(cfg.lower, t, c, t[id].name, Some(id)) then Some(NameConflict)
                else if HashInUse(t, Sha256(raw), id) then Some(ConstraintViolation)
                else None)
            && Call(cfg, t, op) == if CallError(cfg, t, op).Some? then t else t[id := t[id].(keyHash := Sha256(raw))])
  {
    if id in t {
      ConflictIs(cfg.lower, t, t[id].(keyHash := Sha256(raw)));
    }
  }

  // ---------------------------------------------------------------- the service

  class DeviceServiceImpl {
    const cfg: Config
    const repo: DeviceRepository

    ghost predicate Valid()
      reads repo
    {
      repo.lower == cfg.lower && repo.Valid()
    }

    constructor (cfg: Config, repo: DeviceRepository)
      requires repo.lower == cfg.lower && repo.Valid()
      ensures Valid() && this.cfg == cfg && this.repo == repo
    {
      this.cfg, this.repo := cfg, repo;
    }

    method CreateDevice(clientId: Uuid, req: CreateRequest, raw: string, newId: Uuid) returns (r: Result<Device, DeviceError>)
      requires Valid()
      modifies repo
      ensures Valid()
      ensures var op := Create(clientId, req, raw, newId);
        && repo.table == Call(cfg, old(repo.table), op)
        && (r.Err? <==> CallError(cfg, old(repo.table), op).Some?)
        && (r.Err? ==> r.error == CallError(cfg, old(repo.table), op).value)
        && (r.Ok? ==> newId in repo.table && r.value == repo.table[newId] && r.value.keyHash == Sha256(raw))
    {
      if req.deviceType.Invalid? {
        return Err(InvalidDeviceType);
      }
      var status := Active;
      if req.status.Some? {
        if req.status.value.Invalid? {
          return Err(InvalidDeviceStatus);
        }
        status := req.status.value.value;
      }
      var taken := repo.HasActiveName(clientId, req.name, None);
      if taken.Err? {
        return Err(taken.error);
      }
      if taken.value {
        return Err(NameConflict);
      }
      var tags := if req.tags.Some? then req.tags.value else [];
      var metadata := if req.metadata.Some? then req.metadata.value else map[];
      r := repo.Run(Insert(Device(newId, clientId, req.name, req.deviceType.value, status, Sha256(raw), tags, metadata, None)));
    }

    // The fields other than the name, one by one.
    method SetFields(before: Device, req: UpdateRequest) returns (r: Result<Device, DeviceError>)
      ensures r == if Refuses(req.deviceType) then Err(InvalidDeviceType)
                   else if Refuses(req.status) then Err(InvalidDeviceStatus)
                   else Ok(Merge(before, req.(name := None)))
    {
      var d := before;
      if req.deviceType.Some? {
        if req.deviceType.value.Invalid? {
          return Err(InvalidDeviceType);
        }
        d := d.(deviceType := req.deviceType.value.value);
      }
      if req.status.Some? {
        if req.status.value.Invalid? {
          return Err(InvalidDeviceStatus);
        }
        d := d.(status := req.status.value.value);
      }
      if req.tags.Some? {
        d := d.(tags := req.tags.value);
      }
      if req.metadata.Some? {
        d := d.(metadata := req.metadata.value);
      }
      return Ok(d);
    }

    method UpdateDevice(clientId: Uuid, id: Uuid, req: UpdateRequest) returns (r: Result<Device, DeviceError>)
      requires Valid()
      modifies repo
      ensures Valid()
      ensures var op := Update(clientId, id, req);
        && repo.table == Call(cfg, old(repo.table), op)
        && (r.Err? <==> CallError(cfg, old(repo.table), op).Some?)
        && (r.Err? ==> r.error == CallError(cfg, old(repo.table), op).value)
        && (r.Ok? ==>
              var merged := Merge(old(repo.table)[id], req);
              r.value == merged.(name := Kept(merged.name)) == repo.table[id])
        && (r.Ok? ==> id in old(repo.table) && UpdatedAsAsked(old(repo.table)[id], req, r.value))
    {
      var found := repo.FindByID(clientId, id, true);
      if found.Err? {
        return found;
      }
      var d := found.value;
      if d.IsDeleted() {
        return Err(DeviceDeleted);
      }
      if req.name.Some? {
        var taken := repo.HasActiveName(clientId, req.name.value, Some(id));
        if taken.Err? {
          return Err(taken.error);
        }
        if taken.value {
          return Err(NameConflict);
        }
        d := d.(name := req.name.value);
      }
      var asked := SetFields(d, req);
      if asked.Err? {
        return asked;
      }
      assert asked.value == Merge(found.value, req);
      r := repo.Run(UpdateFields(asked.value));
      if r.Ok? {
        MergeIs(found.value, req);
      }
    }

    /** Also reports when the device may be purged. */
    method DeleteDevice(clientId: Uuid, id: Uuid, now: Time) returns (r: Result<(Time, Time), DeviceError>)
      requires Valid()
      modifies repo
      ensures Valid()
      ensures var op := Delete(clientId, id, now);
        && repo.table == Call(cfg, old(repo.table), op)
        && (r.Err? <==> CallError(cfg, old(repo.table), op).Some?)
        && (r.Err? ==> r.error == CallError(cfg, old(repo.table), op).value)
        && (r.Ok? ==>
              var before := old(repo.table)[id].deletedAt;
              var deletedAt := if before.Some? then before.value else now;
              r.value == (deletedAt, deletedAt + cfg.restoreWindowDays * 86_400_000_000_000))
    {
      var deleted := repo.Run(SoftDelete(clientId, id, now));
      if deleted.Err? {
        return Err(deleted.error);
      }
      var deletedAt := deleted.value.deletedAt.value;
      return Ok((deletedAt, PurgeAfter(cfg.restoreWindowDays, deletedAt)));
    }

    method RestoreDevice(clientId: Uuid, id: Uuid, now: Time) returns (r: Result<Device, DeviceError>)
      requires Valid()
      modifies repo
      ensures Valid()
      ensures var op := RestoreIt(clientId, id, now);
        && repo.table == Call(cfg, old(repo.table), op)
        && (r.Err? <==> CallError(cfg, old(repo.table), op).Some?)
        && (r.Err? ==> r.error == CallError(cfg, old(repo.table), op).value)
        && (r.Ok? ==> r.value == old(repo.table)[id].(deletedAt := None, status := Inactive))
    {
      var found := repo.FindByID(clientId, id, true);
      if found.Err? {
        return found;
      }
      var d := found.value;
      if !d.IsDeleted() {
        return Err(DeviceNotDeleted);
      }
      if Since(now, d.deletedAt.value) > RestoreWindow(cfg.restoreWindowDays) {
        return Err(RestoreWindowExpired);
      }
      var taken := repo.HasActiveName(clientId, d.name, Some(id));
      if taken.Err? {
        return Err(taken.error);
      }
      if taken.value {
        return Err(NameConflict);
      }
      r := repo.Run(Restore(clientId, id));
    }

    method RotateAPIKey(clientId: Uuid, id: Uuid, raw: string) returns (r: Result<string, DeviceError>)
      requires Valid()
      modifies repo
      ensures Valid()
      ensures var op := Rotate(clientId, id, raw);
        && repo.table == Call(cfg, old(repo.table), op)
        && (r.Err? <==> CallError(cfg, old(repo.table), op).Some?)
        && (r.Err? ==> r.error == CallError(cfg, old(repo.table), op).value)
        && (r.Ok? ==> r.value == raw)
    {
      var found := repo.FindByID(clientId, id, true);
      if found.Err? {
        return Err(found.error);
      }
      if found.value.IsDeleted() {
        return Err(DeviceDeleted);
      }
      var updated := repo.Run(UpdateKey(clientId, id, Sha256(raw)));
      if updated.Err? {
        return Err(updated.error);
      }
      return Ok(raw);
    }
  }
}
