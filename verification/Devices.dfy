/** The `devices` table: soft delete, unique live names and API-key hashes. */
module Devices {
  import opened Common

  datatype DeviceType =
    | TemperatureSensor | HumiditySensor | SmokeDetector | MotionSensor | DoorSensor | Camera | Gateway | Other

  datatype DeviceStatus = Active | Inactive | Maintenance | ErrorStatus

  datatype Device = Device(
    id: Uuid, clientId: Uuid, name: string, deviceType: DeviceType, status: DeviceStatus, keyHash: Digest,
    tags: seq<string>, metadata: map<string, string>, deletedAt: Option<Time>)
  {
    predicate IsDeleted() {
      deletedAt.Some?
    }
  }

  datatype DeviceError =
    | DeviceNotFound | NameConflict | ConstraintViolation | StorageFailure
    | InvalidDeviceType | InvalidDeviceStatus | DeviceDeleted | DeviceNotDeleted | RestoreWindowExpired

  // Rows by id, and PostgreSQL's lower(), which the database's collation decides.
  type Table = map<Uuid, Device>
  type Folding = string -> string

  predicate LiveName(lower: Folding, d: Device, clientId: Uuid, name: string) {
    d.clientId == clientId && lower(d.name) == lower(name) && !d.IsDeleted()
  }

  /** SELECT EXISTS(... AND id <> exclude) */
  predicate ExistsActiveName(lower: Folding, t: Table, clientId: Uuid, name: string, exclude: Option<Uuid>) {
    exists id :: id in t && LiveName(lower, t[id], clientId, name) && Some(id) != exclude
  }

  const MAX_NAME := 100

  predicate OnlySpaces(s: string) {
    forall i :: 0 <= i < |s| ==> s[i] == ' '
  }

  /** What the name column makes of a name: spaces past its hundredth character are cut off, and
      the database refuses any other excess, a name of spaces only, and a NUL character. */
  function StoredName(name: string): Option<string> {
    var fits := |name| <= MAX_NAME;
    var kept := if fits then name else name[..MAX_NAME];
    if NulFree(name) && (fits || OnlySpaces(name[MAX_NAME..])) && !OnlySpaces(kept) then Some(kept) else None
  }

  lemma StoredNameIs(name: string)
    ensures StoredName(name).Some? <==>
              && '\0' !in name && (forall i :: 100 <= i < |name| ==> name[i] == ' ')
              && exists i :: 0 <= i < |name| && i < 100 && name[i] != ' '
    ensures StoredName(name).Some? ==> StoredName(name).value == Kept(name) == if |name| <= 100 then name else name[..100]
  {
    if |name| > MAX_NAME {
      assert forall i :: 0 <= i < |name[MAX_NAME..]| ==> name[MAX_NAME..][i] == name[MAX_NAME + i];
      assert forall i :: MAX_NAME <= i < |name| ==> name[i] == name[MAX_NAME..][i - MAX_NAME];
      assert forall i :: 0 <= i < MAX_NAME ==> name[..MAX_NAME][i] == name[i];
    }
  }

  function Kept(name: string): string {
    if StoredName(name).Some? then StoredName(name).value else name
  }

  // The database stores every text of the device.
  predicate Storable(d: Device) {
    && StoredName(d.name).Some?
    && (forall i :: 0 <= i < |d.tags| ==> NulFree(d.tags[i]))
    && (forall k :: k in d.metadata ==> NulFree(k) && NulFree(d.metadata[k]))
  }

  /** The texts of a device that the database can store. */
  ghost predicate TextFits(name: string, tags: seq<string>, metadata: map<string, string>) {
    && StoredName(name).Some?
    && (forall tag :: tag in tags ==> '\0' !in tag)
    && (forall k :: k in metadata ==> '\0' !in k && '\0' !in metadata[k])
  }

  /** What writing `d` over its row meets: the partial unique index on live names, then the
      unique key hashes. */
  function Conflict(lower: Folding, t: Table, d: Device): Option<DeviceError> {
    if !d.IsDeleted() && ExistsActiveName(lower, t, d.clientId, d.name, Some(d.id)) then Some(NameConflict)
    else if exists id :: id in t && t[id].keyHash == d.keyHash && id != d.id then Some(ConstraintViolation)
    else None
  }

  datatype Write =
    | Insert(d: Device)
    | UpdateFields(d: Device)
    | SoftDelete(clientId: Uuid, id: Uuid, now: Time)
    | Restore(clientId: Uuid, id: Uuid)
    | UpdateKey(clientId: Uuid, id: Uuid, keyHash: Digest)

  predicate OwnedBy(t: Table, clientId: Uuid, id: Uuid) {
    id in t && t[id].clientId == clientId
  }

  /** The row a statement leaves, when its WHERE clause finds one. */
  function Target(t: Table, w: Write): Option<Device> {
    match w
    case Insert(d) => if d.id in t then None else Some(d.(name := Kept(d.name), deletedAt := None))
    case UpdateFields(d) =>
      if OwnedBy(t, d.clientId, d.id) then
        Some(t[d.id].(name := Kept(d.name), deviceType := d.deviceType, status := d.status, tags := d.tags, metadata := d.metadata))
      else None
    case SoftDelete(c, id, now) =>
      if OwnedBy(t, c, id) then
        Some(t[id].(deletedAt := if t[id].IsDeleted() then t[id].deletedAt else Some(now)))
      else None
    case Restore(c, id) => if OwnedBy(t, c, id) then Some(t[id].(deletedAt := None, status := Inactive)) else None
    case UpdateKey(c, id, h) =>
      if OwnedBy(t, c, id) && !t[id].IsDeleted() then Some(t[id].(keyHash := h)) else None
  }

  function WriteError(lower: Folding, t: Table, w: Write): Option<DeviceError> {
    var d := Target(t, w);
    if d.None? then Some(if w.Insert? then ConstraintViolation else DeviceNotFound)
    else if (w.Insert? || w.UpdateFields?) && !Storable(w.d) then Some(StorageFailure)
    else Conflict(lower, t, d.value)
  }

  /** One statement, atomic in the database: it changes one row or nothing. */
  function Execute(lower: Folding, t: Table, w: Write): Table {
    if WriteError(lower, t, w).Some? then t else t[Target(t, w).value.id := Target(t, w).value]
  }

  ghost predicate Keyed(t: Table) {
    forall id :: id in t ==> t[id].id == id
  }

  // ---------------------------------------------------------------- what the statements do

  // Another live device of the client has the name, but for case.
  ghost predicate NameInUse(lower: Folding, t: Table, clientId: Uuid, name: string, but: Option<Uuid>) {
    exists id :: id in t && t[id].clientId == clientId && t[id].deletedAt == None && lower(t[id].name) == lower(name) && but != Some(id)
  }

  ghost predicate HashInUse(t: Table, keyHash: Digest, but: Uuid) {
    exists id :: id in t && t[id].keyHash == keyHash && id != but
  }

  /** A statement that is refused changes nothing, and one that is not changes the row it is about:
      these fields of it and no others. */
  lemma StatementsAre(lower: Folding, t: Table, w: Write)
    requires Keyed(t)
    ensures WriteError(lower, t, w).Some? ==> Execute(lower, t, w) == t
    ensures WriteError(lower, t, w).None? ==>
      match w
      case Insert(d) =>
        && d.id !in t
        && Execute(lower, t, w) ==
           t[d.id := Device(d.id, d.clientId, Kept(d.name), d.deviceType, d.status, d.keyHash, d.tags, d.metadata, None)]
      case UpdateFields(d) =>
        && d.id in t && t[d.id].clientId == d.clientId
        && Execute(lower, t, w) ==
           t[d.id := Device(d.id, d.clientId, Kept(d.name), d.deviceType, d.status, t[d.id].keyHash, d.tags, d.metadata, t[d.id].deletedAt)]
      case SoftDelete(c, id, now) =>
        && id in t && t[id].clientId == c
        && Execute(lower, t, w) == (if t[id].deletedAt == None then t[id := t[id].(deletedAt := Some(now))] else t)
      case Restore(c, id) =>
        && id in t && t[id].clientId == c
        && Execute(lower, t, w) == t[id := t[id].(deletedAt := None, status := Inactive)]
      case UpdateKey(c, id, h) =>
        && id in t && t[id].clientId == c && t[id].deletedAt == None
        && Execute(lower, t, w) == t[id := t[id].(keyHash := h)]
  {
  }

  /** Why a row is refused: a live row for its name, any row for its key. */
  lemma ConflictIs(lower: Folding, t: Table, d: Device)
    ensures Conflict(lower, t, d) ==
            if d.deletedAt == None && NameInUse(lower, t, d.clientId, d.name, Some(d.id)) then Some(NameConflict)
            else if HashInUse(t, d.keyHash, d.id) then Some(ConstraintViolation)
            else None
  {
  }

  // ================================================================ the repository

  class DeviceRepository {
    const lower: Folding
    var table: Table

    ghost predicate Valid()
      reads this
    {
      Keyed(table)
    }

    constructor (lower: Folding)
      ensures Valid() && this.lower == lower && table == map[]
    {
      this.lower := lower;
      table := map[];
    }

    // Runs a statement with RETURNING.
    method Run(w: Write) returns (r: Result<Device, DeviceError>)
      requires Valid()
      modifies this
      ensures Valid()
      ensures table == Execute(lower, old(table), w)
      ensures r == if WriteError(lower, old(table), w).Some? then Err(WriteError(lower, old(table), w).value)
                   else Ok(Target(old(table), w).value)
    {
      var e := WriteError(lower, table, w);
      if e.Some? {
        return Err(e.value);
      }
      var d := Target(table, w).value;
      table := table[d.id := d];
      return Ok(d);
    }

    method FindByID(clientId: Uuid, id: Uuid, includeDeleted: bool) returns (r: Result<Device, DeviceError>)
      ensures r == if OwnedBy(table, clientId, id) && (includeDeleted || !table[id].IsDeleted()) then Ok(table[id])
                   else Err(DeviceNotFound)
    {
      if id in table && table[id].clientId == clientId && (includeDeleted || !table[id].IsDeleted()) {
        return Ok(table[id]);
      }
      return Err(DeviceNotFound);
    }

    method HasActiveName(clientId: Uuid, name: string, exclude: Option<Uuid>) returns (r: Result<bool, DeviceError>)
      ensures r == if NulFree(name) then Ok(ExistsActiveName(lower, table, clientId, name, exclude)) else Err(StorageFailure)
      ensures r.Err? <==> '\0' in name
      ensures r.Ok? ==> (r.value <==> NameInUse(lower, table, clientId, name, exclude))
    {
      if !NulFree(name) {
        return Err(StorageFailure);
      }
      return Ok(ExistsActiveName(lower, table, clientId, name, exclude));
    }

    method FindByAPIKeyHash(keyHash: Digest) returns (r: Result<Device, DeviceError>)
      requires Valid()
      ensures r.Ok? ==> Authenticates(table, keyHash, r.value.id) && r.value == table[r.value.id]
      ensures r.Err? ==> r == Err(DeviceNotFound) && forall id :: !Authenticates(table, keyHash, id)
    {
      var ids := table.Keys;
      while ids != {}
        invariant ids <= table.Keys
        invariant forall id :: id in table.Keys - ids ==> !Authenticates(table, keyHash, id)
        decreases |ids|
      {
        var id :| id in ids;
        if table[id].keyHash == keyHash && !table[id].IsDeleted() {
          return Ok(table[id]);
        }
        ids := ids - {id};
      }
      return Err(DeviceNotFound);
    }
  }

  predicate Authenticates(t: Table, keyHash: Digest, id: Uuid) {
    id in t && t[id].keyHash == keyHash && !t[id].IsDeleted()
  }
}
