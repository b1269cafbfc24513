/** What runs over the device table guarantee about keys, names, owners and restores. */
module DeviceProperties {
  import opened Common
  import opened Devices
  import opened DeviceService

  // ================================================================ the table under any statements

  ghost predicate UniqueLiveNames(lower: Folding, t: Table) {
    forall i, j :: i in t && j in t && i != j && !t[i].IsDeleted() && !t[j].IsDeleted() && t[i].clientId == t[j].clientId ==>
      lower(t[i].name) != lower(t[j].name)
  }

  ghost predicate UniqueHashes(t: Table) {
    forall i, j :: i in t && j in t && i != j ==> t[i].keyHash != t[j].keyHash
  }

  // Every name is as the column stores it.
  ghost predicate NamesFit(t: Table) {
    forall id :: id in t ==> StoredName(t[id].name) == Some(t[id].name)
  }

  ghost predicate TableOk(lower: Folding, t: Table) {
    Keyed(t) && UniqueLiveNames(lower, t) && UniqueHashes(t) && NamesFit(t)
  }

  lemma KeptNamesFit(name: string)
    requires StoredName(name).Some?
    ensures StoredName(Kept(name)) == Some(Kept(name))
  {
    assert forall i :: 0 <= i < |Kept(name)| ==> Kept(name)[i] == name[i];
  }

  function ExecuteAll(lower: Folding, t: Table, ws: seq<Write>): Table {
    if ws == [] then t else Execute(lower, ExecuteAll(lower, t, ws[..|ws| - 1]), ws[|ws| - 1])
  }

  lemma ExecuteKeepsNamesFitting(lower: Folding, t: Table, w: Write)
    requires Keyed(t) && NamesFit(t)
    ensures NamesFit(Execute(lower, t, w))
  {
    if WriteError(lower, t, w).None? && (w.Insert? || w.UpdateFields?) {
      KeptNamesFit(w.d.name);
    }
  }

  // A row that meets neither index may take its place in the table.
  lemma PlaceRow(lower: Folding, t: Table, d: Device)
    requires Keyed(t) && UniqueLiveNames(lower, t) && UniqueHashes(t) && Conflict(lower, t, d).None?
    ensures Keyed(t[d.id := d]) && UniqueLiveNames(lower, t[d.id := d]) && UniqueHashes(t[d.id := d])
  {
    assert !d.IsDeleted() ==> forall i :: i in t && i != d.id ==> !LiveName(lower, t[i], d.clientId, d.name);
    assert forall i :: i in t && i != d.id ==> t[i].keyHash != d.keyHash;
  }

  lemma ExecuteKeepsTable(lower: Folding, t: Table, w: Write)
    requires TableOk(lower, t)
    ensures TableOk(lower, Execute(lower, t, w))
  {
    ExecuteKeepsNamesFitting(lower, t, w);
    if WriteError(lower, t, w).None? {
      PlaceRow(lower, t, Target(t, w).value);
    }
  }

  // A statement keeps every row with its owner, and a deletion time until a restore.
  lemma ExecuteKeepsRows(lower: Folding, t: Table, w: Write, id: Uuid)
    requires Keyed(t) && id in t
    ensures var t' := Execute(lower, t, w);
      && id in t' && t'[id].clientId == t[id].clientId
      && (t[id].IsDeleted() && !(w.Restore? && w.id == id) ==> t'[id].deletedAt == t[id].deletedAt)
  {
  }

  function Owners(t: Table): map<Uuid, Uuid> {
    map id | id in t :: t[id].clientId
  }

  /** Calls of any number of requests interleave as sequences of statements, each written after
      checks that may be stale by then. Whatever the sequence, the atomic indexes keep live names
      unique per client ignoring case and key hashes unique, no row disappears, and a row stays
      with the client that created it. */
  lemma {:induction false} AnyInterleavingKeepsTable(lower: Folding, t: Table, ws: seq<Write>)
    requires TableOk(lower, t)
    ensures var t' := ExecuteAll(lower, t, ws);
      TableOk(lower, t') && forall id :: id in t ==> id in t' && t'[id].clientId == t[id].clientId
  {
    if ws != [] {
      var before, w := ExecuteAll(lower, t, ws[..|ws| - 1]), ws[|ws| - 1];
      AnyInterleavingKeepsTable(lower, t, ws[..|ws| - 1]);
      ExecuteKeepsTable(lower, before, w);
      forall id | id in t ensures id in Execute(lower, before, w) && Execute(lower, before, w)[id].clientId == t[id].clientId {
        ExecuteKeepsRows(lower, before, w, id);
      }
    }
  }

  /** Seen through its owners, a statement adds one device or changes nothing: the only change of
      ownership the alert pipeline has to reckon with. */
  lemma OwnersOnlyGrow(lower: Folding, t: Table, w: Write)
    requires Keyed(t)
    ensures var o' := Owners(Execute(lower, t, w));
      o' == Owners(t) || (w.Insert? && w.d.id !in t && o' == Owners(t)[w.d.id := w.d.clientId])
  {
    if WriteError(lower, t, w).None? {
      var d := Target(t, w).value;
      if w.Insert? {
        assert Owners(t[d.id := d]) == Owners(t)[w.d.id := w.d.clientId];
      } else {
        assert d.id in t && d.clientId == t[d.id].clientId;
        assert Owners(t[d.id := d]) == Owners(t);
      }
    }
  }

  /** An update writes the fields of a row it read earlier; whatever ran in between, it undoes no
      rotation, deletion or restore and moves no device to another client. */
  lemma StaleUpdateUndoesNothing(lower: Folding, t: Table, stale: Device, id: Uuid)
    requires TableOk(lower, t) && id in t
    ensures var t' := Execute(lower, t, UpdateFields(stale));
      && t'.Keys == t.Keys
      && t'[id].keyHash == t[id].keyHash && t'[id].deletedAt == t[id].deletedAt && t'[id].clientId == t[id].clientId
      && (t'[id] != t[id] ==> id == stale.id && t'[id].name == Kept(stale.name) && t'[id].deviceType == stale.deviceType
                              && t'[id].status == stale.status)
  {
  }

  /** The indexes are needed: two creations of one name whose checks both run before either
      writes both pass them, and only the name index turns the second away. */
  lemma RacingCreatesNeedTheIndex(cfg: Config, t: Table, a: Op, b: Op)
    requires TableOk(cfg.lower, t) && a.Create? && b.Create?
    requires a.clientId == b.clientId && a.newId != b.newId
    requires cfg.lower(Kept(a.create.name)) == cfg.lower(Kept(b.create.name))
    requires CallError(cfg, t, a).None? && CallError(cfg, t, b).None?
    ensures var first := Execute(cfg.lower, t, Precheck(cfg, t, a).value);
      WriteError(cfg.lower, first, Precheck(cfg, t, b).value) == Some(NameConflict)
  {
  }

  // The name that a call wants its device to have, if it names one.
  function GivenName(op: Op): Option<string> {
    match op
    case Create(_, req, _, _) => Some(req.name)
    case Update(_, _, req) => req.name
    case _ => None
  }

  /** The column cuts spaces off the name that the call gives. */
  predicate Shortens(op: Op) {
    GivenName(op).Some? && Kept(GivenName(op).value) != GivenName(op).value
  }

  lemma FittingNameWasChecked(cfg: Config, t: Table, op: Op)
    requires TableOk(cfg.lower, t) && Precheck(cfg, t, op).Ok? && !Shortens(op)
    ensures WriteError(cfg.lower, t, Precheck(cfg, t, op).value) != Some(NameConflict)
  {
    var target := Target(t, Precheck(cfg, t, op).value);
    if target.Some? {
      var d := target.value;
      forall id | id in t && id != d.id && !d.IsDeleted() ensures !LiveName(cfg.lower, t[id], d.clientId, d.name) {
        assert op.Create? ==> !LiveName(cfg.lower, t[id], op.clientId, op.create.name);
      }
    }
  }

  /** In serial calls the check all but does the work of the index: a write that passed its checks
      on a table with unique live names meets the name index exactly when the column shortens the
      name it gives (the check compared the name in full) and the client has another live device
      of the shortened name. */
  lemma SerialWriteMeetsNameIndexIff(cfg: Config, t: Table, op: Op)
    requires TableOk(cfg.lower, t) && Precheck(cfg, t, op).Ok?
    ensures var w := Precheck(cfg, t, op).value;
      WriteError(cfg.lower, t, w) == Some(NameConflict) <==>
        && Shortens(op) && (w.Insert? || w.UpdateFields?) && Storable(w.d) && Target(t, w).Some?
        && ExistsActiveName(cfg.lower, t, w.d.clientId, Kept(GivenName(op).value), Some(w.d.id))
  {
    if !Shortens(op) {
      FittingNameWasChecked(cfg, t, op);
    }
  }

  /** So a write whose name fits never meets it. */
  lemma SerialWritesMeetNoNameIndex(cfg: Config, t: Table, op: Op)
    requires TableOk(cfg.lower, t)
    ensures Precheck(cfg, t, op).Ok? && !Shortens(op) ==>
              WriteError(cfg.lower, t, Precheck(cfg, t, op).value) != Some(NameConflict)
  {
    if Precheck(cfg, t, op).Ok? {
      SerialWriteMeetsNameIndexIff(cfg, t, op);
    }
  }

  /** The call on a database without the index on live names. */
  function CallUnindexed(cfg: Config, t: Table, op: Op): Table {
    var w := Precheck(cfg, t, op);
    if w.Err? then t
    else
      var e := WriteError(cfg.lower, t, w.value);
      var target := Target(t, w.value);
      if || target.None? || (e.Some? && e != Some(NameConflict))
         || (exists id :: id in t && t[id].keyHash == target.value.keyHash && id != target.value.id)
      then t
      else t[target.value.id := target.value]
  }

  function CallAllUnindexed(cfg: Config, t: Table, ops: seq<Op>): Table {
    if ops == [] then t else CallUnindexed(cfg, CallAllUnindexed(cfg, t, ops[..|ops| - 1]), ops[|ops| - 1])
  }

  lemma CallKeepsTable(cfg: Config, t: Table, op: Op)
    requires TableOk(cfg.lower, t)
    ensures TableOk(cfg.lower, Call(cfg, t, op))
  {
    if Precheck(cfg, t, op).Ok? {
      ExecuteKeepsTable(cfg.lower, t, Precheck(cfg, t, op).value);
    }
  }

  lemma CallNeedsNoIndex(cfg: Config, t: Table, op: Op)
    requires TableOk(cfg.lower, t) && !Shortens(op)
    ensures CallUnindexed(cfg, t, op) == Call(cfg, t, op)
  {
    SerialWritesMeetNoNameIndex(cfg, t, op);
  }

  /** Serial runs whose names fit the column leave the same table with and without the name index,
      call by call: the checks alone keep live names unique. */
  lemma {:induction false} SerialRunsNeedNoIndex(cfg: Config, t: Table, ops: seq<Op>)
    requires TableOk(cfg.lower, t) && forall op :: op in ops ==> !Shortens(op)
    ensures CallAllUnindexed(cfg, t, ops) == CallAll(cfg, t, ops) && TableOk(cfg.lower, CallAll(cfg, t, ops))
  {
    if ops != [] {
      var front, op := ops[..|ops| - 1], ops[|ops| - 1];
      SerialRunsNeedNoIndex(cfg, t, front);
      CallNeedsNoIndex(cfg, CallAll(cfg, t, front), op);
      CallKeepsTable(cfg, CallAll(cfg, t, front), op);
    }
  }

  function CallAll(cfg: Config, t: Table, ops: seq<Op>): Table {
    if ops == [] then t else Call(cfg, CallAll(cfg, t, ops[..|ops| - 1]), ops[|ops| - 1])
  }

  // ================================================================ keys over serial runs

  /** The table, and for each device the raw keys that calls have returned for it, oldest first. */
  datatype History = History(table: Table, issued: map<Uuid, seq<string>>)

  const NOTHING := History(map[], map[])

  function KeysOf(h: History, id: Uuid): seq<string> {
    if id in h.issued then h.issued[id] else []
  }

  function Serve(cfg: Config, h: History, op: Op): History {
    var t := Call(cfg, h.table, op);
    if CallError(cfg, h.table, op).Some? then h.(table := t)
    else
      match op
      case Create(_, _, raw, newId) => History(t, h.issued[newId := [raw]])
      case Rotate(_, id, raw) => History(t, h.issued[id := KeysOf(h, id) + [raw]])
      case _ => h.(table := t)
  }

  function Run(cfg: Config, h: History, ops: seq<Op>): History {
    if ops == [] then h else Serve(cfg, Run(cfg, h, ops[..|ops| - 1]), ops[|ops| - 1])
  }

  ghost predicate WasIssued(h: History, raw: string) {
    exists id :: id in h.issued && raw in h.issued[id]
  }

  /** A generated key was never generated before. */
  ghost predicate Fresh(h: History, op: Op) {
    && (op.Create? ==> !WasIssued(h, op.raw))
    && (op.Rotate? ==> !WasIssued(h, op.raw))
  }

  ghost predicate Legal(cfg: Config, h: History, ops: seq<Op>) {
    ops == [] || (Legal(cfg, h, ops[..|ops| - 1]) && Fresh(Run(cfg, h, ops[..|ops| - 1]), ops[|ops| - 1]))
  }

  ghost predicate KeysDiffer(issued: map<Uuid, seq<string>>) {
    forall i, j, p, q :: i in issued && j in issued && 0 <= p < |issued[i]| && 0 <= q < |issued[j]| && issued[i][p] == issued[j][q] ==>
      i == j && p == q
  }

  /** Every row holds the hash of the last key issued for it. */
  ghost predicate HoldsLastKeys(t: Table, issued: map<Uuid, seq<string>>) {
    && (forall id :: id in t <==> id in issued)
    && forall id :: id in t ==> issued[id] != [] && t[id].keyHash == Sha256(issued[id][|issued[id]| - 1])
  }

  ghost predicate Inv(cfg: Config, h: History) {
    TableOk(cfg.lower, h.table) && KeysDiffer(h.issued) && HoldsLastKeys(h.table, h.issued)
  }

  lemma NewKeyDiffers(issued: map<Uuid, seq<string>>, id: Uuid, raw: string)
    requires KeysDiffer(issued) && forall x :: x in issued ==> raw !in issued[x]
    ensures KeysDiffer(issued[id := (if id in issued then issued[id] else []) + [raw]])
  {
  }

  // A statement changes one row at most, and its key only where the statement is about the key.
  lemma WriteKeepsKeys(lower: Folding, t: Table, w: Write)
    requires Keyed(t) && WriteError(lower, t, w).None?
    ensures var t' := Execute(lower, t, w);
      var id := Target(t, w).value.id;
      && (forall x :: x in t' <==> x in t || x == id)
      && (forall x :: x in t && (x != id || !(w.Insert? || w.UpdateKey?)) ==> t'[x].keyHash == t[x].keyHash)
      && (w.Insert? ==> id == w.d.id && id !in t && t'[id].keyHash == w.d.keyHash)
      && (!w.Insert? ==> id in t)
      && (w.UpdateKey? ==> id == w.id && t'[id].keyHash == w.keyHash)
  {
  }

  lemma IssueHoldsKeys(t: Table, t': Table, issued: map<Uuid, seq<string>>, id: Uuid, keys: seq<string>)
    requires HoldsLastKeys(t, issued)
    requires forall x :: x in t' <==> x in t || x == id
    requires forall x :: x in t && x != id ==> t'[x].keyHash == t[x].keyHash
    requires keys != [] && t'[id].keyHash == Sha256(keys[|keys| - 1])
    ensures HoldsLastKeys(t', issued[id := keys])
  {
  }

  // The device that a statement gives the key of this hash.
  ghost predicate GivesKey(t: Table, w: Write, id: Uuid, raw: string) {
    (w.Insert? && w.d.id == id && w.d.keyHash == Sha256(raw)) || (w.UpdateKey? && w.id == id && w.keyHash == Sha256(raw))
  }

  lemma KeyIsLast(lower: Folding, t: Table, w: Write, issued: map<Uuid, seq<string>>, id: Uuid, raw: string)
    requires Keyed(t) && HoldsLastKeys(t, issued) && WriteError(lower, t, w).None? && GivesKey(t, w, id, raw)
    ensures HoldsLastKeys(Execute(lower, t, w), issued[id := (if id in issued then issued[id] else []) + [raw]])
  {
    WriteKeepsKeys(lower, t, w);
    IssueHoldsKeys(t, Execute(lower, t, w), issued, id, (if id in issued then issued[id] else []) + [raw]);
  }

  lemma IssuingKeepsInv(cfg: Config, h: History, w: Write, id: Uuid, raw: string)
    requires Inv(cfg, h) && !WasIssued(h, raw) && WriteError(cfg.lower, h.table, w).None? && GivesKey(h.table, w, id, raw)
    ensures Inv(cfg, History(Execute(cfg.lower, h.table, w), h.issued[id := KeysOf(h, id) + [raw]]))
  {
    ExecuteKeepsTable(cfg.lower, h.table, w);
    KeyIsLast(cfg.lower, h.table, w, h.issued, id, raw);
    NewKeyDiffers(h.issued, id, raw);
  }

  // A creation or a rotation is its write, and issues the key.
  lemma IssuingCallIsItsWrite(cfg: Config, h: History, op: Op)
    requires (op.Create? || op.Rotate?) && CallError(cfg, h.table, op).None?
    ensures var w := Precheck(cfg, h.table, op).value;
      var id := if op.Create? then op.newId else op.id;
      && WriteError(cfg.lower, h.table, w).None? && GivesKey(h.table, w, id, op.raw)
      && Serve(cfg, h, op).table == Execute(cfg.lower, h.table, w)
      && Serve(cfg, h, op).issued == h.issued[id := if op.Create? then [op.raw] else KeysOf(h, id) + [op.raw]]
      && (op.Create? ==> id !in h.table)
  {
  }

  lemma IssuingCallKeepsInv(cfg: Config, h: History, op: Op)
    requires Inv(cfg, h) && (op.Create? || op.Rotate?) && Fresh(h, op) && CallError(cfg, h.table, op).None?
    ensures Inv(cfg, Serve(cfg, h, op))
  {
    var id := if op.Create? then op.newId else op.id;
    IssuingCallIsItsWrite(cfg, h, op);
    assert op.Create? ==> KeysOf(h, id) + [op.raw] == [op.raw];
    IssuingKeepsInv(cfg, h, Precheck(cfg, h.table, op).value, id, op.raw);
  }

  lemma OtherWriteKeepsInv(cfg: Config, h: History, w: Write)
    requires Inv(cfg, h) && !w.Insert? && !w.UpdateKey? && WriteError(cfg.lower, h.table, w).None?
    ensures Inv(cfg, h.(table := Execute(cfg.lower, h.table, w)))
  {
    ExecuteKeepsTable(cfg.lower, h.table, w);
    WriteKeepsKeys(cfg.lower, h.table, w);
    var t := Execute(cfg.lower, h.table, w);
    assert HoldsLastKeys(t, h.issued);
  }

  // A call that issues no key is its write.
  lemma OtherCallIsItsWrite(cfg: Config, h: History, op: Op)
    requires !op.Create? && !op.Rotate? && CallError(cfg, h.table, op).None?
    ensures var w := Precheck(cfg, h.table, op).value;
      && !w.Insert? && !w.UpdateKey? && WriteError(cfg.lower, h.table, w).None?
      && Serve(cfg, h, op) == h.(table := Execute(cfg.lower, h.table, w))
  {
  }

  lemma OtherCallsKeepInv(cfg: Config, h: History, op: Op)
    requires Inv(cfg, h) && !op.Create? && !op.Rotate? && CallError(cfg, h.table, op).None?
    ensures Inv(cfg, Serve(cfg, h, op))
  {
    OtherCallIsItsWrite(cfg, h, op);
    OtherWriteKeepsInv(cfg, h, Precheck(cfg, h.table, op).value);
  }

  lemma ServeKeepsInv(cfg: Config, h: History, op: Op)
    requires Inv(cfg, h) && Fresh(h, op)
    ensures Inv(cfg, Serve(cfg, h, op))
  {
    if CallError(cfg, h.table, op).Some? {
      assert Serve(cfg, h, op) == h;
    } else if op.Create? || op.Rotate? {
      IssuingCallKeepsInv(cfg, h, op);
    } else {
      OtherCallsKeepInv(cfg, h, op);
    }
  }

  lemma {:induction false} Reachable(cfg: Config, h: History, ops: seq<Op>)
    requires Inv(cfg, h) && Legal(cfg, h, ops)
    ensures Inv(cfg, Run(cfg, h, ops))
  {
    if ops != [] {
      Reachable(cfg, h, ops[..|ops| - 1]);
      ServeKeepsInv(cfg, Run(cfg, h, ops[..|ops| - 1]), ops[|ops| - 1]);
    }
  }

  ghost predicate LastKey(h: History, id: Uuid, raw: string) {
    KeysOf(h, id) != [] && KeysOf(h, id)[|KeysOf(h, id)| - 1] == raw
  }

  lemma LastKeysAuthenticate(h: History, raw: string, id: Uuid)
    requires HoldsLastKeys(h.table, h.issued)
    ensures Authenticates(h.table, Sha256(raw), id) <==> id in h.table && !h.table[id].IsDeleted() && LastKey(h, id, raw)
  {
  }

  /** In every serial run a raw key authenticates a device exactly when it is the last key
      returned for that device and the device is not deleted; it authenticates at most one. */
  lemma AuthenticatesIff(cfg: Config, ops: seq<Op>, raw: string, id: Uuid, other: Uuid)
    requires Legal(cfg, NOTHING, ops)
    ensures var h := Run(cfg, NOTHING, ops);
      && (Authenticates(h.table, Sha256(raw), id) <==> id in h.table && !h.table[id].IsDeleted() && LastKey(h, id, raw))
      && (Authenticates(h.table, Sha256(raw), id) && Authenticates(h.table, Sha256(raw), other) ==> id == other)
  {
    Reachable(cfg, NOTHING, ops);
    LastKeysAuthenticate(Run(cfg, NOTHING, ops), raw, id);
  }

  lemma ServeIssuesMore(cfg: Config, h: History, op: Op, id: Uuid)
    requires Inv(cfg, h) && id in h.issued
    ensures id in Serve(cfg, h, op).issued && h.issued[id] <= Serve(cfg, h, op).issued[id]
  {
    if (op.Create? || op.Rotate?) && CallError(cfg, h.table, op).None? {
      IssuingCallIsItsWrite(cfg, h, op);
    }
  }

  lemma {:induction false} KeysOnlyGrow(cfg: Config, h: History, ops: seq<Op>, id: Uuid)
    requires Inv(cfg, h) && Legal(cfg, h, ops) && id in h.issued
    ensures id in Run(cfg, h, ops).issued && h.issued[id] <= Run(cfg, h, ops).issued[id]
  {
    if ops != [] {
      KeysOnlyGrow(cfg, h, ops[..|ops| - 1], id);
      Reachable(cfg, h, ops[..|ops| - 1]);
      ServeIssuesMore(cfg, Run(cfg, h, ops[..|ops| - 1]), ops[|ops| - 1], id);
    }
  }

  lemma OldKeysAreDead(cfg: Config, h: History, id: Uuid, k: nat, any: Uuid)
    requires Inv(cfg, h) && k + 1 < |KeysOf(h, id)|
    ensures !Authenticates(h.table, Sha256(KeysOf(h, id)[k]), any)
  {
  }

  /** A key that has been rotated out authenticates nothing, now and in every continuation. */
  lemma RotatedOutKeysStayDead(cfg: Config, past: seq<Op>, id: Uuid, k: nat, future: seq<Op>, any: Uuid)
    requires Legal(cfg, NOTHING, past)
    requires k + 1 < |KeysOf(Run(cfg, NOTHING, past), id)|
    requires Legal(cfg, Run(cfg, NOTHING, past), future)
    ensures !Authenticates(Run(cfg, Run(cfg, NOTHING, past), future).table, Sha256(KeysOf(Run(cfg, NOTHING, past), id)[k]), any)
  {
    var h := Run(cfg, NOTHING, past);
    Reachable(cfg, NOTHING, past);
    Reachable(cfg, h, future);
    KeysOnlyGrow(cfg, h, future, id);
    OldKeysAreDead(cfg, Run(cfg, h, future), id, k, any);
  }

  /** Deleting a device silences its key and a restore brings the same key back. */
  lemma RestoreRevivesKey(cfg: Config, t: Table, clientId: Uuid, id: Uuid, keyHash: Digest, deleted: Time, restored: Time)
    requires TableOk(cfg.lower, t) && OwnedBy(t, clientId, id) && Authenticates(t, keyHash, id)
    ensures var t1 := Call(cfg, t, Delete(clientId, id, deleted));
      var op := RestoreIt(clientId, id, restored);
      && !Authenticates(t1, keyHash, id)
      && (CallError(cfg, t1, op).None? <==> !WindowExpired(cfg.restoreWindowDays, deleted, restored))
      && (CallError(cfg, t1, op).None? ==> Authenticates(Call(cfg, t1, op), keyHash, id))
  {
  }

  // ================================================================ the restore window

  lemma CallKeepsDeadline(cfg: Config, t: Table, op: Op, id: Uuid)
    requires TableOk(cfg.lower, t) && id in t && t[id].IsDeleted() && !(op.RestoreIt? && op.id == id)
    ensures var t' := Call(cfg, t, op);
      TableOk(cfg.lower, t') && id in t' && t'[id].deletedAt == t[id].deletedAt && t'[id].clientId == t[id].clientId
  {
    CallKeepsTable(cfg, t, op);
    if Precheck(cfg, t, op).Ok? {
      ExecuteKeepsRows(cfg.lower, t, Precheck(cfg, t, op).value, id);
    }
  }

  /** However often a deleted device is deleted again, and whatever calls hit the rest of the
      table, its deletion time and so its reported purge time stay put until it is restored. */
  lemma {:induction false} DeadlineStays(cfg: Config, t: Table, ops: seq<Op>, id: Uuid)
    requires TableOk(cfg.lower, t) && id in t && t[id].IsDeleted()
    requires forall op :: op in ops ==> !(op.RestoreIt? && op.id == id)
    ensures var t' := CallAll(cfg, t, ops);
      TableOk(cfg.lower, t') && id in t' && t'[id].deletedAt == t[id].deletedAt && t'[id].clientId == t[id].clientId
  {
    if ops != [] {
      DeadlineStays(cfg, t, ops[..|ops| - 1], id);
      CallKeepsDeadline(cfg, CallAll(cfg, t, ops[..|ops| - 1]), ops[|ops| - 1], id);
    }
  }

  lemma WindowInRange(days: int)
    requires -106751 <= days <= 106751
    ensures RestoreWindow(days) == days * DAY && MIN_INT64 < days * DAY < MAX_INT64
  {
  }

  lemma EvenSpans(hours: int)
    ensures Wrap64(hours * HOUR) < MAX_INT64
  {
  }

  // A window, wrapped around or not, is an even number of nanoseconds: never the longest duration.
  lemma WindowIsShorter(days: int)
    ensures RestoreWindow(days) < MAX_INT64
  {
    EvenSpans(Wrap64(days * 24));
  }

  /** For every time of deletion and of restore, the window test passes exactly up to and
      including the reported purge time: this holds if and only if the configured days are
      between -106751 and 106751, the range in which days * 24h fits a 64-bit duration. */
  lemma WindowMatchesPurgeTimeIff(days: int)
    ensures (forall deletedAt, now :: !WindowExpired(days, deletedAt, now) <==> now <= PurgeAfter(days, deletedAt))
            <==> -106751 <= days <= 106751
  {
    if -106751 <= days <= 106751 {
      WindowInRange(days);
    } else if days > 106751 {
      WindowIsShorter(days);
      assert WindowExpired(days, 0, MAX_INT64 + 1);
      assert MAX_INT64 + 1 <= PurgeAfter(days, 0);
    } else {
      assert !WindowExpired(days, 0, MIN_INT64);
      assert MIN_INT64 > PurgeAfter(days, 0);
    }
  }
}
