/** What every serial run of the session service guarantees, storage calls succeeding. */
module AuthProperties {
  import opened Common
  import opened Tokens
  import opened Auth

  // ================================================================ the invariant

  /** Token `j` is the next one issued in the family of `i`, and `i` points to it. */
  ghost predicate Follows(rows: seq<Token>, i: nat, j: nat) {
    && i < j < |rows|
    && rows[i].replacedBy == Some(rows[j].id)
    && rows[j].family == rows[i].family
    && forall k :: i < k < j ==> rows[k].family != rows[i].family
  }

  ghost predicate Newest(rows: seq<Token>, i: nat) {
    i < |rows| && forall k :: i < k < |rows| ==> rows[k].family != rows[i].family
  }

  ghost predicate Linked(rows: seq<Token>, i: nat) {
    i < |rows| && if rows[i].IsReplaced() then exists j :: Follows(rows, i, j) else Newest(rows, i)
  }

  ghost predicate UniqueKeys(rows: seq<Token>) {
    forall i, j :: 0 <= i < j < |rows| ==> rows[i].id != rows[j].id && rows[i].hash != rows[j].hash
  }

  ghost predicate OneOwner(rows: seq<Token>) {
    forall i, j :: 0 <= i < j < |rows| && rows[i].family == rows[j].family ==> rows[i].clientId == rows[j].clientId
  }

  ghost predicate Chained(rows: seq<Token>) {
    forall i :: 0 <= i < |rows| ==> Linked(rows, i)
  }

  ghost predicate Stamped(rows: seq<Token>) {
    forall t :: t in rows ==> (t.revokedAt.Some? <==> t.revokeReason.Some?)
  }

  ghost predicate Inv(s: State) {
    && UniqueKeys(s.rows) && OneOwner(s.rows) && Chained(s.rows) && Stamped(s.rows)
    && forall t :: t in s.rows ==> t.clientId in s.clients
  }

  // ---------------------------------------------------------------- its preservation

  /** The statements that touch no key, family, owner or link: revocations and MarkUsed. */
  ghost predicate SameLinks(rows: seq<Token>, rows': seq<Token>) {
    && |rows'| == |rows|
    && forall i :: 0 <= i < |rows| ==>
         && rows'[i] == rows[i].(lastUsedAt := rows'[i].lastUsedAt, revokedAt := rows'[i].revokedAt, revokeReason := rows'[i].revokeReason)
         && (rows[i].revokedAt.Some? ==> rows'[i].revokedAt == rows[i].revokedAt)
         && (rows[i].revokeReason.Some? ==> rows'[i].revokeReason == rows[i].revokeReason)
         && ((rows[i].revokedAt.Some? <==> rows[i].revokeReason.Some?) ==>
               (rows'[i].revokedAt.Some? <==> rows'[i].revokeReason.Some?))
  }

  lemma SameLinksKeepChain(rows: seq<Token>, rows': seq<Token>)
    requires SameLinks(rows, rows') && Chained(rows)
    ensures Chained(rows')
  {
    forall i | 0 <= i < |rows'| ensures Linked(rows', i) {
      assert Linked(rows, i);
      if rows[i].IsReplaced() {
        var j :| Follows(rows, i, j);
        assert Follows(rows', i, j);
      } else {
        assert Newest(rows, i);
      }
    }
  }

  lemma SameLinksKeepInv(s: State, rows': seq<Token>)
    requires Inv(s) && SameLinks(s.rows, rows')
    ensures Inv(s.(rows := rows'))
  {
    SameLinksKeepChain(s.rows, rows');
    forall t | t in rows' ensures t.clientId in s.clients && (t.revokedAt.Some? <==> t.revokeReason.Some?) {
      var i :| 0 <= i < |rows'| && rows'[i] == t;
      assert s.rows[i] in s.rows;
    }
  }

  lemma LoginKeepsInv(s: State, clientId: Uuid, d: Draw)
    requires Inv(s) && clientId in s.clients && forall t :: t in s.rows ==> t.family != d.family
    ensures Inv(Issue(s, clientId, d.family, d))
  {
    var rows' := Issue(s, clientId, d.family, d).rows;
    if rows' != s.rows {
      forall i | 0 <= i < |rows'| ensures Linked(rows', i) {
        if i < |s.rows| {
          assert Linked(s.rows, i);
          assert s.rows[i] in s.rows;
          if s.rows[i].IsReplaced() {
            var j :| Follows(s.rows, i, j);
            assert Follows(rows', i, j);
          } else {
            assert Newest(s.rows, i);
          }
        }
      }
    }
  }

  // Rotation of the newest token of a family: the new token is appended and linked from it.
  function Rotated(rows: seq<Token>, i: nat, t: Token): seq<Token>
    requires i < |rows|
  {
    rows[i := rows[i].(replacedBy := Some(t.id))] + [t]
  }

  lemma RotationKeepsChain(rows: seq<Token>, i: nat, t: Token)
    requires Chained(rows) && i < |rows| && !rows[i].IsReplaced() && !t.IsReplaced() && t.family == rows[i].family
    ensures Chained(Rotated(rows, i, t))
  {
    var rows' := Rotated(rows, i, t);
    assert Linked(rows, i);
    forall k | 0 <= k < |rows'| ensures Linked(rows', k) {
      if k == i {
        assert Follows(rows', i, |rows|);
      } else if k < |rows| {
        assert Linked(rows, k);
        if rows[k].IsReplaced() {
          var j :| Follows(rows, k, j);
          assert Follows(rows', k, j);
        } else {
          assert rows[k].family != rows[i].family;
        }
      }
    }
  }

  lemma MarkKeepsLinks(rows: seq<Token>, id: Uuid, now: Time)
    ensures SameLinks(rows, MarkUsed(rows, id, now))
  {
  }

  lemma RevokeKeepsLinks(rows: seq<Token>, family: Uuid, reason: string, now: Time)
    ensures SameLinks(rows, RevokeFamily(rows, family, reason, now))
  {
  }

  // The link is set on the row of the token presented and on no other.
  lemma LinkSetsOne(rows: seq<Token>, i: nat, t: Token)
    requires UniqueKeys(rows) && i < |rows| && IndexOfId(rows, t.id).None?
    ensures SetReplacedBy(rows + [t], rows[i].id, t.id) == Rotated(rows, i, t)
  {
  }

  lemma RefreshIsRotation(s: State, raw: string, d: Draw)
    requires Inv(s) && Accepts(s, raw, d)
    ensures var i := IndexOfHash(s.rows, Sha256(raw)).value;
      var used := MarkUsed(s.rows, s.rows[i].id, d.now);
      && SameLinks(s.rows, used)
      && RefreshState(s, raw, d).rows == Rotated(used, i, NewToken(s.rows[i].clientId, s.rows[i].family, d))
  {
    var i := IndexOfHash(s.rows, Sha256(raw)).value;
    MarkKeepsLinks(s.rows, s.rows[i].id, d.now);
    MarkKeepsKeys(s.rows, s.rows[i].id, d);
    LinkSetsOne(MarkUsed(s.rows, s.rows[i].id, d.now), i, NewToken(s.rows[i].clientId, s.rows[i].family, d));
  }

  lemma RefreshKeepsInv(s: State, raw: string, d: Draw)
    requires Inv(s)
    ensures Inv(RefreshState(s, raw, d))
  {
    var found := IndexOfHash(s.rows, Sha256(raw));
    if found.Some? {
      var t := s.rows[found.value];
      var used := MarkUsed(s.rows, t.id, d.now);
      MarkKeepsKeys(s.rows, t.id, d);
      if Accepts(s, raw, d) {
        RefreshIsRotation(s, raw, d);
        SameLinksKeepInv(s, used);
        var issued := NewToken(t.clientId, t.family, d);
        RotationKeepsChain(used, found.value, issued);
        RotationKeepsRest(s.(rows := used), found.value, issued);
      } else if !Rejected(t, d.now) && t.IsReplaced() {
        SameLinksKeepInv(s, RevokeFamily(s.rows, t.family, "refresh_token_reuse", d.now));
      } else {
        SameLinksKeepInv(s, used);
      }
    }
  }

  lemma RotationKeepsRest(s: State, i: nat, t: Token)
    requires Inv(s) && i < |s.rows|
    requires t.family == s.rows[i].family && t.clientId == s.rows[i].clientId
    requires IndexOfHash(s.rows, t.hash).None? && IndexOfId(s.rows, t.id).None?
    requires t.revokedAt.None? && t.revokeReason.None?
    ensures var rows' := Rotated(s.rows, i, t);
      UniqueKeys(rows') && OneOwner(rows') && Stamped(rows') && forall x :: x in rows' ==> x.clientId in s.clients
  {
  }

  lemma ApplyKeepsInv(s: State, op: Op)
    requires Inv(s) && Fresh(s, op)
    ensures Inv(Apply(s, op))
  {
    match op
    case Register(c, d) =>
      if c !in s.clients {
        LoginKeepsInv(s.(clients := s.clients + {c}), c, d);
      }
    case Login(c, d) =>
      if c in s.clients {
        LoginKeepsInv(s, c, d);
      }
    case Refresh(raw, d) => RefreshKeepsInv(s, raw, d);
    case _ => SameLinksKeepInv(s, Apply(s, op).rows);
  }

  lemma {:induction false} Reachable(s: State, ops: seq<Op>)
    requires Inv(s) && Legal(s, ops)
    ensures Inv(Run(s, ops))
  {
    if ops != [] {
      Reachable(s, ops[..|ops| - 1]);
      ApplyKeepsInv(Run(s, ops[..|ops| - 1]), ops[|ops| - 1]);
    }
  }

  // ================================================================ what later states keep

  /** Rows stay where they are and keep keys, family, owner and expiry; a replacement or a
      revocation, once there, stays as it is. */
  ghost predicate Later(rows: seq<Token>, rows': seq<Token>) {
    && |rows| <= |rows'|
    && forall i :: 0 <= i < |rows| ==>
         && rows'[i].id == rows[i].id && rows'[i].hash == rows[i].hash && rows'[i].family == rows[i].family
         && rows'[i].clientId == rows[i].clientId && rows'[i].expiresAt == rows[i].expiresAt
         && (rows[i].IsReplaced() ==> rows'[i].replacedBy == rows[i].replacedBy)
         && (rows[i].IsRevoked() ==> rows'[i].revokedAt == rows[i].revokedAt && rows'[i].revokeReason == rows[i].revokeReason)
  }

  // A refresh that is not accepted leaves the links alone.
  lemma TurnedAwayKeepsLinks(s: State, raw: string, d: Draw)
    requires Inv(s) && !Accepts(s, raw, d)
    ensures SameLinks(s.rows, RefreshState(s, raw, d).rows)
  {
    var found := IndexOfHash(s.rows, Sha256(raw));
    if found.Some? {
      var t := s.rows[found.value];
      MarkKeepsKeys(s.rows, t.id, d);
      MarkKeepsLinks(s.rows, t.id, d.now);
      RevokeKeepsLinks(s.rows, t.family, "refresh_token_reuse", d.now);
    }
  }

  /** A call leaves the links alone, appends the first token of a new family, or rotates. */
  lemma ApplyShape(s: State, op: Op)
    requires Inv(s)
    ensures var rows' := Apply(s, op).rows;
      if op.Refresh? && Accepts(s, op.raw, op.draw) then
        var i := IndexOfHash(s.rows, Sha256(op.raw)).value;
        var used := MarkUsed(s.rows, s.rows[i].id, op.draw.now);
        SameLinks(s.rows, used) && rows' == Rotated(used, i, NewToken(s.rows[i].clientId, s.rows[i].family, op.draw))
      else
        || SameLinks(s.rows, rows')
        || ((op.Register? || op.Login?) && rows' == s.rows + [NewToken(op.clientId, op.draw.family, op.draw)])
  {
    if op.Refresh? {
      if Accepts(s, op.raw, op.draw) {
        RefreshIsRotation(s, op.raw, op.draw);
      } else {
        TurnedAwayKeepsLinks(s, op.raw, op.draw);
      }
    }
  }

  lemma ApplyIsLater(s: State, op: Op)
    requires Inv(s)
    ensures Later(s.rows, Apply(s, op).rows)
  {
    ApplyShape(s, op);
    assert forall i :: 0 <= i < |s.rows| ==> s.rows[i] in s.rows;
  }

  /** Revocation and replacement are monotone over every run. */
  lemma {:induction false} RunsAreLater(s: State, ops: seq<Op>)
    requires Inv(s) && Legal(s, ops)
    ensures Later(s.rows, Run(s, ops).rows)
  {
    if ops != [] {
      RunsAreLater(s, ops[..|ops| - 1]);
      Reachable(s, ops[..|ops| - 1]);
      ApplyIsLater(Run(s, ops[..|ops| - 1]), ops[|ops| - 1]);
    }
  }

  // The table finds a token at its own row.
  lemma FindsOwnRow(rows: seq<Token>, i: nat)
    requires UniqueKeys(rows) && i < |rows|
    ensures IndexOfHash(rows, rows[i].hash) == Some(i)
  {
  }

  // ================================================================ chains

  /** The end of the `replaced_by_id` chain that starts at row `i`. */
  ghost function Chase(rows: seq<Token>, i: nat): nat
    requires Chained(rows) && i < |rows|
    decreases |rows| - i
  {
    assert Linked(rows, i);
    if rows[i].IsReplaced() then
      var j: nat :| Follows(rows, i, j);
      Chase(rows, j)
    else i
  }

  lemma {:induction false} ChaseReachesNewest(rows: seq<Token>, i: nat)
    requires Chained(rows) && i < |rows|
    ensures var j := Chase(rows, i);
      i <= j < |rows| && rows[j].family == rows[i].family && !rows[j].IsReplaced() && Newest(rows, j)
    decreases |rows| - i
  {
    assert Linked(rows, i);
    if rows[i].IsReplaced() {
      var j: nat :| Follows(rows, i, j) && Chase(rows, i) == Chase(rows, j);
      ChaseReachesNewest(rows, j);
    }
  }

  /** In every run each family is one chain: whichever token one starts from, the links lead
      forward in issue order to the newest token of the family, the only one not replaced, and
      all its tokens belong to one client. */
  lemma FamiliesAreChains(past: seq<Op>, i: nat, j: nat)
    requires Legal(NOBODY, past)
    requires i < |Run(NOBODY, past).rows| && j < |Run(NOBODY, past).rows|
    requires Run(NOBODY, past).rows[i].family == Run(NOBODY, past).rows[j].family
    ensures Inv(Run(NOBODY, past))
    ensures var rows := Run(NOBODY, past).rows;
      && rows[i].clientId == rows[j].clientId
      && Chase(rows, i) == Chase(rows, j)
      && (!rows[i].IsReplaced() <==> i == Chase(rows, i))
      && (!rows[i].IsReplaced() && !rows[j].IsReplaced() ==> i == j)
  {
    Reachable(NOBODY, past);
    var rows := Run(NOBODY, past).rows;
    ChaseReachesNewest(rows, i);
    ChaseReachesNewest(rows, j);
    var x, y := Chase(rows, i), Chase(rows, j);
    assert !(x < y) && !(y < x);
  }

  // ================================================================ one acceptance per token

  // A refresh call that presents the token passes its checks.
  predicate Usable(t: Token, now: Time) {
    !Rejected(t, now) && !t.IsReplaced()
  }

  /** An accepted refresh stamps and replaces the presented token, appends one token of the same
      client and family under the new raw key, and changes nothing else. */
  lemma AcceptedRefreshEffect(s: State, raw: string, d: Draw)
    requires Inv(s) && Accepts(s, raw, d)
    ensures var i := IndexOfHash(s.rows, Sha256(raw)).value;
      var rows' := Apply(s, Refresh(raw, d)).rows;
      var last := |s.rows|;
      && |rows'| == last + 1
      && rows'[i] == s.rows[i].(lastUsedAt := Some(d.now), replacedBy := Some(rows'[last].id))
      && rows'[last].hash == Sha256(d.raw) && rows'[last].expiresAt == d.expiresAt && rows'[last].id == d.id
      && rows'[last].clientId == s.rows[i].clientId && rows'[last].family == s.rows[i].family
      && rows'[last].replacedBy == None && rows'[last].revokedAt == None && rows'[last].lastUsedAt == None
      && forall k :: 0 <= k < last && k != i ==> rows'[k] == s.rows[k]
  {
  }

  /** A refresh is accepted exactly when it presents the key of a stored token that has neither
      expired nor been revoked nor been replaced, of an existing client, and draws an unused key. */
  lemma AcceptsIff(s: State, raw: string, d: Draw)
    requires UniqueKeys(s.rows)
    ensures Accepts(s, raw, d) <==>
            && !KeyTaken(s.rows, d)
            && exists i :: 0 <= i < |s.rows| && s.rows[i].hash == Sha256(raw) && d.now < s.rows[i].expiresAt
                 && s.rows[i].revokedAt == None && s.rows[i].replacedBy == None && s.rows[i].clientId in s.clients
  {
    forall i | 0 <= i < |s.rows| && s.rows[i].hash == Sha256(raw) ensures IndexOfHash(s.rows, Sha256(raw)) == Some(i) {
      FindsOwnRow(s.rows, i);
    }
    if Accepts(s, raw, d) {
      var t := s.rows[IndexOfHash(s.rows, Sha256(raw)).value];
      InsertsUnlessTaken(s.rows, t.clientId, t.family, d);
    } else if exists i :: 0 <= i < |s.rows| && s.rows[i].hash == Sha256(raw) {
      var t := s.rows[IndexOfHash(s.rows, Sha256(raw)).value];
      InsertsUnlessTaken(s.rows, t.clientId, t.family, d);
    }
  }

  lemma RefusedRefreshIs(s: State, raw: string, d: Draw)
    requires Inv(s) && !Accepts(s, raw, d) && !Replays(s, raw, d.now)
    ensures var found := IndexOfHash(s.rows, Sha256(raw));
      RefreshState(s, raw, d) == if found.Some? && Usable(s.rows[found.value], d.now)
                                 then s.(rows := MarkUsed(s.rows, s.rows[found.value].id, d.now)) else s
  {
    var found := IndexOfHash(s.rows, Sha256(raw));
    if found.Some? {
      assert s.rows[found.value] in s.rows;
      MarkKeepsKeys(s.rows, s.rows[found.value].id, d);
    }
  }

  /** A refresh that is neither accepted nor a replay changes nothing, except that it stamps the
      token presented when it gets as far as the key it drew, and that is taken. */
  lemma RefusedRefreshEffect(s: State, raw: string, d: Draw, i: nat)
    requires Inv(s) && !Accepts(s, raw, d) && !Replays(s, raw, d.now) && i < |s.rows|
    ensures var s' := Apply(s, Refresh(raw, d));
      && s'.clients == s.clients && |s'.rows| == |s.rows|
      && s'.rows[i] == if && s.rows[i].hash == Sha256(raw) && d.now < s.rows[i].expiresAt
                          && s.rows[i].revokedAt == None && s.rows[i].replacedBy == None
                       then s.rows[i].(lastUsedAt := Some(d.now)) else s.rows[i]
  {
    RefusedRefreshIs(s, raw, d);
    FindsOwnRow(s.rows, i);
    var found := IndexOfHash(s.rows, Sha256(raw));
    if found.Some? {
      UpdatesAre(s.rows, i, s.rows[found.value].id, 0, d.now);
    }
  }

  lemma AcceptedIsSpent(s: State, raw: string, d: Draw, future: seq<Op>, d': Draw)
    requires Inv(s) && Accepts(s, raw, d) && Legal(Apply(s, Refresh(raw, d)), future)
    ensures !Accepts(Run(Apply(s, Refresh(raw, d)), future), raw, d')
  {
    var s1 := Apply(s, Refresh(raw, d));
    ApplyKeepsInv(s, Refresh(raw, d));
    RefreshIsRotation(s, raw, d);
    var i := IndexOfHash(s.rows, Sha256(raw)).value;
    assert s1.rows[i].IsReplaced() && s1.rows[i].hash == Sha256(raw);
    RunsAreLater(s1, future);
    Reachable(s1, future);
    FindsOwnRow(Run(s1, future).rows, i);
  }

  /** A raw refresh token that was accepted once is never accepted again, whatever happens next. */
  lemma AcceptedAtMostOnce(past: seq<Op>, raw: string, d: Draw, future: seq<Op>, d': Draw)
    ensures var s := Run(NOBODY, past);
      var s1 := Apply(s, Refresh(raw, d));
      Legal(NOBODY, past) && Accepts(s, raw, d) && Legal(s1, future) ==> !Accepts(Run(s1, future), raw, d')
  {
    var s := Run(NOBODY, past);
    if Legal(NOBODY, past) && Accepts(s, raw, d) && Legal(Apply(s, Refresh(raw, d)), future) {
      Reachable(NOBODY, past);
      AcceptedIsSpent(s, raw, d, future, d');
    }
  }

  // ================================================================ reuse detection

  /** No token of the family can ever be accepted: each is replaced or revoked. */
  ghost predicate Dead(rows: seq<Token>, family: Uuid) {
    forall t :: t in rows && t.family == family ==> t.IsReplaced() || t.IsRevoked()
  }

  ghost predicate Known(rows: seq<Token>, family: Uuid) {
    exists t :: t in rows && t.family == family
  }

  ghost predicate AcceptsFrom(s: State, family: Uuid, raw: string, d: Draw) {
    Accepts(s, raw, d) && s.rows[IndexOfHash(s.rows, Sha256(raw)).value].family == family
  }

  lemma DeadNeverAccepts(s: State, family: Uuid, raw: string, d: Draw)
    requires Dead(s.rows, family)
    ensures !AcceptsFrom(s, family, raw, d)
  {
  }

  // Old rows are later versions of themselves; new rows are of other families.
  lemma DeadFromLater(rows: seq<Token>, rows': seq<Token>, family: Uuid)
    requires Later(rows, rows') && Stamped(rows) && Known(rows, family) && Dead(rows, family)
    requires forall i :: |rows| <= i < |rows'| ==> rows'[i].family != family
    ensures Known(rows', family) && Dead(rows', family)
  {
  }

  lemma DeadStaysOneStep(s: State, op: Op, family: Uuid)
    requires Inv(s) && Fresh(s, op) && Known(s.rows, family) && Dead(s.rows, family)
    ensures var rows' := Apply(s, op).rows;
      && Known(rows', family) && Dead(rows', family)
      && forall i :: |s.rows| <= i < |rows'| ==> rows'[i].family != family
  {
    ApplyShape(s, op);
    ApplyIsLater(s, op);
    if op.Refresh? {
      DeadNeverAccepts(s, family, op.raw, op.draw);
    }
    DeadFromLater(s.rows, Apply(s, op).rows, family);
  }

  lemma NoneAdded(rows: seq<Token>, mid: seq<Token>, rows': seq<Token>, family: Uuid)
    requires |rows| <= |mid| && Later(mid, rows')
    requires forall i :: |rows| <= i < |mid| ==> mid[i].family != family
    requires forall i :: |mid| <= i < |rows'| ==> rows'[i].family != family
    ensures forall i :: |rows| <= i < |rows'| ==> rows'[i].family != family
  {
  }

  /** A dead family stays dead and gains no token in any continuation. */
  lemma {:induction false} DeadStays(s: State, ops: seq<Op>, family: Uuid)
    requires Inv(s) && Legal(s, ops) && Known(s.rows, family) && Dead(s.rows, family)
    ensures var rows' := Run(s, ops).rows;
      && Known(rows', family) && Dead(rows', family)
      && |s.rows| <= |rows'| && forall i :: |s.rows| <= i < |rows'| ==> rows'[i].family != family
  {
    if ops != [] {
      var front := ops[..|ops| - 1];
      DeadStays(s, front, family);
      Reachable(s, front);
      RunsAreLater(s, front);
      ApplyIsLater(Run(s, front), ops[|ops| - 1]);
      DeadStaysOneStep(Run(s, front), ops[|ops| - 1], family);
      NoneAdded(s.rows, Run(s, front).rows, Run(s, ops).rows, family);
    }
  }

  /** The call presents a replaced token that is neither expired nor revoked. */
  predicate Replays(s: State, raw: string, now: Time) {
    var found := IndexOfHash(s.rows, Sha256(raw));
    found.Some? && !Rejected(s.rows[found.value], now) && s.rows[found.value].IsReplaced()
  }

  ghost predicate AllRevoked(rows: seq<Token>, family: Uuid) {
    forall t :: t in rows && t.family == family ==> t.IsRevoked()
  }

  lemma ReplayRevokes(s: State, raw: string, d: Draw)
    requires Inv(s) && Replays(s, raw, d.now)
    ensures var family := s.rows[IndexOfHash(s.rows, Sha256(raw)).value].family;
      var rows' := Apply(s, Refresh(raw, d)).rows;
      |rows'| == |s.rows| && Known(rows', family) && AllRevoked(rows', family)
  {
    var i := IndexOfHash(s.rows, Sha256(raw)).value;
    var rows' := Apply(s, Refresh(raw, d)).rows;
    assert rows'[i] in rows';
    forall t | t in rows' && t.family == s.rows[i].family ensures t.IsRevoked() {
      var k :| 0 <= k < |rows'| && rows'[k] == t;
    }
  }

  /** Presenting a replaced token that is neither expired nor revoked revokes every token of its
      family; after that no continuation accepts a token of the family or adds one to it. */
  lemma ReuseKillsFamily(past: seq<Op>, raw: string, d: Draw, future: seq<Op>, raw': string, d': Draw)
    ensures var s := Run(NOBODY, past);
      var s1 := Apply(s, Refresh(raw, d));
      var s2 := Run(s1, future);
      Legal(NOBODY, past) && Replays(s, raw, d.now) && Legal(s1, future) ==>
        var family := s.rows[IndexOfHash(s.rows, Sha256(raw)).value].family;
        && AllRevoked(s1.rows, family)
        && !AcceptsFrom(s2, family, raw', d')
        && |s.rows| <= |s2.rows| && forall i :: |s.rows| <= i < |s2.rows| ==> s2.rows[i].family != family
  {
    var s := Run(NOBODY, past);
    var s1 := Apply(s, Refresh(raw, d));
    if Legal(NOBODY, past) && Replays(s, raw, d.now) && Legal(s1, future) {
      Reachable(NOBODY, past);
      ApplyKeepsInv(s, Refresh(raw, d));
      ReplayRevokes(s, raw, d);
      var family := s.rows[IndexOfHash(s.rows, Sha256(raw)).value].family;
      DeadStays(s1, future, family);
      DeadNeverAccepts(Run(s1, future), family, raw', d');
    }
  }

  /** A refresh call revokes something exactly when the token it presents is replaced and neither
      expired nor revoked. The replay of a replaced token after its expiry goes unnoticed. */
  lemma ReuseIsNoticedIff(s: State, raw: string, d: Draw)
    requires Inv(s)
    ensures var rows' := Apply(s, Refresh(raw, d)).rows;
      && |s.rows| <= |rows'|
      && ((exists i :: 0 <= i < |s.rows| && !s.rows[i].IsRevoked() && rows'[i].IsRevoked()) <==> Replays(s, raw, d.now))
      && (Replays(s, raw, d.now) <==>
            exists i :: 0 <= i < |s.rows| && s.rows[i].hash == Sha256(raw) && s.rows[i].replacedBy != None
                        && d.now < s.rows[i].expiresAt && s.rows[i].revokedAt == None)
  {
    forall i | 0 <= i < |s.rows| && s.rows[i].hash == Sha256(raw) ensures IndexOfHash(s.rows, Sha256(raw)) == Some(i) {
      FindsOwnRow(s.rows, i);
    }
  }

  // ================================================================ logout and session revocation

  // The token with its first revocation.
  function Ended(t: Token, reason: string, now: Time): Token {
    if t.revokedAt != None then t else t.(revokedAt := Some(now), revokeReason := Some(reason))
  }

  /** Token by token, what the four ways to end sessions leave, and for what reason: a logout ends
      those of the client, a revoked session that one, and a replay those of the family. */
  lemma EndingsAre(s: State, clientId: Uuid, id: Uuid, raw: string, d: Draw, now: Time, i: nat)
    requires Inv(s) && i < |s.rows|
    ensures var t := s.rows[i];
      && |Apply(s, Logout(clientId, now)).rows| == |Apply(s, LogoutAll(clientId, now)).rows| == |s.rows|
      && Apply(s, Logout(clientId, now)).rows[i] == (if t.clientId == clientId then Ended(t, "logout", now) else t)
      && Apply(s, LogoutAll(clientId, now)).rows[i] == (if t.clientId == clientId then Ended(t, "logout_all", now) else t)
    ensures var t := s.rows[i];
      && |Apply(s, RevokeSession(clientId, id, now)).rows| == |s.rows|
      && Apply(s, RevokeSession(clientId, id, now)).rows[i]
         == if t.clientId == clientId && t.id == id then Ended(t, "session_revoked", now) else t
    ensures Replays(s, raw, d.now) ==>
      var t, family := s.rows[i], s.rows[IndexOfHash(s.rows, Sha256(raw)).value].family;
      && |Apply(s, Refresh(raw, d)).rows| == |s.rows|
      && Apply(s, Refresh(raw, d)).rows[i] == if t.family == family then Ended(t, "refresh_token_reuse", d.now) else t
  {
    assert s.rows[i] in s.rows;
  }

  /** After a logout no token that the client held is accepted in any continuation: an accepted
      token of that client was issued later. The tokens of other clients are left alone. */
  lemma LogoutEndsSessions(past: seq<Op>, clientId: Uuid, op: Op, future: seq<Op>, raw: string, d: Draw)
    requires Legal(NOBODY, past)
    requires (op.Logout? || op.LogoutAll?) && op.clientId == clientId
    requires Legal(Apply(Run(NOBODY, past), op), future)
    ensures var before := |Run(NOBODY, past).rows|;
      var s := Run(Apply(Run(NOBODY, past), op), future);
      Accepts(s, raw, d) ==>
        var i := IndexOfHash(s.rows, Sha256(raw)).value;
        s.rows[i].clientId == clientId ==> i >= before
    ensures var rows := Run(NOBODY, past).rows;
      var rows' := Apply(Run(NOBODY, past), op).rows;
      |rows'| == |rows| && forall i :: 0 <= i < |rows| && rows[i].clientId != clientId ==> rows'[i] == rows[i]
  {
    var s0 := Run(NOBODY, past);
    Reachable(NOBODY, past);
    var s1 := Apply(s0, op);
    ApplyKeepsInv(s0, op);
    RunsAreLater(s1, future);
    assert forall i :: 0 <= i < |s0.rows| && s0.rows[i].clientId == clientId ==> s1.rows[i].IsRevoked();
  }

  /** A login is good for one refresh until its expiry, whatever went before it: earlier logouts
      and revocations do not reach it. */
  lemma LoginIsUsable(s: State, clientId: Uuid, d: Draw, d': Draw)
    requires Inv(s) && clientId in s.clients && Fresh(s, Login(clientId, d))
    requires Insert(s.rows, NewToken(clientId, d.family, d)).Some?
    ensures var s1 := Apply(s, Login(clientId, d));
      Accepts(s1, d.raw, d') <==>
        d'.now < d.expiresAt && Insert(s1.rows, NewToken(clientId, d.family, d')).Some?
  {
  }

  /** Revoking one session ends its whole family exactly when the revoked token is the newest of
      the family, or the family was dead already: revoking an older, replaced token, which the
      session list also shows, leaves the current one usable. */
  lemma RevokeSessionEndsFamilyIff(s: State, k: nat, now: Time)
    requires Inv(s) && k < |s.rows|
    ensures var t := s.rows[k];
      Dead(Apply(s, RevokeSession(t.clientId, t.id, now)).rows, t.family) <==>
      Newest(s.rows, k) || Dead(s.rows, t.family)
  {
    var t := s.rows[k];
    var rows' := Apply(s, RevokeSession(t.clientId, t.id, now)).rows;
    assert rows'[k].IsRevoked();
    assert forall i :: 0 <= i < |s.rows| && i != k ==> rows'[i] == s.rows[i];
    ChaseReachesNewest(s.rows, k);
    var n := Chase(s.rows, k);
    assert s.rows[n] in s.rows && rows'[n] in rows';
    forall i | 0 <= i < |s.rows| && s.rows[i].family == t.family && i != n ensures s.rows[i].IsReplaced() {
      assert Linked(s.rows, i);
    }
    forall x | x in rows' && x.family == t.family && (Newest(s.rows, k) || Dead(s.rows, t.family))
      ensures x.IsReplaced() || x.IsRevoked()
    {
      var i :| 0 <= i < |rows'| && rows'[i] == x;
      assert s.rows[i] in s.rows;
    }
    forall x | x in s.rows && x.family == t.family && Dead(rows', t.family) && k != n
      ensures x.IsReplaced() || x.IsRevoked()
    {
      var i :| 0 <= i < |s.rows| && s.rows[i] == x;
      assert rows'[i] in rows';
    }
  }

  // ================================================================ the two halves of a refresh

  /** The two halves of a refresh call: the checks on the stored token, and the writes. */
  function CheckPhase(s: State, raw: string, now: Time): Option<Token> {
    var found := IndexOfHash(s.rows, Sha256(raw));
    if found.Some? && !Rejected(s.rows[found.value], now) && !s.rows[found.value].IsReplaced()
    then Some(s.rows[found.value]) else None
  }

  function WritePhase(s: State, t: Token, d: Draw): State {
    var used := MarkUsed(s.rows, t.id, d.now);
    var issued := Insert(used, NewToken(t.clientId, t.family, d));
    if issued.None? then s.(rows := used) else s.(rows := SetReplacedBy(issued.value, t.id, d.id))
  }

  lemma RefreshIsCheckThenWrite(s: State, raw: string, d: Draw)
    requires CheckPhase(s, raw, d.now).Some? && CheckPhase(s, raw, d.now).value.clientId in s.clients
    ensures RefreshState(s, raw, d) == WritePhase(s, CheckPhase(s, raw, d.now).value, d)
  {
  }

  /** Two refresh calls for one token whose checks both run before either writes always leave the
      family with two new tokens, each of them usable until its expiry. */
  lemma InterleavedRefreshesFork(s: State, raw: string, d: Draw, d': Draw)
    requires Inv(s) && CheckPhase(s, raw, d.now).Some? && CheckPhase(s, raw, d'.now).Some?
    requires var t := CheckPhase(s, raw, d.now).value;
      && Insert(s.rows, NewToken(t.clientId, t.family, d)).Some?
      && Insert(s.rows, NewToken(t.clientId, t.family, d')).Some?
      && d.raw != d'.raw && d.id != d'.id
    ensures var t := CheckPhase(s, raw, d.now).value;
      var rows' := WritePhase(WritePhase(s, t, d), t, d').rows;
      && |rows'| == |s.rows| + 2
      && rows'[|s.rows|].hash == Sha256(d.raw) && rows'[|s.rows| + 1].hash == Sha256(d'.raw)
      && rows'[|s.rows|].expiresAt == d.expiresAt && rows'[|s.rows| + 1].expiresAt == d'.expiresAt
      && forall i, now :: |s.rows| <= i < |rows'| ==>
           rows'[i].family == t.family && (Usable(rows'[i], now) <==> now < rows'[i].expiresAt)
  {
    var t := CheckPhase(s, raw, d.now).value;
    assert t in s.rows;
    WriteAppends(s, t, d);
    var s1 := WritePhase(s, t, d);
    StillUnused(s, s1, t, d, d');
    WriteAppends(s1, t, d');
  }

  // The first call used up neither the hash nor the id that the second one drew.
  lemma StillUnused(s: State, s1: State, t: Token, d: Draw, d': Draw)
    requires |s1.rows| == |s.rows| + 1 && s1.rows[|s.rows|] == NewToken(t.clientId, t.family, d)
    requires forall i :: 0 <= i < |s.rows| ==> s1.rows[i].hash == s.rows[i].hash && s1.rows[i].id == s.rows[i].id
    requires Insert(s.rows, NewToken(t.clientId, t.family, d')).Some? && d.raw != d'.raw && d.id != d'.id
    ensures Insert(s1.rows, NewToken(t.clientId, t.family, d')).Some?
  {
  }

  // The writes append the new token and change no key or family of the older ones.
  lemma WriteAppends(s: State, t: Token, d: Draw)
    requires Insert(s.rows, NewToken(t.clientId, t.family, d)).Some? && d.id != t.id
    ensures var rows' := WritePhase(s, t, d).rows;
      && |rows'| == |s.rows| + 1
      && rows'[|s.rows|] == NewToken(t.clientId, t.family, d)
      && forall i :: 0 <= i < |s.rows| ==>
           && rows'[i].hash == s.rows[i].hash && rows'[i].id == s.rows[i].id
           && (s.rows[i].id != t.id ==> rows'[i] == s.rows[i])
  {
  }
}
