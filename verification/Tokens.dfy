/** The `client_tokens` table and the statements that run against it. */
module Tokens {
  import opened Common

  datatype Token = Token(
    id: Uuid, clientId: Uuid, hash: Digest, family: Uuid, replacedBy: Option<Uuid>, expiresAt: Time,
    lastUsedAt: Option<Time>, revokedAt: Option<Time>, revokeReason: Option<string>)
  {
    predicate IsExpired(now: Time) {
      expiresAt <= now
    }

    predicate IsRevoked() {
      revokedAt.Some?
    }

    predicate IsReplaced() {
      replacedBy.Some?
    }
  }

  datatype TokenError = TokenNotFound | ConstraintViolation

  // ---------------------------------------------------------------- the statements

  function IndexOfHash(rows: seq<Token>, hash: Digest): (r: Option<nat>)
    ensures r.Some? ==> r.value < |rows| && rows[r.value].hash == hash
    ensures r.None? <==> forall t :: t in rows ==> t.hash != hash
  {
    if rows == [] then None
    else if rows[0].hash == hash then Some(0)
    else
      var rest := IndexOfHash(rows[1..], hash);
      if rest.None? then None else Some(rest.value + 1)
  }

  function IndexOfId(rows: seq<Token>, id: Uuid): (r: Option<nat>)
    ensures r.Some? ==> r.value < |rows| && rows[r.value].id == id
    ensures r.None? <==> forall t :: t in rows ==> t.id != id
  {
    if rows == [] then None
    else if rows[0].id == id then Some(0)
    else
      var rest := IndexOfId(rows[1..], id);
      if rest.None? then None else Some(rest.value + 1)
  }

  /** UPDATE client_tokens SET ... WHERE ... */
  function UpdateWhere(rows: seq<Token>, where: Token -> bool, set_: Token -> Token): (r: seq<Token>)
    ensures |r| == |rows| && forall i :: 0 <= i < |r| ==> r[i] == if where(rows[i]) then set_(rows[i]) else rows[i]
  {
    seq(|rows|, i requires 0 <= i < |rows| => if where(rows[i]) then set_(rows[i]) else rows[i])
  }

  function Coalesce<T>(a: Option<T>, b: T): Option<T> {
    if a.Some? then a else Some(b)
  }

  function Revoked(t: Token, reason: string, now: Time): Token {
    t.(revokedAt := Coalesce(t.revokedAt, now), revokeReason := Coalesce(t.revokeReason, reason))
  }

  function RevokeFamily(rows: seq<Token>, family: Uuid, reason: string, now: Time): seq<Token> {
    UpdateWhere(rows, (t: Token) => t.family == family && !t.IsRevoked(), (t: Token) => Revoked(t, reason, now))
  }

  function RevokeClient(rows: seq<Token>, clientId: Uuid, reason: string, now: Time): seq<Token> {
    UpdateWhere(rows, (t: Token) => t.clientId == clientId && !t.IsRevoked(), (t: Token) => Revoked(t, reason, now))
  }

  function RevokeOne(rows: seq<Token>, clientId: Uuid, id: Uuid, reason: string, now: Time): seq<Token> {
    UpdateWhere(rows, (t: Token) => t.clientId == clientId && t.id == id, (t: Token) => Revoked(t, reason, now))
  }

  function RevokeById(rows: seq<Token>, id: Uuid, reason: string, now: Time): seq<Token> {
    UpdateWhere(rows, (t: Token) => t.id == id, (t: Token) => Revoked(t, reason, now))
  }

  function MarkUsed(rows: seq<Token>, id: Uuid, now: Time): seq<Token> {
    UpdateWhere(rows, (t: Token) => t.id == id, (t: Token) => t.(lastUsedAt := Some(now)))
  }

  function SetReplacedBy(rows: seq<Token>, id: Uuid, newId: Uuid): seq<Token> {
    UpdateWhere(rows, (t: Token) => t.id == id, (t: Token) => t.(replacedBy := Some(newId)))
  }

  /** INSERT: the primary key and the unique index on the hash refuse duplicates. */
  function Insert(rows: seq<Token>, t: Token): (r: Option<seq<Token>>)
    ensures r.Some? ==> r.value == rows + [t]
  {
    if IndexOfHash(rows, t.hash).Some? || IndexOfId(rows, t.id).Some? then None else Some(rows + [t])
  }

  lemma InsertIff(rows: seq<Token>, t: Token)
    ensures Insert(rows, t).Some? <==> forall x :: x in rows ==> x.hash != t.hash && x.id != t.id
  {
  }

  /** Row by row, what the revoking statements leave: an earlier revocation stays as it is. */
  lemma RevocationsAre(rows: seq<Token>, i: nat, clientId: Uuid, id: Uuid, family: Uuid, reason: string, now: Time)
    requires i < |rows|
    ensures var t := rows[i];
      var revoked := t.(revokedAt := if t.revokedAt == None then Some(now) else t.revokedAt,
                        revokeReason := if t.revokeReason == None then Some(reason) else t.revokeReason);
      && RevokeFamily(rows, family, reason, now)[i] == (if t.family == family && t.revokedAt == None then revoked else t)
      && RevokeClient(rows, clientId, reason, now)[i] == (if t.clientId == clientId && t.revokedAt == None then revoked else t)
      && RevokeOne(rows, clientId, id, reason, now)[i] == (if t.clientId == clientId && t.id == id then revoked else t)
      && RevokeById(rows, id, reason, now)[i] == if t.id == id then revoked else t
  {
  }

  /** The two statements of a refresh touch one field of the token of that id. */
  lemma UpdatesAre(rows: seq<Token>, i: nat, id: Uuid, newId: Uuid, now: Time)
    requires i < |rows|
    ensures MarkUsed(rows, id, now)[i] == if rows[i].id == id then rows[i].(lastUsedAt := Some(now)) else rows[i]
    ensures SetReplacedBy(rows, id, newId)[i] == if rows[i].id == id then rows[i].(replacedBy := Some(newId)) else rows[i]
  {
  }

  class ClientTokenRepository {
    var rows: seq<Token>

    constructor ()
      ensures rows == []
    {
      rows := [];
    }

    method Create(t: Token) returns (r: Result<Token, TokenError>)
      modifies this
      ensures var taken := exists x :: x in old(rows) && (x.hash == t.hash || x.id == t.id);
        && rows == (if taken then old(rows) else old(rows) + [t])
        && r == if taken then Err(ConstraintViolation) else Ok(t)
    {
      InsertIff(rows, t);
      var inserted := Insert(rows, t);
      if inserted.None? {
        return Err(ConstraintViolation);
      }
      rows := inserted.value;
      return Ok(t);
    }

    method FindByHash(hash: Digest) returns (r: Result<Token, TokenError>)
      ensures r == if IndexOfHash(rows, hash).Some? then Ok(rows[IndexOfHash(rows, hash).value]) else Err(TokenNotFound)
    {
      var i := IndexOfHash(rows, hash);
      if i.None? {
        return Err(TokenNotFound);
      }
      return Ok(rows[i.value]);
    }

    method MarkTokenUsed(id: Uuid, now: Time)
      modifies this
      ensures rows == MarkUsed(old(rows), id, now)
    {
      rows := MarkUsed(rows, id, now);
    }

    method ReplaceToken(id: Uuid, newId: Uuid)
      modifies this
      ensures rows == SetReplacedBy(old(rows), id, newId)
    {
      rows := SetReplacedBy(rows, id, newId);
    }

    method RevokeToken(id: Uuid, reason: string, now: Time)
      modifies this
      ensures rows == RevokeById(old(rows), id, reason, now)
    {
      rows := RevokeById(rows, id, reason, now);
    }

    method RevokeTokenFamily(family: Uuid, reason: string, now: Time)
      modifies this
      ensures rows == RevokeFamily(old(rows), family, reason, now)
    {
      rows := RevokeFamily(rows, family, reason, now);
    }

    method RevokeAllByClientID(clientId: Uuid, reason: string, now: Time)
      modifies this
      ensures rows == RevokeClient(old(rows), clientId, reason, now)
    {
      rows := RevokeClient(rows, clientId, reason, now);
    }

    method RevokeByClientID(clientId: Uuid, id: Uuid, reason: string, now: Time) returns (found: bool)
      modifies this
      ensures rows == RevokeOne(old(rows), clientId, id, reason, now)
      ensures found <==> exists t :: t in old(rows) && t.clientId == clientId && t.id == id
    {
      var affected := Select(rows, (t: Token) => t.clientId == clientId && t.id == id);
      SelectMembers(rows, (t: Token) => t.clientId == clientId && t.id == id);
      rows := RevokeOne(rows, clientId, id, reason, now);
      if |affected| > 0 {
        assert affected[0] in affected;
      }
      return |affected| > 0;
    }
  }

  // ================================================================ revocation is monotone

  datatype Revocation =
    | ById(id: Uuid)
    | ByClient(clientId: Uuid, id: Uuid)
    | WholeFamily(family: Uuid)
    | AllOfClient(clientId: Uuid)

  function ApplyRevocation(rows: seq<Token>, r: Revocation, reason: string, now: Time): (rows': seq<Token>)
    ensures |rows'| == |rows|
  {
    match r
    case ById(id) => RevokeById(rows, id, reason, now)
    case ByClient(clientId, id) => RevokeOne(rows, clientId, id, reason, now)
    case WholeFamily(family) => RevokeFamily(rows, family, reason, now)
    case AllOfClient(clientId) => RevokeClient(rows, clientId, reason, now)
  }

  function RunRevocations(rows: seq<Token>, rs: seq<(Revocation, string, Time)>): (rows': seq<Token>)
    ensures |rows'| == |rows|
  {
    if rs == [] then rows
    else
      var (r, reason, now) := rs[|rs| - 1];
      ApplyRevocation(RunRevocations(rows, rs[..|rs| - 1]), r, reason, now)
  }

  /** Any mix of the four revoke statements leaves the first revocation of a token in place and
      touches nothing of it but the revocation. */
  lemma {:induction false} FirstRevocationStays(rows: seq<Token>, rs: seq<(Revocation, string, Time)>, i: nat)
    requires i < |rows|
    ensures var t := RunRevocations(rows, rs)[i];
      && t == rows[i].(revokedAt := t.revokedAt, revokeReason := t.revokeReason)
      && (rows[i].revokedAt.Some? ==> t.revokedAt == rows[i].revokedAt)
      && (rows[i].revokeReason.Some? ==> t.revokeReason == rows[i].revokeReason)
  {
    if rs != [] {
      FirstRevocationStays(rows, rs[..|rs| - 1], i);
    }
  }
}
