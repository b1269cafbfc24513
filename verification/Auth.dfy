/** Client sessions: refresh-token rotation in families, reuse detection and logout. */
module Auth {
  import opened Common
  import opened Tokens

  // The clients a token can be issued to, and the token table.
  datatype State = State(clients: set<Uuid>, rows: seq<Token>)

  /** What the generators and the clock yield during one issue: a raw refresh token, the row's
      id, a family id (used by a login only), the time and the expiry of the new token. */
  datatype Draw = Draw(raw: string, id: Uuid, family: Uuid, now: Time, expiresAt: Time)

  datatype AuthError = EmailAlreadyExists | InvalidCredentials | InvalidRefreshToken | StorageError

  function NewToken(clientId: Uuid, family: Uuid, d: Draw): Token {
    Token(d.id, clientId, Sha256(d.raw), family, None, d.expiresAt, None, None, None)
  }

  datatype Op =
    | Register(clientId: Uuid, draw: Draw)
    | Login(clientId: Uuid, draw: Draw)
    | Refresh(raw: string, draw: Draw)
    | Logout(clientId: Uuid, now: Time)
    | LogoutAll(clientId: Uuid, now: Time)
    | RevokeSession(clientId: Uuid, session: Uuid, now: Time)

  // ---------------------------------------------------------------- calls as state changes

  function Issue(s: State, clientId: Uuid, family: Uuid, d: Draw): State {
    var inserted := Insert(s.rows, NewToken(clientId, family, d));
    if inserted.Some? then s.(rows := inserted.value) else s
  }

  // Some stored token has the key or the id that was drawn.
  predicate KeyTaken(rows: seq<Token>, d: Draw) {
    exists t :: t in rows && (t.hash == Sha256(d.raw) || t.id == d.id)
  }

  // Expired and revoked tokens are turned away before reuse is looked at.
  predicate Rejected(t: Token, now: Time) {
    t.IsExpired(now) || t.IsRevoked()
  }

  /** Whether a refresh call succeeds. */
  predicate Accepts(s: State, raw: string, d: Draw) {
    var found := IndexOfHash(s.rows, Sha256(raw));
    && found.Some?
    && var t := s.rows[found.value];
       && !Rejected(t, d.now) && !t.IsReplaced() && t.clientId in s.clients
       && Insert(s.rows, NewToken(t.clientId, t.family, d)).Some?
  }

  function RefreshState(s: State, raw: string, d: Draw): State {
    var found := IndexOfHash(s.rows, Sha256(raw));
    if found.None? then s
    else
      var t := s.rows[found.value];
      if Rejected(t, d.now) then s
      else if t.IsReplaced() then s.(rows := RevokeFamily(s.rows, t.family, "refresh_token_reuse", d.now))
      else if t.clientId !in s.clients then s
      else
        var used := MarkUsed(s.rows, t.id, d.now);
        var issued := Insert(used, NewToken(t.clientId, t.family, d));
        if issued.None? then s.(rows := used)
        else s.(rows := SetReplacedBy(issued.value, t.id, d.id))
  }

  function Apply(s: State, op: Op): State {
    match op
    case Register(c, d) => if c in s.clients then s else Issue(s.(clients := s.clients + {c}), c, d.family, d)
    case Login(c, d) => if c in s.clients then Issue(s, c, d.family, d) else s
    case Refresh(raw, d) => RefreshState(s, raw, d)
    case Logout(c, now) => s.(rows := RevokeClient(s.rows, c, "logout", now))
    case LogoutAll(c, now) => s.(rows := RevokeClient(s.rows, c, "logout_all", now))
    case RevokeSession(c, id, now) => s.(rows := RevokeOne(s.rows, c, id, "session_revoked", now))
  }

  function Run(s: State, ops: seq<Op>): State {
    if ops == [] then s else Apply(Run(s, ops[..|ops| - 1]), ops[|ops| - 1])
  }

  /** A new session is given a family id that no token has: `uuid.New()` does not repeat. */
  ghost predicate Fresh(s: State, op: Op) {
    op.Register? || op.Login? ==> forall t :: t in s.rows ==> t.family != op.draw.family
  }

  ghost predicate Legal(s: State, ops: seq<Op>) {
    ops == [] || (Legal(s, ops[..|ops| - 1]) && Fresh(Run(s, ops[..|ops| - 1]), ops[|ops| - 1]))
  }

  const NOBODY := State({}, [])

  // ---------------------------------------------------------------- the service

  class AuthService {
    var clients: set<Uuid>
    const tokens: ClientTokenRepository

    constructor (tokens: ClientTokenRepository)
      ensures this.tokens == tokens && clients == {}
    {
      this.tokens := tokens;
      clients := {};
    }

    ghost function Abs(): State
      reads this, tokens
    {
      State(clients, tokens.rows)
    }

    method IssueTokens(clientId: Uuid, family: Option<Uuid>, d: Draw) returns (r: Result<string, AuthError>)
      modifies tokens
      ensures var f := if family.Some? then family.value else d.family;
        && Abs() == Issue(old(Abs()), clientId, f, d)
        && r == (if KeyTaken(old(tokens.rows), d) then Err(StorageError) else Ok(d.raw))
        && tokens.rows == old(tokens.rows) +
             if r.Ok? then [Token(d.id, clientId, Sha256(d.raw), f, None, d.expiresAt, None, None, None)] else []
    {
      var f := if family.Some? then family.value else d.family;
      var created := tokens.Create(NewToken(clientId, f, d));
      if created.Err? {
        return Err(StorageError);
      }
      return Ok(d.raw);
    }

    /** `newClient` is the id of the client row that the database creates, unless the e-mail is taken. */
    method RegisterClient(newClient: Option<Uuid>, d: Draw) returns (r: Result<string, AuthError>)
      requires newClient.Some? ==> newClient.value !in clients
      modifies this, tokens
      ensures Abs() == if newClient.Some? then Apply(old(Abs()), Register(newClient.value, d)) else old(Abs())
      ensures r == (if newClient.None? then Err(EmailAlreadyExists)
                    else if KeyTaken(old(tokens.rows), d) then Err(StorageError)
                    else Ok(d.raw))
      ensures r.Ok? ==>
                && clients == old(clients) + {newClient.value}
                && tokens.rows == old(tokens.rows)
                                  + [Token(d.id, newClient.value, Sha256(d.raw), d.family, None, d.expiresAt, None, None, None)]
    {
      if newClient.None? {
        return Err(EmailAlreadyExists);
      }
      clients := clients + {newClient.value};
      r := IssueTokens(newClient.value, None, d);
    }

    /** `account` is the client whose e-mail and password were given, if they are right: then a token
        is stored and returned, unless its key is taken, and it is accepted until it expires. */
    method LoginClient(account: Option<Uuid>, d: Draw) returns (r: Result<string, AuthError>)
      requires account.Some? ==> account.value in clients
      modifies tokens
      ensures Abs() == if account.Some? then Apply(old(Abs()), Login(account.value, d)) else old(Abs())
      ensures r == (if account.None? then Err(InvalidCredentials)
                    else if KeyTaken(old(tokens.rows), d) then Err(StorageError)
                    else Ok(d.raw))
      ensures r.Err? ==> tokens.rows == old(tokens.rows)
      ensures r.Ok? ==>
                && tokens.rows == old(tokens.rows)
                                  + [Token(d.id, account.value, Sha256(d.raw), d.family, None, d.expiresAt, None, None, None)]
                && forall d': Draw :: Accepts(Abs(), r.value, d') <==> d'.now < d.expiresAt && !KeyTaken(tokens.rows, d')
    {
      if account.None? {
        return Err(InvalidCredentials);
      }
      r := IssueTokens(account.value, None, d);
      if r.Ok? {
        FindsLast(tokens.rows);
      }
    }

    method RefreshSession(raw: string, d: Draw) returns (r: Result<string, AuthError>)
      modifies tokens
      ensures Abs() == Apply(old(Abs()), Refresh(raw, d))
      ensures r.Ok? <==> Accepts(old(Abs()), raw, d)
      ensures r.Ok? ==> r.value == d.raw
      ensures var found := IndexOfHash(old(tokens.rows), Sha256(raw));
        r == (if found.None? then Err(InvalidRefreshToken)
              else
                var t := old(tokens.rows)[found.value];
                if t.expiresAt <= d.now || t.revokedAt != None || t.replacedBy != None then Err(InvalidRefreshToken)
                else if t.clientId !in clients || KeyTaken(old(tokens.rows), d) then Err(StorageError)
                else Ok(d.raw))
    {
      var found := tokens.FindByHash(Sha256(raw));
      if found.Err? {
        return Err(InvalidRefreshToken);
      }
      var stored := found.value;
      if stored.IsExpired(d.now) || stored.IsRevoked() {
        return Err(InvalidRefreshToken);
      }
      if stored.IsReplaced() {
        tokens.RevokeTokenFamily(stored.family, "refresh_token_reuse", d.now);
        return Err(InvalidRefreshToken);
      }
      if stored.clientId !in clients {
        return Err(StorageError);
      }
      InsertsUnlessTaken(tokens.rows, stored.clientId, stored.family, d);
      MarkTakesNoKey(tokens.rows, stored.id, d);
      tokens.MarkTokenUsed(stored.id, d.now);
      InsertsUnlessTaken(tokens.rows, stored.clientId, stored.family, d);
      var issued := IssueTokens(stored.clientId, Some(stored.family), d);
      if issued.Err? {
        return Err(StorageError);
      }
      var newStored := tokens.FindByHash(Sha256(issued.value));
      FindsLast(tokens.rows);
      tokens.ReplaceToken(stored.id, newStored.value.id);
      return Ok(issued.value);
    }

    method LogoutClient(clientId: Uuid, now: Time)
      modifies tokens
      ensures Abs() == Apply(old(Abs()), Logout(clientId, now))
    {
      tokens.RevokeAllByClientID(clientId, "logout", now);
    }

    method LogoutEverywhere(clientId: Uuid, now: Time)
      modifies tokens
      ensures Abs() == Apply(old(Abs()), LogoutAll(clientId, now))
    {
      tokens.RevokeAllByClientID(clientId, "logout_all", now);
    }

    method RevokeClientSession(clientId: Uuid, session: Uuid, now: Time) returns (r: Result<(), AuthError>)
      modifies tokens
      ensures Abs() == Apply(old(Abs()), RevokeSession(clientId, session, now))
      ensures r.Ok? <==> exists t :: t in old(tokens.rows) && t.clientId == clientId && t.id == session
      ensures r.Err? ==> r.error == InvalidRefreshToken
    {
      var found := tokens.RevokeByClientID(clientId, session, "session_revoked", now);
      if !found {
        return Err(InvalidRefreshToken);
      }
      return Ok(());
    }
  }

  lemma MarkKeepsKeys(rows: seq<Token>, id: Uuid, d: Draw)
    ensures IndexOfHash(MarkUsed(rows, id, d.now), Sha256(d.raw)).Some? <==> IndexOfHash(rows, Sha256(d.raw)).Some?
    ensures IndexOfId(MarkUsed(rows, id, d.now), d.id).Some? <==> IndexOfId(rows, d.id).Some?
  {
  }

  lemma MarkTakesNoKey(rows: seq<Token>, id: Uuid, d: Draw)
    ensures KeyTaken(MarkUsed(rows, id, d.now), d) <==> KeyTaken(rows, d)
  {
    var used := MarkUsed(rows, id, d.now);
    if KeyTaken(rows, d) {
      var i :| 0 <= i < |rows| && (rows[i].hash == Sha256(d.raw) || rows[i].id == d.id);
      assert used[i] in used;
    }
    if KeyTaken(used, d) {
      var i :| 0 <= i < |used| && (used[i].hash == Sha256(d.raw) || used[i].id == d.id);
      assert rows[i] in rows;
    }
  }

  lemma InsertsUnlessTaken(rows: seq<Token>, clientId: Uuid, family: Uuid, d: Draw)
    ensures Insert(rows, NewToken(clientId, family, d)).None? <==> KeyTaken(rows, d)
  {
  }

  // The row just inserted is the one its hash finds.
  lemma {:induction false} FindsLast(rows: seq<Token>)
    requires rows != [] && forall i :: 0 <= i < |rows| - 1 ==> rows[i].hash != rows[|rows| - 1].hash
    ensures IndexOfHash(rows, rows[|rows| - 1].hash) == Some(|rows| - 1)
  {
  }
}
