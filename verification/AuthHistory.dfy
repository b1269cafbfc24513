/** Which refresh tokens are accepted after a serial run, read off the run itself. */
module AuthHistory {
  import opened Common
  import opened Tokens
  import opened Auth
  import P = AuthProperties

  // ================================================================ what a call does to a token

  /** The call stores the token `t`: a registration or login opens a family with it, an accepted
      refresh adds it to the family of the token presented. */
  ghost predicate Issues(s: State, op: Op, t: Token) {
    match op
    case Register(c, d) => c !in s.clients && t == NewToken(c, d.family, d) && Insert(s.rows, t).Some?
    case Login(c, d) => c in s.clients && t == NewToken(c, d.family, d) && Insert(s.rows, t).Some?
    case Refresh(raw, d) =>
      && Accepts(s, raw, d)
      && var spent := s.rows[IndexOfHash(s.rows, Sha256(raw)).value];
         t == NewToken(spent.clientId, spent.family, d)
    case _ => false
  }

  /** The call exchanges the token for a new one. */
  ghost predicate Exchanges(s: State, op: Op, t: Token) {
    op.Refresh? && Sha256(op.raw) == t.hash && Accepts(s, op.raw, op.draw)
  }

  /** The call revokes the token: a logout of its client, a revocation of it as a session, or the
      replay of a replaced token of its family. */
  ghost predicate Hits(s: State, op: Op, t: Token) {
    match op
    case Logout(c, _) => c == t.clientId
    case LogoutAll(c, _) => c == t.clientId
    case RevokeSession(c, id, _) => c == t.clientId && id == t.id
    case Refresh(raw, d) =>
      P.Replays(s, raw, d.now) && s.rows[IndexOfHash(s.rows, Sha256(raw)).value].family == t.family
    case _ => false
  }

  // Two versions of one token.
  ghost predicate SameToken(t: Token, u: Token) {
    && t.id == u.id && t.hash == u.hash && t.clientId == u.clientId && t.family == u.family && t.expiresAt == u.expiresAt
  }

  // ---------------------------------------------------------------- one call

  lemma RevokesIff(s: State, op: Op, i: nat)
    requires P.Inv(s) && i < |s.rows|
    ensures i < |Apply(s, op).rows|
    ensures Apply(s, op).rows[i].IsRevoked() <==> s.rows[i].IsRevoked() || Hits(s, op, s.rows[i])
  {
    P.ApplyIsLater(s, op);
  }

  lemma ReplacesIff(s: State, op: Op, i: nat)
    requires P.Inv(s) && i < |s.rows|
    ensures i < |Apply(s, op).rows|
    ensures Apply(s, op).rows[i].IsReplaced() <==> s.rows[i].IsReplaced() || Exchanges(s, op, s.rows[i])
  {
    P.ApplyIsLater(s, op);
    P.ApplyShape(s, op);
    P.FindsOwnRow(s.rows, i);
  }

  lemma AppendsIff(s: State, op: Op)
    requires P.Inv(s)
    ensures var rows' := Apply(s, op).rows;
      && |s.rows| <= |rows'| <= |s.rows| + 1
      && (|rows'| == |s.rows| + 1 ==> Issues(s, op, rows'[|s.rows|]))
      && (forall t :: Issues(s, op, t) ==> |rows'| == |s.rows| + 1 && rows'[|s.rows|] == t)
  {
    P.ApplyShape(s, op);
  }

  // ================================================================ a token over a run

  function Before(ops: seq<Op>, q: nat): State {
    if q <= |ops| then Run(NOBODY, ops[..q]) else NOBODY
  }

  /** Call `p` of the run stored the token, as row `i`. */
  ghost predicate IssuedAt(ops: seq<Op>, p: nat, t: Token, i: nat) {
    p < |ops| && Issues(Before(ops, p), ops[p], t) && i == |Before(ops, p).rows|
  }

  ghost predicate HitAt(ops: seq<Op>, q: nat, t: Token) {
    q < |ops| && Hits(Before(ops, q), ops[q], t)
  }

  ghost predicate ExchangedAt(ops: seq<Op>, q: nat, t: Token) {
    q < |ops| && Exchanges(Before(ops, q), ops[q], t)
  }

  ghost predicate HitSince(ops: seq<Op>, p: nat, t: Token) {
    exists q :: q > p && HitAt(ops, q, t)
  }

  ghost predicate ExchangedSince(ops: seq<Op>, p: nat, t: Token) {
    exists q :: q > p && ExchangedAt(ops, q, t)
  }

  /** Row `i` of the table tells what the run did to the token issued by call `p`. */
  ghost predicate Tells(ops: seq<Op>, p: nat, t: Token, i: nat) {
    var rows := Run(NOBODY, ops).rows;
    && IssuedAt(ops, p, t, i) && i < |rows| && SameToken(t, rows[i])
    && (rows[i].IsRevoked() <==> HitSince(ops, p, t))
    && (rows[i].IsReplaced() <==> ExchangedSince(ops, p, t))
  }

  // A run one call longer has hit and exchanged what it had before, and what the last call does.
  lemma SinceNext(ops: seq<Op>, op: Op, p: nat, t: Token)
    requires p < |ops|
    ensures HitSince(ops + [op], p, t) <==> HitSince(ops, p, t) || Hits(Run(NOBODY, ops), op, t)
    ensures ExchangedSince(ops + [op], p, t) <==> ExchangedSince(ops, p, t) || Exchanges(Run(NOBODY, ops), op, t)
  {
    var longer := ops + [op];
    assert longer[..|ops|] == ops;
    forall q: nat | q < |ops| ensures Before(longer, q) == Before(ops, q) {
      assert longer[..q] == ops[..q];
    }
    assert forall q: nat :: q < |ops| ==> (HitAt(longer, q, t) <==> HitAt(ops, q, t));
    assert forall q: nat :: q < |ops| ==> (ExchangedAt(longer, q, t) <==> ExchangedAt(ops, q, t));
    assert HitAt(longer, |ops|, t) <==> Hits(Run(NOBODY, ops), op, t);
    assert ExchangedAt(longer, |ops|, t) <==> Exchanges(Run(NOBODY, ops), op, t);
  }

  lemma NothingSince(ops: seq<Op>, t: Token)
    requires ops != []
    ensures !HitSince(ops, |ops| - 1, t) && !ExchangedSince(ops, |ops| - 1, t)
  {
  }

  lemma TellsNext(ops: seq<Op>, op: Op, p: nat, t: Token, i: nat)
    requires Legal(NOBODY, ops) && Tells(ops, p, t, i)
    ensures Tells(ops + [op], p, t, i)
  {
    var s, longer := Run(NOBODY, ops), ops + [op];
    P.Reachable(NOBODY, ops);
    assert longer[..|ops|] == ops && longer[..p] == ops[..p];
    P.ApplyIsLater(s, op);
    RevokesIff(s, op, i);
    ReplacesIff(s, op, i);
    SinceNext(ops, op, p, t);
  }

  /** Every row goes back to the call that issued it. */
  lemma {:induction false} EveryRowTells(ops: seq<Op>, i: nat) returns (p: nat, t: Token)
    requires Legal(NOBODY, ops) && i < |Run(NOBODY, ops).rows|
    ensures Tells(ops, p, t, i)
  {
    var front, op := ops[..|ops| - 1], ops[|ops| - 1];
    var s := Run(NOBODY, front);
    assert ops == front + [op];
    P.Reachable(NOBODY, front);
    AppendsIff(s, op);
    if i < |s.rows| {
      p, t := EveryRowTells(front, i);
      TellsNext(front, op, p, t, i);
    } else {
      p, t := |front|, Run(NOBODY, ops).rows[i];
      NothingSince(ops, t);
    }
  }

  lemma {:induction false} RowsOnlyGrow(ops: seq<Op>, p: nat)
    requires Legal(NOBODY, ops) && p <= |ops|
    ensures |Before(ops, p).rows| <= |Run(NOBODY, ops).rows|
    ensures Legal(NOBODY, ops[..p])
  {
    if p == |ops| {
      assert ops[..p] == ops;
    } else {
      var front := ops[..|ops| - 1];
      RowsOnlyGrow(front, p);
      assert front[..p] == ops[..p];
      P.Reachable(NOBODY, front);
      AppendsIff(Run(NOBODY, front), ops[|ops| - 1]);
    }
  }

  lemma IssueAddsRow(ops: seq<Op>, p: nat, t: Token, i: nat)
    requires Legal(NOBODY, ops) && IssuedAt(ops, p, t, i)
    ensures |Before(ops, p + 1).rows| == i + 1 && Before(ops, p + 1).rows[i] == t
  {
    RowsOnlyGrow(ops, p);
    P.Reachable(NOBODY, ops[..p]);
    AppendsIff(Before(ops, p), ops[p]);
    assert ops[..p + 1][..p] == ops[..p];
  }

  lemma LaterIssueIsHigher(ops: seq<Op>, p: nat, t: Token, i: nat, p': nat, t': Token, i': nat)
    requires Legal(NOBODY, ops) && p < p' && IssuedAt(ops, p, t, i) && IssuedAt(ops, p', t', i')
    ensures i < i'
  {
    IssueAddsRow(ops, p, t, i);
    RowsOnlyGrow(ops, p');
    assert ops[..p'][..p + 1] == ops[..p + 1];
    RowsOnlyGrow(ops[..p'], p + 1);
  }

  // The call that issued a token is the one its row goes back to.
  lemma IssuedOnce(ops: seq<Op>, p: nat, t: Token, i: nat, p': nat, t': Token)
    requires Legal(NOBODY, ops) && IssuedAt(ops, p, t, i) && IssuedAt(ops, p', t', i)
    ensures p == p' && t == t'
  {
    if p < p' {
      LaterIssueIsHigher(ops, p, t, i, p', t', i);
    } else if p' < p {
      LaterIssueIsHigher(ops, p', t', i, p, t, i);
    } else {
      IssueAddsRow(ops, p, t, i);
      IssueAddsRow(ops, p, t', i);
    }
  }

  // ================================================================ what is accepted

  /** The run issued the raw token, and from then on neither exchanged nor revoked it. */
  ghost predicate Standing(ops: seq<Op>, p: nat, t: Token, i: nat, raw: string) {
    IssuedAt(ops, p, t, i) && t.hash == Sha256(raw) && !HitSince(ops, p, t) && !ExchangedSince(ops, p, t)
  }

  lemma AcceptedStands(ops: seq<Op>, raw: string, d: Draw) returns (p: nat, t: Token, i: nat)
    requires Legal(NOBODY, ops) && Accepts(Run(NOBODY, ops), raw, d)
    ensures Standing(ops, p, t, i, raw) && d.now < t.expiresAt
    ensures Insert(Run(NOBODY, ops).rows, NewToken(t.clientId, t.family, d)).Some?
  {
    i := IndexOfHash(Run(NOBODY, ops).rows, Sha256(raw)).value;
    p, t := EveryRowTells(ops, i);
  }

  lemma StandingIsAccepted(ops: seq<Op>, p: nat, t: Token, i: nat, raw: string, d: Draw)
    requires Legal(NOBODY, ops) && Standing(ops, p, t, i, raw) && d.now < t.expiresAt
    requires Insert(Run(NOBODY, ops).rows, NewToken(t.clientId, t.family, d)).Some?
    ensures Accepts(Run(NOBODY, ops), raw, d)
  {
    var s := Run(NOBODY, ops);
    P.Reachable(NOBODY, ops);
    IssueAddsRow(ops, p, t, i);
    RowsOnlyGrow(ops, p + 1);
    var p', t' := EveryRowTells(ops, i);
    IssuedOnce(ops, p, t, i, p', t');
    P.FindsOwnRow(s.rows, i);
    assert s.rows[i] in s.rows;
  }

  /** Some call of the run issued the raw token, no later one exchanged it, logged its client out,
      revoked it as a session or replayed a replaced token of its family; it has not expired, and
      the key drawn for its successor is unused. */
  ghost predicate Stands(ops: seq<Op>, rows: seq<Token>, raw: string, d: Draw) {
    exists p: nat, t: Token, i: nat ::
      Standing(ops, p, t, i, raw) && d.now < t.expiresAt && Insert(rows, NewToken(t.clientId, t.family, d)).Some?
  }

  /** After any serial run a raw refresh token is accepted exactly when it still stands. */
  lemma AcceptedIff(ops: seq<Op>, raw: string, d: Draw)
    requires Legal(NOBODY, ops)
    ensures Accepts(Run(NOBODY, ops), raw, d) <==> Stands(ops, Run(NOBODY, ops).rows, raw, d)
  {
    if Accepts(Run(NOBODY, ops), raw, d) {
      var p, t, i := AcceptedStands(ops, raw, d);
    }
    if Stands(ops, Run(NOBODY, ops).rows, raw, d) {
      var p: nat, t: Token, i: nat :| Standing(ops, p, t, i, raw) && d.now < t.expiresAt
        && Insert(Run(NOBODY, ops).rows, NewToken(t.clientId, t.family, d)).Some?;
      StandingIsAccepted(ops, p, t, i, raw, d);
    }
  }
}
