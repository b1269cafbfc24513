/** Refresh calls that overlap: the statements of any number of calls interleave with one another
    and with all other session calls, and a call may stop after any of them. */
module AuthInterleaving {
  import opened Common
  import opened Tokens
  import opened Auth
  import P = AuthProperties

  // ================================================================ the calls, statement by statement

  /** How far a refresh call has come whose checks have passed. `row` is the token presented to
      it; of that token it goes on to use the id, the owner and the family, which never change. */
  datatype Stage = Checked(row: nat) | Marked(row: nat) | Issued(row: nat, newId: Uuid)

  // The call stored a new token in exchange for the one in `row`.
  datatype Exchange = Exchange(call: nat, row: nat)

  /** `exchanges` is the history of the run, and `seen` the calls that have begun; no step reads
      the former. */
  datatype System = System(state: State, calls: map<nat, Stage>, seen: set<nat>, exchanges: seq<Exchange>)

  /** A session call other than a refresh, the lookup and checks of a refresh call, or its next
      statement. A call that meets a storage failure or a crash has no further event. */
  datatype Event =
    | Other(op: Op)
    | Check(call: nat, raw: string, now: Time)
    | Continue(call: nat, draw: Draw)

  const IDLE := System(NOBODY, map[], {}, [])

  function Apply(y: System, e: Event): System {
    match e
    case Other(op) => if op.Refresh? then y else y.(state := Auth.Apply(y.state, op))
    case Check(call, raw, now) => if call in y.seen then y else CheckStep(y.(seen := y.seen + {call}), call, raw, now)
    case Continue(call, d) => if call in y.calls && y.calls[call].row < |y.state.rows| then NextStep(y, call, d) else y
  }

  function CheckStep(y: System, call: nat, raw: string, now: Time): System {
    var rows := y.state.rows;
    var found := IndexOfHash(rows, Sha256(raw));
    if found.None? then y
    else
      var t := rows[found.value];
      if Rejected(t, now) then y
      else if t.IsReplaced() then y.(state := y.state.(rows := RevokeFamily(rows, t.family, "refresh_token_reuse", now)))
      else if t.clientId !in y.state.clients then y
      else y.(calls := y.calls[call := Checked(found.value)])
  }

  function NextStep(y: System, call: nat, d: Draw): System
    requires call in y.calls && y.calls[call].row < |y.state.rows|
  {
    var rows := y.state.rows;
    match y.calls[call]
    case Checked(row) => y.(state := y.state.(rows := MarkUsed(rows, rows[row].id, d.now)), calls := y.calls[call := Marked(row)])
    case Marked(row) =>
      var issued := Insert(rows, NewToken(rows[row].clientId, rows[row].family, d));
      if issued.None? then y.(calls := y.calls - {call})
      else
        y.(state := y.state.(rows := issued.value), calls := y.calls[call := Issued(row, d.id)],
           exchanges := y.exchanges + [Exchange(call, row)])
    case Issued(row, newId) =>
      y.(state := y.state.(rows := SetReplacedBy(rows, rows[row].id, newId)), calls := y.calls - {call})
  }

  function Run(y: System, es: seq<Event>): System {
    if es == [] then y else Apply(Run(y, es[..|es| - 1]), es[|es| - 1])
  }

  ghost predicate Fresh(y: System, e: Event) {
    e.Other? ==> Auth.Fresh(y.state, e.op)
  }

  ghost predicate Legal(y: System, es: seq<Event>) {
    es == [] || (Legal(y, es[..|es| - 1]) && Fresh(Run(y, es[..|es| - 1]), es[|es| - 1]))
  }

  // The three statements of a call whose checks have passed, one after the other.
  lemma StatementsTogether(y: System, call: nat, d: Draw)
    requires call in y.calls && y.calls[call].Checked? && y.calls[call].row < |y.state.rows|
    ensures var y2 := Apply(y, Continue(call, d));
      var y3 := Apply(y2, Continue(call, d));
      Apply(y3, Continue(call, d)).state == P.WritePhase(y.state, y.state.rows[y.calls[call].row], d)
  {
    var (rows, row) := (y.state.rows, y.calls[call].row);
    var t := rows[row];
    var used := MarkUsed(rows, t.id, d.now);
    assert Apply(y, Continue(call, d)) == y.(state := y.state.(rows := used), calls := y.calls[call := Marked(row)]);
    assert used[row].id == t.id && used[row].family == t.family && used[row].clientId == t.clientId;
  }

  lemma CheckTogether(y: System, call: nat, raw: string, now: Time)
    requires call !in y.seen && call !in y.calls
    ensures var y' := Apply(y, Check(call, raw, now));
      var found := IndexOfHash(y.state.rows, Sha256(raw));
      if P.CheckPhase(y.state, raw, now).Some? && P.CheckPhase(y.state, raw, now).value.clientId in y.state.clients then
        y'.state == y.state && call in y'.calls && y'.calls[call] == Checked(found.value)
      else
        call !in y'.calls && forall d: Draw :: d.now == now ==> y'.state == RefreshState(y.state, raw, d)
  {
  }

  /** A call whose statements follow one another is the refresh of the serial model. */
  lemma UninterruptedCallIsRefresh(y: System, call: nat, raw: string, d: Draw)
    requires call !in y.seen && call !in y.calls
    ensures var y1 := Apply(y, Check(call, raw, d.now));
      var y2 := Apply(y1, Continue(call, d));
      var y3 := Apply(y2, Continue(call, d));
      Apply(y3, Continue(call, d)).state == RefreshState(y.state, raw, d)
  {
    var y1 := Apply(y, Check(call, raw, d.now));
    CheckTogether(y, call, raw, d.now);
    if call in y1.calls {
      P.RefreshIsCheckThenWrite(y.state, raw, d);
      StatementsTogether(y1, call, d);
    }
  }

  // ================================================================ the invariant

  function FamilyRows(rows: seq<Token>, f: Uuid): set<nat> {
    set i: nat | i < |rows| && rows[i].family == f
  }

  /** The exchanges made for tokens of a family. */
  function ExchangesOf(rows: seq<Token>, exchanges: seq<Exchange>, f: Uuid): set<nat> {
    set p: nat | p < |exchanges| && exchanges[p].row < |rows| && rows[exchanges[p].row].family == f
  }

  ghost predicate Exchanged(exchanges: seq<Exchange>, row: nat) {
    exists p :: 0 <= p < |exchanges| && exchanges[p].row == row
  }

  ghost predicate CallsOk(rows: seq<Token>, calls: map<nat, Stage>, seen: set<nat>, exchanges: seq<Exchange>) {
    && (forall c :: c in calls ==>
          && c in seen && calls[c].row < |rows|
          && (calls[c].Issued? ==> Exchanged(exchanges, calls[c].row))
          && (!calls[c].Issued? ==> forall p :: 0 <= p < |exchanges| ==> exchanges[p].call != c))
  }

  ghost predicate ExchangesOk(rows: seq<Token>, seen: set<nat>, exchanges: seq<Exchange>) {
    && (forall p :: 0 <= p < |exchanges| ==> exchanges[p].row < |rows| && exchanges[p].call in seen)
    && (forall p, q :: 0 <= p < q < |exchanges| ==> exchanges[p].call != exchanges[q].call)
    && (forall i :: 0 <= i < |rows| && rows[i].IsReplaced() ==> Exchanged(exchanges, i))
  }

  /** A family has its first token and one more for each exchange. */
  ghost predicate Counted(rows: seq<Token>, exchanges: seq<Exchange>) {
    forall f :: FamilyRows(rows, f) != {} ==> |FamilyRows(rows, f)| == 1 + |ExchangesOf(rows, exchanges, f)|
  }

  ghost predicate Inv(y: System) {
    && P.UniqueKeys(y.state.rows)
    && CallsOk(y.state.rows, y.calls, y.seen, y.exchanges)
    && ExchangesOk(y.state.rows, y.seen, y.exchanges)
    && Counted(y.state.rows, y.exchanges)
  }

  // ---------------------------------------------------------------- its preservation

  /** A statement that adds no row, touches no key, owner or family, and links only `linked`. */
  ghost predicate SameTokens(rows: seq<Token>, rows': seq<Token>, linked: Option<nat>) {
    && |rows'| == |rows|
    && forall i :: 0 <= i < |rows| ==>
         && rows'[i].id == rows[i].id && rows'[i].hash == rows[i].hash
         && rows'[i].family == rows[i].family && rows'[i].clientId == rows[i].clientId
         && (linked != Some(i) ==> rows'[i].replacedBy == rows[i].replacedBy)
  }

  lemma SameTokensKeep(rows: seq<Token>, rows': seq<Token>, linked: Option<nat>, seen: set<nat>, exchanges: seq<Exchange>)
    requires SameTokens(rows, rows', linked) && (linked.Some? ==> Exchanged(exchanges, linked.value))
    requires P.UniqueKeys(rows) && ExchangesOk(rows, seen, exchanges) && Counted(rows, exchanges)
    ensures P.UniqueKeys(rows') && ExchangesOk(rows', seen, exchanges) && Counted(rows', exchanges)
  {
    forall f | FamilyRows(rows', f) != {} ensures |FamilyRows(rows', f)| == 1 + |ExchangesOf(rows', exchanges, f)| {
      assert FamilyRows(rows', f) == FamilyRows(rows, f);
      assert ExchangesOf(rows', exchanges, f) == ExchangesOf(rows, exchanges, f);
    }
  }

  // The first token of a new family.
  lemma NewFamilyKeeps(rows: seq<Token>, t: Token, seen: set<nat>, exchanges: seq<Exchange>)
    requires P.UniqueKeys(rows) && ExchangesOk(rows, seen, exchanges) && Counted(rows, exchanges)
    requires Insert(rows, t).Some? && !t.IsReplaced() && forall x :: x in rows ==> x.family != t.family
    ensures P.UniqueKeys(rows + [t]) && ExchangesOk(rows + [t], seen, exchanges) && Counted(rows + [t], exchanges)
  {
    var rows' := rows + [t];
    forall f | FamilyRows(rows', f) != {} ensures |FamilyRows(rows', f)| == 1 + |ExchangesOf(rows', exchanges, f)| {
      assert ExchangesOf(rows', exchanges, f) == ExchangesOf(rows, exchanges, f);
      if f == t.family {
        assert FamilyRows(rows', f) == {|rows|};
        assert ExchangesOf(rows, exchanges, f) == {};
      } else {
        assert FamilyRows(rows', f) == FamilyRows(rows, f);
      }
    }
  }

  lemma ExchangeCounts(rows: seq<Token>, t: Token, exchanges: seq<Exchange>, x: Exchange, f: Uuid)
    requires x.row < |rows| && t.family == rows[x.row].family
    requires forall p :: 0 <= p < |exchanges| ==> exchanges[p].row < |rows|
    ensures FamilyRows(rows + [t], f) == FamilyRows(rows, f) + (if f == t.family then {|rows|} else {})
    ensures ExchangesOf(rows + [t], exchanges + [x], f)
            == ExchangesOf(rows, exchanges, f) + (if f == t.family then {|exchanges|} else {})
  {
  }

  lemma ExchangeIsCounted(rows: seq<Token>, t: Token, exchanges: seq<Exchange>, x: Exchange)
    requires Counted(rows, exchanges)
    requires x.row < |rows| && t.family == rows[x.row].family
    requires forall p :: 0 <= p < |exchanges| ==> exchanges[p].row < |rows|
    ensures Counted(rows + [t], exchanges + [x])
  {
    forall f | FamilyRows(rows + [t], f) != {}
      ensures |FamilyRows(rows + [t], f)| == 1 + |ExchangesOf(rows + [t], exchanges + [x], f)|
    {
      ExchangeCounts(rows, t, exchanges, x, f);
      if f == t.family {
        assert x.row in FamilyRows(rows, f);
      }
    }
  }

  lemma StillExchanged(exchanges: seq<Exchange>, x: Exchange, row: nat)
    requires Exchanged(exchanges, row)
    ensures Exchanged(exchanges + [x], row)
  {
    var p :| 0 <= p < |exchanges| && exchanges[p].row == row;
    assert (exchanges + [x])[p].row == row;
  }

  // An exchange: one more token of the family, and one more exchange for it.
  lemma ExchangeKeeps(rows: seq<Token>, t: Token, seen: set<nat>, exchanges: seq<Exchange>, x: Exchange)
    requires ExchangesOk(rows, seen, exchanges) && !t.IsReplaced() && x.row < |rows|
    requires x.call in seen && forall p :: 0 <= p < |exchanges| ==> exchanges[p].call != x.call
    ensures ExchangesOk(rows + [t], seen, exchanges + [x])
  {
    forall i | 0 <= i < |rows + [t]| && (rows + [t])[i].IsReplaced() ensures Exchanged(exchanges + [x], i) {
      assert Exchanged(exchanges, i);
      StillExchanged(exchanges, x, i);
    }
  }

  lemma OtherKeepsInv(y: System, op: Op)
    requires Inv(y) && Auth.Fresh(y.state, op) && !op.Refresh?
    ensures Inv(Apply(y, Other(op)))
  {
    var rows, rows' := y.state.rows, Auth.Apply(y.state, op).rows;
    if |rows'| == |rows| {
      SameTokensKeep(rows, rows', None, y.seen, y.exchanges);
    } else {
      NewFamilyKeeps(rows, NewToken(op.clientId, op.draw.family, op.draw), y.seen, y.exchanges);
    }
  }

  lemma CheckTouchesNoToken(y: System, call: nat, raw: string, now: Time)
    ensures var y' := CheckStep(y, call, raw, now);
      && SameTokens(y.state.rows, y'.state.rows, None)
      && y'.seen == y.seen && y'.exchanges == y.exchanges
      && (y'.calls == y.calls || exists row: nat :: row < |y.state.rows| && y'.calls == y.calls[call := Checked(row)])
  {
  }

  lemma CheckKeepsInv(y: System, call: nat, raw: string, now: Time)
    requires Inv(y)
    ensures Inv(Apply(y, Check(call, raw, now)))
  {
    if call !in y.seen {
      var begun := y.(seen := y.seen + {call});
      var y' := CheckStep(begun, call, raw, now);
      CheckTouchesNoToken(begun, call, raw, now);
      SameTokensKeep(y.state.rows, y'.state.rows, None, begun.seen, y.exchanges);
    }
  }

  // The other calls are where they were after an exchange.
  lemma StagesStay(rows: seq<Token>, calls: map<nat, Stage>, seen: set<nat>, exchanges: seq<Exchange>, x: Exchange, t: Token)
    requires CallsOk(rows, calls, seen, exchanges) && x.call in calls && x.row < |rows|
    ensures forall id :: CallsOk(rows + [t], calls[x.call := Issued(x.row, id)], seen, exchanges + [x])
  {
    assert (exchanges + [x])[|exchanges|].row == x.row;
    forall c | c in calls && calls[c].Issued? ensures Exchanged(exchanges + [x], calls[c].row) {
      StillExchanged(exchanges, x, calls[c].row);
    }
  }

  lemma MarkKeepsInv(y: System, call: nat, d: Draw)
    requires Inv(y) && call in y.calls && y.calls[call].Checked?
    ensures Inv(Apply(y, Continue(call, d)))
  {
    SameTokensKeep(y.state.rows, Apply(y, Continue(call, d)).state.rows, None, y.seen, y.exchanges);
  }

  lemma IssueKeepsInv(y: System, call: nat, d: Draw)
    requires Inv(y) && call in y.calls && y.calls[call].Marked?
    ensures Inv(Apply(y, Continue(call, d)))
  {
    var rows, row := y.state.rows, y.calls[call].row;
    var t := NewToken(rows[row].clientId, rows[row].family, d);
    if Insert(rows, t).Some? {
      var x := Exchange(call, row);
      ExchangeKeeps(rows, t, y.seen, y.exchanges, x);
      ExchangeIsCounted(rows, t, y.exchanges, x);
      StagesStay(rows, y.calls, y.seen, y.exchanges, x, t);
    }
  }

  lemma LinksOneRow(rows: seq<Token>, row: nat, newId: Uuid)
    requires P.UniqueKeys(rows) && row < |rows|
    ensures SameTokens(rows, SetReplacedBy(rows, rows[row].id, newId), Some(row))
  {
  }

  lemma LinkKeepsInv(y: System, call: nat, d: Draw)
    requires Inv(y) && call in y.calls && y.calls[call].Issued?
    ensures Inv(Apply(y, Continue(call, d)))
  {
    var rows, row := y.state.rows, y.calls[call].row;
    LinksOneRow(rows, row, y.calls[call].newId);
    SameTokensKeep(rows, SetReplacedBy(rows, rows[row].id, y.calls[call].newId), Some(row), y.seen, y.exchanges);
  }

  lemma ApplyKeepsInv(y: System, e: Event)
    requires Inv(y) && Fresh(y, e)
    ensures Inv(Apply(y, e))
  {
    match e
    case Other(op) =>
      if !op.Refresh? {
        OtherKeepsInv(y, op);
      }
    case Check(call, raw, now) => CheckKeepsInv(y, call, raw, now);
    case Continue(call, d) =>
      if call in y.calls {
        match y.calls[call]
        case Checked(_) => MarkKeepsInv(y, call, d);
        case Marked(_) => IssueKeepsInv(y, call, d);
        case Issued(_, _) => LinkKeepsInv(y, call, d);
      }
  }

  lemma {:induction false} Reachable(es: seq<Event>)
    requires Legal(IDLE, es)
    ensures Inv(Run(IDLE, es))
  {
    if es != [] {
      Reachable(es[..|es| - 1]);
      ApplyKeepsInv(Run(IDLE, es[..|es| - 1]), es[|es| - 1]);
    }
  }

  // ================================================================ when a family forks

  function Unreplaced(rows: seq<Token>, f: Uuid): set<nat> {
    set i: nat | i < |rows| && rows[i].family == f && !rows[i].IsReplaced()
  }

  // Two calls exchanged one token of the family.
  ghost predicate ExchangedTwice(rows: seq<Token>, exchanges: seq<Exchange>, f: Uuid) {
    exists p, q :: 0 <= p < q < |exchanges| && exchanges[p].row == exchanges[q].row < |rows| && rows[exchanges[p].row].family == f
  }

  // A token of the family was exchanged and not linked to its successor: yet, or ever.
  ghost predicate LeftUnlinked(rows: seq<Token>, exchanges: seq<Exchange>, f: Uuid) {
    exists p :: 0 <= p < |exchanges| && exchanges[p].row < |rows| && rows[exchanges[p].row].family == f
                && !rows[exchanges[p].row].IsReplaced()
  }

  function Image(s: set<nat>, g: nat -> nat): set<nat> {
    set x | x in s :: g(x)
  }

  ghost predicate Injective(s: set<nat>, g: nat -> nat) {
    forall x, y :: x in s && y in s && g(x) == g(y) ==> x == y
  }

  /** An image is as large as its source exactly when no two elements are mapped to one. */
  lemma {:induction false} ImageSize(s: set<nat>, g: nat -> nat)
    ensures |Image(s, g)| <= |s|
    ensures |Image(s, g)| == |s| <==> Injective(s, g)
  {
    if s != {} {
      var x :| x in s;
      var rest := s - {x};
      ImageSize(rest, g);
      if g(x) in Image(rest, g) {
        var y :| y in rest && g(y) == g(x);
        assert Image(s, g) == Image(rest, g);
        assert x in s && y in s;
      } else {
        assert Image(s, g) == Image(rest, g) + {g(x)};
        assert forall y :: y in rest ==> g(y) in Image(rest, g);
      }
    }
  }

  lemma SmallerSubset(s: set<nat>, t: set<nat>)
    requires s <= t
    ensures |s| <= |t| && (|s| == |t| <==> s == t)
  {
    assert t == s + (t - s);
  }

  lemma SplitByLink(rows: seq<Token>, f: Uuid, replaced: set<nat>)
    requires replaced == FamilyRows(rows, f) - Unreplaced(rows, f)
    ensures |FamilyRows(rows, f)| == |Unreplaced(rows, f)| + |replaced|
  {
    assert FamilyRows(rows, f) == Unreplaced(rows, f) + replaced;
  }

  function RowOf(exchanges: seq<Exchange>): nat -> nat {
    (p: nat) => if p < |exchanges| then exchanges[p].row else 0
  }

  lemma TwiceIff(rows: seq<Token>, exchanges: seq<Exchange>, f: Uuid)
    ensures ExchangedTwice(rows, exchanges, f) <==> !Injective(ExchangesOf(rows, exchanges, f), RowOf(exchanges))
  {
    var made := ExchangesOf(rows, exchanges, f);
    if ExchangedTwice(rows, exchanges, f) {
      var p, q :| 0 <= p < q < |exchanges| && exchanges[p].row == exchanges[q].row < |rows| && rows[exchanges[p].row].family == f;
      assert p in made && q in made && RowOf(exchanges)(p) == RowOf(exchanges)(q);
    }
    if !Injective(made, RowOf(exchanges)) {
      var p, q :| p in made && q in made && RowOf(exchanges)(p) == RowOf(exchanges)(q) && p != q;
      assert p < q || q < p;
    }
  }

  // Replaced tokens have been exchanged; exchanged ones are replaced unless left unlinked.
  lemma LinkedIff(rows: seq<Token>, seen: set<nat>, exchanges: seq<Exchange>, f: Uuid)
    requires ExchangesOk(rows, seen, exchanges)
    ensures var replaced := FamilyRows(rows, f) - Unreplaced(rows, f);
      var exchanged := Image(ExchangesOf(rows, exchanges, f), RowOf(exchanges));
      replaced <= exchanged && (replaced != exchanged <==> LeftUnlinked(rows, exchanges, f))
  {
    var replaced := FamilyRows(rows, f) - Unreplaced(rows, f);
    var made := ExchangesOf(rows, exchanges, f);
    var exchanged := Image(made, RowOf(exchanges));
    forall i | i in replaced ensures i in exchanged {
      assert Exchanged(exchanges, i);
      var p: nat :| p < |exchanges| && exchanges[p].row == i;
      assert p in made && RowOf(exchanges)(p) == i;
    }
    if LeftUnlinked(rows, exchanges, f) {
      var p: nat :| p < |exchanges| && exchanges[p].row < |rows| && rows[exchanges[p].row].family == f
                    && !rows[exchanges[p].row].IsReplaced();
      assert p in made && RowOf(exchanges)(p) in exchanged && RowOf(exchanges)(p) !in replaced;
    } else {
      forall i | i in exchanged ensures i in replaced {
        var p :| p in made && RowOf(exchanges)(p) == i;
      }
    }
  }

  lemma ForksFromInv(rows: seq<Token>, seen: set<nat>, exchanges: seq<Exchange>, f: Uuid)
    requires ExchangesOk(rows, seen, exchanges) && Counted(rows, exchanges) && FamilyRows(rows, f) != {}
    ensures |Unreplaced(rows, f)| >= 1
    ensures |Unreplaced(rows, f)| >= 2 <==> ExchangedTwice(rows, exchanges, f) || LeftUnlinked(rows, exchanges, f)
  {
    var made := ExchangesOf(rows, exchanges, f);
    var replaced := FamilyRows(rows, f) - Unreplaced(rows, f);
    SplitByLink(rows, f, replaced);
    ImageSize(made, RowOf(exchanges));
    TwiceIff(rows, exchanges, f);
    LinkedIff(rows, seen, exchanges, f);
    SmallerSubset(replaced, Image(made, RowOf(exchanges)));
  }

  /** A family has an unreplaced token, and two exactly when two calls exchanged one token of it or
      a call that exchanged one has not linked it to its successor. */
  ghost predicate ForksExactly(y: System, f: Uuid) {
    FamilyRows(y.state.rows, f) != {} ==>
      && |Unreplaced(y.state.rows, f)| >= 1
      && (|Unreplaced(y.state.rows, f)| >= 2 <==>
            ExchangedTwice(y.state.rows, y.exchanges, f) || LeftUnlinked(y.state.rows, y.exchanges, f))
  }

  // No call exchanges two tokens, or one token twice.
  ghost predicate OneExchangeEach(exchanges: seq<Exchange>) {
    forall p, q :: 0 <= p < q < |exchanges| ==> exchanges[p].call != exchanges[q].call
  }

  /** However calls overlap and wherever they stop, families fork in these two ways only: two
      different calls, both of whose checks had passed, exchanged one token, or one call stored a
      new token and has not linked the old one to it. */
  lemma ForkedIff(es: seq<Event>, f: Uuid)
    requires Legal(IDLE, es)
    ensures ForksExactly(Run(IDLE, es), f) && OneExchangeEach(Run(IDLE, es).exchanges)
  {
    Reachable(es);
    var y := Run(IDLE, es);
    if FamilyRows(y.state.rows, f) != {} {
      ForksFromInv(y.state.rows, y.seen, y.exchanges, f);
    }
  }

  // ================================================================ a run that forks

  /** One client registers; two calls present its token, and both have it checked before either
      goes on. */
  function Overlap(d0: Draw, d1: Draw, d2: Draw): seq<Event> {
    [Other(Register(1, d0))] + [Check(1, d0.raw, d1.now)] + [Check(2, d0.raw, d2.now)]
    + [Continue(1, d1)] + [Continue(1, d1)] + [Continue(1, d1)] + [Continue(2, d2)] + [Continue(2, d2)] + [Continue(2, d2)]
  }

  lemma Then(es: seq<Event>, y: System, e: Event, y': System)
    requires Legal(IDLE, es) && Run(IDLE, es) == y && Fresh(y, e) && Apply(y, e) == y'
    ensures Legal(IDLE, es + [e]) && Run(IDLE, es + [e]) == y'
  {
    assert (es + [e])[..|es|] == es;
  }

  // The statements of a call that is the only one to move.
  lemma ThreeStatements(es: seq<Event>, y: System, call: nat, d: Draw, rows': seq<Token>)
    requires Legal(IDLE, es) && Run(IDLE, es) == y
    requires call in y.calls && y.calls[call] == Checked(0) && |y.state.rows| >= 1
    requires forall i :: 0 < i < |y.state.rows| ==> y.state.rows[i].id != y.state.rows[0].id
    requires d.id != y.state.rows[0].id
    requires var t := y.state.rows[0];
      && Insert(y.state.rows, NewToken(t.clientId, t.family, d)).Some?
      && rows' == y.state.rows[0 := t.(lastUsedAt := Some(d.now), replacedBy := Some(d.id))] + [NewToken(t.clientId, t.family, d)]
    ensures var es' := es + [Continue(call, d)] + [Continue(call, d)] + [Continue(call, d)];
      Legal(IDLE, es') && Run(IDLE, es').state == y.state.(rows := rows') && Run(IDLE, es').calls == y.calls - {call}
  {
    var e := Continue(call, d);
    var rows, t := y.state.rows, y.state.rows[0];
    var used := rows[0 := t.(lastUsedAt := Some(d.now))];
    var added := NewToken(t.clientId, t.family, d);
    MarkKeepsKeys(rows, t.id, d);
    assert MarkUsed(rows, t.id, d.now) == used;
    var y2 := y.(state := y.state.(rows := used), calls := y.calls[call := Marked(0)]);
    var y3 := y2.(state := y.state.(rows := used + [added]), calls := y.calls[call := Issued(0, d.id)],
                  exchanges := y.exchanges + [Exchange(call, 0)]);
    Then(es, y, e, y2);
    assert y2.calls[call := Issued(0, d.id)] == y3.calls;
    Then(es + [e], y2, e, y3);
    assert SetReplacedBy(used + [added], t.id, d.id) == rows';
    assert y3.calls - {call} == y.calls - {call};
    Then(es + [e] + [e], y3, e, y3.(state := y.state.(rows := rows'), calls := y.calls - {call}));
  }

  lemma RegistersFirst(d0: Draw)
    ensures Legal(IDLE, [Other(Register(1, d0))])
    ensures Run(IDLE, [Other(Register(1, d0))]) == IDLE.(state := State({1}, [NewToken(1, d0.family, d0)]))
  {
    assert [] + [Other(Register(1, d0))] == [Other(Register(1, d0))];
    Then([], IDLE, Other(Register(1, d0)), IDLE.(state := State({1}, [NewToken(1, d0.family, d0)])));
  }

  lemma PassesCheck(y: System, d0: Draw, call: nat, now: Time)
    requires y.state == State({1}, [NewToken(1, d0.family, d0)]) && call !in y.seen && now < d0.expiresAt
    ensures Apply(y, Check(call, d0.raw, now)) == y.(calls := y.calls[call := Checked(0)], seen := y.seen + {call})
  {
  }

  lemma BothChecked(d0: Draw, d1: Draw, d2: Draw) returns (y: System)
    requires d1.now < d0.expiresAt && d2.now < d0.expiresAt
    ensures var es := [Other(Register(1, d0))] + [Check(1, d0.raw, d1.now)] + [Check(2, d0.raw, d2.now)];
      Legal(IDLE, es) && Run(IDLE, es) == y
    ensures y.state == State({1}, [NewToken(1, d0.family, d0)])
    ensures 1 in y.calls && 2 in y.calls && y.calls[1] == y.calls[2] == Checked(0)
  {
    var es := [Other(Register(1, d0))];
    RegistersFirst(d0);
    var y1 := Run(IDLE, es);
    PassesCheck(y1, d0, 1, d1.now);
    var y2 := Apply(y1, Check(1, d0.raw, d1.now));
    Then(es, y1, Check(1, d0.raw, d1.now), y2);
    PassesCheck(y2, d0, 2, d2.now);
    y := Apply(y2, Check(2, d0.raw, d2.now));
    Then(es + [Check(1, d0.raw, d1.now)], y2, Check(2, d0.raw, d2.now), y);
  }

  // The table afterwards: the first token, linked twice, and the two that were issued for it.
  function Forked(d0: Draw, d1: Draw, d2: Draw): seq<Token> {
    [NewToken(1, d0.family, d0).(lastUsedAt := Some(d2.now), replacedBy := Some(d2.id)),
     NewToken(1, d0.family, d1), NewToken(1, d0.family, d2)]
  }

  lemma FirstCallLinks(es: seq<Event>, y: System, d0: Draw, d1: Draw)
    requires Legal(IDLE, es) && Run(IDLE, es) == y && y.state == State({1}, [NewToken(1, d0.family, d0)])
    requires 1 in y.calls && y.calls[1] == Checked(0) && d0.raw != d1.raw && d0.id != d1.id
    ensures var es' := es + [Continue(1, d1)] + [Continue(1, d1)] + [Continue(1, d1)];
      && Legal(IDLE, es') && Run(IDLE, es').calls == y.calls - {1}
      && Run(IDLE, es').state == State({1}, [NewToken(1, d0.family, d0).(lastUsedAt := Some(d1.now), replacedBy := Some(d1.id)),
                                             NewToken(1, d0.family, d1)])
  {
    var (t, t1) := (NewToken(1, d0.family, d0), NewToken(1, d0.family, d1));
    var once := t.(lastUsedAt := Some(d1.now), replacedBy := Some(d1.id));
    assert [t][0 := once] + [t1] == [once, t1];
    ThreeStatements(es, y, 1, d1, [once, t1]);
  }

  lemma SecondCallLinks(es: seq<Event>, y: System, d0: Draw, d1: Draw, d2: Draw)
    requires Legal(IDLE, es) && Run(IDLE, es) == y && 2 in y.calls && y.calls[2] == Checked(0)
    requires y.state == State({1}, [NewToken(1, d0.family, d0).(lastUsedAt := Some(d1.now), replacedBy := Some(d1.id)),
                                    NewToken(1, d0.family, d1)])
    requires d0.raw != d2.raw && d1.raw != d2.raw && d0.id != d1.id && d0.id != d2.id && d1.id != d2.id
    ensures var es' := es + [Continue(2, d2)] + [Continue(2, d2)] + [Continue(2, d2)];
      Legal(IDLE, es') && Run(IDLE, es').state == State({1}, Forked(d0, d1, d2))
  {
    var (once, t1, t2) := (y.state.rows[0], NewToken(1, d0.family, d1), NewToken(1, d0.family, d2));
    var twice := once.(lastUsedAt := Some(d2.now), replacedBy := Some(d2.id));
    assert [once, t1][0 := twice] + [t2] == [twice, t1, t2];
    ThreeStatements(es, y, 2, d2, [twice, t1, t2]);
  }

  lemma OverlapForks(d0: Draw, d1: Draw, d2: Draw)
    requires d1.now < d0.expiresAt && d2.now < d0.expiresAt
    requires d0.raw != d1.raw && d0.raw != d2.raw && d1.raw != d2.raw
    requires d0.id != d1.id && d0.id != d2.id && d1.id != d2.id
    ensures Legal(IDLE, Overlap(d0, d1, d2)) && Run(IDLE, Overlap(d0, d1, d2)).state == State({1}, Forked(d0, d1, d2))
  {
    var y := BothChecked(d0, d1, d2);
    var es := [Other(Register(1, d0))] + [Check(1, d0.raw, d1.now)] + [Check(2, d0.raw, d2.now)];
    FirstCallLinks(es, y, d0, d1);
    es := es + [Continue(1, d1)] + [Continue(1, d1)] + [Continue(1, d1)];
    SecondCallLinks(es, Run(IDLE, es), d0, d1, d2);
  }

  lemma AcceptsEither(d0: Draw, d1: Draw, d2: Draw, d: Draw)
    requires d0.raw != d1.raw && d0.raw != d2.raw && d1.raw != d2.raw && d.raw !in {d0.raw, d1.raw, d2.raw}
    requires d.id !in {d0.id, d1.id, d2.id}
    ensures var s := State({1}, Forked(d0, d1, d2));
      (Accepts(s, d1.raw, d) <==> d.now < d1.expiresAt) && (Accepts(s, d2.raw, d) <==> d.now < d2.expiresAt)
  {
    var rows := Forked(d0, d1, d2);
    assert rows[1].hash == Sha256(d1.raw) && rows[2].hash == Sha256(d2.raw) && rows[0].hash == Sha256(d0.raw);
    assert IndexOfHash(rows, Sha256(d1.raw)) == Some(1);
    assert IndexOfHash(rows, Sha256(d2.raw)) == Some(2);
    assert IndexOfHash(rows, Sha256(d.raw)).None? && IndexOfId(rows, d.id).None?;
  }

  /** In that run both calls succeed, and each of the two tokens they return is accepted from then
      on until its expiry: one presented token has become two usable ones. */
  lemma OverlappingCallsFork(d0: Draw, d1: Draw, d2: Draw, d: Draw)
    requires d1.now < d0.expiresAt && d2.now < d0.expiresAt
    requires d0.raw != d1.raw && d0.raw != d2.raw && d1.raw != d2.raw && d.raw !in {d0.raw, d1.raw, d2.raw}
    requires d0.id != d1.id && d0.id != d2.id && d1.id != d2.id && d.id !in {d0.id, d1.id, d2.id}
    ensures var y := Run(IDLE, Overlap(d0, d1, d2));
      && Legal(IDLE, Overlap(d0, d1, d2))
      && (Accepts(y.state, d1.raw, d) <==> d.now < d1.expiresAt)
      && (Accepts(y.state, d2.raw, d) <==> d.now < d2.expiresAt)
  {
    OverlapForks(d0, d1, d2);
    AcceptsEither(d0, d1, d2, d);
  }

  // ================================================================ a call that stops half way

  /** One client registers; a call presents its token and stops after it has stored the new one. */
  function Interrupted(d0: Draw, d1: Draw): seq<Event> {
    [Other(Register(1, d0))] + [Check(1, d0.raw, d1.now)] + [Continue(1, d1)] + [Continue(1, d1)]
  }

  lemma MarksAndIssues(y: System, d0: Draw, d1: Draw)
    requires y.state == State({1}, [NewToken(1, d0.family, d0)]) && 1 in y.calls && y.calls[1] == Checked(0)
    requires d0.raw != d1.raw && d0.id != d1.id
    ensures Apply(Apply(y, Continue(1, d1)), Continue(1, d1)).state
            == State({1}, [NewToken(1, d0.family, d0).(lastUsedAt := Some(d1.now)), NewToken(1, d0.family, d1)])
  {
    var (t, t1) := (NewToken(1, d0.family, d0), NewToken(1, d0.family, d1));
    var used := t.(lastUsedAt := Some(d1.now));
    assert MarkUsed([t], t.id, d1.now) == [used];
    assert [used] + [t1] == [used, t1];
  }

  lemma InterruptedRun(d0: Draw, d1: Draw)
    requires d1.now < d0.expiresAt && d0.raw != d1.raw && d0.id != d1.id
    ensures Legal(IDLE, Interrupted(d0, d1))
    ensures Run(IDLE, Interrupted(d0, d1)).state
            == State({1}, [NewToken(1, d0.family, d0).(lastUsedAt := Some(d1.now)), NewToken(1, d0.family, d1)])
  {
    var es, e := [Other(Register(1, d0))], Continue(1, d1);
    RegistersFirst(d0);
    var y1 := Run(IDLE, es);
    PassesCheck(y1, d0, 1, d1.now);
    var y2 := Apply(y1, Check(1, d0.raw, d1.now));
    Then(es, y1, Check(1, d0.raw, d1.now), y2);
    es := es + [Check(1, d0.raw, d1.now)];
    MarksAndIssues(y2, d0, d1);
    Then(es, y2, e, Apply(y2, e));
    Then(es + [e], Apply(y2, e), e, Apply(Apply(y2, e), e));
  }

  /** The caller gets an error, but the token it presented and the one it never saw are both
      accepted until they expire. */
  lemma InterruptedCallForks(d0: Draw, d1: Draw, d: Draw)
    requires d1.now < d0.expiresAt && d0.raw != d1.raw && d0.id != d1.id
    requires d.raw !in {d0.raw, d1.raw} && d.id !in {d0.id, d1.id}
    ensures var y := Run(IDLE, Interrupted(d0, d1));
      && Legal(IDLE, Interrupted(d0, d1))
      && (Accepts(y.state, d0.raw, d) <==> d.now < d0.expiresAt)
      && (Accepts(y.state, d1.raw, d) <==> d.now < d1.expiresAt)
  {
    InterruptedRun(d0, d1);
    var rows := Run(IDLE, Interrupted(d0, d1)).state.rows;
    assert IndexOfHash(rows, Sha256(d0.raw)) == Some(0);
    assert IndexOfHash(rows, Sha256(d1.raw)) == Some(1);
    assert IndexOfHash(rows, Sha256(d.raw)).None? && IndexOfId(rows, d.id).None?;
  }
}
