/** The fan-out under concurrency: dispatchers stop between any two channel operations while
    consumers receive and subscribers come and go. */
module FanOut {
  import opened Common
  import opened AlertStore
  import opened Stream

  datatype Popped = Received(alert: Alert) | Dropped(alert: Alert)

  /** A channel with its history: what was ever offered to it (by a dispatch whose snapshot lists
      it and whose alert it wants), pushed into it and popped from it. */
  datatype Chan = Chan(target: Target, buf: seq<Alert>, offered: seq<Alert>, pushed: seq<Alert>, popped: seq<Popped>)

  // The select in progress for the subscriber at the head of the snapshot.
  datatype Stage = TrySend | TryDrop | FinalSend

  datatype Dispatcher = Resting | Looping(alert: Alert, todo: seq<Uuid>, stage: Stage)

  // An unsubscribed channel is off the map but may still be in some dispatcher's snapshot.
  datatype Hub = Hub(capacity: nat, subscribed: set<Uuid>, chans: map<Uuid, Chan>, dispatchers: seq<Dispatcher>)

  datatype Event =
    | Subscribe(id: Uuid, target: Target)
    | Unsubscribe(id: Uuid)
    | Begin(dispatcher: nat, alert: Alert, order: seq<Uuid>)
    | Advance(dispatcher: nat)
    | Receive(id: Uuid)

  function Empty(dispatchers: nat, capacity: nat): Hub {
    Hub(capacity, {}, map[], seq(dispatchers, _ => Resting))
  }

  predicate NoRepeats(ids: seq<Uuid>) {
    forall i, j :: 0 <= i < j < |ids| ==> ids[i] != ids[j]
  }

  predicate CanBegin(h: Hub, d: nat, order: seq<Uuid>) {
    && d < |h.dispatchers| && h.dispatchers[d].Resting?
    && NoRepeats(order) && (set id | id in order) == h.subscribed
  }

  function Apply(h: Hub, e: Event): (h': Hub)
    ensures h'.capacity == h.capacity && |h'.dispatchers| == |h.dispatchers|
  {
    match e
    case Subscribe(id, target) =>
      if id in h.chans then h
      else h.(subscribed := h.subscribed + {id}, chans := h.chans[id := Chan(target, [], [], [], [])])
    case Unsubscribe(id) => h.(subscribed := h.subscribed - {id})
    case Begin(d, alert, order) =>
      if CanBegin(h, d, order) then
        h.(dispatchers := h.dispatchers[d := Looping(alert, order, TrySend)],
           chans := map id | id in h.chans ::
             if id in order && Matches(h.chans[id].target, alert)
             then h.chans[id].(offered := h.chans[id].offered + [alert]) else h.chans[id])
      else h
    case Advance(d) => if d < |h.dispatchers| && h.dispatchers[d].Looping? then Step(h, d) else h
    case Receive(id) =>
      if id in h.chans && h.chans[id].buf != [] then
        h.(chans := h.chans[id := Pop(h.chans[id], Received(h.chans[id].buf[0]))])
      else h
  }

  function Pop(c: Chan, p: Popped): Chan
    requires c.buf != []
  {
    c.(buf := c.buf[1..], popped := c.popped + [p])
  }

  function Push(c: Chan, a: Alert): Chan {
    c.(buf := c.buf + [a], pushed := c.pushed + [a])
  }

  /** The dispatcher's next channel operation, or its move to the next subscriber. */
  function Step(h: Hub, d: nat): (h': Hub)
    requires d < |h.dispatchers| && h.dispatchers[d].Looping?
    ensures h'.capacity == h.capacity && |h'.dispatchers| == |h.dispatchers|
  {
    var Looping(alert, todo, stage) := h.dispatchers[d];
    if todo == [] then h.(dispatchers := h.dispatchers[d := Resting])
    else
      var id := todo[0];
      var next := h.dispatchers[d := Looping(alert, todo[1..], TrySend)];
      if id !in h.chans || !Matches(h.chans[id].target, alert) then h.(dispatchers := next)
      else
        var c := h.chans[id];
        match stage
        case TrySend =>
          if |c.buf| < h.capacity then h.(dispatchers := next, chans := h.chans[id := Push(c, alert)])
          else h.(dispatchers := h.dispatchers[d := Looping(alert, todo, TryDrop)])
        case TryDrop =>
          h.(dispatchers := h.dispatchers[d := Looping(alert, todo, FinalSend)],
             chans := if c.buf == [] then h.chans else h.chans[id := Pop(c, Dropped(c.buf[0]))])
        case FinalSend =>
          if |c.buf| < h.capacity then h.(dispatchers := next, chans := h.chans[id := Push(c, alert)])
          else h
  }

  function Run(h: Hub, es: seq<Event>): (h': Hub)
    ensures h'.capacity == h.capacity && |h'.dispatchers| == |h.dispatchers|
  {
    if es == [] then h else Apply(Run(h, es[..|es| - 1]), es[|es| - 1])
  }

  lemma RunNext(h: Hub, es: seq<Event>, e: Event)
    ensures Run(h, es + [e]) == Apply(Run(h, es), e)
  {
  }

  // Dispatcher `d` has a matching subscriber at its head.
  predicate Serving(h: Hub, d: nat) {
    && d < |h.dispatchers| && h.dispatchers[d].Looping? && h.dispatchers[d].todo != []
    && h.dispatchers[d].todo[0] in h.chans
    && Matches(h.chans[h.dispatchers[d].todo[0]].target, h.dispatchers[d].alert)
  }

  predicate Blocked(h: Hub, d: nat) {
    && Serving(h, d) && h.dispatchers[d].stage.FinalSend?
    && |h.chans[h.dispatchers[d].todo[0]].buf| >= h.capacity
  }

  // ================================================================ nothing lost, nothing doubled

  function Values(popped: seq<Popped>): (r: seq<Alert>)
    ensures |r| == |popped| && forall i :: 0 <= i < |r| ==> r[i] == popped[i].alert
  {
    seq(|popped|, i requires 0 <= i < |popped| => popped[i].alert)
  }

  /** Popped and buffered alerts are, in order, the pushed ones; all of them match. */
  ghost predicate ChanOk(capacity: nat, c: Chan) {
    && |c.buf| <= capacity
    && Values(c.popped) + c.buf == c.pushed
    && forall a :: a in c.pushed ==> Matches(c.target, a)
  }

  ghost predicate HubOk(h: Hub) {
    && h.subscribed <= h.chans.Keys
    && (forall id :: id in h.chans ==> ChanOk(h.capacity, h.chans[id]))
    && (forall d :: 0 <= d < |h.dispatchers| && h.dispatchers[d].Looping? ==>
          NoRepeats(h.dispatchers[d].todo) && forall id :: id in h.dispatchers[d].todo ==> id in h.chans)
  }

  lemma PushKeeps(capacity: nat, c: Chan, a: Alert)
    requires ChanOk(capacity, c) && |c.buf| < capacity && Matches(c.target, a)
    ensures ChanOk(capacity, Push(c, a))
  {
  }

  lemma PopKeeps(capacity: nat, c: Chan, p: Popped)
    requires ChanOk(capacity, c) && c.buf != [] && p.alert == c.buf[0]
    ensures ChanOk(capacity, Pop(c, p))
  {
  }

  lemma StepKeepsHub(h: Hub, d: nat)
    requires HubOk(h) && d < |h.dispatchers| && h.dispatchers[d].Looping?
    ensures HubOk(Step(h, d))
  {
    if Serving(h, d) {
      var Looping(alert, todo, stage) := h.dispatchers[d];
      var c := h.chans[todo[0]];
      if stage.TryDrop? {
        if c.buf != [] {
          PopKeeps(h.capacity, c, Dropped(c.buf[0]));
        }
      } else if |c.buf| < h.capacity {
        PushKeeps(h.capacity, c, alert);
      }
    }
  }

  lemma ApplyKeepsHub(h: Hub, e: Event)
    requires HubOk(h)
    ensures HubOk(Apply(h, e))
  {
    match e
    case Advance(d) =>
      if d < |h.dispatchers| && h.dispatchers[d].Looping? {
        StepKeepsHub(h, d);
      }
    case Receive(id) =>
      if id in h.chans && h.chans[id].buf != [] {
        PopKeeps(h.capacity, h.chans[id], Received(h.chans[id].buf[0]));
      }
    case Begin(d, alert, order) =>
      if CanBegin(h, d, order) {
        var h' := Apply(h, e);
        forall id | id in h'.chans ensures ChanOk(h.capacity, h'.chans[id]) {
          assert ChanOk(h.capacity, h.chans[id]);
        }
        forall id | id in order ensures id in h'.chans {
          assert id in (set x | x in order);
        }
      }
    case _ =>
  }

  /** For any number of dispatchers, capacity and interleaving, what came out of a channel,
      received or dropped, followed by what is in it, is exactly what was pushed, in order;
      the buffer never exceeds its capacity and only ever holds alerts of its own subscriber. */
  lemma {:induction false} Conservation(dispatchers: nat, capacity: nat, es: seq<Event>)
    ensures HubOk(Run(Empty(dispatchers, capacity), es))
  {
    if es != [] {
      Conservation(dispatchers, capacity, es[..|es| - 1]);
      ApplyKeepsHub(Run(Empty(dispatchers, capacity), es[..|es| - 1]), es[|es| - 1]);
    }
  }

  // ================================================================ what is offered

  /** A channel is offered an alert exactly when a dispatch of it begins while its subscriber is on
      the map and asks for it: the same client, and the same device or none in particular. */
  lemma OffersExactly(h: Hub, e: Event, id: Uuid)
    requires id in h.chans
    ensures var (c, c') := (h.chans[id], Apply(h, e).chans[id]);
      && c'.target == c.target
      && c'.offered == c.offered +
           (if && e.Begin? && CanBegin(h, e.dispatcher, e.order) && id in h.subscribed
               && c.target.clientId == e.alert.clientId
               && (c.target.deviceId == None || c.target.deviceId == Some(e.alert.deviceId))
            then [e.alert] else [])
  {
    if e.Begin? && CanBegin(h, e.dispatcher, e.order) {
      assert id in e.order <==> id in (set x | x in e.order);
    }
  }

  // ================================================================ one dispatch, undisturbed

  ghost predicate OnlyAdvances(es: seq<Event>, d: nat) {
    forall k :: 0 <= k < |es| ==> es[k] == Advance(d)
  }

  /** `h'` is `h` after dispatcher `d` has served `todo` and come to rest: the channels in it have
      taken the alert if their subscribers ask for it, and nothing else has changed in any buffer. */
  ghost predicate Served(h: Hub, h': Hub, d: nat, alert: Alert, todo: seq<Uuid>)
    requires d < |h.dispatchers|
  {
    && h'.dispatchers == h.dispatchers[d := Resting] && h'.chans.Keys == h.chans.Keys
    && forall id :: id in h.chans ==>
         if id in todo then Delivered(h.chans[id].target, h.chans[id].buf, h'.chans[id].buf, alert, h.capacity)
         else h'.chans[id].buf == h.chans[id].buf
  }

  ghost predicate HeadServed(h: Hub, h': Hub, d: nat, alert: Alert, todo: seq<Uuid>)
    requires d < |h.dispatchers| && todo != [] && todo[0] in h.chans
  {
    && h'.dispatchers == h.dispatchers[d := Looping(alert, todo[1..], TrySend)] && h'.chans.Keys == h.chans.Keys
    && (forall id :: id in h.chans ==> h'.chans[id].target == h.chans[id].target)
    && Delivered(h.chans[todo[0]].target, h.chans[todo[0]].buf, h'.chans[todo[0]].buf, alert, h.capacity)
    && forall id :: id in h.chans && id != todo[0] ==> h'.chans[id].buf == h.chans[id].buf
  }

  lemma HeadThenRest(h: Hub, mid: Hub, h': Hub, d: nat, alert: Alert, todo: seq<Uuid>)
    requires d < |h.dispatchers| == |mid.dispatchers| && todo != [] && todo[0] in h.chans && NoRepeats(todo)
    requires mid.capacity == h.capacity
    requires HeadServed(h, mid, d, alert, todo) && Served(mid, h', d, alert, todo[1..])
    ensures Served(h, h', d, alert, todo)
  {
    assert todo[0] !in todo[1..];
    assert forall x :: x in todo <==> x == todo[0] || x in todo[1..];
  }

  predicate Full(h: Hub, d: nat) {
    Serving(h, d) && |h.chans[h.dispatchers[d].todo[0]].buf| == h.capacity
  }

  lemma HeadInOneStep(h: Hub, d: nat, alert: Alert, todo: seq<Uuid>)
    requires h.capacity >= 1 && d < |h.dispatchers| && todo != [] && h.dispatchers[d] == Looping(alert, todo, TrySend)
    requires todo[0] in h.chans && |h.chans[todo[0]].buf| <= h.capacity && !Full(h, d)
    ensures HeadServed(h, Apply(h, Advance(d)), d, alert, todo)
  {
  }

  lemma HeadInThreeSteps(h: Hub, d: nat, alert: Alert, todo: seq<Uuid>)
    requires h.capacity >= 1 && d < |h.dispatchers| && todo != [] && h.dispatchers[d] == Looping(alert, todo, TrySend)
    requires Full(h, d)
    ensures HeadServed(h, Apply(Apply(Apply(h, Advance(d)), Advance(d)), Advance(d)), d, alert, todo)
  {
    var (id, c) := (todo[0], h.chans[todo[0]]);
    var h1 := h.(dispatchers := h.dispatchers[d := Looping(alert, todo, TryDrop)]);
    assert Apply(h, Advance(d)) == h1;
    var popped := Pop(c, Dropped(c.buf[0]));
    var h2 := h.(dispatchers := h.dispatchers[d := Looping(alert, todo, FinalSend)], chans := h.chans[id := popped]);
    assert Apply(h1, Advance(d)) == h2;
    assert Apply(h2, Advance(d)).chans == h.chans[id := Push(popped, alert)];
  }

  // The one or three steps that the subscriber at the head takes.
  lemma ServesHead(h: Hub, d: nat, alert: Alert, todo: seq<Uuid>) returns (es: seq<Event>)
    requires h.capacity >= 1 && d < |h.dispatchers| && todo != [] && h.dispatchers[d] == Looping(alert, todo, TrySend)
    requires todo[0] in h.chans && |h.chans[todo[0]].buf| <= h.capacity
    ensures OnlyAdvances(es, d) && HeadServed(h, Run(h, es), d, alert, todo)
  {
    var e := Advance(d);
    RunNext(h, [], e);
    es := [] + [e];
    if Full(h, d) {
      HeadInThreeSteps(h, d, alert, todo);
      RunNext(h, es, e);
      RunNext(h, es + [e], e);
      es := es + [e] + [e];
    } else {
      HeadInOneStep(h, d, alert, todo);
    }
  }

  lemma {:induction false} ServesAll(h: Hub, d: nat, alert: Alert, todo: seq<Uuid>) returns (es: seq<Event>)
    requires h.capacity >= 1 && d < |h.dispatchers| && h.dispatchers[d] == Looping(alert, todo, TrySend) && NoRepeats(todo)
    requires forall id :: id in todo ==> id in h.chans && |h.chans[id].buf| <= h.capacity
    ensures OnlyAdvances(es, d) && Served(h, Run(h, es), d, alert, todo)
    decreases |todo|
  {
    if todo == [] {
      RunNext(h, [], Advance(d));
      es := [] + [Advance(d)];
    } else {
      var first := ServesHead(h, d, alert, todo);
      var mid := Run(h, first);
      assert todo[0] !in todo[1..];
      var rest := ServesAll(mid, d, alert, todo[1..]);
      RunsJoin(h, first, rest);
      es := first + rest;
      HeadThenRest(h, mid, Run(mid, rest), d, alert, todo);
    }
  }

  lemma {:induction false} RunsJoin(h: Hub, es: seq<Event>, es': seq<Event>)
    ensures Run(h, es + es') == Run(Run(h, es), es')
  {
    if es' == [] {
      assert es + [] == es;
    } else {
      var front := es'[..|es'| - 1];
      RunsJoin(h, es, front);
      assert es + es' == es + front + [es'[|front|]];
      RunNext(h, es + front, es'[|front|]);
    }
  }

  /** A dispatch whose steps follow one another does what the service call does: from `Begin` on, the
      dispatcher's own steps bring it to rest, with every subscribed channel that asks for the alert
      having taken it and every other buffer as it was. */
  lemma UndisturbedDispatchDelivers(h: Hub, d: nat, alert: Alert, order: seq<Uuid>) returns (es: seq<Event>)
    requires h.capacity >= 1 && HubOk(h) && CanBegin(h, d, order)
    ensures OnlyAdvances(es, d)
    ensures var h' := Run(Apply(h, Begin(d, alert, order)), es);
      && h'.dispatchers == h.dispatchers && h'.chans.Keys == h.chans.Keys
      && forall id :: id in h.chans ==>
           if id in h.subscribed then Delivered(h.chans[id].target, h.chans[id].buf, h'.chans[id].buf, alert, h.capacity)
           else h'.chans[id].buf == h.chans[id].buf
  {
    var begun := Apply(h, Begin(d, alert, order));
    forall id | id in order ensures id in h.chans && |h.chans[id].buf| <= h.capacity {
      assert id in (set x | x in order);
      assert ChanOk(h.capacity, h.chans[id]);
    }
    es := ServesAll(begun, d, alert, order);
    assert begun.dispatchers[d := Resting] == h.dispatchers;
    forall id | id in h.chans ensures id in order <==> id in h.subscribed {
      assert id in order <==> id in (set x | x in order);
    }
  }

  // ================================================================ several dispatchers

  function Count(s: seq<Alert>, a: Alert): nat {
    if s == [] then 0 else Count(s[..|s| - 1], a) + (if s[|s| - 1] == a then 1 else 0)
  }

  lemma {:induction false} CountJoined(s: seq<Alert>, t: seq<Alert>, a: Alert)
    ensures Count(s + t, a) == Count(s, a) + Count(t, a)
  {
    if t == [] {
      assert s + t == s;
    } else {
      assert (s + t)[..|s + t| - 1] == s + t[..|t| - 1];
      CountJoined(s, t[..|t| - 1], a);
    }
  }

  lemma {:induction false} CountIsMultiplicity(s: seq<Alert>, a: Alert)
    ensures Count(s, a) == multiset(s)[a]
  {
    if s != [] {
      CountIsMultiplicity(s[..|s| - 1], a);
      assert s == s[..|s| - 1] + [s[|s| - 1]];
    }
  }

  lemma CountPushed(s: seq<Alert>, x: Alert, a: Alert)
    ensures Count(s + [x], a) == Count(s, a) + (if x == a then 1 else 0)
  {
    assert (s + [x])[..|s|] == s;
  }

  // A dispatcher that has still to push `a` to the channel.
  predicate Owes(p: Dispatcher, id: Uuid, target: Target, a: Alert) {
    p.Looping? && id in p.todo && p.alert == a && Matches(target, a)
  }

  function Debtors(ps: seq<Dispatcher>, id: Uuid, target: Target, a: Alert): nat {
    if ps == [] then 0 else (if Owes(ps[0], id, target, a) then 1 else 0) + Debtors(ps[1..], id, target, a)
  }

  lemma {:induction false} DebtorsUpdate(ps: seq<Dispatcher>, d: nat, p: Dispatcher, id: Uuid, target: Target, a: Alert)
    requires d < |ps|
    ensures Debtors(ps[d := p], id, target, a) + (if Owes(ps[d], id, target, a) then 1 else 0)
            == Debtors(ps, id, target, a) + (if Owes(p, id, target, a) then 1 else 0)
  {
    if d == 0 {
      assert ps[0 := p][1..] == ps[1..];
    } else {
      assert ps[d := p][1..] == ps[1..][d - 1 := p];
      DebtorsUpdate(ps[1..], d - 1, p, id, target, a);
    }
  }

  lemma {:induction false} NoDebtors(ps: seq<Dispatcher>, id: Uuid, target: Target, a: Alert)
    requires forall d :: 0 <= d < |ps| && ps[d].Looping? ==> id !in ps[d].todo
    ensures Debtors(ps, id, target, a) == 0
  {
    if ps != [] {
      NoDebtors(ps[1..], id, target, a);
    }
  }

  ghost predicate Balanced(c: Chan, id: Uuid, ps: seq<Dispatcher>, a: Alert) {
    Count(c.offered, a) == Count(c.pushed, a) + Debtors(ps, id, c.target, a)
  }

  ghost predicate AllBalanced(h: Hub, a: Alert) {
    forall id :: id in h.chans ==> Balanced(h.chans[id], id, h.dispatchers, a)
  }

  // What a step does to one channel and to its dispatcher's debt there.
  lemma StepSettles(h: Hub, d: nat, id: Uuid, a: Alert)
    requires HubOk(h) && d < |h.dispatchers| && h.dispatchers[d].Looping? && id in h.chans
    ensures var h' := Step(h, d);
      var (p, p', c, c') := (h.dispatchers[d], h'.dispatchers[d], h.chans[id], h'.chans[id]);
      && h'.dispatchers == h.dispatchers[d := p'] && c'.target == c.target && c'.offered == c.offered
      && if c'.pushed == c.pushed then Owes(p', id, c.target, a) <==> Owes(p, id, c.target, a)
         else c'.pushed == c.pushed + [p.alert] && !Owes(p', id, c.target, a) && (Owes(p, id, c.target, a) <==> p.alert == a)
  {
    var todo := h.dispatchers[d].todo;
    if todo != [] {
      assert todo[0] !in todo[1..] by {
        assert NoRepeats(todo);
      }
      assert forall x :: x in todo <==> x == todo[0] || x in todo[1..];
    }
  }

  lemma StepKeepsBalance(h: Hub, d: nat, id: Uuid, a: Alert)
    requires HubOk(h) && d < |h.dispatchers| && h.dispatchers[d].Looping? && id in h.chans
    requires Balanced(h.chans[id], id, h.dispatchers, a)
    ensures Balanced(Step(h, d).chans[id], id, Step(h, d).dispatchers, a)
  {
    StepSettles(h, d, id, a);
    CountPushed(h.chans[id].pushed, h.dispatchers[d].alert, a);
    DebtorsUpdate(h.dispatchers, d, Step(h, d).dispatchers[d], id, h.chans[id].target, a);
  }

  lemma BeginKeepsBalance(h: Hub, d: nat, alert: Alert, order: seq<Uuid>, id: Uuid, a: Alert)
    requires CanBegin(h, d, order) && id in h.chans && Balanced(h.chans[id], id, h.dispatchers, a)
    ensures var h' := Apply(h, Begin(d, alert, order)); Balanced(h'.chans[id], id, h'.dispatchers, a)
  {
    CountPushed(h.chans[id].offered, alert, a);
    DebtorsUpdate(h.dispatchers, d, Looping(alert, order, TrySend), id, h.chans[id].target, a);
  }

  lemma ApplyKeepsBalance(h: Hub, e: Event, a: Alert)
    requires HubOk(h) && AllBalanced(h, a)
    ensures AllBalanced(Apply(h, e), a)
  {
    var h' := Apply(h, e);
    forall id | id in h'.chans ensures Balanced(h'.chans[id], id, h'.dispatchers, a) {
      if id !in h.chans {
        NoDebtors(h.dispatchers, id, h'.chans[id].target, a);
      } else {
        assert Balanced(h.chans[id], id, h.dispatchers, a);
        match e
        case Advance(d) =>
          if d < |h.dispatchers| && h.dispatchers[d].Looping? {
            StepKeepsBalance(h, d, id, a);
          }
        case Begin(d, alert, order) =>
          if CanBegin(h, d, order) {
            BeginKeepsBalance(h, d, alert, order, id, a);
          }
        case _ =>
      }
    }
  }

  lemma {:induction false} RunsBalance(dispatchers: nat, capacity: nat, es: seq<Event>, a: Alert)
    ensures AllBalanced(Run(Empty(dispatchers, capacity), es), a)
  {
    if es != [] {
      var before := Run(Empty(dispatchers, capacity), es[..|es| - 1]);
      RunsBalance(dispatchers, capacity, es[..|es| - 1], a);
      Conservation(dispatchers, capacity, es[..|es| - 1]);
      ApplyKeepsBalance(before, es[|es| - 1], a);
    }
  }

  /** However many goroutines dispatch, and whatever the capacity: as often as an alert was offered
      to a subscriber, it was received, was dropped, is buffered or is still to be pushed by some
      dispatcher. No offer is lost on the way and none is pushed twice. */
  lemma OffersBalance(dispatchers: nat, capacity: nat, es: seq<Event>, id: Uuid, a: Alert)
    requires id in Run(Empty(dispatchers, capacity), es).chans
    ensures var h := Run(Empty(dispatchers, capacity), es);
      var c := h.chans[id];
      multiset(c.offered)[a] == multiset(Values(c.popped))[a] + multiset(c.buf)[a] + Debtors(h.dispatchers, id, c.target, a)
  {
    RunsBalance(dispatchers, capacity, es, a);
    Conservation(dispatchers, capacity, es);
    var h := Run(Empty(dispatchers, capacity), es);
    var c := h.chans[id];
    assert Balanced(c, id, h.dispatchers, a) && ChanOk(capacity, c);
    CountJoined(Values(c.popped), c.buf, a);
    CountIsMultiplicity(c.offered, a);
    CountIsMultiplicity(Values(c.popped), a);
    CountIsMultiplicity(c.buf, a);
  }

  // ================================================================ one dispatcher

  // What the only dispatcher still has to push to `id`.
  function Pending(h: Hub, id: Uuid): seq<Alert>
    requires |h.dispatchers| == 1 && id in h.chans
  {
    var p := h.dispatchers[0];
    if p.Looping? && id in p.todo && Matches(h.chans[id].target, p.alert) then [p.alert] else []
  }

  /** The dispatcher is past its first select only for a channel it serves, and once it has made
      room there is room; each channel is owed exactly what it was offered and not yet sent. */
  ghost predicate SoloOk(h: Hub) {
    && |h.dispatchers| == 1
    && (h.dispatchers[0].Looping? && !h.dispatchers[0].stage.TrySend? ==> Serving(h, 0))
    && !Blocked(h, 0)
    && (forall id :: id in h.chans ==> h.chans[id].offered == h.chans[id].pushed + Pending(h, id))
  }

  lemma StepKeepsSolo(h: Hub)
    requires h.capacity >= 1 && HubOk(h) && SoloOk(h) && h.dispatchers[0].Looping?
    ensures SoloOk(Step(h, 0))
  {
    var h' := Step(h, 0);
    var Looping(alert, todo, stage) := h.dispatchers[0];
    if todo != [] {
      assert todo[0] !in todo[1..] by {
        assert NoRepeats(todo);
      }
      assert forall x :: x in todo <==> x == todo[0] || x in todo[1..];
      if Serving(h, 0) {
        assert ChanOk(h.capacity, h.chans[todo[0]]);
      }
    }
    forall id | id in h'.chans ensures h'.chans[id].offered == h'.chans[id].pushed + Pending(h', id) {
      assert h.chans[id].offered == h.chans[id].pushed + Pending(h, id);
    }
  }

  lemma BeginKeepsSolo(h: Hub, d: nat, alert: Alert, order: seq<Uuid>)
    requires SoloOk(h) && CanBegin(h, d, order)
    ensures SoloOk(Apply(h, Begin(d, alert, order)))
  {
    var h' := Apply(h, Begin(d, alert, order));
    forall id | id in h'.chans ensures h'.chans[id].offered == h'.chans[id].pushed + Pending(h', id) {
      assert h.chans[id].offered == h.chans[id].pushed + Pending(h, id);
    }
  }

  // What consumers and subscriptions do.
  lemma OthersKeepSolo(h: Hub, e: Event)
    requires HubOk(h) && SoloOk(h) && !e.Begin? && !e.Advance?
    ensures SoloOk(Apply(h, e))
  {
    var h' := Apply(h, e);
    forall id | id in h'.chans ensures h'.chans[id].offered == h'.chans[id].pushed + Pending(h', id) {
      if id in h.chans {
        assert h.chans[id].offered == h.chans[id].pushed + Pending(h, id);
      }
    }
  }

  lemma ApplyKeepsSolo(h: Hub, e: Event)
    requires h.capacity >= 1 && HubOk(h) && SoloOk(h)
    ensures SoloOk(Apply(h, e))
  {
    match e
    case Advance(d) =>
      if d < |h.dispatchers| && h.dispatchers[d].Looping? {
        StepKeepsSolo(h);
      }
    case Begin(d, alert, order) =>
      if CanBegin(h, d, order) {
        BeginKeepsSolo(h, d, alert, order);
      }
    case _ => OthersKeepSolo(h, e);
  }

  /** With one dispatcher and room for one alert, every alert ever offered to a subscriber was
      received, was dropped, is buffered or is being sent: each once, in dispatch order, whatever
      consumers and subscriptions do meanwhile. */
  lemma {:induction false} EveryOfferIsAccounted(capacity: nat, es: seq<Event>)
    requires capacity >= 1
    ensures var h := Run(Empty(1, capacity), es);
      && SoloOk(h)
      && forall id :: id in h.chans ==> Values(h.chans[id].popped) + h.chans[id].buf + Pending(h, id) == h.chans[id].offered
  {
    Conservation(1, capacity, es);
    var h := Run(Empty(1, capacity), es);
    if es != [] {
      var before := Run(Empty(1, capacity), es[..|es| - 1]);
      EveryOfferIsAccounted(capacity, es[..|es| - 1]);
      Conservation(1, capacity, es[..|es| - 1]);
      ApplyKeepsSolo(before, es[|es| - 1]);
    }
    forall id | id in h.chans
      ensures Values(h.chans[id].popped) + h.chans[id].buf + Pending(h, id) == h.chans[id].offered
    {
      assert ChanOk(capacity, h.chans[id]);
    }
  }

  // ================================================================ after an unsubscribe

  ghost predicate Gone(h: Hub, id: Uuid) {
    && id in h.chans && id !in h.subscribed
    && forall d :: 0 <= d < |h.dispatchers| && h.dispatchers[d].Looping? ==> id !in h.dispatchers[d].todo
  }

  /** Once a subscriber is off the map and out of every running snapshot, no run of any number of
      dispatchers offers or pushes anything more to it. */
  lemma {:induction false} UnsubscribeStopsDelivery(h: Hub, id: Uuid, es: seq<Event>)
    requires Gone(h, id)
    ensures Gone(Run(h, es), id)
    ensures Run(h, es).chans[id].pushed == h.chans[id].pushed && Run(h, es).chans[id].offered == h.chans[id].offered
  {
    if es != [] {
      var before, e := Run(h, es[..|es| - 1]), es[|es| - 1];
      UnsubscribeStopsDelivery(h, id, es[..|es| - 1]);
      if e.Begin? && CanBegin(before, e.dispatcher, e.order) {
        assert id !in e.order by {
          assert id !in (set x | x in e.order);
        }
      }
    }
  }

  // ================================================================ when the final send can block

  /** One subscriber with `k` buffered alerts and every dispatcher at rest. */
  ghost predicate Filled(h: Hub, a: Alert, k: nat) {
    && h.subscribed == {1} && h.chans.Keys == {1}
    && Matches(h.chans[1].target, a) && |h.chans[1].buf| == k
    && forall d :: 0 <= d < |h.dispatchers| ==> h.dispatchers[d].Resting?
  }

  // One undisturbed dispatch adds one alert to a channel with room.
  lemma FillOne(h: Hub, a: Alert, k: nat)
    requires Filled(h, a, k) && |h.dispatchers| >= 1 && k < h.capacity
    ensures Filled(Apply(Apply(Apply(h, Begin(0, a, [1])), Advance(0)), Advance(0)), a, k + 1)
  {
  }

  lemma {:induction false} FillTo(dispatchers: nat, capacity: nat, a: Alert, k: nat) returns (es: seq<Event>)
    requires dispatchers >= 1 && k <= capacity
    ensures Filled(Run(Empty(dispatchers, capacity), es), a, k)
  {
    var h0 := Empty(dispatchers, capacity);
    if k == 0 {
      var e := Subscribe(1, Target(a.clientId, None));
      es := [] + [e];
      RunNext(h0, [], e);
    } else {
      var front := FillTo(dispatchers, capacity, a, k - 1);
      FillOne(Run(h0, front), a, k - 1);
      RunNext(h0, front, Begin(0, a, [1]));
      RunNext(h0, front + [Begin(0, a, [1])], Advance(0));
      RunNext(h0, front + [Begin(0, a, [1])] + [Advance(0)], Advance(0));
      es := front + [Begin(0, a, [1])] + [Advance(0)] + [Advance(0)];
    }
  }

  // A dispatcher that met a full channel, about to make room in it.
  lemma MeetFull(dispatchers: nat, capacity: nat, a: Alert) returns (es: seq<Event>)
    requires dispatchers >= 1
    ensures var h := Run(Empty(dispatchers, capacity), es);
      && h.subscribed == {1} && h.chans.Keys == {1}
      && Matches(h.chans[1].target, a) && |h.chans[1].buf| == capacity
      && h.dispatchers[0] == Looping(a, [1], TryDrop)
      && forall d :: 1 <= d < dispatchers ==> h.dispatchers[d].Resting?
  {
    var h0 := Empty(dispatchers, capacity);
    var front := FillTo(dispatchers, capacity, a, capacity);
    assert (set id | id in [1]) == {1};
    RunNext(h0, front, Begin(0, a, [1]));
    RunNext(h0, front + [Begin(0, a, [1])], Advance(0));
    es := front + [Begin(0, a, [1])] + [Advance(0)];
  }

  ghost predicate CanBlock(dispatchers: nat, capacity: nat) {
    exists es, d :: Blocked(Run(Empty(dispatchers, capacity), es), d)
  }

  // Dispatcher 0 makes room, dispatcher 1 fills it before dispatcher 0 can.
  lemma Race(h: Hub, a: Alert)
    requires |h.dispatchers| >= 2 && h.capacity >= 1
    requires h.subscribed == {1} && h.chans.Keys == {1}
    requires Matches(h.chans[1].target, a) && |h.chans[1].buf| == h.capacity
    requires h.dispatchers[0] == Looping(a, [1], TryDrop) && h.dispatchers[1].Resting?
    ensures Blocked(Apply(Apply(Apply(h, Advance(0)), Begin(1, a, [1])), Advance(1)), 0)
  {
  }

  lemma RivalsBlock(dispatchers: nat, capacity: nat, a: Alert)
    requires dispatchers >= 2 && capacity >= 1
    ensures CanBlock(dispatchers, capacity)
  {
    var h0 := Empty(dispatchers, capacity);
    var es := MeetFull(dispatchers, capacity, a);
    Race(Run(h0, es), a);
    RunNext(h0, es, Advance(0));
    RunNext(h0, es + [Advance(0)], Begin(1, a, [1]));
    RunNext(h0, es + [Advance(0)] + [Begin(1, a, [1])], Advance(1));
  }

  lemma NoRoomBlocks(dispatchers: nat, a: Alert)
    requires dispatchers >= 1
    ensures CanBlock(dispatchers, 0)
  {
    var es := MeetFull(dispatchers, 0, a);
    RunNext(Empty(dispatchers, 0), es, Advance(0));
    assert Blocked(Run(Empty(dispatchers, 0), es + [Advance(0)]), 0);
  }

  /** Some run blocks a dispatcher in its final send exactly when the channels hold nothing or
      more than one goroutine dispatches: the server's single listener with 32 slots never does. */
  lemma CanBlockIff(dispatchers: nat, capacity: nat, a: Alert)
    ensures CanBlock(dispatchers, capacity) <==> dispatchers >= 2 || (dispatchers == 1 && capacity == 0)
  {
    if dispatchers >= 2 && capacity >= 1 {
      RivalsBlock(dispatchers, capacity, a);
    } else if dispatchers >= 1 && capacity == 0 {
      NoRoomBlocks(dispatchers, a);
    } else {
      forall es, d ensures !Blocked(Run(Empty(dispatchers, capacity), es), d) {
        if dispatchers == 1 {
          EveryOfferIsAccounted(capacity, es);
        }
      }
    }
  }

  // ================================================================ what may be dropped

  /** Dispatcher 0 is about to drop an alert from a channel that has room by now. */
  ghost predicate DropsWithRoom(h: Hub) {
    && Serving(h, 0) && h.dispatchers[0].stage.TryDrop?
    && 0 < |h.chans[h.dispatchers[0].todo[0]].buf| < h.capacity
  }

  /** A consumer that receives between the failed send and the drop makes the dispatcher discard
      an alert although there is room: possible exactly when channels hold two alerts or more. */
  lemma DropsWithRoomIff(capacity: nat, a: Alert)
    ensures (exists es :: DropsWithRoom(Run(Empty(1, capacity), es))) <==> capacity >= 2
  {
    if capacity >= 2 {
      var es := MeetFull(1, capacity, a);
      RunNext(Empty(1, capacity), es, Receive(1));
      assert DropsWithRoom(Run(Empty(1, capacity), es + [Receive(1)]));
    }
  }
}
