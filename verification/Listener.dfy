/** The listeners: a reconnect loop with backoff, and the hand-over of notified alerts to the
    stream. The escalation listener has the same loop. */
module Listener {
  import opened Common
  import opened AlertStore
  import opened Stream

  // ================================================================ reconnecting

  /** The context of a listener: once cancelled it stays cancelled. */
  class Context {
    var done: bool

    constructor ()
      ensures !done
    {
      done := false;
    }

    // Time passes in some call, and the context may be cancelled meanwhile.
    method Pass(cancelled: bool)
      modifies this
      ensures done == (old(done) || cancelled)
    {
      done := done || cancelled;
    }
  }

  // The `client_id` of a payload: absent, the usual text of a UUID, or any other text.
  datatype ClientText = Blank | Names(id: Uuid) | OtherText

  // A payload as decoded; no alert id where the payload or the id in it does not parse.
  datatype Payload = Payload(clientId: ClientText, alertId: Option<Uuid>)

  /** One call that may block: whether it fails, and whether the context is cancelled while it
      lasts. A cancelled call usually fails, but it may have succeeded just before. */
  datatype Blocking = Blocking(fails: bool, cancelled: bool)

  // One wait that returns a notification, which may be nil.
  datatype Wait = Wait(notification: Option<Payload>, cancelled: bool)

  /** One connection: acquiring it, LISTEN, the waits that return something, and one that fails;
      then the pause before the next one, which a cancellation may cut short. */
  datatype Session = Session(acquire: Blocking, listen: Blocking, waits: seq<Wait>, lostWhenCancelled: bool,
                             cancelledInPause: bool, timerFirst: bool)

  datatype ListenError = AcquireFailed | ListenFailed | WaitFailed | Cancelled

  // The connection listens, and the context has not been cancelled before it does.
  predicate Listens(s: Session) {
    !s.acquire.fails && !s.listen.fails && !s.acquire.cancelled && !s.listen.cancelled
  }

  /** The notifications that one connection hands on: none unless it listens, and otherwise all in
      order, up to and including the one that arrives as the context is cancelled. */
  ghost predicate HandsOn(s: Session, handled: seq<Option<Payload>>) {
    && (!Listens(s) ==> handled == [])
    && |handled| <= |s.waits| && (forall i :: 0 <= i < |handled| ==> handled[i] == s.waits[i].notification)
    && (forall i :: 0 <= i < |handled| - 1 ==> !s.waits[i].cancelled)
    && (Listens(s) && |handled| < |s.waits| ==> |handled| > 0 && s.waits[|handled| - 1].cancelled)
  }

  /** One connection. The result None is Go's nil: it is never returned, because the loop is left
      by a failing wait or because the context is done. The context's error is reported only then,
      and each notification is handed on as it arrives. */
  method Listen(ctx: Context, s: Session) returns (err: Option<ListenError>, handled: seq<Option<Payload>>)
    requires !ctx.done
    modifies ctx
    ensures err.Some?
    ensures err == Some(Cancelled) ==> ctx.done
    ensures err == Some(AcquireFailed) <==> s.acquire.fails
    ensures err == Some(ListenFailed) <==> !s.acquire.fails && s.listen.fails
    ensures err == Some(WaitFailed) <==> Listens(s) && forall i :: 0 <= i < |s.waits| ==> !s.waits[i].cancelled
    ensures HandsOn(s, handled)
  {
    handled := [];
    ctx.Pass(s.acquire.cancelled);
    if s.acquire.fails {
      return Some(AcquireFailed), handled;
    }
    ctx.Pass(s.listen.cancelled);
    if s.listen.fails {
      return Some(ListenFailed), handled;
    }
    while !ctx.done
      invariant |handled| <= |s.waits| && forall i :: 0 <= i < |handled| ==> handled[i] == s.waits[i].notification
      invariant !Listens(s) ==> ctx.done && handled == []
      invariant forall i :: 0 <= i < |handled| - 1 ==> !s.waits[i].cancelled
      invariant Listens(s) ==> (ctx.done <==> handled != [] && s.waits[|handled| - 1].cancelled)
      decreases |s.waits| - |handled|
    {
      if |handled| == |s.waits| {
        ctx.Pass(s.lostWhenCancelled);
        return Some(WaitFailed), handled;
      }
      var wait := s.waits[|handled|];
      ctx.Pass(wait.cancelled);
      handled := handled + [wait.notification];
    }
    return if ctx.done then Some(Cancelled) else None, handled;
  }

  const MAX_BACKOFF := 30

  function MinDuration(a: nat, b: nat): nat {
    if a < b then a else b
  }

  function PowerOfTwo(k: nat): nat {
    if k == 0 then 1 else 2 * PowerOfTwo(k - 1)
  }

  /** min(2^k, 30) seconds */
  function WaitBefore(k: nat): nat {
    MinDuration(PowerOfTwo(k), MAX_BACKOFF)
  }

  /** The waits between reconnects and what each connection handled, over the life of a listener.
      However long a connection lasted and however much it handled, the k-th wait is min(2^k, 30)
      seconds: a connection always ends with an error, so whenever the assignment that resets the
      backoff is reached (`resets` notes the state of the context there) the context is done already. */
  method Run(ctx: Context, sessions: seq<Session>)
    returns (waits: seq<nat>, handled: seq<seq<Option<Payload>>>, ghost resets: seq<bool>)
    modifies ctx
    ensures forall k :: 0 <= k < |waits| ==> waits[k] == WaitBefore(k)
    ensures forall k :: 0 <= k < |waits| ==> waits[k] == if k < 5 then [1, 2, 4, 8, 16][k] else 30
    ensures |waits| <= |handled| <= |sessions| && (!ctx.done ==> |waits| == |sessions|)
    ensures forall k :: 0 <= k < |handled| ==> HandsOn(sessions[k], handled[k])
    ensures forall k :: 0 <= k < |resets| ==> resets[k]
  {
    waits, handled, resets := [], [], [];
    var backoff := 1;
    while |handled| < |sessions| && !ctx.done
      invariant |waits| <= |handled| <= |sessions|
      invariant !ctx.done ==> |waits| == |handled| && backoff == WaitBefore(|waits|)
      invariant forall k :: 0 <= k < |waits| ==> waits[k] == WaitBefore(k) == if k < 5 then [1, 2, 4, 8, 16][k] else 30
      invariant forall k :: 0 <= k < |handled| ==> HandsOn(sessions[k], handled[k])
      invariant forall k :: 0 <= k < |resets| ==> resets[k]
    {
      WaitsGrowToTheCap(|waits|);
      var s := sessions[|handled|];
      var err, notifications := Listen(ctx, s);
      handled := handled + [notifications];
      if err.Some? && !ctx.done {
        waits := waits + [backoff];
        ctx.Pass(s.cancelledInPause);
        if ctx.done && !s.timerFirst {
          return;
        }
        backoff := MinDuration(backoff * 2, MAX_BACKOFF);
        continue;
      }
      backoff := 1;
      resets := resets + [ctx.done];
    }
  }

  /** Waits never shrink: they are 1, 2, 4, 8 and 16 seconds, and from the sixth on all 30. */
  lemma {:induction false} WaitsGrowToTheCap(k: nat)
    ensures WaitBefore(k) <= WaitBefore(k + 1) <= 30
    ensures WaitBefore(k) == if k < 5 then [1, 2, 4, 8, 16][k] else 30
  {
    if k > 0 {
      WaitsGrowToTheCap(k - 1);
    }
  }

  // ================================================================ handing an alert to the stream

  /** The alert that a notification makes the listener dispatch, if any. */
  function HandledAlert(rows: seq<Alert>, n: Option<Payload>): Option<Alert> {
    if n.None? || n.value.alertId.None? then None
    else
      var found := FindRow(rows, n.value.alertId.value);
      if found.None? || (!n.value.clientId.Blank? && n.value.clientId != Names(found.value.clientId)) then None else found
  }

  /** It is the row with the named id, provided that the payload is silent about the client or names
      the client of that row. */
  lemma HandledAlertIs(rows: seq<Alert>, n: Option<Payload>, a: Alert)
    requires UniqueIds(rows)
    ensures HandledAlert(rows, n) == Some(a) <==>
            && a in rows && n.Some? && n.value.alertId == Some(a.id)
            && (n.value.clientId == Blank || n.value.clientId == Names(a.clientId))
  {
    if a in rows {
      FindsUnique(rows, a);
    }
  }

  class AlertListener {
    const repo: AlertRepository
    const stream: StreamService

    constructor (repo: AlertRepository, stream: StreamService)
      ensures this.repo == repo && this.stream == stream
    {
      this.repo, this.stream := repo, stream;
    }

    method HandleNotification(n: Option<Payload>, fault: Fault)
      requires stream.Valid() && stream.bufferSize >= 1
      modifies set id | id in stream.subscribers :: stream.subscribers[id].channel
      ensures stream.Valid()
      ensures var alert := if fault.Healthy? then HandledAlert(repo.rows, n) else None;
        forall id :: id in stream.subscribers ==>
          if alert.Some? then
            Delivered(stream.subscribers[id].target, old(stream.subscribers[id].channel.buffer),
                      stream.subscribers[id].channel.buffer, alert.value, stream.bufferSize)
          else stream.subscribers[id].channel.buffer == old(stream.subscribers[id].channel.buffer)
    {
      if n.None? || n.value.alertId.None? {
        return;
      }
      var found := repo.FindByID(n.value.alertId.value, fault);
      if found.Err? {
        return;
      }
      var alert := found.value;
      if !n.value.clientId.Blank? && n.value.clientId != Names(alert.clientId) {
        return;
      }
      stream.Dispatch(alert);
    }
  }
}
