/** The reconnecting socket client (src/services/SocketManager.ts).

    Socket events (open, message, error, close), the mirror socket's own state changes
    and the firing of a reconnect timer are method calls made by the environment; they
    always concern the socket the manager currently holds. What the client does that a
    caller can observe (callbacks invoked, sockets created, frames sent, reconnects
    scheduled) is appended to `effects`. */
module Socket {
  import opened Wrappers
  import Types

  const InitialBackoff: int := 500
  const MaxBackoff: int := 5000

  /** `WebSocket.readyState`. */
  datatype ReadyState = ConnectingState | OpenState | ClosingState | ClosedState

  /** What the client does that is visible outside it. */
  datatype Effect =
    | SocketCreated                                  // new WebSocket(url)
    | MirrorCreated                                  // new WebSocket(mirrorUrl)
    | OpenCallback(backoffAtCall: int)               // callbacks.onOpen(), with the backoff at that moment
    | CloseCallback                                  // callbacks.onClose()
    | ErrorCallback                                  // callbacks.onError(e)
    | MessageCallback(msg: Types.SocketMessage)      // callbacks.onMessage(data)
    | MirrorSend(msg: Types.SocketMessage)           // mirror.send(JSON.stringify(data))
    | Sent(data: string)                             // ws.send(data)
    | ReconnectScheduled(delayMs: int)               // setTimeout(..., backoff)

  /** The backoff after a reconnect timer fires: doubled, capped at 5000 ms. */
  function NextBackoff(b: int): (r: int)
    ensures r <= MaxBackoff
    ensures InitialBackoff <= b <= MaxBackoff ==> InitialBackoff <= r && b <= r
    ensures b <= MaxBackoff / 2 ==> r == 2 * b
  {
    if MaxBackoff < b * 2 then MaxBackoff else b * 2
  }

  /** The delay of the reconnect scheduled by the (n+1)-th close in a row with no open
      in between, starting from the initial backoff. */
  function BackoffAfter(n: nat): int
  {
    if n == 0 then InitialBackoff else NextBackoff(BackoffAfter(n - 1))
  }

  /** Consecutive failures back off 500, 1000, 2000, 4000 ms, then 5000 ms for ever,
      never decreasing and never leaving [500, 5000]. */
  lemma {:induction false} BackoffSchedule(n: nat)
    ensures InitialBackoff <= BackoffAfter(n) <= MaxBackoff
    ensures BackoffAfter(n) <= BackoffAfter(n + 1)
    ensures n < 4 ==> BackoffAfter(n) == [500, 1000, 2000, 4000][n]
    ensures n >= 4 ==> BackoffAfter(n) == MaxBackoff
  {
    if n > 0 {
      BackoffSchedule(n - 1);
    }
  }

  /** The sockets a call to `connect()` creates. */
  function Created(hasMirrorUrl: bool): seq<Effect>
  {
    if hasMirrorUrl then [SocketCreated, MirrorCreated] else [SocketCreated]
  }

  /** `close()` on a socket that may be absent (`ws?.close()`). */
  function CloseRequested(s: Option<ReadyState>): (r: Option<ReadyState>)
    ensures r.None? <==> s.None?
    ensures r.Some? ==> r.value == ClosingState || r.value == ClosedState
  {
    match s
    case None => None
    case Some(ConnectingState) => Some(ClosingState)
    case Some(OpenState) => Some(ClosingState)
    case Some(st) => Some(st)
  }

  /** The reconnect delays recorded in a stretch of effects, in order. */
  function Delays(effects: seq<Effect>): seq<int>
  {
    if effects == [] then []
    else Delays(effects[..|effects| - 1])
         + (match effects[|effects| - 1] case ReconnectScheduled(d) => [d] case _ => [])
  }

  lemma {:induction false} DelaysAppend(a: seq<Effect>, b: seq<Effect>)
    ensures Delays(a + b) == Delays(a) + Delays(b)
    decreases |b|
  {
    if b != [] {
      assert (a + b)[..|a + b| - 1] == a + b[..|b| - 1];
      DelaysAppend(a, b[..|b| - 1]);
    } else {
      assert a + b == a;
    }
  }

  class SocketManager {
    const hasMirrorUrl: bool
    var ws: Option<ReadyState>
    var mirror: Option<ReadyState>
    var backoff: int
    var stopped: bool
    var pendingTimers: nat
    var effects: seq<Effect>

    /** The backoff never leaves [500, 5000]. */
    ghost predicate Valid()
      reads this
    {
      InitialBackoff <= backoff <= MaxBackoff
    }

    constructor (hasMirrorUrl: bool)
      ensures Valid() && this.hasMirrorUrl == hasMirrorUrl
      ensures ws == None && mirror == None && backoff == InitialBackoff
      ensures !stopped && pendingTimers == 0 && effects == []
    {
      this.hasMirrorUrl := hasMirrorUrl;
      ws, mirror := None, None;
      backoff, stopped, pendingTimers := InitialBackoff, false, 0;
      effects := [];
    }

    /** `connect()`: a no-op while stopped; otherwise a fresh socket (and mirror). */
    method Connect()
      requires Valid()
      modifies this
      ensures Valid()
      ensures stopped == old(stopped) && backoff == old(backoff) && pendingTimers == old(pendingTimers)
      ensures old(stopped) ==> ws == old(ws) && mirror == old(mirror) && effects == old(effects)
      ensures !old(stopped) ==> ws == Some(ConnectingState) && effects == old(effects) + Created(hasMirrorUrl)
      ensures !old(stopped) ==> mirror == if hasMirrorUrl then Some(ConnectingState) else old(mirror)
    {
      if stopped {
        return;
      }
      ws := Some(ConnectingState);
      effects := effects + [SocketCreated];
      if hasMirrorUrl {
        mirror := Some(ConnectingState);
        effects := effects + [MirrorCreated];
      }
    }

    /** `start()`: clears `stopped` and connects. Each call creates a new socket. */
    method Start()
      requires Valid()
      modifies this
      ensures Valid() && !stopped
      ensures ws == Some(ConnectingState) && effects == old(effects) + Created(hasMirrorUrl)
      ensures mirror == if hasMirrorUrl then Some(ConnectingState) else old(mirror)
      ensures backoff == old(backoff) && pendingTimers == old(pendingTimers)
    {
      stopped := false;
      Connect();
    }

    /** `stop()`: sets `stopped` and asks both sockets to close. */
    method Stop()
      requires Valid()
      modifies this
      ensures Valid() && stopped
      ensures ws == CloseRequested(old(ws)) && mirror == CloseRequested(old(mirror))
      ensures backoff == old(backoff) && pendingTimers == old(pendingTimers) && effects == old(effects)
    {
      stopped := true;
      ws := CloseRequested(ws);
      mirror := CloseRequested(mirror);
    }

    /** `ws.onopen`: the backoff is reset before `onOpen` runs. */
    method HandleOpen()
      requires Valid() && ws == Some(ConnectingState)
      modifies this
      ensures Valid() && backoff == InitialBackoff && ws == Some(OpenState)
      ensures effects == old(effects) + [OpenCallback(InitialBackoff)]
      ensures stopped == old(stopped) && mirror == old(mirror) && pendingTimers == old(pendingTimers)
    {
      backoff := InitialBackoff;
      ws := Some(OpenState);
      effects := effects + [OpenCallback(backoff)];
    }

    /** `ws.onmessage`. `parsed` is the outcome of `JSON.parse`: `None` when the frame is
        malformed, which is swallowed without a trace. A parsed message goes to `onMessage`
        and then, if the mirror is open, to the mirror. `threw` says whether `onMessage`
        threw on it: the same `catch` swallows that, and the mirror send is skipped. */
    method HandleMessage(parsed: Option<Types.SocketMessage>, threw: bool)
      requires Valid() && ws.Some?
      modifies this
      ensures Valid()
      ensures parsed.None? ==> effects == old(effects)
      ensures parsed.Some? && !threw && mirror == Some(OpenState) ==>
                effects == old(effects) + [MessageCallback(parsed.value), MirrorSend(parsed.value)]
      ensures parsed.Some? && (threw || mirror != Some(OpenState)) ==>
                effects == old(effects) + [MessageCallback(parsed.value)]
      ensures ws == old(ws) && mirror == old(mirror) && backoff == old(backoff)
      ensures stopped == old(stopped) && pendingTimers == old(pendingTimers)
    {
      match parsed {
        case None =>
        case Some(msg) =>
          effects := effects + [MessageCallback(msg)];
          if !threw && mirror == Some(OpenState) {
            effects := effects + [MirrorSend(msg)];
          }
      }
    }

    /** `ws.onerror`: reports only; the close that follows drives reconnection. */
    method HandleError()
      requires Valid() && ws.Some?
      modifies this
      ensures Valid() && effects == old(effects) + [ErrorCallback]
      ensures ws == old(ws) && mirror == old(mirror) && backoff == old(backoff)
      ensures stopped == old(stopped) && pendingTimers == old(pendingTimers)
    {
      effects := effects + [ErrorCallback];
    }

    /** `ws.onclose`: `onClose` runs; unless stopped, a reconnect is scheduled after the
        current backoff (which is not changed here). */
    method HandleClose()
      requires Valid() && ws.Some? && ws.value != ClosedState
      modifies this
      ensures Valid() && ws == Some(ClosedState)
      ensures stopped ==> effects == old(effects) + [CloseCallback] && pendingTimers == old(pendingTimers)
      ensures !stopped ==> effects == old(effects) + [CloseCallback, ReconnectScheduled(old(backoff))]
                           && pendingTimers == old(pendingTimers) + 1
      ensures stopped == old(stopped) && mirror == old(mirror) && backoff == old(backoff)
    {
      ws := Some(ClosedState);
      effects := effects + [CloseCallback];
      if stopped {
        return;
      }
      pendingTimers := pendingTimers + 1;
      effects := effects + [ReconnectScheduled(backoff)];
    }

    /** A scheduled reconnect timer fires: the backoff doubles (capped), then `connect()`,
        which does nothing if the client was stopped meanwhile. */
    method TimerFires()
      requires Valid() && pendingTimers > 0
      modifies this
      ensures Valid() && backoff == NextBackoff(old(backoff))
      ensures pendingTimers == old(pendingTimers) - 1 && stopped == old(stopped)
      ensures old(stopped) ==> ws == old(ws) && mirror == old(mirror) && effects == old(effects)
      ensures !old(stopped) ==> ws == Some(ConnectingState) && effects == old(effects) + Created(hasMirrorUrl)
      ensures !old(stopped) ==> mirror == if hasMirrorUrl then Some(ConnectingState) else old(mirror)
    {
      pendingTimers := pendingTimers - 1;
      backoff := NextBackoff(backoff);
      Connect();
    }

    /** `sendMessage`: transmits only on an open socket; otherwise silently drops. */
    method SendMessage(data: string)
      requires Valid()
      modifies this
      ensures Valid()
      ensures ws == Some(OpenState) ==> effects == old(effects) + [Sent(data)]
      ensures ws != Some(OpenState) ==> effects == old(effects)
      ensures ws == old(ws) && mirror == old(mirror) && backoff == old(backoff)
      ensures stopped == old(stopped) && pendingTimers == old(pendingTimers)
    {
      if ws == Some(OpenState) {
        effects := effects + [Sent(data)];
      }
    }

    /** The mirror socket's connection completes (it has no handlers of its own). */
    method MirrorOpens()
      requires Valid() && mirror == Some(ConnectingState)
      modifies this
      ensures Valid() && mirror == Some(OpenState)
      ensures ws == old(ws) && backoff == old(backoff) && effects == old(effects)
      ensures stopped == old(stopped) && pendingTimers == old(pendingTimers)
    {
      mirror := Some(OpenState);
    }

    /** The mirror socket closes. */
    method MirrorCloses()
      requires Valid() && mirror.Some?
      modifies this
      ensures Valid() && mirror == Some(ClosedState)
      ensures ws == old(ws) && backoff == old(backoff) && effects == old(effects)
      ensures stopped == old(stopped) && pendingTimers == old(pendingTimers)
    {
      mirror := Some(ClosedState);
    }
  }

  /** n failed connection attempts in a row (close, then the reconnect timer) schedule
      the reconnects 500, 1000, 2000, 4000, 5000, 5000, ... ms. */
  method ConsecutiveFailures(m: SocketManager, n: nat)
    requires m.Valid() && !m.stopped && m.backoff == InitialBackoff
    requires m.ws == Some(ConnectingState)
    modifies m
    ensures m.Valid() && !m.stopped && m.backoff == BackoffAfter(n)
    ensures |old(m.effects)| <= |m.effects| && m.effects[..|old(m.effects)|] == old(m.effects)
    ensures Delays(m.effects[|old(m.effects)|..]) == Schedule(n)
  {
    ghost var start := |m.effects|;
    var i := 0;
    while i < n
      invariant 0 <= i <= n
      invariant m.Valid() && !m.stopped && m.backoff == BackoffAfter(i)
      invariant m.ws == Some(ConnectingState) && m.pendingTimers == old(m.pendingTimers)
      invariant start <= |m.effects| && m.effects[..start] == old(m.effects)
      invariant Delays(m.effects[start..]) == Schedule(i)
    {
      ghost var before := m.effects;
      m.HandleClose();
      m.TimerFires();
      assert m.effects == before + ([CloseCallback, ReconnectScheduled(BackoffAfter(i))] + Created(m.hasMirrorUrl));
      ReconnectCycleDelays(before, start, i, m.hasMirrorUrl);
      i := i + 1;
    }
  }

  /** One close-then-timer cycle adds exactly the delay `BackoffAfter(i)` to the schedule. */
  lemma ReconnectCycleDelays(before: seq<Effect>, start: nat, i: nat, hasMirrorUrl: bool)
    requires start <= |before|
    requires Delays(before[start..]) == Schedule(i)
    ensures var after := before + ([CloseCallback, ReconnectScheduled(BackoffAfter(i))] + Created(hasMirrorUrl));
            Delays(after[start..]) == Schedule(i + 1)
  {
    var cycle := [CloseCallback, ReconnectScheduled(BackoffAfter(i))] + Created(hasMirrorUrl);
    SuffixAppend(before, cycle, start);
    DelaysAppend(before[start..], cycle);
    CycleDelays(BackoffAfter(i), hasMirrorUrl);
    ScheduleSnoc(i);
  }

  lemma SuffixAppend<T>(a: seq<T>, b: seq<T>, start: nat)
    requires start <= |a|
    ensures (a + b)[start..] == a[start..] + b
  {
  }

  lemma ScheduleSnoc(n: nat)
    ensures Schedule(n + 1) == Schedule(n) + [BackoffAfter(n)]
  {
  }

  /** The first n reconnect delays, in order. */
  function Schedule(n: nat): (s: seq<int>)
    ensures |s| == n && forall j :: 0 <= j < n ==> s[j] == BackoffAfter(j)
  {
    seq(n, j requires 0 <= j < n => BackoffAfter(j))
  }

  lemma CycleDelays(d: int, hasMirrorUrl: bool)
    ensures Delays([CloseCallback, ReconnectScheduled(d)] + Created(hasMirrorUrl)) == [d]
  {
    DelaysAppend([CloseCallback, ReconnectScheduled(d)], Created(hasMirrorUrl));
    assert Delays([CloseCallback, ReconnectScheduled(d)]) == [d] by {
      assert [CloseCallback, ReconnectScheduled(d)][..1] == [CloseCallback];
      assert [CloseCallback][..0] == [];
    }
    assert Delays(Created(hasMirrorUrl)) == [] by {
      if hasMirrorUrl {
        assert Created(hasMirrorUrl)[..1] == [SocketCreated];
      }
      assert [SocketCreated][..0] == [];
    }
  }

  /** After `stop()`, a reconnect timer that was already pending creates no socket, and a
      close arriving afterwards schedules nothing. */
  method StopWithPendingTimer(m: SocketManager)
    requires m.Valid() && m.pendingTimers > 0 && m.ws == Some(OpenState)
    modifies m
    ensures m.Valid() && m.stopped && m.ws == Some(ClosedState)
    ensures m.effects == old(m.effects) + [CloseCallback]
    ensures m.pendingTimers == old(m.pendingTimers) - 1
  {
    m.Stop();
    m.TimerFires();
    m.HandleClose();
  }
}
