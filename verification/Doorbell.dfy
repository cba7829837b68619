/**
 * The doorbell (desktop/doorbell.js): one socket to the gateway, a retry with backoff and a poll
 * while it is down, and one read for each burst of rings.
 *
 * The connection's news goes to the shell inside the call that has it, and the shell may stop the
 * doorbell there (its bound on failures, desktop/main.js:1493-1511): *stops* says whether it does.
 * Whether a socket can be opened, and when reads and sockets answer, is the environment's; a read
 * never throws.
 */
module Doorbell {
  import opened Options

  const BACKOFF_MS: seq<nat> := [1000, 2000, 5000, 10000, 30000]

  datatype Connection = Up | Lost | Restarting

  /** The socket in use: its id, and whether it has opened. */
  datatype Socket = Socket(id: nat, isOpen: bool)

  datatype State = State(
    gateway: Option<string>, socket: Option<Socket>, attempt: nat, retry: Option<nat>, poll: bool, rung: bool,
    reading: bool, again: bool, news: Option<Connection>,
    sockets: nat, handlers: set<nat>, outstanding: nat, begun: nat)

  const Init := State(None, None, 0, None, false, false, false, false, None, 0, {}, 0, 0)

  datatype Event =
    | Connect(url: Option<string>, opens: bool, stops: bool)
    | Ring
    | Stop
    | SocketOpens(id: nat)
    | SocketRings(id: nat)
    | SocketRestarts(id: nat, stops: bool)
    | SocketCloses(id: nat, stops: bool)
    | RetryFires(opens: bool, stops: bool)
    | PollFires
    | RungFires
    | ReadReturns

  function BeginRead(s: State): State {
    s.(reading := true, again := false, outstanding := s.outstanding + 1, begun := s.begun + 1)
  }

  function ReadNow(s: State): State {
    if s.reading then s.(again := true) else BeginRead(s)
  }

  function DoRing(s: State): State {
    if s.rung || s.gateway.None? then s else s.(rung := true)
  }

  /** Let the socket go, its handlers first. */
  function DropSocket(s: State): State {
    if s.socket.None? then s else s.(socket := None, handlers := s.handlers - {s.socket.value.id})
  }

  function DoStop(s: State): State {
    DropSocket(s).(gateway := None, retry := None, poll := false, rung := false, news := None)
  }

  /** `say`: the news, once per change, which the shell may answer by stopping the doorbell. */
  function Say(s: State, news: Connection, stops: bool): State {
    if s.news == Some(news) then s
    else
      var s1 := s.(news := Some(news));
      if stops then DoStop(s1) else s1
  }

  function Wait(attempt: nat): nat {
    BACKOFF_MS[if attempt < |BACKOFF_MS| then attempt else |BACKOFF_MS| - 1]
  }

  /** `down`: the socket is let go, the shell hears of it, the lists are polled and a retry armed. */
  function Down(s0: State, stops: bool): State {
    var s := DropSocket(s0);
    if s.gateway.None? then s
    else
      var s1 := if s.news == Some(Restarting) then s else Say(s, Lost, stops);
      var s2 := if s1.poll || s1.gateway.None? then s1 else s1.(poll := true);
      if s2.retry.Some? then s2 else s2.(retry := Some(Wait(s2.attempt)), attempt := s2.attempt + 1)
  }

  function Open(s: State, opens: bool, stops: bool): State {
    if s.gateway.None? || s.socket.Some? then s
    else if !opens then Down(s, stops)
    else s.(socket := Some(Socket(s.sockets, false)), handlers := s.handlers + {s.sockets}, sockets := s.sockets + 1)
  }

  function DoConnect(s: State, url: Option<string>, opens: bool, stops: bool): State {
    var s1 := DoStop(s);
    if url.None? then s1 else Open(ReadNow(s1.(gateway := url, attempt := 0)), opens, stops)
  }

  function DoOpens(s: State): State
    requires s.socket.Some?
  {
    DoRing(Say(s.(attempt := 0, poll := false, socket := Some(s.socket.value.(isOpen := true))), Up, false))
  }

  function Step(s: State, event: Event): State {
    match event
    case Connect(url, opens, stops) => DoConnect(s, url, opens, stops)
    case Ring => DoRing(s)
    case Stop => DoStop(s)
    case SocketOpens(id) => if id in s.handlers && s.socket.Some? then DoOpens(s) else s
    case SocketRings(id) => if id in s.handlers then DoRing(s) else s
    case SocketRestarts(id, stops) => if id in s.handlers then Say(s, Restarting, stops) else s
    case SocketCloses(id, stops) => if id in s.handlers then Down(s, stops) else s
    case RetryFires(opens, stops) => if s.retry.Some? then Open(s.(retry := None), opens, stops) else s
    case PollFires => if s.poll then ReadNow(s) else s
    case RungFires => if s.rung then ReadNow(s.(rung := false)) else s
    case ReadReturns =>
      if s.outstanding == 0 then s
      else
        var s1 := s.(outstanding := s.outstanding - 1);
        if s1.again then BeginRead(s1) else s1.(reading := false)
  }

  function At(events: seq<Event>, n: nat): State
    requires n <= |events|
  {
    if n == 0 then Init else Step(At(events, n - 1), events[n - 1])
  }

  // ── What holds in every reachable state ──

  predicate Inv(s: State) {
    && s.outstanding == (if s.reading then 1 else 0)
    && (s.again ==> s.reading)
    && s.handlers == (if s.socket.Some? then {s.socket.value.id} else {})
    && (s.gateway.Some? ==> s.socket.Some? != s.retry.Some?)
    && (s.gateway.None? ==> s.socket.None? && !s.poll && !s.rung && s.news.None?)
    && (s.socket.Some? && s.socket.value.isOpen ==> !s.poll)
    && (s.socket.None? ==> s.gateway.Some? ==> s.poll)
    && (s.news == Some(Up) ==> s.socket.Some? && s.socket.value.isOpen)
  }

  lemma ConnectKeeps(s: State, url: Option<string>, opens: bool, stops: bool)
    requires Inv(s)
    ensures Inv(DoConnect(s, url, opens, stops))
  {
  }

  lemma RetryKeeps(s: State, opens: bool, stops: bool)
    requires Inv(s)
    ensures Inv(Step(s, RetryFires(opens, stops)))
  {
  }

  lemma SocketKeeps(s: State, event: Event)
    requires Inv(s) && (event.SocketOpens? || event.SocketRings? || event.SocketRestarts?)
    ensures Inv(Step(s, event))
  {
    hide DoConnect, Open, Down;
  }

  lemma CloseKeeps(s: State, id: nat, stops: bool)
    requires Inv(s)
    ensures Inv(Step(s, SocketCloses(id, stops)))
  {
    hide Wait;
  }

  lemma OtherKeeps(s: State, event: Event)
    requires Inv(s)
    requires event.Ring? || event.Stop? || event.PollFires? || event.RungFires? || event.ReadReturns?
    ensures Inv(Step(s, event))
  {
    hide DoConnect, Open, Down, Say, DoOpens;
  }

  lemma StepKeeps(s: State, event: Event)
    requires Inv(s)
    ensures Inv(Step(s, event))
  {
    if event.Connect? {
      ConnectKeeps(s, event.url, event.opens, event.stops);
    } else if event.RetryFires? {
      RetryKeeps(s, event.opens, event.stops);
    } else if event.SocketOpens? || event.SocketRings? || event.SocketRestarts? {
      SocketKeeps(s, event);
    } else if event.SocketCloses? {
      CloseKeeps(s, event.id, event.stops);
    } else {
      OtherKeeps(s, event);
    }
    hide DoConnect, Inv, DoStop, DoRing, DoOpens, Say, Down, Open, ReadNow, BeginRead;
  }

  lemma {:induction false} RunKeeps(events: seq<Event>, n: nat)
    requires n <= |events|
    ensures Inv(At(events, n))
  {
    hide Step;
    if n > 0 {
      RunKeeps(events, n - 1);
      StepKeeps(At(events, n - 1), events[n - 1]);
    }
  }

  /** Over every run: at most one read is outstanding; a gateway set has exactly one of a socket or an
      armed retry, is polled while it has no socket and not while its socket is open; only the socket
      in use has live handlers; and with no gateway nothing is armed but a retry that opens nothing. */
  lemma OneSocketOneRead(events: seq<Event>, n: nat)
    requires n <= |events|
    ensures var s := At(events, n);
            && s.outstanding <= 1
            && (s.gateway.Some? ==> (s.socket.Some? <==> s.retry.None?))
            && (s.gateway.Some? && s.socket.None? ==> s.poll)
            && (s.socket.Some? && s.socket.value.isOpen ==> !s.poll)
            && (forall id :: id in s.handlers <==> s.socket.Some? && s.socket.value.id == id)
            && (s.news == Some(Up) ==> s.socket.Some? && s.socket.value.isOpen)
            && (s.gateway.None? ==>
                  && s.handlers == {} && !s.poll && !s.rung
                  && forall opens, stops :: Step(s, RetryFires(opens, stops)) == s.(retry := None))
  {
    RunKeeps(events, n);
  }

  // ── After a stop ──

  predicate Silent(s: State) {
    s.gateway.None? && s.socket.None? && s.handlers == {} && s.retry.None? && !s.poll && !s.rung && s.news.None?
  }

  lemma StaysSilent(s: State, event: Event)
    requires Silent(s) && !event.Connect?
    ensures Silent(Step(s, event))
  {
    hide DoConnect;
  }

  /** After a stop, until the next connection: no socket and no live handler, no timer, no news. */
  lemma {:induction false} NothingAfterStop(events: seq<Event>, m: nat, n: nat)
    requires m < n <= |events| && events[m] == Stop
    requires forall k | m < k < n :: !events[k].Connect?
    ensures Silent(At(events, n))
  {
    if m + 1 < n {
      NothingAfterStop(events, m, n - 1);
      hide Silent, Step;
      StaysSilent(At(events, n - 1), events[n - 1]);
    } else {
      RunKeeps(events, m);
      hide Step, Silent, Inv;
      StopIsSilent(At(events, m));
    }
  }

  lemma StopIsSilent(s: State)
    ensures Inv(s) ==> Silent(Step(s, Stop))
  {
  }

  /** `down` on a gateway with no retry armed leaves a retry on a stopped doorbell exactly when the
      shell stops it in the news of the loss. */
  lemma DownStrays(s: State, stops: bool)
    requires s.gateway.Some?
    ensures Down(s, stops).gateway.None? <==> s.news != Some(Restarting) && s.news != Some(Lost) && stops
    ensures Down(s, stops).retry.Some?
  {
    var dropped := DropSocket(s);
    assert dropped == s.(socket := None, handlers := dropped.handlers);
    NothingToDrop(dropped.(news := Some(Lost)));
    hide Wait, DropSocket;
  }

  /** A stop the shell makes inside the doorbell's own news of a loss is the exception: the call that
      has the news goes on and arms its retry on a stopped doorbell. That is the only way one is armed
      with no gateway. */
  lemma StrayRetryExactlyWhen(s: State, event: Event)
    requires Inv(s) && !(s.gateway.None? && s.retry.Some?)
    ensures var next := Step(s, event);
            next.gateway.None? && next.retry.Some? <==>
              match event
              case Connect(url, opens, stops) => url.Some? && !opens && stops
              case SocketCloses(id, stops) => id in s.handlers && s.news != Some(Restarting) && s.news != Some(Lost) && stops
              case RetryFires(opens, stops) =>
                s.retry.Some? && !opens && s.news != Some(Restarting) && s.news != Some(Lost) && stops
              case _ => false
  {
    match event
    case Connect(url, opens, stops) =>
      if url.Some? {
        var s1 := ReadNow(DoStop(s).(gateway := url, attempt := 0));
        DownStrays(s1, stops);
        hide Down;
      }
    case SocketCloses(id, stops) =>
      if id in s.handlers {
        if s.gateway.Some? { DownStrays(s, stops); }
        hide Down;
      }
    case RetryFires(opens, stops) =>
      if s.retry.Some? {
        DownStrays(s.(retry := None), stops);
        hide Down;
      }
    case _ =>
  }

  /** As here: no socket can be opened, and the shell stops the doorbell in its news of that. */
  lemma StrayRetry()
    ensures var s := At([Connect(Some("http://127.0.0.1:8001"), false, true)], 1); s.gateway.None? && s.retry == Some(1000)
  {
    var connect := Connect(Some("http://127.0.0.1:8001"), false, true);
    assert At([connect], 1) == Step(Init, connect) by {
      assert At([connect], 0) == Init;
    }
  }

  /** However it came to have no gateway (a stop, or one made inside its own news), the doorbell stays
      quiet until the next connection: no socket, no live handler, no poll, no ring, no news; and a retry
      left armed fires once and opens nothing. */
  lemma {:induction false} QuietUntilConnected(events: seq<Event>, m: nat, n: nat)
    requires m <= n <= |events| && At(events, m).gateway.None?
    requires forall k | m <= k < n :: !events[k].Connect?
    ensures var s := At(events, n);
            && s.gateway.None? && Silent(s.(retry := None))
            && (At(events, m).retry.None? || (exists k :: m <= k < n && events[k].RetryFires?) ==> s.retry.None?)
  {
    hide Step, Silent, Inv;
    if m < n {
      QuietUntilConnected(events, m, n - 1);
      StaysQuiet(At(events, n - 1), events[n - 1]);
    } else {
      RunKeeps(events, n);
      NoGatewayIsQuiet(At(events, n));
    }
  }

  lemma NoGatewayIsQuiet(s: State)
    requires Inv(s) && s.gateway.None?
    ensures Silent(s.(retry := None))
  {
  }

  lemma StaysQuiet(s: State, event: Event)
    requires s.gateway.None? && Silent(s.(retry := None)) && !event.Connect?
    ensures var next := Step(s, event);
            && next.gateway.None? && Silent(next.(retry := None))
            && (s.retry.None? || event.RetryFires? ==> next.retry.None?)
  {
    hide DoConnect;
  }

  // ── No lost wake-up ──

  /** A wake-up not yet answered by a read is still on its way. */
  predicate OnItsWay(s: State, begun: nat) {
    s.rung || (s.reading && s.again) || s.begun > begun
  }

  /** Events that ring, at the state they come in. */
  predicate Rings(s: State, event: Event) {
    match event
    case Ring => s.gateway.Some?
    case SocketRings(id) => id in s.handlers
    case SocketOpens(id) => id in s.handlers
    case _ => false
  }

  lemma ConnectReads(s: State, url: Option<string>, opens: bool, stops: bool)
    requires Inv(s) && DoConnect(s, url, opens, stops).gateway.Some?
    ensures var next := DoConnect(s, url, opens, stops); OnItsWay(next, s.begun) && s.begun <= next.begun
  {
  }

  lemma WayGoesOn(s: State, event: Event, begun: nat)
    requires Inv(s) && OnItsWay(s, begun) && begun <= s.begun && Step(s, event).gateway.Some?
    ensures OnItsWay(Step(s, event), begun) && begun <= Step(s, event).begun
  {
    hide DoConnect;
    if event.Connect? {
      ConnectReads(s, event.url, event.opens, event.stops);
    }
  }

  lemma RingIsOnItsWay(s: State, event: Event)
    requires Inv(s) && Rings(s, event) && Step(s, event).gateway.Some?
    ensures OnItsWay(Step(s, event), s.begun) && s.begun <= Step(s, event).begun
  {
  }

  /** No wake-up is lost: a ring while a gateway is set is, at every later moment until the doorbell is
      stopped, waiting for its read's timer, or for the read under way to end and another to begin, or
      already followed by a read begun after it; a new connection in between included. */
  lemma {:induction false} NoLostWakeUp(events: seq<Event>, m: nat, n: nat)
    requires m < n <= |events| && Rings(At(events, m), events[m])
    requires forall k | m < k <= n :: At(events, k).gateway.Some?
    ensures OnItsWay(At(events, n), At(events, m).begun) && At(events, m).begun <= At(events, n).begun
  {
    hide Step, OnItsWay, Rings, Inv;
    RunKeeps(events, n - 1);
    assert At(events, n).gateway.Some?;
    if m + 1 == n {
      RingIsOnItsWay(At(events, m), events[m]);
    } else {
      NoLostWakeUp(events, m, n - 1);
      WayGoesOn(At(events, n - 1), events[n - 1], At(events, m).begun);
    }
  }

  /** And what it waits for brings the read: the timer begins one or leaves the one under way to be
      followed by another, and that one's end begins it. */
  lemma WakeUpArrives(s: State, begun: nat)
    requires Inv(s) && OnItsWay(s, begun) && begun <= s.begun
    ensures s.rung ==> var next := Step(s, RungFires); next.begun > begun || (next.reading && next.again)
    ensures s.reading && s.again ==> Step(s, ReadReturns).begun > begun
    ensures s.rung ==> Step(Step(s, RungFires), ReadReturns).begun > begun
  {
  }

  // ── How long it waits ──

  lemma WaitsGrow(attempt: nat, later: nat)
    requires attempt <= later
    ensures Wait(0) == 1000 <= Wait(attempt) <= Wait(later) <= 30000
    ensures later >= 4 ==> Wait(later) == 30000
  {
  }

  /** While the socket will not open the waits follow the backoff, one step a failure, from where the
      last opening or connection set it back to. */
  lemma {:induction false} FailuresBackOff(s: State, events: seq<Event>, n: nat)
    requires Inv(s) && s.gateway.Some? && s.retry.Some?
    requires n <= |events| && forall k | 0 <= k < n :: events[k] == RetryFires(false, false)
    ensures var next := From(s, events, n);
            && Inv(next) && next.gateway == s.gateway && next.retry.Some? && next.attempt == s.attempt + n
            && (n > 0 ==> next.retry == Some(Wait(s.attempt + n - 1)))
  {
    hide Wait;
    if n > 0 {
      FailuresBackOff(s, events, n - 1);
      RetryKeeps(From(s, events, n - 1), false, false);
      DownLeaves(From(s, events, n - 1), RetryFires(false, false));
      hide Step, Inv;
    }
  }

  /** The doorbell *n* events after *s*. */
  function From(s: State, events: seq<Event>, n: nat): State
    requires n <= |events|
  {
    if n == 0 then s else Step(From(s, events, n - 1), events[n - 1])
  }

  /** An opening, and a new connection, begin the backoff again. */
  lemma BackoffBeginsAgain(s: State, id: nat, url: Option<string>)
    requires Inv(s) && url.Some?
    ensures id in s.handlers ==> Step(s, SocketOpens(id)).attempt == 0
    ensures Step(s, Connect(url, false, false)).retry == Some(1000)
  {
  }

  // ── What each event brings ──

  /** The event asks for a read: a connection, a tick of the poll while it is armed, the end of a burst. */
  predicate AsksForRead(s: State, event: Event) {
    match event
    case Connect(url, _, _) => url.Some?
    case PollFires => s.poll
    case RungFires => s.rung
    case _ => false
  }

  /** A read begins exactly when one is asked for and none is under way, or when the one under way is back and
      another was asked for meanwhile; asked for under way, it is to be followed. */
  lemma ReadsExactlyWhen(s: State, event: Event)
    requires Inv(s)
    ensures var next := Step(s, event);
            var begins := (AsksForRead(s, event) && !s.reading) || (event.ReadReturns? && s.reading && s.again);
            && next.begun == s.begun + (if begins then 1 else 0)
            && (next.reading <==> begins || (s.reading && !event.ReadReturns?))
            && (next.again <==> s.reading && ((s.again && !event.ReadReturns?) || AsksForRead(s, event)))
  {
    if event.Connect? {
      ConnectReadsOnce(s, event.url, event.opens, event.stops);
    } else if event.RetryFires? {
      OpenReadsNothing(s.(retry := None), event.opens, event.stops);
    } else if event.SocketCloses? {
      DownReadsNothing(s, event.stops);
    }
    hide DoConnect, Open, Down;
  }

  predicate SameReads(s: State, next: State) {
    next.begun == s.begun && next.reading == s.reading && next.again == s.again && next.outstanding == s.outstanding
  }

  lemma DownReadsNothing(s: State, stops: bool)
    ensures SameReads(s, Down(s, stops))
  {
    hide Wait;
  }

  lemma OpenReadsNothing(s: State, opens: bool, stops: bool)
    ensures SameReads(s, Open(s, opens, stops))
  {
    DownReadsNothing(s, stops);
    hide Down;
  }

  lemma ConnectReadsOnce(s: State, url: Option<string>, opens: bool, stops: bool)
    ensures SameReads(if url.Some? then ReadNow(s) else s, DoConnect(s, url, opens, stops))
  {
    if url.Some? {
      OpenReadsNothing(ReadNow(DoStop(s).(gateway := url, attempt := 0)), opens, stops);
    }
    hide Open;
  }

  /** The event opens a socket: a connection that can, or the retry of one. */
  predicate OpensSocket(s: State, event: Event) {
    match event
    case Connect(url, opens, _) => url.Some? && opens
    case RetryFires(opens, _) => s.retry.Some? && s.gateway.Some? && opens
    case _ => false
  }

  /** The event brings the doorbell down: its socket closes or fails, or none can be opened. */
  predicate BringsDown(s: State, event: Event) {
    match event
    case Connect(url, opens, _) => url.Some? && !opens
    case RetryFires(opens, _) => s.retry.Some? && s.gateway.Some? && !opens
    case SocketCloses(id, _) => id in s.handlers
    case _ => false
  }

  /** The shell stops the doorbell inside its news of the event. */
  predicate StoppedInNews(s: State, event: Event) {
    match event
    case Connect(_, _, stops) => stops
    case RetryFires(_, stops) => stops && s.news != Some(Lost) && s.news != Some(Restarting)
    case SocketCloses(_, stops) => stops && s.news != Some(Lost) && s.news != Some(Restarting)
    case _ => false
  }

  /** Exactly the events that open a socket do: a new one, not open yet, the only one with live handlers. */
  lemma OpensExactlyWhen(s: State, event: Event)
    requires Inv(s)
    ensures var next := Step(s, event);
            if OpensSocket(s, event) then
              && next.socket == Some(Socket(s.sockets, false)) && next.handlers == {s.sockets} && next.sockets == s.sockets + 1
              && next.retry.None?
            else next.sockets == s.sockets && (next.socket.Some? ==> s.socket.Some? && next.socket.value.id == s.socket.value.id)
  {
    if event.Connect? || event.RetryFires? {
      hide Down;
      DownSockets(ReadNow(DoStop(s).(gateway := if event.Connect? then event.url else None, attempt := 0)), event.stops);
      DownSockets(s.(retry := None), event.stops);
    } else if event.SocketCloses? {
      DownSockets(s, event.stops);
      hide Down;
    }
    hide ReadNow;
  }

  lemma DownSockets(s: State, stops: bool)
    ensures Down(s, stops).sockets == s.sockets && Down(s, stops).socket.None?
  {
    hide Wait;
  }

  /** What being brought down leaves: the lists polled, a retry armed after the backoff's next wait, and the
      loss said, unless a restart was; or, stopped in that very news, nothing but the stray retry. */
  lemma DownLeaves(s: State, event: Event)
    requires Inv(s) && BringsDown(s, event)
    ensures var next := Step(s, event);
            var attempt := if event.Connect? then 0 else s.attempt;
            && next.socket.None? && next.retry == Some(Wait(attempt)) && next.attempt == attempt + 1
            && (if StoppedInNews(s, event) then next.gateway.None? && !next.poll && next.news.None?
                else
                  && next.gateway == (if event.Connect? then event.url else s.gateway) && next.poll
                  && next.news == Some(if !event.Connect? && s.news == Some(Restarting) then Restarting else Lost))
  {
    var s1 := match event
              case Connect(url, _, _) => ReadNow(DoStop(s).(gateway := url, attempt := 0))
              case RetryFires(_, _) => s.(retry := None)
              case _ => s;
    DownSays(s1, event.stops);
    hide Down, Wait;
  }

  lemma DownSays(s: State, stops: bool)
    requires s.gateway.Some? && s.retry.None?
    ensures var next := Down(s, stops);
            && next.retry == Some(Wait(s.attempt)) && next.attempt == s.attempt + 1 && next.socket.None?
            && (if stops && s.news != Some(Restarting) && s.news != Some(Lost) then next.gateway.None? && !next.poll && next.news.None?
                else next.gateway == s.gateway && next.poll && next.news == Some(if s.news == Some(Restarting) then Restarting else Lost))
  {
    var dropped := DropSocket(s);
    assert dropped == s.(socket := None, handlers := dropped.handlers);
    hide Wait, DropSocket;
    if s.news == Some(Restarting) {
      assert Down(s, stops).news == Some(Restarting);
    } else if s.news == Some(Lost) {
      assert Say(dropped, Lost, stops) == dropped;
    } else {
      assert DropSocket(dropped.(news := Some(Lost))) == dropped.(news := Some(Lost)) by { NothingToDrop(dropped.(news := Some(Lost))); }
    }
  }

  lemma NothingToDrop(s: State)
    requires s.socket.None?
    ensures DropSocket(s) == s
  {
  }

  /** What the socket in use brings: its opening is said, ends the poll, begins the backoff again and rings; a
      restart it announces is said, once; anything of a socket let go says nothing. */
  lemma SocketSays(s: State, id: nat)
    requires Inv(s)
    ensures id in s.handlers ==>
              && Step(s, SocketOpens(id)) ==
                   s.(socket := Some(Socket(id, true)), news := Some(Up), attempt := 0, poll := false, rung := s.rung || s.gateway.Some?)
              && Step(s, SocketRestarts(id, false)) == s.(news := Some(Restarting))
              && Step(s, SocketRings(id)) == s.(rung := s.rung || s.gateway.Some?)
    ensures id !in s.handlers ==>
              Step(s, SocketOpens(id)) == Step(s, SocketRings(id)) == Step(s, SocketRestarts(id, true)) == Step(s, SocketCloses(id, true)) == s
  {
  }

  /** A ring arms one timer for its burst, while a gateway is set. */
  lemma RingsExactlyWhen(s: State)
    ensures Step(s, Ring) == s.(rung := s.rung || s.gateway.Some?)
  {
  }

  // ── The doorbell itself ──

  class Bell {
    var gateway: Option<string>
    var socket: Option<Socket>
    var attempt: nat
    var retry: Option<nat>
    var poll: bool
    var rung: bool
    var reading: bool
    var again: bool
    var news: Option<Connection>
    var sockets: nat
    var handlers: set<nat>
    var outstanding: nat
    var begun: nat

    ghost function Now(): State
      reads this
    {
      State(gateway, socket, attempt, retry, poll, rung, reading, again, news, sockets, handlers, outstanding, begun)
    }

    constructor ()
      ensures Now() == Init
    {
      gateway, socket, attempt, retry, poll, rung := None, None, 0, None, false, false;
      reading, again, news, sockets, handlers, outstanding, begun := false, false, None, 0, {}, 0, 0;
    }

    method Read()
      modifies this
      ensures Now() == ReadNow(old(Now()))
    {
      if reading {
        again := true;
        return;
      }
      reading := true;
      again := false;
      outstanding := outstanding + 1;
      begun := begun + 1;
    }

    /** The read under way is back: another follows if one was asked for meanwhile. */
    method ReadIsBack()
      modifies this
      ensures Now() == Step(old(Now()), ReadReturns)
    {
      if outstanding == 0 { return; }
      outstanding := outstanding - 1;
      reading := false;
      if again {
        Read();
      }
    }

    method RingBell()
      modifies this
      ensures Now() == DoRing(old(Now()))
    {
      if rung || gateway.None? { return; }
      rung := true;
    }

    method LetGo()
      modifies this
      ensures Now() == DropSocket(old(Now()))
    {
      if socket.None? { return; }
      handlers := handlers - {socket.value.id};
      socket := None;
    }

    method StopAll()
      modifies this
      ensures Now() == DoStop(old(Now()))
    {
      gateway := None;
      LetGo();
      retry, poll, rung := None, false, false;
      news := None;
    }

    method Tell(next: Connection, stops: bool)
      modifies this
      ensures Now() == Say(old(Now()), next, stops)
    {
      if news == Some(next) { return; }
      news := Some(next);
      if stops {
        StopAll();
      }
    }

    method GoDown(stops: bool)
      modifies this
      ensures Now() == Down(old(Now()), stops)
    {
      LetGo();
      if gateway.None? { return; }
      if news != Some(Restarting) {
        Tell(Lost, stops);
      }
      if !poll && gateway.Some? {
        poll := true;
      }
      if retry.Some? { return; }
      retry := Some(Wait(attempt));
      attempt := attempt + 1;
    }

    method OpenSocket(opens: bool, stops: bool)
      modifies this
      ensures Now() == Open(old(Now()), opens, stops)
    {
      if gateway.None? || socket.Some? { return; }
      if !opens {
        GoDown(stops);
        return;
      }
      socket := Some(Socket(sockets, false));
      handlers := handlers + {sockets};
      sockets := sockets + 1;
    }

    method ConnectTo(url: Option<string>, opens: bool, stops: bool)
      modifies this
      ensures Now() == Step(old(Now()), Connect(url, opens, stops))
    {
      StopAll();
      if url.None? { return; }
      gateway := url;
      attempt := 0;
      Read();
      OpenSocket(opens, stops);
    }

    /** The handlers of socket *id*, while it is the one in use. */
    method OnOpen(id: nat)
      requires id in handlers && socket.Some?
      modifies this
      ensures Now() == Step(old(Now()), SocketOpens(id))
    {
      attempt := 0;
      poll := false;
      socket := Some(socket.value.(isOpen := true));
      Tell(Up, false);
      RingBell();
    }

    method OnClose(id: nat, stops: bool)
      requires id in handlers
      modifies this
      ensures Now() == Step(old(Now()), SocketCloses(id, stops))
    {
      GoDown(stops);
    }

    method OnRestarting(id: nat, stops: bool)
      requires id in handlers
      modifies this
      ensures Now() == Step(old(Now()), SocketRestarts(id, stops))
    {
      Tell(Restarting, stops);
    }

    method RetryTimer(opens: bool, stops: bool)
      requires retry.Some?
      modifies this
      ensures Now() == Step(old(Now()), RetryFires(opens, stops))
    {
      retry := None;
      OpenSocket(opens, stops);
    }

    method RungTimer()
      requires rung
      modifies this
      ensures Now() == Step(old(Now()), RungFires)
    {
      rung := false;
      Read();
    }

    /** The poll's tick. */
    method PollTimer()
      requires poll
      modifies this
      ensures Now() == Step(old(Now()), PollFires)
    {
      Read();
    }

    /** Whatever comes next: a timer not armed, or a socket let go, says nothing. */
    method Take(event: Event)
      modifies this
      ensures Now() == Step(old(Now()), event)
    {
      match event
      case Connect(url, opens, stops) => ConnectTo(url, opens, stops);
      case Ring => RingBell();
      case Stop => StopAll();
      case SocketOpens(id) => if id in handlers && socket.Some? { OnOpen(id); }
      case SocketRings(id) => if id in handlers { RingBell(); }
      case SocketRestarts(id, stops) => if id in handlers { OnRestarting(id, stops); }
      case SocketCloses(id, stops) => if id in handlers { OnClose(id, stops); }
      case RetryFires(opens, stops) => if retry.Some? { RetryTimer(opens, stops); }
      case PollFires => if poll { PollTimer(); }
      case RungFires => if rung { RungTimer(); }
      case ReadReturns => ReadIsBack();
    }
  }

  /** A doorbell that went through any events at all has one read out at most, and with a gateway set
      exactly one of a socket or an armed retry. */
  method RingThrough(events: seq<Event>) returns (bell: Bell)
    ensures fresh(bell) && bell.Now() == At(events, |events|)
    ensures bell.outstanding <= 1
    ensures bell.gateway.Some? ==> (bell.socket.Some? <==> bell.retry.None?) && (bell.socket.None? ==> bell.poll)
    ensures bell.gateway.None? ==> bell.handlers == {} && !bell.poll && !bell.rung
  {
    bell := new Bell();
    for i := 0 to |events|
      invariant fresh(bell) && bell.Now() == At(events, i)
    {
      bell.Take(events[i]);
    }
    OneSocketOneRead(events, |events|);
    hide Step;
  }
}
