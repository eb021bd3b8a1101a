/** The page's handler object: its callbacks read and write mutable fields, `websocket` among them.
    Each is proved to do to the whole page what the event machine says, so everything proved of the
    machine's runs holds of the object driven by the same events. */
module TerminalPageHandlers {
  import opened Prelude
  import opened TerminalPage
  import opened TerminalTheorems

  const MAX_RECONNECT_ATTEMPTS := 5

  class TerminalPageHandler {
    var connectionState: Connection
    var reconnectAttempts: nat
    const maxReconnectAttempts: nat := MAX_RECONNECT_ATTEMPTS
    var websocket: Option<nat>
    var isConnected: bool
    var isSshConnected: bool
    var cleanedUp: bool
    var activityHeartbeat: bool
    var lastActivityAt: nat
    var lastFlushAt: nat
    // held by the browser
    var started: bool
    var fetches: nat
    var issued: nat
    var granted: nat
    var sockets: seq<Socket>
    var timers: nat
    var delays: seq<nat>
    var posts: seq<nat>
    var clock: nat

    function State(): Page
      reads this
    {
      Page(connectionState, reconnectAttempts, maxReconnectAttempts, websocket, isConnected, isSshConnected, cleanedUp,
           activityHeartbeat, lastActivityAt, lastFlushAt,
           started, fetches, issued, granted, sockets, timers, delays, posts, clock)
    }

    constructor ()
      ensures State() == Fresh(MAX_RECONNECT_ATTEMPTS) && Inv(State())
    {
      connectionState, reconnectAttempts, websocket := Idle, 0, None;
      isConnected, isSshConnected, cleanedUp := false, false, false;
      activityHeartbeat, lastActivityAt, lastFlushAt := false, 0, 0;
      started, fetches, issued, granted, sockets := false, 0, 0, 0, [];
      timers, delays, posts, clock := 0, [], [], 0;
    }

    /** connectToTerminal up to its first await. */
    method ConnectToTerminal()
      modifies this
      ensures State() == Connect(old(State()))
    {
      connectionState := Connecting;
      issued := issued + 1;
      fetches := fetches + 1;
    }

    method Init()
      requires !started
      modifies this
      ensures State() == OnEvent(old(State()), Start)
    {
      started := true;
      ConnectToTerminal();
    }

    /** connectToTerminal after a reply that is not ok. */
    method OnRefused(status: nat)
      requires fetches > 0
      modifies this
      ensures State() == OnEvent(old(State()), Refused(status))
    {
      fetches := fetches - 1;
      if status == 404 {
        connectionState := AuthorizationFailed;
      } else if status == 409 {
        connectionState := DeviceOffline;
      } else {
        connectionState := Error;
      }
    }

    /** connectToTerminal after a session reply: create the socket. */
    method OnGranted(throws: bool)
      requires fetches > 0
      modifies this
      ensures State() == OnEvent(old(State()), Granted(throws))
    {
      fetches := fetches - 1;
      var ticket := granted;
      granted := granted + 1;
      if throws {
        connectionState := Error;
      } else {
        websocket := Some(|sockets|);
        sockets := sockets + [Socket(ticket, Opening, [])];
      }
    }

    /** this.websocket.send(m) */
    method Send(m: Message)
      requires CanSend(State())
      modifies this`sockets
      ensures State() == SendMessage(old(State()), m)
    {
      var i := websocket.value;
      if sockets[i].state.Open? { sockets := sockets[i := sockets[i].(outbox := sockets[i].outbox + [m])]; }
    }

    method MarkActivityAt(at: nat)
      modifies this`lastActivityAt, this`clock
      ensures State() == MarkActivity(old(State()), at)
    {
      lastActivityAt := at;
      clock := at;
    }

    method FlushActivity()
      modifies this`lastFlushAt, this`posts
      ensures State() == Flush(old(State()))
    {
      if lastActivityAt == 0 || lastActivityAt <= lastFlushAt { return; }
      lastFlushAt := lastActivityAt;
      posts := posts + [lastActivityAt];
    }

    method StartActivityHeartbeat()
      modifies this
      ensures State() == StartHeartbeat(old(State()))
    {
      if activityHeartbeat { return; }
      lastFlushAt := 0;
      posts := [];
      FlushActivity();
      activityHeartbeat := true;
    }

    /** The first half of onopen: the socket is open and the attempts start afresh. */
    method BringUp(s: nat)
      requires s < |sockets|
      modifies this
      ensures State() == SocketUp(old(State()), s)
    {
      sockets := sockets[s := sockets[s].(state := Open)];
      isConnected := true;
      reconnectAttempts := 0;
      connectionState := Authenticating;
    }

    /** The first half of onclose: nothing is connected and the heartbeat stops. */
    method TakeDown(s: nat)
      requires s < |sockets|
      modifies this
      ensures State() == SocketDown(old(State()), s)
    {
      sockets := sockets[s := sockets[s].(state := Closed)];
      isConnected := false;
      isSshConnected := false;
      if activityHeartbeat { activityHeartbeat := false; }
    }

    /** onopen of socket s. It writes to this.websocket, which the single chain makes s itself, so the
        send cannot throw. */
    method OnOpen(s: nat, at: nat)
      requires CanHappen(State(), Opened(s, at)) && websocket == Some(s)
      modifies this
      ensures State() == OnEvent(old(State()), Opened(s, at))
    {
      var ticket := sockets[s].ticket;
      BringUp(s);
      Send(Authenticate(ticket));
      MarkActivityAt(at);
      StartActivityHeartbeat();
    }

    /** onmessage of socket s. */
    method OnMessage(s: nat, m: Incoming, at: nat)
      requires CanHappen(State(), Received(s, m, at)) && websocket == Some(s)
      modifies this
      ensures State() == OnEvent(old(State()), Received(s, m, at))
    {
      MarkActivityAt(at);
      if m.Ready? {
        connectionState := Connected;
        Send(SshConnect);
      } else if m.Output? {
        isSshConnected := true;
      }
    }

    method AttemptReconnectNow()
      modifies this
      ensures State() == AttemptReconnect(old(State()))
    {
      if reconnectAttempts >= maxReconnectAttempts {
        connectionState := Error;
        return;
      }
      reconnectAttempts := reconnectAttempts + 1;
      connectionState := Reconnecting;
      delays := delays + [Delay(reconnectAttempts)];
      timers := timers + 1;
    }

    /** onclose of socket s. */
    method OnClose(s: nat, code: nat)
      requires CanHappen(State(), SocketClosed(s, code))
      modifies this
      ensures State() == OnEvent(old(State()), SocketClosed(s, code))
    {
      TakeDown(s);
      if cleanedUp { return; }
      if code == TICKET_REJECTED {
        connectionState := SessionExpired;
        ConnectToTerminal();
        return;
      }
      AttemptReconnectNow();
    }

    /** The reconnect timer's callback. */
    method OnTimer()
      requires timers > 0
      modifies this
      ensures State() == OnEvent(old(State()), TimerFires)
    {
      timers := timers - 1;
      if !cleanedUp { ConnectToTerminal(); }
    }

    /** The heartbeat's callback: afterwards no marked activity is left unposted. */
    method OnTick()
      requires activityHeartbeat && Inv(State())
      modifies this
      ensures State() == OnEvent(old(State()), Tick)
      ensures posts != [] && posts[|posts| - 1] == lastActivityAt
    {
      FlushActivity();
    }

    method HandleTerminalInput(text: string, at: nat)
      requires Inv(State()) && CanHappen(State(), Typed(text, at))
      modifies this
      ensures State() == OnEvent(old(State()), Typed(text, at))
    {
      if websocket.Some? && sockets[websocket.value].state.Open? && isSshConnected {
        Send(SshData(text));
        MarkActivityAt(at);
      }
    }

    method Cleanup()
      requires Inv(State())
      modifies this
      ensures State() == OnEvent(old(State()), Unload) && cleanedUp
    {
      cleanedUp := true;
      if websocket.Some? && sockets[websocket.value].state.Open? {
        if isSshConnected { Send(SshClose); }
        var i := websocket.value;
        sockets := sockets[i := sockets[i].(state := Closing)];
      }
    }

    /** The browser delivers one event, if it can occur. */
    method Deliver(e: Event)
      requires Inv(State())
      modifies this
      ensures State() == OnEvent(old(State()), e) && Inv(State())
    {
      EventKeepsInv(State(), e);
      if CanHappen(State(), e) {
        match e
        case Start => Init();
        case Refused(status) => OnRefused(status);
        case Granted(throws) => OnGranted(throws);
        case Opened(s, at) => LiveSocketIsCurrent(State(), s); OnOpen(s, at);
        case Received(s, m, at) => LiveSocketIsCurrent(State(), s); OnMessage(s, m, at);
        case SocketClosed(s, code) => OnClose(s, code);
        case TimerFires => OnTimer();
        case Tick => OnTick();
        case Typed(text, at) => HandleTerminalInput(text, at);
        case Unload => Cleanup();
      }
    }
  }

  /** The object driven by any sequence of events goes through the machine's states. */
  method Drive(es: seq<Event>) returns (page: TerminalPageHandler)
    ensures page.State() == PlayFresh(MAX_RECONNECT_ATTEMPTS, es) && Inv(page.State())
  {
    page := new TerminalPageHandler();
    for n := 0 to |es|
      invariant fresh(page) && Inv(page.State())
      invariant page.State() == PlayFresh(MAX_RECONNECT_ATTEMPTS, es[..n])
    {
      assert es[..n + 1][..n] == es[..n];
      page.Deliver(es[n]);
    }
    assert es[..|es|] == es;
  }
}
