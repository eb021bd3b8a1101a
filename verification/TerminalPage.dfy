/** The terminal page's connection: session request, socket, reconnect timer, heartbeat and cleanup, as
    a machine driven by browser events. `Page` is the handler's fields together with what the browser
    holds for it; an event that cannot occur leaves the page as it is. */
module TerminalPage {
  import opened Prelude

  datatype Connection =
    | Idle | Connecting | Authenticating | Connected | Reconnecting
    | DeviceOffline | SessionExpired | AuthorizationFailed | Error

  datatype SocketState = Opening | Open | Closing | Closed

  datatype Message = Authenticate(ticket: nat) | SshConnect | SshData(text: string) | SshClose

  /** A socket remembers the session reply its URL and ticket came from. */
  datatype Socket = Socket(ticket: nat, state: SocketState, outbox: seq<Message>)

  datatype Page = Page(
    connection: Connection,
    attempts: nat,
    maxAttempts: nat,
    websocket: Option<nat>,
    isConnected: bool,
    isSshConnected: bool,
    cleanedUp: bool,
    heartbeat: bool,          // the 90-second interval is armed
    lastActivity: nat,        // 0: none yet
    lastFlush: nat,
    // held by the browser
    started: bool,
    fetches: nat,             // /terminal-session requests awaiting their reply
    issued: nat,              // all such requests so far
    granted: nat,             // session replies so far, each with a ticket of its own
    sockets: seq<Socket>,
    timers: nat,              // armed reconnect timers
    delays: seq<nat>,         // the delay of every timer armed so far
    posts: seq<nat>,          // activity posted over the current connection
    clock: nat)

  datatype Incoming = Ready | ServerError | Output | Raw

  datatype Event =
    | Start
    | Refused(status: nat)
    | Granted(throws: bool)
    | Opened(s: nat, at: nat)
    | Received(s: nat, message: Incoming, at: nat)
    | SocketClosed(s: nat, code: nat)
    | TimerFires
    | Tick
    | Typed(text: string, at: nat)
    | Unload

  const TICKET_REJECTED := 4401
  const MAX_DELAY_MS := 15000

  function Fresh(maxAttempts: nat): Page {
    Page(Idle, 0, maxAttempts, None, false, false, false, false, 0, 0, false, 0, 0, 0, [], 0, [], [], 0)
  }

  function Pow2(n: nat): nat {
    if n == 0 then 1 else 2 * Pow2(n - 1)
  }

  function Min(a: nat, b: nat): nat { if a <= b then a else b }

  /** Capped exponential backoff of the n-th attempt, n >= 1. */
  function Delay(n: nat): nat
    requires n >= 1
  {
    Min(1000 * Pow2(n - 1), MAX_DELAY_MS)
  }

  /** connectToTerminal up to its first await. */
  function Connect(p: Page): Page {
    p.(connection := Connecting, fetches := p.fetches + 1, issued := p.issued + 1)
  }

  function AfterRefusal(p: Page, status: nat): Page
    requires p.fetches > 0
  {
    p.(fetches := p.fetches - 1,
       connection := if status == 404 then AuthorizationFailed else if status == 409 then DeviceOffline else Error)
  }

  /** The session reply arrives and the socket is created, unless its URL is refused. */
  function AfterGrant(p: Page, throws: bool): Page
    requires p.fetches > 0
  {
    var q := p.(fetches := p.fetches - 1, granted := p.granted + 1);
    if throws then q.(connection := Error)
    else q.(sockets := q.sockets + [Socket(p.granted, Opening, [])], websocket := Some(|q.sockets|))
  }

  /** this.websocket exists and can be written to without throwing. */
  predicate CanSend(p: Page) {
    p.websocket.Some? && p.websocket.value < |p.sockets| && !p.sockets[p.websocket.value].state.Opening?
  }

  /** this.websocket.send: dropped silently unless the socket is open. */
  function SendMessage(p: Page, m: Message): Page
    requires CanSend(p)
  {
    var i := p.websocket.value;
    if p.sockets[i].state.Open? then p.(sockets := p.sockets[i := p.sockets[i].(outbox := p.sockets[i].outbox + [m])])
    else p
  }

  function MarkActivity(p: Page, at: nat): Page {
    p.(lastActivity := at, clock := at)
  }

  /** Post once if there was activity since the last post. */
  function Flush(p: Page): Page {
    if p.lastActivity == 0 || p.lastActivity <= p.lastFlush then p
    else p.(lastFlush := p.lastActivity, posts := p.posts + [p.lastActivity])
  }

  function StartHeartbeat(p: Page): Page {
    if p.heartbeat then p else Flush(p.(lastFlush := 0, posts := [])).(heartbeat := true)
  }

  function SocketUp(p: Page, s: nat): Page
    requires s < |p.sockets|
  {
    p.(sockets := p.sockets[s := p.sockets[s].(state := Open)],
       isConnected := true, attempts := 0, connection := Authenticating)
  }

  function SocketDown(p: Page, s: nat): Page
    requires s < |p.sockets|
  {
    p.(sockets := p.sockets[s := p.sockets[s].(state := Closed)],
       isConnected := false, isSshConnected := false, heartbeat := false)
  }

  /** onopen of socket s; an exception from send skips the rest. */
  function AfterOpen(p: Page, s: nat, at: nat): Page
    requires s < |p.sockets|
  {
    var q := SocketUp(p, s);
    if !CanSend(q) then q
    else StartHeartbeat(MarkActivity(SendMessage(q, Authenticate(p.sockets[s].ticket)), at))
  }

  function AfterMessage(p: Page, m: Incoming, at: nat): Page {
    var q := MarkActivity(p, at);
    match m
    case Ready => var r := q.(connection := Connected); if CanSend(r) then SendMessage(r, SshConnect) else r
    case Output => q.(isSshConnected := true)
    case ServerError => q
    case Raw => q
  }

  function AttemptReconnect(p: Page): Page {
    if p.attempts >= p.maxAttempts then p.(connection := Error)
    else p.(attempts := p.attempts + 1, connection := Reconnecting,
            timers := p.timers + 1, delays := p.delays + [Delay(p.attempts + 1)])
  }

  /** onclose of socket s. */
  function AfterClose(p: Page, s: nat, code: nat): Page
    requires s < |p.sockets|
  {
    var q := SocketDown(p, s);
    if q.cleanedUp then q
    else if code == TICKET_REJECTED then Connect(q.(connection := SessionExpired))
    else AttemptReconnect(q)
  }

  function AfterTimer(p: Page): Page
    requires p.timers > 0
  {
    var q := p.(timers := p.timers - 1);
    if q.cleanedUp then q else Connect(q)
  }

  predicate SocketIsOpen(p: Page) {
    p.websocket.Some? && p.websocket.value < |p.sockets| && p.sockets[p.websocket.value].state.Open?
  }

  function AfterTyping(p: Page, text: string, at: nat): Page {
    if SocketIsOpen(p) && p.isSshConnected then MarkActivity(SendMessage(p, SshData(text)), at) else p
  }

  function AfterUnload(p: Page): Page {
    var q := p.(cleanedUp := true);
    if !SocketIsOpen(q) then q
    else
      var r := if q.isSshConnected then SendMessage(q, SshClose) else q;
      var i := r.websocket.value;
      r.(sockets := r.sockets[i := r.sockets[i].(state := Closing)])
  }

  /** What the browser can deliver: replies to requests made, opens and closes of sockets that allow
      them, and a 4401 only on a socket that was opened. Times never go back. */
  predicate CanHappen(p: Page, e: Event) {
    match e
    case Start => !p.started
    case Refused(_) => p.fetches > 0
    case Granted(_) => p.fetches > 0
    case Opened(s, at) => s < |p.sockets| && p.sockets[s].state.Opening? && at >= p.clock && at > 0
    case Received(s, _, at) => s < |p.sockets| && p.sockets[s].state.Open? && at >= p.clock && at > 0
    case SocketClosed(s, code) =>
      && s < |p.sockets| && !p.sockets[s].state.Closed?
      && (code == TICKET_REJECTED ==> !p.sockets[s].state.Opening?)
    case TimerFires => p.timers > 0
    case Tick => p.heartbeat
    case Typed(_, at) => at >= p.clock && at > 0
    case Unload => true
  }

  function OnEvent(p: Page, e: Event): Page {
    if !CanHappen(p, e) then p
    else
      match e
      case Start => Connect(p.(started := true))
      case Refused(status) => AfterRefusal(p, status)
      case Granted(throws) => AfterGrant(p, throws)
      case Opened(s, at) => AfterOpen(p, s, at)
      case Received(_, m, at) => AfterMessage(p, m, at)
      case SocketClosed(s, code) => AfterClose(p, s, code)
      case TimerFires => AfterTimer(p)
      case Tick => Flush(p)
      case Typed(text, at) => AfterTyping(p, text, at)
      case Unload => AfterUnload(p)
  }

  function Play(p: Page, es: seq<Event>): Page {
    if es == [] then p else OnEvent(Play(p, es[..|es| - 1]), es[|es| - 1])
  }

  function PlayFresh(maxAttempts: nat, es: seq<Event>): Page {
    Play(Fresh(maxAttempts), es)
  }
}
