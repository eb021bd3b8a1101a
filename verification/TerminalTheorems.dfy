/** What holds in every state the terminal page can reach. */
module TerminalTheorems {
  import opened Prelude
  import opened TerminalPage

  predicate Live(s: Socket) {
    !s.state.Closed?
  }

  /** Whether the newest socket is still alive. */
  predicate NewestLive(p: Page) {
    p.sockets != [] && Live(p.sockets[|p.sockets| - 1])
  }

  /** One chain: a single request, socket or timer; every older socket is closed; this.websocket is
      the newest one. */
  ghost predicate Chain(p: Page) {
    && p.fetches + p.timers + One(NewestLive(p)) <= 1
    && (p.fetches + p.timers + |p.sockets| > 0 ==> p.started)
    && (forall i :: 0 <= i < |p.sockets| - 1 ==> !Live(p.sockets[i]))
    && p.websocket == (if p.sockets == [] then None else Some(|p.sockets| - 1))
  }

  /** What a socket has sent: nothing before it opened, then its own ticket, then no ticket again. */
  predicate Honest(s: Socket) {
    && (s.state.Opening? ==> s.outbox == [])
    && (s.state.Open? || s.state.Closing? ==> s.outbox != [])
    && (s.outbox != [] ==> s.outbox[0] == Authenticate(s.ticket))
    && (forall k :: 1 <= k < |s.outbox| ==> !s.outbox[k].Authenticate?)
  }

  ghost predicate Tickets(p: Page) {
    && (forall i :: 0 <= i < |p.sockets| ==> Honest(p.sockets[i]) && p.sockets[i].ticket < p.granted)
    && (forall i, j :: 0 <= i < j < |p.sockets| ==> p.sockets[i].ticket < p.sockets[j].ticket)
  }

  /** The newest socket has opened and its close event has not come yet. */
  predicate Up(p: Page) {
    p.sockets != [] && (p.sockets[|p.sockets| - 1].state.Open? || p.sockets[|p.sockets| - 1].state.Closing?)
  }

  ghost predicate Increasing(xs: seq<nat>) {
    forall i, j :: 0 <= i < j < |xs| ==> xs[i] < xs[j]
  }

  /** Flags, heartbeat and attempts. */
  ghost predicate Flags(p: Page) {
    && p.isConnected == Up(p)
    && p.heartbeat == Up(p)
    && (p.isSshConnected ==> Up(p))
    && p.attempts <= p.maxAttempts
    && p.lastFlush <= p.lastActivity <= p.clock
    && (p.heartbeat ==> Increasing(p.posts) && p.posts != [] && p.posts[|p.posts| - 1] == p.lastFlush)
    && (forall k :: 0 <= k < |p.delays| ==> 1000 <= p.delays[k] <= MAX_DELAY_MS)
  }

  ghost predicate Inv(p: Page) {
    Chain(p) && Tickets(p) && Flags(p)
  }

  lemma {:induction false} Pow2Grows(n: nat)
    ensures Pow2(n) >= 1
  {
    if n > 0 { Pow2Grows(n - 1); }
  }

  lemma DelayInRange(n: nat)
    requires n >= 1
    ensures 1000 <= Delay(n) <= MAX_DELAY_MS
  {
    Pow2Grows(n - 1);
  }

  lemma ReconnectKeepsInv(p: Page)
    requires Inv(p) && p.started && p.fetches + p.timers + One(NewestLive(p)) == 0
    ensures Inv(AttemptReconnect(p)) && Inv(Connect(p))
  {
    if p.attempts < p.maxAttempts { DelayInRange(p.attempts + 1); }
  }

  lemma OpenKeepsInv(p: Page, s: nat, at: nat)
    requires Inv(p) && CanHappen(p, Opened(s, at))
    ensures Inv(AfterOpen(p, s, at))
  {
    assert s == |p.sockets| - 1;
  }

  lemma DownKeepsInv(p: Page, s: nat)
    requires Inv(p) && s < |p.sockets| && Live(p.sockets[s])
    ensures Inv(SocketDown(p, s))
    ensures var q := SocketDown(p, s); q.started && q.fetches + q.timers + One(NewestLive(q)) == 0
  {
    assert s == |p.sockets| - 1;
  }

  lemma CloseKeepsInv(p: Page, s: nat, code: nat)
    requires Inv(p) && CanHappen(p, SocketClosed(s, code))
    ensures Inv(AfterClose(p, s, code))
  {
    var q := SocketDown(p, s);
    DownKeepsInv(p, s);
    ReconnectKeepsInv(q);
    ReconnectKeepsInv(q.(connection := SessionExpired));
  }

  lemma SendKeepsInv(p: Page, m: Message)
    requires Inv(p) && CanSend(p) && !m.Authenticate?
    ensures Inv(SendMessage(p, m))
  {
  }

  lemma MarkKeepsInv(p: Page, at: nat)
    requires Inv(p) && at >= p.clock
    ensures Inv(MarkActivity(p, at))
  {
  }

  lemma ReadyKeepsInv(p: Page)
    requires Inv(p)
    ensures var q := p.(connection := Connected); Inv(if CanSend(q) then SendMessage(q, SshConnect) else q)
  {
    var q := p.(connection := Connected);
    if CanSend(q) { SendKeepsInv(q, SshConnect); }
  }

  lemma OutputKeepsInv(p: Page)
    requires Inv(p) && Up(p)
    ensures Inv(p.(isSshConnected := true))
  {
  }

  lemma MessageKeepsInv(p: Page, s: nat, m: Incoming, at: nat)
    requires Inv(p) && CanHappen(p, Received(s, m, at))
    ensures Inv(AfterMessage(p, m, at))
  {
    assert s == |p.sockets| - 1;
    MarkKeepsInv(p, at);
    if m.Ready? { ReadyKeepsInv(MarkActivity(p, at)); } else if m.Output? { OutputKeepsInv(MarkActivity(p, at)); }
  }

  lemma UnloadKeepsInv(p: Page)
    requires Inv(p)
    ensures Inv(AfterUnload(p))
  {
    var q := p.(cleanedUp := true);
    if SocketIsOpen(q) && q.isSshConnected { SendKeepsInv(q, SshClose); }
  }

  lemma FlushKeepsInv(p: Page)
    requires Inv(p) && p.heartbeat
    ensures Inv(Flush(p))
  {
  }

  lemma RefusalKeepsInv(p: Page, status: nat)
    requires Inv(p) && p.fetches > 0
    ensures Inv(AfterRefusal(p, status))
  {
  }

  lemma GrantKeepsInv(p: Page, throws: bool)
    requires Inv(p) && p.fetches > 0
    ensures Inv(AfterGrant(p, throws))
  {
    assert !NewestLive(p);
  }

  lemma TypingKeepsInv(p: Page, text: string, at: nat)
    requires Inv(p) && CanHappen(p, Typed(text, at))
    ensures Inv(AfterTyping(p, text, at))
  {
    if SocketIsOpen(p) && p.isSshConnected {
      SendKeepsInv(p, SshData(text));
      MarkKeepsInv(SendMessage(p, SshData(text)), at);
    }
  }

  lemma StartKeepsInv(p: Page)
    requires Inv(p) && !p.started
    ensures Inv(Connect(p.(started := true)))
  {
    ReconnectKeepsInv(p.(started := true));
  }

  lemma TimerKeepsInv(p: Page)
    requires Inv(p) && p.timers > 0
    ensures Inv(AfterTimer(p))
  {
    var q := p.(timers := p.timers - 1);
    assert NewestLive(q) == NewestLive(p) && Up(q) == Up(p);
    assert Tickets(q);
    ReconnectKeepsInv(q);
  }

  lemma EventKeepsInv(p: Page, e: Event)
    requires Inv(p)
    ensures Inv(OnEvent(p, e))
  {
    if CanHappen(p, e) {
      match e
      case Start => StartKeepsInv(p);
      case Refused(status) => RefusalKeepsInv(p, status);
      case Granted(throws) => GrantKeepsInv(p, throws);
      case Opened(s, at) => OpenKeepsInv(p, s, at);
      case Received(s, m, at) => MessageKeepsInv(p, s, m, at);
      case SocketClosed(s, code) => CloseKeepsInv(p, s, code);
      case TimerFires => TimerKeepsInv(p);
      case Tick => FlushKeepsInv(p);
      case Typed(text, at) => TypingKeepsInv(p, text, at);
      case Unload => UnloadKeepsInv(p);
    }
  }

  lemma {:induction false} PlayKeepsInv(p: Page, es: seq<Event>)
    requires Inv(p)
    ensures Inv(Play(p, es))
    decreases |es|
  {
    if es != [] {
      PlayKeepsInv(p, es[..|es| - 1]);
      EventKeepsInv(Play(p, es[..|es| - 1]), es[|es| - 1]);
    }
  }

  lemma LiveSocketIsCurrent(p: Page, s: nat)
    requires Inv(p) && s < |p.sockets| && Live(p.sockets[s])
    ensures p.websocket == Some(s) && p.fetches == 0 && p.timers == 0
  {
    assert s == |p.sockets| - 1;
  }

  /** Main result: at most one request, live socket or armed timer exists, and a live socket is the one
      this.websocket refers to. */
  lemma SingleConnectionChain(maxAttempts: nat, es: seq<Event>)
    ensures var p := PlayFresh(maxAttempts, es);
            && p.fetches + p.timers <= 1
            && (forall s :: 0 <= s < |p.sockets| && Live(p.sockets[s]) ==>
                  p.websocket == Some(s) && p.fetches == 0 && p.timers == 0)
  {
    PlayKeepsInv(Fresh(maxAttempts), es);
    var p := PlayFresh(maxAttempts, es);
    forall s | 0 <= s < |p.sockets| && Live(p.sockets[s])
      ensures p.websocket == Some(s) && p.fetches == 0 && p.timers == 0
    {
      LiveSocketIsCurrent(p, s);
    }
  }

  /** So an open or message callback finds its own socket in this.websocket, ready to be written to. */
  lemma CallbacksUseTheirOwnSocket(maxAttempts: nat, es: seq<Event>, e: Event)
    requires (e.Opened? || e.Received?) && CanHappen(PlayFresh(maxAttempts, es), e)
    ensures PlayFresh(maxAttempts, es).websocket == Some(e.s)
    ensures e.Opened? ==>
              var q := OnEvent(PlayFresh(maxAttempts, es), e);
              q.sockets[e.s].outbox == [Authenticate(q.sockets[e.s].ticket)]
  {
    SingleConnectionChain(maxAttempts, es);
    PlayKeepsInv(Fresh(maxAttempts), es);
    assert Live(PlayFresh(maxAttempts, es).sockets[e.s]);
    assert Honest(PlayFresh(maxAttempts, es).sockets[e.s]);
  }

  /** Main result: a ticket is sent at most once in all, and only over the socket that was opened from
      the same session reply. */
  lemma TicketsAreSentOnce(maxAttempts: nat, es: seq<Event>, i: nat, k: nat, j: nat, l: nat)
    requires var p := PlayFresh(maxAttempts, es);
             && i < |p.sockets| && k < |p.sockets[i].outbox| && p.sockets[i].outbox[k].Authenticate?
             && j < |p.sockets| && l < |p.sockets[j].outbox|
             && p.sockets[j].outbox[l] == p.sockets[i].outbox[k]
    ensures var p := PlayFresh(maxAttempts, es);
            i == j && k == l && p.sockets[i].outbox[k].ticket == p.sockets[i].ticket
  {
    PlayKeepsInv(Fresh(maxAttempts), es);
    var p := PlayFresh(maxAttempts, es);
    assert Honest(p.sockets[i]) && Honest(p.sockets[j]);
  }

  /** Main result: the heartbeat is armed exactly while the current socket is open (or its close event
      is still to come), its posts cover strictly newer and newer activity, and a tick leaves no
      marked activity unposted. */
  lemma HeartbeatCoversActivity(maxAttempts: nat, es: seq<Event>)
    ensures var p := PlayFresh(maxAttempts, es);
            && p.heartbeat == Up(p)
            && (p.heartbeat ==> Increasing(p.posts))
            && (p.heartbeat ==> var q := OnEvent(p, Tick);
                  q.posts != [] && q.posts[|q.posts| - 1] == p.lastActivity && q.lastFlush == p.lastActivity)
  {
    PlayKeepsInv(Fresh(maxAttempts), es);
  }

  /** Neither the connection's progress nor its bookkeeping differs. */
  predicate SameProgress(p: Page, q: Page) {
    && q.started == p.started && q.fetches == p.fetches && q.issued == p.issued && q.timers == p.timers
    && q.delays == p.delays && |q.sockets| == |p.sockets| && q.maxAttempts == p.maxAttempts
  }

  lemma SendMakesNoProgress(p: Page, m: Message)
    requires CanSend(p)
    ensures SameProgress(p, SendMessage(p, m))
    ensures SendMessage(p, m).attempts == p.attempts && SendMessage(p, m).cleanedUp == p.cleanedUp
  {
  }

  lemma HeartbeatMakesNoProgress(p: Page)
    ensures SameProgress(p, Flush(p)) && SameProgress(p, StartHeartbeat(p))
    ensures Flush(p).attempts == p.attempts && Flush(p).cleanedUp == p.cleanedUp
    ensures StartHeartbeat(p).cleanedUp == p.cleanedUp
  {
  }

  lemma OpenMakesNoProgress(p: Page, s: nat, at: nat)
    requires CanHappen(p, Opened(s, at))
    ensures SameProgress(p, AfterOpen(p, s, at)) && AfterOpen(p, s, at).cleanedUp == p.cleanedUp
  {
    var q := SocketUp(p, s);
    if CanSend(q) {
      var r := SendMessage(q, Authenticate(p.sockets[s].ticket));
      SendMakesNoProgress(q, Authenticate(p.sockets[s].ticket));
      HeartbeatMakesNoProgress(MarkActivity(r, at));
    }
  }

  lemma MessageMakesNoProgress(p: Page, m: Incoming, at: nat)
    ensures var q := AfterMessage(p, m, at);
            SameProgress(p, q) && q.attempts == p.attempts && q.cleanedUp == p.cleanedUp
  {
    var r := MarkActivity(p, at).(connection := Connected);
    if CanSend(r) { SendMakesNoProgress(r, SshConnect); }
  }

  lemma TypingMakesNoProgress(p: Page, text: string, at: nat)
    ensures var q := AfterTyping(p, text, at);
            SameProgress(p, q) && q.attempts == p.attempts && q.cleanedUp == p.cleanedUp
  {
    if SocketIsOpen(p) { SendMakesNoProgress(p, SshData(text)); }
  }

  lemma UnloadMakesNoProgress(p: Page)
    ensures var q := AfterUnload(p); SameProgress(p, q) && q.attempts == p.attempts && q.cleanedUp
  {
    var q := p.(cleanedUp := true);
    if SocketIsOpen(q) { SendMakesNoProgress(q, SshClose); }
  }

  /** Traffic, heartbeats, typing and unloading do not move the connection. */
  lemma TrafficMakesNoProgress(p: Page, e: Event)
    requires e.Received? || e.Tick? || e.Typed? || e.Unload?
    ensures SameProgress(p, OnEvent(p, e)) && OnEvent(p, e).attempts == p.attempts
    ensures p.cleanedUp ==> OnEvent(p, e).cleanedUp
  {
    match e
    case Received(_, m, at) => MessageMakesNoProgress(p, m, at);
    case Tick => HeartbeatMakesNoProgress(p);
    case Typed(text, at) => TypingMakesNoProgress(p, text, at);
    case _ => UnloadMakesNoProgress(p);
  }

  lemma CleanupStaysFinal(p: Page, e: Event)
    requires p.cleanedUp && p.started
    ensures var q := OnEvent(p, e);
            && q.cleanedUp && q.started
            && q.issued == p.issued && q.timers <= p.timers && q.delays == p.delays
            && q.fetches <= p.fetches && |q.sockets| + q.fetches <= |p.sockets| + p.fetches
  {
    if e.Opened? {
      if CanHappen(p, e) { OpenMakesNoProgress(p, e.s, e.at); }
    } else if !ChainStep(e) {
      TrafficMakesNoProgress(p, e);
    } else if CanHappen(p, e) && e.SocketClosed? {
      assert AfterClose(p, e.s, e.code).delays == p.delays;
    }
  }

  /** Main result: cleanup is final. Whatever happens afterwards, no further session request is made,
      no timer armed, and a socket is created only for a request that was already in flight. */
  lemma {:induction false} CleanupIsFinal(p: Page, es: seq<Event>)
    requires Inv(p) && p.cleanedUp && p.started
    ensures var q := Play(p, es);
            && q.cleanedUp && q.started
            && q.issued == p.issued && q.timers <= p.timers && q.delays == p.delays
            && q.fetches <= p.fetches
            && |q.sockets| + q.fetches <= |p.sockets| + p.fetches <= |p.sockets| + 1
    decreases |es|
  {
    if es != [] {
      CleanupIsFinal(p, es[..|es| - 1]);
      CleanupStaysFinal(Play(p, es[..|es| - 1]), es[|es| - 1]);
    }
  }

  /** Timed reconnects that take place along es. */
  function TimedReconnects(p: Page, es: seq<Event>): nat {
    if es == [] then 0
    else
      TimedReconnects(p, es[..|es| - 1])
        + One(es[|es| - 1].TimerFires? && CanHappen(Play(p, es[..|es| - 1]), TimerFires))
  }

  /** No socket opens along es. */
  predicate NoOpens(p: Page, es: seq<Event>) {
    forall n :: 0 <= n < |es| ==> !(es[n].Opened? && CanHappen(Play(p, es[..n]), es[n]))
  }

  lemma NoOpensBefore(p: Page, es: seq<Event>)
    requires es != [] && NoOpens(p, es)
    ensures NoOpens(p, es[..|es| - 1])
    ensures !(es[|es| - 1].Opened? && CanHappen(Play(p, es[..|es| - 1]), es[|es| - 1]))
  {
    var fs := es[..|es| - 1];
    forall n | 0 <= n < |fs| ensures !(fs[n].Opened? && CanHappen(Play(p, fs[..n]), fs[n])) {
      assert fs[..n] == es[..n] && fs[n] == es[n];
    }
  }

  lemma ReconnectBudget(p: Page, e: Event)
    requires p.attempts <= p.maxAttempts && !(e.Opened? && CanHappen(p, e))
    ensures var q := OnEvent(p, e);
            && q.maxAttempts == p.maxAttempts && p.attempts <= q.attempts <= q.maxAttempts
            && q.timers - q.attempts + One(e.TimerFires? && CanHappen(p, e)) <= p.timers - p.attempts
  {
    if !e.Opened? && !ChainStep(e) { TrafficMakesNoProgress(p, e); }
  }

  /** Main result: without a successful open, at most maxAttempts - attempts reconnects are still
      timed (and one more if a timer is already armed). */
  lemma {:induction false} ReconnectsAreBounded(p: Page, es: seq<Event>)
    requires p.attempts <= p.maxAttempts && NoOpens(p, es)
    ensures var q := Play(p, es);
            && q.maxAttempts == p.maxAttempts && q.attempts <= q.maxAttempts
            && TimedReconnects(p, es) + (q.maxAttempts - q.attempts) + q.timers
               <= (p.maxAttempts - p.attempts) + p.timers
    decreases |es|
  {
    if es != [] {
      NoOpensBefore(p, es);
      ReconnectsAreBounded(p, es[..|es| - 1]);
      ReconnectBudget(Play(p, es[..|es| - 1]), es[|es| - 1]);
    }
  }

  /** Where the chain stands: how much it can still do before it needs another attempt. */
  function Stage(p: Page): nat {
    if !p.started || p.timers > 0 then 3
    else if p.fetches > 0 then 2
    else if Up(p) then 3
    else if NewestLive(p) then 1
    else 0
  }

  function Rank(p: Page): int {
    3 * (p.maxAttempts - p.attempts) + Stage(p)
  }

  /** Steps of the connection itself, as opposed to traffic, heartbeats and unloading. */
  predicate ChainStep(e: Event) {
    e.Start? || e.Refused? || e.Granted? || e.SocketClosed? || e.TimerFires?
  }

  function ChainSteps(p: Page, es: seq<Event>): nat {
    if es == [] then 0
    else
      ChainSteps(p, es[..|es| - 1])
        + One(ChainStep(es[|es| - 1]) && CanHappen(Play(p, es[..|es| - 1]), es[|es| - 1]))
  }

  lemma ChainStepDescends(p: Page, e: Event)
    requires Inv(p) && !(e.Opened? && CanHappen(p, e))
    ensures Rank(OnEvent(p, e)) + One(ChainStep(e) && CanHappen(p, e)) <= Rank(p)
  {
    if CanHappen(p, e) && e.SocketClosed? { assert e.s == |p.sockets| - 1; }
  }

  /** Main result: without a successful open the machine stops: at most 3 * maxAttempts + 3 further
      connection steps of any kind. */
  lemma {:induction false} ConnectionStops(p: Page, es: seq<Event>)
    requires Inv(p) && NoOpens(p, es)
    ensures ChainSteps(p, es) + Rank(Play(p, es)) <= Rank(p)
    ensures ChainSteps(p, es) <= 3 * p.maxAttempts + 3
    decreases |es|
  {
    if es != [] {
      var fs := es[..|es| - 1];
      NoOpensBefore(p, es);
      ConnectionStops(p, fs);
      PlayKeepsInv(p, fs);
      ChainStepDescends(Play(p, fs), es[|es| - 1]);
    }
    ReconnectsAreBounded(p, es);
  }
}
