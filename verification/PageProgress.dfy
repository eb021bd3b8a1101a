/** What the terminal page does about each event, in every state it can reach: it asks, connects, sends,
    waits and tries again when it should, and not otherwise. */
module PageProgress {
  import opened Prelude
  import opened TerminalPage
  import opened TerminalTheorems
  import opened ReconnectSeries

  /** The first delays, and then the longest. */
  lemma DelayValues(n: nat)
    ensures Delay(1) == 1000 && Delay(2) == 2000 && Delay(3) == 4000 && Delay(4) == 8000
    ensures n >= 5 ==> Delay(n) == 15000
  {
    assert Pow2(0) == 1 && Pow2(1) == 2 && Pow2(2) == 4 && Pow2(3) == 8;
    if n >= 5 {
      Pow2Monotone(4, n - 1);
      assert Pow2(4) == 16;
    }
  }

  /** Nothing was requested, armed or tried. */
  predicate SameChain(p: Page, q: Page) {
    q.issued == p.issued && q.fetches == p.fetches && SameTimers(p, q)
  }

  predicate SameTimers(p: Page, q: Page) {
    q.timers == p.timers && q.delays == p.delays && q.attempts == p.attempts
  }

  /** One session request was made. */
  predicate Requests(p: Page, q: Page) {
    q.issued == p.issued + 1 && q.fetches == p.fetches + 1
  }

  /** Main result: when a socket closes otherwise than with a 4401, and the page is not cleaned up, a
      timer is armed with the next delay exactly if attempts are left; no request is made. */
  lemma LostSocketArmsATimerIff(maxAttempts: nat, es: seq<Event>, s: nat, code: nat)
    requires CanHappen(PlayFresh(maxAttempts, es), SocketClosed(s, code)) && code != TICKET_REJECTED
    requires !PlayFresh(maxAttempts, es).cleanedUp
    ensures var p := PlayFresh(maxAttempts, es);
            var q := OnEvent(p, SocketClosed(s, code));
            && q.issued == p.issued && q.fetches == p.fetches
            && if p.attempts < maxAttempts then
                 && q.timers == p.timers + 1 == 1 && q.attempts == p.attempts + 1
                 && q.delays == p.delays + [Delay(p.attempts + 1)]
               else SameTimers(p, q)
  {
    PlayKeepsInv(Fresh(maxAttempts), es);
    KeepsMaximum(maxAttempts, es);
    LiveSocketIsCurrent(PlayFresh(maxAttempts, es), s);
  }

  lemma {:induction false} KeepsMaximum(maxAttempts: nat, es: seq<Event>)
    ensures PlayFresh(maxAttempts, es).maxAttempts == maxAttempts
    decreases |es|
  {
    if es != [] {
      KeepsMaximum(maxAttempts, es[..|es| - 1]);
      EventKeepsMaximum(PlayFresh(maxAttempts, es[..|es| - 1]), es[|es| - 1]);
    }
  }

  lemma EventKeepsMaximum(p: Page, e: Event)
    ensures OnEvent(p, e).maxAttempts == p.maxAttempts
  {
    if e.Opened? {
      if CanHappen(p, e) { OpenMakesNoProgress(p, e.s, e.at); }
    } else if !ChainStep(e) {
      TrafficMakesNoProgress(p, e);
    }
  }

  /** Main result: a reconnect timer that fires makes one request, unless the page is cleaned up. */
  lemma FiredTimerRequests(maxAttempts: nat, es: seq<Event>)
    requires CanHappen(PlayFresh(maxAttempts, es), TimerFires)
    ensures var p := PlayFresh(maxAttempts, es);
            var q := OnEvent(p, TimerFires);
            && q.timers == p.timers - 1 == 0 && q.attempts == p.attempts && q.delays == p.delays
            && if p.cleanedUp then q.issued == p.issued && q.fetches == p.fetches else Requests(p, q)
  {
    PlayKeepsInv(Fresh(maxAttempts), es);
  }

  /** Main result: a 4401 on a page that is not cleaned up makes one request at once, and costs no
      attempt. */
  lemma RejectedTicketRequestsAtOnce(maxAttempts: nat, es: seq<Event>, s: nat)
    requires CanHappen(PlayFresh(maxAttempts, es), SocketClosed(s, TICKET_REJECTED))
    ensures var p := PlayFresh(maxAttempts, es);
            var q := OnEvent(p, SocketClosed(s, TICKET_REJECTED));
            SameTimers(p, q) && if p.cleanedUp then q.issued == p.issued && q.fetches == p.fetches else Requests(p, q)
  {
  }

  /** Main result: a session reply that can be used creates one socket, for a ticket of its own, and that
      is the page's; one that cannot creates none. */
  lemma SessionReplyConnects(maxAttempts: nat, es: seq<Event>, throws: bool)
    requires CanHappen(PlayFresh(maxAttempts, es), Granted(throws))
    ensures var p := PlayFresh(maxAttempts, es);
            var q := OnEvent(p, Granted(throws));
            && q.issued == p.issued && q.fetches == p.fetches - 1 && SameTimers(p, q)
            && if throws then q.sockets == p.sockets && q.connection == Error
               else
                 && q.sockets == p.sockets + [Socket(p.granted, Opening, [])] && q.websocket == Some(|p.sockets|)
                 && forall i :: 0 <= i < |p.sockets| ==> p.sockets[i].ticket != p.granted
  {
    PlayKeepsInv(Fresh(maxAttempts), es);
  }

  /** Main result: a refused session is final. No request, timer or socket follows from it, and the page
      says why. */
  lemma RefusedSessionIsFinal(maxAttempts: nat, es: seq<Event>, status: nat)
    requires CanHappen(PlayFresh(maxAttempts, es), Refused(status))
    ensures var p := PlayFresh(maxAttempts, es);
            var q := OnEvent(p, Refused(status));
            && q.issued == p.issued && q.fetches == 0 && q.timers == 0 && q.sockets == p.sockets
            && (forall s :: 0 <= s < |q.sockets| ==> !Live(q.sockets[s]))
            && (q.connection == AuthorizationFailed <==> status == 404)
            && (q.connection == DeviceOffline <==> status == 409)
            && (q.connection == Error <==> status != 404 && status != 409)
  {
    PlayKeepsInv(Fresh(maxAttempts), es);
    var p := PlayFresh(maxAttempts, es);
    forall s | 0 <= s < |p.sockets| ensures !Live(p.sockets[s]) {
      if Live(p.sockets[s]) { LiveSocketIsCurrent(p, s); }
    }
  }

  /** The one message added to what socket s has sent; all else stays sent as it was. */
  predicate Sends(p: Page, q: Page, s: nat, m: Message) {
    && s < |p.sockets| == |q.sockets|
    && q.sockets[s].outbox == p.sockets[s].outbox + [m]
    && forall i :: 0 <= i < |p.sockets| && i != s ==> q.sockets[i].outbox == p.sockets[i].outbox
  }

  predicate SendsNothing(p: Page, q: Page) {
    |q.sockets| == |p.sockets| && forall i :: 0 <= i < |p.sockets| ==> q.sockets[i].outbox == p.sockets[i].outbox
  }

  /** A tick posts the newest marked activity. */
  lemma TickCovers(p: Page)
    requires Inv(p) && p.heartbeat
    ensures var t := OnEvent(p, Tick); t.posts != [] && t.posts[|t.posts| - 1] == p.lastActivity
  {
    EventKeepsInv(p, Tick);
  }

  /** What one message makes the page do. */
  lemma MessageSends(p: Page, s: nat, m: Incoming, at: nat)
    requires Inv(p) && s == |p.sockets| - 1 && p.sockets[s].state.Open?
    ensures var q := AfterMessage(p, m, at);
            && (if m.Ready? then Sends(p, q, s, SshConnect) && q.connection == Connected else SendsNothing(p, q))
            && (m.Output? ==> q.isSshConnected)
            && SameChain(p, q) && q.lastActivity == at && q.heartbeat
  {
  }

  /** What typing makes the page do. */
  lemma TypingSends(p: Page, text: string, at: nat)
    requires Inv(p)
    ensures var q := AfterTyping(p, text, at);
            && SameChain(p, q)
            && if p.isSshConnected && NewestOpen(p) then
                 Sends(p, q, |p.sockets| - 1, SshData(text)) && q.lastActivity == at && q.heartbeat
               else q == p
  {
  }

  /** Main result: when the server says it is ready, the page asks for SSH on that socket; no other
      message makes it send anything. Whatever is received, the next heartbeat covers it. */
  lemma ReceivedTraffic(maxAttempts: nat, es: seq<Event>, s: nat, m: Incoming, at: nat)
    requires CanHappen(PlayFresh(maxAttempts, es), Received(s, m, at))
    ensures var p := PlayFresh(maxAttempts, es);
            var q := OnEvent(p, Received(s, m, at));
            && (if m.Ready? then Sends(p, q, s, SshConnect) && q.connection == Connected else SendsNothing(p, q))
            && (m.Output? ==> q.isSshConnected)
            && SameChain(p, q)
            && var t := OnEvent(q, Tick); t.posts != [] && t.posts[|t.posts| - 1] == at
  {
    var p := PlayFresh(maxAttempts, es);
    PlayKeepsInv(Fresh(maxAttempts), es);
    LiveSocketIsCurrent(p, s);
    EventKeepsInv(p, Received(s, m, at));
    MessageSends(p, s, m, at);
    TickCovers(AfterMessage(p, m, at));
  }

  /** Main result: typed text goes out as it is, over the open socket, exactly once SSH is up, and then the
      next heartbeat covers it; otherwise nothing is sent. */
  lemma TypedTextIsSent(maxAttempts: nat, es: seq<Event>, text: string, at: nat)
    requires CanHappen(PlayFresh(maxAttempts, es), Typed(text, at))
    ensures var p := PlayFresh(maxAttempts, es);
            var q := OnEvent(p, Typed(text, at));
            && SameChain(p, q)
            && if p.isSshConnected && NewestOpen(p) then
                 && Sends(p, q, |p.sockets| - 1, SshData(text))
                 && var t := OnEvent(q, Tick); t.posts != [] && t.posts[|t.posts| - 1] == at
               else q == p
  {
    var p := PlayFresh(maxAttempts, es);
    PlayKeepsInv(Fresh(maxAttempts), es);
    EventKeepsInv(p, Typed(text, at));
    TypingSends(p, text, at);
    if p.isSshConnected && NewestOpen(p) { TickCovers(AfterTyping(p, text, at)); }
  }

  predicate NewestOpen(p: Page) {
    p.sockets != [] && p.sockets[|p.sockets| - 1].state.Open?
  }

  /** What cleaning up makes the page do. */
  lemma CleanupSends(p: Page)
    requires Inv(p)
    ensures var q := AfterUnload(p);
            && q.cleanedUp && SameChain(p, q)
            && (NewestOpen(p) ==> q.sockets[|p.sockets| - 1].state.Closing?)
            && if NewestOpen(p) && p.isSshConnected then Sends(p, q, |p.sockets| - 1, SshClose)
               else SendsNothing(p, q)
  {
  }

  /** Main result: cleaning up closes an open socket, after telling SSH if that is up, and sends nothing
      otherwise. */
  lemma UnloadCloses(maxAttempts: nat, es: seq<Event>)
    ensures var p := PlayFresh(maxAttempts, es);
            var q := OnEvent(p, Unload);
            && q.cleanedUp && SameChain(p, q)
            && (NewestOpen(p) ==> q.sockets[|p.sockets| - 1].state.Closing?)
            && if NewestOpen(p) && p.isSshConnected then Sends(p, q, |p.sockets| - 1, SshClose)
               else SendsNothing(p, q)
  {
    PlayKeepsInv(Fresh(maxAttempts), es);
    CleanupSends(PlayFresh(maxAttempts, es));
  }

  // An outage: every reconnect fails.

  /** Session replies come, but each socket closes before it opens. */
  function Outage(n: nat): seq<Event> {
    if n == 0 then [Start]
    else Outage(n - 1) + [Granted(false), SocketClosed(n - 1, 1006), TimerFires]
  }

  /** n reconnects have been timed, and the next request is under way. */
  predicate Retried(p: Page, n: nat, maxAttempts: nat) {
    && p.started && p.attempts == n && p.maxAttempts == maxAttempts && !p.cleanedUp
    && p.fetches == 1 && p.timers == 0 && p.issued == n + 1 && |p.sockets| == n
  }

  lemma PlayAppends(p: Page, es: seq<Event>, e: Event)
    ensures Play(p, es + [e]) == OnEvent(Play(p, es), e)
  {
    assert (es + [e])[..|es|] == es;
  }

  lemma OneMoreRetry(p: Page, n: nat, maxAttempts: nat)
    requires Retried(p, n, maxAttempts) && n < maxAttempts
    ensures Retried(OnEvent(OnEvent(OnEvent(p, Granted(false)), SocketClosed(n, 1006)), TimerFires), n + 1, maxAttempts)
  {
  }

  lemma {:induction false} OutageRetries(n: nat, maxAttempts: nat)
    requires n <= maxAttempts
    ensures Retried(PlayFresh(maxAttempts, Outage(n)), n, maxAttempts)
  {
    if n > 0 {
      OutageRetries(n - 1, maxAttempts);
      var before, p := Outage(n - 1), Fresh(maxAttempts);
      assert Outage(n) == before + [Granted(false)] + [SocketClosed(n - 1, 1006)] + [TimerFires];
      PlayAppends(p, before, Granted(false));
      PlayAppends(p, before + [Granted(false)], SocketClosed(n - 1, 1006));
      PlayAppends(p, before + [Granted(false)] + [SocketClosed(n - 1, 1006)], TimerFires);
      OneMoreRetry(Play(p, before), n - 1, maxAttempts);
    } else {
      PlayAppends(Fresh(maxAttempts), [], Start);
      assert [] + [Start] == Outage(0);
    }
  }

  /** Main result: in an outage the page uses up every attempt it has: after that many failed reconnects
      it has made one more request than that, and armed the whole series of delays. */
  lemma OutageUsesEveryAttempt(maxAttempts: nat)
    ensures var p := PlayFresh(maxAttempts, Outage(maxAttempts));
            p.attempts == maxAttempts && p.issued == maxAttempts + 1 && p.delays == Delays(0, maxAttempts)
  {
    OutageRetries(maxAttempts, maxAttempts);
    OutageDoesNotOpen(maxAttempts);
    ArmsTheSeries(Fresh(maxAttempts), Outage(maxAttempts));
  }

  lemma OutageHasNoOpens(n: nat)
    ensures forall k :: 0 <= k < |Outage(n)| ==> !Outage(n)[k].Opened?
  {
  }

  lemma OutageDoesNotOpen(maxAttempts: nat)
    ensures NoOpens(Fresh(maxAttempts), Outage(maxAttempts))
  {
    OutageHasNoOpens(maxAttempts);
  }
}
