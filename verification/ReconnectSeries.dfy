/** The delays that the terminal page arms: one series of attempts after each successful open. */
module ReconnectSeries {
  import opened TerminalPage
  import opened TerminalTheorems

  lemma {:induction false} Pow2Monotone(m: nat, n: nat)
    requires m <= n
    ensures Pow2(m) <= Pow2(n)
  {
    if m < n {
      Pow2Monotone(m, n - 1);
      Pow2Grows(n - 1);
    }
  }

  lemma DelayGrows(m: nat, n: nat)
    requires 1 <= m <= n
    ensures Delay(m) <= Delay(n)
  {
    Pow2Monotone(m - 1, n - 1);
  }

  /** The delays of attempts m + 1, ..., n. */
  function Delays(m: nat, n: nat): (ds: seq<nat>)
    requires m <= n
    ensures |ds| == n - m && forall k :: 0 <= k < n - m ==> ds[k] == Delay(m + 1 + k)
  {
    if m == n then [] else Delays(m, n - 1) + [Delay(n)]
  }

  /** What one event without a successful open adds to the armed delays. */
  lemma EventArms(p: Page, e: Event)
    requires !(e.Opened? && CanHappen(p, e))
    ensures var q := OnEvent(p, e);
            || (q.attempts == p.attempts && q.delays == p.delays)
            || (q.attempts == p.attempts + 1 && q.delays == p.delays + [Delay(p.attempts + 1)])
  {
    if !ChainStep(e) && !e.Opened? { TrafficMakesNoProgress(p, e); }
  }

  /** Main result: from any state, as long as no socket opens, the page arms exactly the delays of the
      attempts that follow, in order, each once. */
  lemma {:induction false} ArmsTheSeries(p: Page, es: seq<Event>)
    requires NoOpens(p, es)
    ensures var q := Play(p, es);
            p.attempts <= q.attempts && q.delays == p.delays + Delays(p.attempts, q.attempts)
    decreases |es|
  {
    if es != [] {
      NoOpensBefore(p, es);
      ArmsTheSeries(p, es[..|es| - 1]);
      EventArms(Play(p, es[..|es| - 1]), es[|es| - 1]);
    }
  }

  /** The newest delays the page has armed are those of the attempts since its last successful open. */
  predicate EndsInSeries(p: Page) {
    p.attempts <= |p.delays| && p.delays[|p.delays| - p.attempts..] == Delays(0, p.attempts)
  }

  /** The delays armed since the last successful open. */
  function Series(p: Page): seq<nat>
    requires p.attempts <= |p.delays|
  {
    p.delays[|p.delays| - p.attempts..]
  }

  lemma SeriesGrows(p: Page, q: Page)
    requires EndsInSeries(p)
    requires (q.attempts == p.attempts && q.delays == p.delays)
             || (q.attempts == p.attempts + 1 && q.delays == p.delays + [Delay(p.attempts + 1)])
    ensures EndsInSeries(q)
  {
    if q.attempts == p.attempts + 1 { assert Series(q) == Series(p) + [Delay(p.attempts + 1)]; }
  }

  lemma EventKeepsSeries(p: Page, e: Event)
    requires EndsInSeries(p)
    ensures EndsInSeries(OnEvent(p, e))
  {
    if e.Opened? && CanHappen(p, e) {
      OpenStartsAfresh(p, e.s, e.at);
    } else {
      EventArms(p, e);
      SeriesGrows(p, OnEvent(p, e));
    }
  }

  lemma OpenStartsAfresh(p: Page, s: nat, at: nat)
    requires s < |p.sockets|
    ensures AfterOpen(p, s, at).attempts == 0
  {
  }

  /** Main result: in every reachable state the last `attempts` armed delays are those of attempts
      1, ..., attempts. */
  lemma {:induction false} EveryStateEndsInSeries(maxAttempts: nat, es: seq<Event>)
    ensures EndsInSeries(PlayFresh(maxAttempts, es))
    decreases |es|
  {
    if es != [] {
      EveryStateEndsInSeries(maxAttempts, es[..|es| - 1]);
      EventKeepsSeries(PlayFresh(maxAttempts, es[..|es| - 1]), es[|es| - 1]);
    }
  }

  /** Main result: the delays armed since the last successful open never shrink and stay within bounds. */
  lemma ArmedDelaysNeverShrink(maxAttempts: nat, es: seq<Event>)
    ensures var p := PlayFresh(maxAttempts, es);
            && p.attempts <= |p.delays|
            && (forall i, j :: 0 <= i <= j < p.attempts ==> Series(p)[i] <= Series(p)[j])
            && (forall i :: 0 <= i < p.attempts ==> 1000 <= Series(p)[i] <= MAX_DELAY_MS)
  {
    EveryStateEndsInSeries(maxAttempts, es);
    var p := PlayFresh(maxAttempts, es);
    assert Series(p) == Delays(0, p.attempts);
    forall i, j | 0 <= i <= j < p.attempts ensures Series(p)[i] <= Series(p)[j] { DelayGrows(i + 1, j + 1); }
    forall i | 0 <= i < p.attempts ensures 1000 <= Series(p)[i] <= MAX_DELAY_MS { DelayInRange(i + 1); }
  }

  function Sum(xs: seq<nat>): nat {
    if xs == [] then 0 else Sum(xs[..|xs| - 1]) + xs[|xs| - 1]
  }

  /** The delays of a series of n attempts add up exactly. */
  lemma {:induction false} SumOfSeries(n: nat)
    requires n >= 4
    ensures Sum(Delays(0, n)) == MAX_DELAY_MS * (n - 3)
  {
    assert Delays(0, n)[..n - 1] == Delays(0, n - 1);
    if n == 4 {
      SumOfThree();
    } else {
      SumOfSeries(n - 1);
      Pow2Monotone(4, n - 1);
      assert Pow2(4) == 16 by { assert Pow2(2) == 4; }
    }
  }

  lemma SumOfThree()
    ensures Sum(Delays(0, 3)) == 7000
  {
    assert Delay(1) == 1000 && Delay(2) == 2000 && Delay(3) == 4000;
    assert Delays(0, 3) == [1000, 2000, 4000];
    assert [1000, 2000, 4000][..2] == [1000, 2000] && [1000, 2000][..1] == [1000];
    assert Sum([1000]) == 1000 && Sum([1000, 2000]) == 3000;
  }

  /** Main result: when the page has used up all its attempts, of which there are at least four, the
      delays it armed since its last successful open add up to 15000 (max - 3) ms. */
  lemma FullSeriesTakes(maxAttempts: nat, es: seq<Event>)
    requires maxAttempts >= 4 && PlayFresh(maxAttempts, es).attempts == maxAttempts
    ensures var p := PlayFresh(maxAttempts, es);
            p.attempts <= |p.delays| && Sum(Series(p)) == MAX_DELAY_MS * (maxAttempts - 3)
  {
    EveryStateEndsInSeries(maxAttempts, es);
    SumOfSeries(maxAttempts);
  }
}
