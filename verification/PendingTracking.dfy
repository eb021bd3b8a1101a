/** Containers awaiting Running: which status events lead to an automatic clean-up. */
module PendingTracking {

  type Id = nat

  datatype Status = Running | Failed | OtherStatus

  datatype Event =
    | Listed(ids: set<Id>)            // the terminal list is reloaded
    | Tracked(id: Id)                 // the form submission reached its end
    | StatusChanged(id: Id, status: Status)

  /** pendingContainers, the listed terminals, and the clean-ups started so far. */
  datatype Page = Page(listed: set<Id>, pending: set<Id>, cleanups: seq<Id>)

  const EMPTY := Page({}, {}, [])

  function OnEvent(p: Page, e: Event): Page {
    match e
    case Listed(ids) => p.(listed := ids)
    case Tracked(id) => p.(pending := p.pending + {id})
    case StatusChanged(id, status) =>
      if id !in p.listed || id !in p.pending then p
      else
        match status
        case Running => p.(pending := p.pending - {id})
        case Failed => p.(pending := p.pending - {id}, cleanups := p.cleanups + [id])
        case OtherStatus => p
  }

  function Play(es: seq<Event>): Page {
    if es == [] then EMPTY else OnEvent(Play(es[..|es| - 1]), es[|es| - 1])
  }

  /** Event k is the newest reload of the list among these events. */
  predicate NewestReload(es: seq<Event>, k: nat) {
    k < |es| && es[k].Listed? && forall j :: k < j < |es| ==> !es[j].Listed?
  }

  /** Main result: a terminal is listed exactly if the newest reload of the list has it. */
  lemma {:induction false} ListedMeansNewestReload(es: seq<Event>, id: Id)
    ensures id in Play(es).listed <==> exists k: nat :: NewestReload(es, k) && id in es[k].ids
    decreases |es|
  {
    if es != [] {
      var n := |es| - 1;
      var fs, e := es[..n], es[n];
      ListedMeansNewestReload(fs, id);
      if e.Listed? {
        assert NewestReload(es, n);
        forall k: nat | NewestReload(es, k) ensures k == n {
          assert es[n].Listed?;
        }
      } else {
        forall k: nat ensures NewestReload(fs, k) <==> NewestReload(es, k) { ReloadStaysNewest(es, k); }
        if id in Play(es).listed {
          var k: nat :| NewestReload(fs, k) && id in fs[k].ids;
          assert NewestReload(es, k) && es[k] == fs[k];
        }
        if exists k: nat :: NewestReload(es, k) && id in es[k].ids {
          var k: nat :| NewestReload(es, k) && id in es[k].ids;
          assert NewestReload(fs, k) && es[k] == fs[k];
        }
      }
    }
  }

  lemma ReloadStaysNewest(es: seq<Event>, k: nat)
    requires es != [] && !es[|es| - 1].Listed?
    ensures NewestReload(es[..|es| - 1], k) <==> NewestReload(es, k)
  {
    var fs := es[..|es| - 1];
    if NewestReload(fs, k) {
      forall j | k < j < |es| ensures !es[j].Listed? {
        if j < |fs| { assert fs[j] == es[j]; }
      }
    }
    if NewestReload(es, k) {
      forall j | k < j < |fs| ensures !fs[j].Listed? { assert fs[j] == es[j]; }
    }
  }

  /** Event k is a Running or Failed event that the page handles: its terminal is listed. */
  predicate Settles(es: seq<Event>, k: nat, id: Id) {
    && k < |es| && es[k].StatusChanged? && es[k].id == id && es[k].status != OtherStatus
    && id in Play(es[..k]).listed
  }

  /** The container was put under tracking at event i and nothing settled it before event k. */
  predicate TrackedSince(es: seq<Event>, i: nat, k: nat, id: Id) {
    i < k <= |es| && es[i] == Tracked(id) && forall j :: i < j < k ==> !Settles(es, j, id)
  }

  lemma {:induction false} PendingMeansTracked(es: seq<Event>, id: Id)
    ensures id in Play(es).pending <==> exists i: nat :: TrackedSince(es, i, |es|, id)
    decreases |es|
  {
    if es != [] {
      var n := |es| - 1;
      var fs, e := es[..n], es[n];
      PendingMeansTracked(fs, id);
      forall i: nat | i < n ensures TrackedSince(fs, i, n, id) <==> TrackedSince(es, i, n, id) {
        forall j | i < j < n ensures Settles(fs, j, id) <==> Settles(es, j, id) { assert fs[..j] == es[..j]; }
      }
      if e == Tracked(id) {
        assert TrackedSince(es, n, |es|, id);
      } else {
        forall i: nat | i < n
          ensures TrackedSince(es, i, |es|, id) <==> TrackedSince(es, i, n, id) && !Settles(es, n, id)
        {
        }
        if exists i: nat :: TrackedSince(fs, i, n, id) {
          var i: nat :| TrackedSince(fs, i, n, id);
          assert TrackedSince(es, i, n, id);
        }
        if exists i: nat :: TrackedSince(es, i, |es|, id) {
          var i: nat :| TrackedSince(es, i, |es|, id);
          assert i < n && TrackedSince(fs, i, n, id);
        }
      }
    }
  }

  /** Event k starts a clean-up of this container. */
  predicate CleansUp(es: seq<Event>, k: nat, id: Id) {
    k < |es| && OnEvent(Play(es[..k]), es[k]).cleanups == Play(es[..k]).cleanups + [id]
  }

  lemma PrefixTracks(es: seq<Event>, i: nat, k: nat, id: Id)
    requires i < k <= |es|
    ensures TrackedSince(es[..k], i, k, id) <==> TrackedSince(es, i, k, id)
  {
    forall j | i < j < k ensures Settles(es[..k], j, id) <==> Settles(es, j, id) { assert es[..k][..j] == es[..j]; }
  }

  /** A container is pending before event k exactly if it was tracked and nothing has settled it. */
  lemma PendingBefore(es: seq<Event>, k: nat, id: Id)
    requires k <= |es|
    ensures id in Play(es[..k]).pending <==> exists i: nat :: TrackedSince(es, i, k, id)
  {
    PendingMeansTracked(es[..k], id);
    forall i: nat | i < k ensures TrackedSince(es[..k], i, k, id) <==> TrackedSince(es, i, k, id) {
      PrefixTracks(es, i, k, id);
    }
    if id in Play(es[..k]).pending {
      var i: nat :| TrackedSince(es[..k], i, k, id);
      assert TrackedSince(es, i, k, id);
    }
    if exists i: nat :: TrackedSince(es, i, k, id) {
      var i: nat :| TrackedSince(es, i, k, id);
      assert TrackedSince(es[..k], i, k, id);
    }
  }

  /** Main result: over any history, a container is cleaned up exactly by a Failed event that comes
      while it is listed and tracked, with no Running or Failed event handled since. */
  lemma CleanedUpExactlyWhenTracked(es: seq<Event>, k: nat, id: Id)
    requires k < |es|
    ensures CleansUp(es, k, id) <==>
              && es[k] == StatusChanged(id, Failed) && id in Play(es[..k]).listed
              && exists i: nat :: TrackedSince(es, i, k, id)
  {
    PendingBefore(es, k, id);
    var p, q := Play(es[..k]), OnEvent(Play(es[..k]), es[k]);
    if CleansUp(es, k, id) {
      assert |q.cleanups| == |p.cleanups| + 1;
      assert q.cleanups[|p.cleanups|] == id;
    }
  }

  /** The container is put under tracking at most once: ids of new containers are new. */
  predicate TrackedOnce(es: seq<Event>, id: Id) {
    forall i, j :: 0 <= i < j < |es| ==> !(es[i] == Tracked(id) && es[j] == Tracked(id))
  }

  /** What settles the container before its clean-up came before it was tracked. */
  lemma SettledMeansUntracked(es: seq<Event>, k: nat, m: nat, id: Id)
    requires TrackedOnce(es, id) && k < m && CleansUp(es, m, id) && Settles(es, k, id)
    ensures id !in Play(es[..k]).pending
  {
    CleanedUpExactlyWhenTracked(es, m, id);
    PendingBefore(es, k, id);
    var i: nat :| TrackedSince(es, i, m, id);
    assert k <= i && es[i] == Tracked(id);
  }

  /** Main result: a container that is tracked once is cleaned up at most once, and never after a
      Running event handled while it was tracked. */
  lemma CleanedUpAtMostOnce(es: seq<Event>, k: nat, m: nat, id: Id)
    requires TrackedOnce(es, id) && k < m && CleansUp(es, m, id)
    ensures !CleansUp(es, k, id)
    ensures !(es[k] == StatusChanged(id, Running) && id in Play(es[..k]).listed && id in Play(es[..k]).pending)
  {
    CleanedUpExactlyWhenTracked(es, k, id);
    PendingBefore(es, k, id);
    if Settles(es, k, id) { SettledMeansUntracked(es, k, m, id); }
  }

  /** Running may arrive before tracking begins; then a failure much later still cleans up. */
  const LATE_TRACKING: seq<Event> :=
    [Listed({1}), StatusChanged(1, Running), Tracked(1), StatusChanged(1, Failed)]

  lemma RunningBeforeTrackingIsForgotten()
    ensures CleansUp(LATE_TRACKING, 3, 1)
  {
    var es := LATE_TRACKING;
    assert es[..1][..0] == [] && es[..2][..1] == es[..1] && es[..3][..2] == es[..2];
    assert Play(es[..1]) == Page({1}, {}, []);
    assert Play(es[..2]) == Page({1}, {}, []);
    assert Play(es[..3]) == Page({1}, {1}, []);
  }

  /** The page's object. */
  class PendingContainers {
    var listed: set<Id>
    var pending: map<Id, nat>     // container id -> kubernetes id
    var cleanups: seq<Id>

    function State(): Page
      reads this
    {
      Page(listed, pending.Keys, cleanups)
    }

    constructor ()
      ensures State() == EMPTY
    {
      listed, pending, cleanups := {}, map[], [];
    }

    method LoadTerminals(ids: set<Id>)
      modifies this
      ensures State() == OnEvent(old(State()), Listed(ids))
    {
      listed := ids;
    }

    method Track(id: Id, kubernetesId: nat)
      modifies this
      ensures State() == OnEvent(old(State()), Tracked(id))
      ensures pending == old(pending)[id := kubernetesId]
    {
      pending := pending[id := kubernetesId];
    }

    /** handleStatusChange, up to the first await of a clean-up. */
    method HandleStatusChange(id: Id, status: Status)
      modifies this
      ensures State() == OnEvent(old(State()), StatusChanged(id, status))
      ensures forall c :: c in pending ==> c in old(pending) && pending[c] == old(pending)[c]
    {
      if id !in listed { return; }
      var tracked := id in pending;
      match status {
        case Running => HandleRunningStatus(id, tracked);
        case Failed => HandleFailedStatus(id, tracked);
        case OtherStatus =>
      }
    }

    method HandleRunningStatus(id: Id, tracked: bool)
      requires tracked == (id in pending)
      modifies this`pending
      ensures pending == old(pending) - {id}
    {
      if tracked { pending := pending - {id}; }
    }

    method HandleFailedStatus(id: Id, tracked: bool)
      requires tracked == (id in pending)
      modifies this`pending, this`cleanups
      ensures pending == old(pending) - {id}
      ensures cleanups == if tracked then old(cleanups) + [id] else old(cleanups)
    {
      if !tracked { return; }
      CleanupFailedContainer(id);
    }

    /** cleanupFailedContainer: tracking ends before anything is awaited. */
    method CleanupFailedContainer(id: Id)
      modifies this`pending, this`cleanups
      ensures pending == old(pending) - {id} && cleanups == old(cleanups) + [id]
    {
      pending := pending - {id};
      cleanups := cleanups + [id];
    }
  }
}
