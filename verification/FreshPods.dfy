/** Pod ids are never reused. */
module FreshPods {
  import opened Platform
  import opened Sagas
  import opened Interleaving

  /** Pod ids are fresh. */
  predicate FreshUids(core: Core) {
    forall p :: p in core.pods ==> p.uid < core.nextUid
  }

  lemma PerformKeepsFresh(core: Core, call: Call, pick: Pick)
    requires FreshUids(core)
    ensures FreshUids(Perform(core, call, pick))
  {
    if call.StartPod? {
      forall p | p in Perform(core, call, pick).pods ensures p.uid < core.nextUid + 1 {
        assert p in core.pods || p == NewPod(core, call.ns, call.id, pick);
      }
    } else {
      assert Perform(core, call, pick).nextUid == core.nextUid;
      assert Perform(core, call, pick).pods <= core.pods;
    }
  }

  lemma NextKeepsFresh(w: World, l: Label)
    requires FreshUids(w.core)
    ensures FreshUids(Next(w, l).core)
  {
    match l
    case Act(r, o) =>
      if CanAct(w, r) && !o.Refused? { PerformKeepsFresh(w.core, CallOf(w.runs[r]), o.pick); }
    case Land(k, pick) => if CanLand(w, k) { PerformKeepsFresh(w.core, w.late[k].call, pick); }
    case Reap(id) => PerformKeepsFresh(w.core, HibernateRow(id), Pick(0, 0));
    case _ =>
  }

  /** Pod ids are fresh in every state the whole system can reach. */
  lemma {:induction false} EveryUidFresh(capacity: map<Device, Demand>, ls: seq<Label>)
    ensures FreshUids(Execute(capacity, ls).core)
    decreases |ls|
  {
    if ls != [] {
      EveryUidFresh(capacity, ls[..|ls| - 1]);
      NextKeepsFresh(Execute(capacity, ls[..|ls| - 1]), ls[|ls| - 1]);
    }
  }
}
