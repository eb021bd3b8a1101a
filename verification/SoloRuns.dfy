/** One handler instance running alone: every call it makes is served against the platform it left
    behind, each with an outcome of its own. */
module SoloRuns {
  import opened Platform
  import opened Sagas

  /** One call of an instance: the stage that made it, the reply, and whether it took effect. */
  datatype Leg = Leg(pc: Pc, reply: Reply, took: bool)

  datatype Solo = Solo(core: Core, run: Run, legs: seq<Leg>)

  function SoloStep(s: Solo, o: Outcome): Solo {
    if s.run.pc.Ended? then s
    else
      var x := Exchange(s.core, CallOf(s.run), o);
      Solo(x.core, Continue(s.run, x.reply), s.legs + [Leg(s.run.pc, x.reply, x.took)])
  }

  function SoloRun(s: Solo, os: seq<Outcome>): Solo {
    if os == [] then s else SoloStep(SoloRun(s, os[..|os| - 1]), os[|os| - 1])
  }

  lemma SoloRunExtends(s: Solo, os: seq<Outcome>, o: Outcome)
    ensures SoloRun(s, os + [o]) == SoloStep(SoloRun(s, os), o)
  {
    assert (os + [o])[..|os|] == os;
  }

  function Alone(core: Core, user: User, id: ContainerId, saga: Saga): Solo {
    Solo(core, Start(user, id, saga), [])
  }

  /** The stage an instance has reached after these replies, whatever the platform did meanwhile. */
  function Fold(run: Run, replies: seq<Reply>): Run {
    if replies == [] then run
    else
      var before := Fold(run, replies[..|replies| - 1]);
      if before.pc.Ended? then before else Continue(before, replies[|replies| - 1])
  }

  lemma FoldExtends(run: Run, replies: seq<Reply>, reply: Reply)
    ensures var before := Fold(run, replies);
            Fold(run, replies + [reply]) == if before.pc.Ended? then before else Continue(before, reply)
  {
    assert (replies + [reply])[..|replies|] == replies;
  }

  /** Kubernetes started a pod, known to the run or not. */
  predicate PodMade(legs: seq<Leg>) {
    exists k :: 0 <= k < |legs| && Makes(legs[k])
  }

  predicate Makes(leg: Leg) {
    leg.pc.AtStartPod? && leg.took
  }

  lemma PodMadeAfterLeg(legs: seq<Leg>, leg: Leg)
    ensures PodMade(legs + [leg]) <==> PodMade(legs) || Makes(leg)
  {
    var more := legs + [leg];
    if PodMade(legs) {
      var k :| 0 <= k < |legs| && Makes(legs[k]);
      assert Makes(more[k]);
    }
    if Makes(leg) { assert Makes(more[|legs|]); }
  }

  /** The pods of b are those of a, and exactly if one was started, a new one of the user's. */
  ghost predicate PodsAfter(a: Core, b: Core, user: User, id: ContainerId, started: bool) {
    if started then exists pick: Pick :: b.pods == a.pods + {NewPod(a, user, id, pick)} else b.pods == a.pods
  }
}
