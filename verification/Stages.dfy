/** Which handler can be at which stage. */
module Stages {
  import opened Platform
  import opened Sagas
  import opened Interleaving

  predicate PcFits(run: Run) {
    && (run.pc.AtRollback? || run.pc.AtStamp? || run.pc.AtSync? || run.pc.AtTransition? ==> run.saga.Resume?)
    && (run.pc.AtHibernate? ==> run.saga.Hibernate?)
    && (run.pc.AtPendingWrite? || run.pc.AtSnapshot? ==> run.saga.Save? || run.saga.Hibernate?)
    && (run.pc.AtFailedWrite? ==> run.saga.Save?)
    && (run.pc.AtLookup? ==> run.saga.Resume? || run.saga.CreateInK8s? || run.saga.Save? || run.saga.Hibernate?)
  }

  predicate PcsFit(w: World) {
    forall r :: 0 <= r < |w.runs| ==> PcFits(w.runs[r])
  }

  lemma ContinueFits(run: Run, reply: Reply)
    requires PcFits(run) && !run.pc.Ended?
    ensures PcFits(Continue(run, reply))
  {
  }

  lemma {:induction false} EveryPcFits(capacity: map<Device, Demand>, ls: seq<Label>)
    ensures PcsFit(Execute(capacity, ls))
    decreases |ls|
  {
    if ls != [] {
      EveryPcFits(capacity, ls[..|ls| - 1]);
      var w, l := Execute(capacity, ls[..|ls| - 1]), ls[|ls| - 1];
      if l.Act? && CanAct(w, l.run) {
        ContinueFits(w.runs[l.run], Exchange(w.core, CallOf(w.runs[l.run]), l.outcome).reply);
      }
    }
  }
}
