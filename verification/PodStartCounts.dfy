/** Pod starts by resume, counted over the whole history against Cloud's transitions. */
module PodStartCounts {
  import opened Prelude
  import opened Platform
  import opened Sagas
  import opened Interleaving
  import opened Stages

  /** Cloud's HIBERNATED -> RESUMING transitions of the container. */
  function Transitions(trace: seq<Event>, id: ContainerId): nat {
    if trace == [] then 0
    else
      var e := trace[|trace| - 1];
      Transitions(trace[..|trace| - 1], id) + One(IsTransition(e, id))
  }

  predicate IsTransition(e: Event, id: ContainerId) {
    (e.Called? || e.Landed?) && e.call.ResumeRow? && e.call.id == id && e.took
  }

  /** Pod-start calls made by resume runs for the container. */
  function PodStarts(trace: seq<Event>, id: ContainerId): nat {
    if trace == [] then 0
    else
      var e := trace[|trace| - 1];
      PodStarts(trace[..|trace| - 1], id) + One(e.Called? && e.saga.Resume? && e.call.StartPod? && e.call.id == id)
  }

  /** Resume runs that may still start a pod on the strength of a transition. */
  predicate AboutToStart(run: Run, id: ContainerId) {
    run.saga.Resume? && run.id == id && (run.pc.AtStamp? || run.pc.AtImage? || run.pc.AtStartPod?)
  }

  function Starters(runs: seq<Run>, id: ContainerId): nat {
    if runs == [] then 0 else Starters(runs[..|runs| - 1], id) + One(AboutToStart(runs[|runs| - 1], id))
  }

  lemma {:induction false} StartersAfterStep(runs: seq<Run>, r: nat, run: Run, id: ContainerId)
    requires r < |runs|
    ensures Starters(runs[r := run], id)
            == Starters(runs, id) - One(AboutToStart(runs[r], id)) + One(AboutToStart(run, id))
    decreases |runs|
  {
    var n := |runs| - 1;
    if r == n {
      assert runs[r := run][..n] == runs[..n];
    } else {
      assert runs[r := run][..n] == runs[..n][r := run];
      StartersAfterStep(runs[..n], r, run, id);
    }
  }

  lemma CountsAfterEvent(trace: seq<Event>, e: Event, id: ContainerId)
    ensures Transitions(trace + [e], id) ==
            Transitions(trace, id) + One(IsTransition(e, id))
    ensures PodStarts(trace + [e], id) ==
            PodStarts(trace, id) + One(e.Called? && e.saga.Resume? && e.call.StartPod? && e.call.id == id)
  {
    assert (trace + [e])[..|trace|] == trace;
  }

  /** One step of one run: it starts a pod only out of a stage it entered by a transition. */
  lemma OwnStepPays(w: World, r: nat, o: Outcome, id: ContainerId)
    requires PcsFit(w) && CanAct(w, r)
    ensures var run := w.runs[r];
            var x := Exchange(w.core, CallOf(run), o);
            One(run.saga.Resume? && CallOf(run).StartPod? && CallOf(run).id == id)
              + One(AboutToStart(Continue(run, x.reply), id))
            <= One(AboutToStart(run, id)) + One(CallOf(run).ResumeRow? && CallOf(run).id == id && x.took)
  {
  }

  /** Every pod start, and every run that may still make one, is paid for by a transition. */
  predicate Paid(w: World, id: ContainerId) {
    PodStarts(w.trace, id) + Starters(w.runs, id) <= Transitions(w.trace, id)
  }

  lemma ActPays(w: World, r: nat, o: Outcome, id: ContainerId)
    requires PcsFit(w) && CanAct(w, r) && Paid(w, id)
    ensures Paid(DoAct(w, r, o), id)
  {
    var run, x := w.runs[r], Exchange(w.core, CallOf(w.runs[r]), o);
    OwnStepPays(w, r, o, id);
    StartersAfterStep(w.runs, r, Continue(run, x.reply), id);
    CountsAfterEvent(w.trace, Called(r, run.saga, CallOf(run), x.reply, x.took), id);
  }

  lemma BeginPays(w: World, user: User, c: ContainerId, saga: Saga, id: ContainerId)
    requires Paid(w, id)
    ensures Paid(Next(w, Begin(user, c, saga)), id)
  {
    CountsAfterEvent(w.trace, Other, id);
    assert (w.runs + [Start(user, c, saga)])[..|w.runs|] == w.runs;
  }

  lemma ClosePays(w: World, r: nat, id: ContainerId)
    requires Paid(w, id) && CanClose(w, r)
    ensures Paid(DoClose(w, r), id)
  {
    CountsAfterEvent(w.trace, Other, id);
    StartersAfterStep(w.runs, r, DoClose(w, r).runs[r], id);
  }

  lemma StepMovesNone(w: World, l: Label)
    requires !l.Act? && !l.Begin? && !l.WindowCloses?
    ensures Next(w, l).runs == w.runs
    ensures Next(w, l).trace == w.trace || exists e: Event :: Next(w, l).trace == w.trace + [e] && !e.Called?
  {
    var t := Next(w, l).trace;
    if t != w.trace { assert t == w.trace + [t[|w.trace|]]; }
  }

  /** A step that moves no instance: it can only add a transition that took effect late. */
  lemma StillPaid(w: World, v: World, id: ContainerId)
    requires Paid(w, id) && v.runs == w.runs
    requires v.trace == w.trace || exists e: Event :: v.trace == w.trace + [e] && !e.Called?
    ensures Paid(v, id)
  {
    if v.trace != w.trace {
      var e: Event :| v.trace == w.trace + [e] && !e.Called?;
      CountsAfterEvent(w.trace, e, id);
    }
  }

  /** Main result: pod starts by resume never exceed Cloud's transitions, in every interleaving and
      whether or not hibernations overlap. */
  lemma {:induction false} PodStartsNeverExceedTransitions(
      capacity: map<Device, Demand>, ls: seq<Label>, id: ContainerId)
    ensures var w := Execute(capacity, ls);
            PodStarts(w.trace, id) + Starters(w.runs, id) <= Transitions(w.trace, id)
    decreases |ls|
  {
    if ls != [] {
      var w, l := Execute(capacity, ls[..|ls| - 1]), ls[|ls| - 1];
      PodStartsNeverExceedTransitions(capacity, ls[..|ls| - 1], id);
      EveryPcFits(capacity, ls[..|ls| - 1]);
      if l.Act? {
        if CanAct(w, l.run) { ActPays(w, l.run, l.outcome, id); }
      } else if l.Begin? {
        BeginPays(w, l.user, l.id, l.saga, id);
      } else if l.WindowCloses? {
        if CanClose(w, l.run) { ClosePays(w, l.run, id); }
      } else {
        StepMovesNone(w, l);
        StillPaid(w, Next(w, l), id);
      }
    }
  }
}
