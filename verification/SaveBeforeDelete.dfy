/** Hibernation deletes a pod only after a snapshot of that container was reported to have succeeded,
    and that after the run's own PENDING. Which Job reported it is the subject of ConfirmedSnapshot. */
module SaveBeforeDelete {
  import opened Prelude
  import opened Platform
  import opened Sagas
  import opened Interleaving
  import opened TenantFrame

  /** Event i is run r's own PENDING write, and it reached the row. */
  predicate OwnPending(trace: seq<Event>, i: nat, r: nat, id: ContainerId) {
    && i < |trace| && trace[i].Called? && trace[i].run == r && trace[i].took
    && trace[i].call.UpdateRow? && trace[i].call.id == id && trace[i].call.body.save == Some(SavePending)
  }

  /** Event j is the snapshot Job recording success for this container. */
  predicate Succeeded(trace: seq<Event>, j: nat, id: ContainerId) {
    j < |trace| && trace[j].JobWrote? && trace[j].id == id && trace[j].save == SaveSucceeded
  }

  /** Before event k there is a PENDING write of run r's own and, after that, the Job's success. */
  ghost predicate Confirmed(trace: seq<Event>, k: nat, r: nat, id: ContainerId) {
    exists i: nat, j: nat :: OwnPending(trace, i, r, id) && i < j < k && Succeeded(trace, j, id)
  }

  /** While run r waits for its snapshot: if its PENDING write found no row there is none; otherwise
      a row that says SUCCEEDED says so because of a Job write after that PENDING. */
  ghost predicate Waiting(w: World, r: nat, id: ContainerId) {
    Exists(w.core, id) ==>
      && (exists i: nat :: OwnPending(w.trace, i, r, id))
      && (w.core.rows[id].value.save == SaveSucceeded ==> Confirmed(w.trace, |w.trace|, r, id))
  }

  predicate IsPodDelete(e: Event, r: nat) {
    e.Called? && e.run == r && e.call.DeletePods?
  }

  ghost predicate DeletesConfirmed(trace: seq<Event>, r: nat, id: ContainerId) {
    forall k: nat {:trigger trace[k]} :: k < |trace| && IsPodDelete(trace[k], r) ==> Confirmed(trace, k, r, id)
  }

  /** The invariant of one hibernate run. */
  ghost predicate HibernateInv(w: World, r: nat) {
    if r < |w.runs| then
      w.runs[r].saga.Hibernate? ==>
        var run := w.runs[r];
        && (run.pc.AtPendingWrite? || run.pc.AtSnapshot? || run.pc.AtPoll? ==> Mine(w.core, run.user, run.id))
        && (run.pc.AtSnapshot? || run.pc.AtPoll? ==> Waiting(w, r, run.id))
        && (run.pc.AtDeletePods? ==> Confirmed(w.trace, |w.trace|, r, run.id))
        && DeletesConfirmed(w.trace, r, run.id)
    else
      forall k: nat {:trigger w.trace[k]} :: k < |w.trace| ==> w.trace[k].Called? ==> w.trace[k].run != r
  }

  /** The trace only grows. */
  lemma TraceGrows(w: World, l: Label)
    ensures Next(w, l).trace == w.trace || exists e :: Next(w, l).trace == w.trace + [e]
  {
    if |Next(w, l).trace| > |w.trace| {
      assert Next(w, l).trace == w.trace + [Next(w, l).trace[|w.trace|]];
    }
  }

  lemma ConfirmedGrows(t: seq<Event>, t': seq<Event>, k: nat, k': nat, r: nat, id: ContainerId)
    requires t <= t' && k <= k' && Confirmed(t, k, r, id)
    ensures Confirmed(t', k', r, id)
  {
    var i: nat, j: nat :| OwnPending(t, i, r, id) && i < j < k && Succeeded(t, j, id);
    assert OwnPending(t', i, r, id) && Succeeded(t', j, id);
  }

  lemma DeletesStayConfirmed(t: seq<Event>, e: Event, r: nat, id: ContainerId)
    requires DeletesConfirmed(t, r, id)
    requires IsPodDelete(e, r) ==> Confirmed(t, |t|, r, id)
    ensures DeletesConfirmed(t + [e], r, id)
  {
    forall k: nat | k < |t + [e]| && IsPodDelete((t + [e])[k], r) ensures Confirmed(t + [e], k, r, id) {
      if k < |t| { assert t[k] == (t + [e])[k]; }
      ConfirmedGrows(t, t + [e], k, k, r, id);
    }
  }

  /** No call of any handler writes SUCCEEDED. */
  predicate NeverSucceeds(call: Call) {
    call.UpdateRow? ==> call.body.save != Some(SaveSucceeded)
  }

  lemma HandlersNeverWriteSucceeded(run: Run)
    requires !run.pc.Ended?
    ensures CallOf(run).UpdateRow? ==> CallOf(run).body.save in {None, Some(SavePending), Some(SaveFailed)}
    ensures NeverSucceeds(CallOf(run))
  {
  }

  /** A step that does not go through the Job leaves the row's SUCCEEDED as it was, or removes it. */
  lemma PerformKeepsUnsaved(core: Core, call: Call, pick: Pick, id: ContainerId)
    requires NeverSucceeds(call) && id < |core.rows|
    ensures var core' := Perform(core, call, pick);
            id < |core'.rows| && (core'.rows[id].Some? && core'.rows[id].value.save == SaveSucceeded ==>
              core.rows[id].Some? && core.rows[id].value.save == SaveSucceeded)
  {
  }

  predicate QuietFlights(w: World) {
    forall k :: 0 <= k < |w.late| ==> NeverSucceeds(w.late[k].call)
  }

  lemma {:induction false} FlightsNeverSucceed(capacity: map<Device, Demand>, ls: seq<Label>)
    ensures QuietFlights(Execute(capacity, ls))
    decreases |ls|
  {
    if ls != [] {
      FlightsNeverSucceed(capacity, ls[..|ls| - 1]);
      var w, l := Execute(capacity, ls[..|ls| - 1]), ls[|ls| - 1];
      if l.Act? && CanAct(w, l.run) { HandlersNeverWriteSucceeded(w.runs[l.run]); }
    }
  }

  /** A step after which the row says SUCCEEDED either found it so or is the Job's write. */
  lemma {:induction false} OnlyTheJobSucceeds(w: World, l: Label, id: ContainerId)
    requires QuietFlights(w) && id < |w.core.rows|
    ensures var v := Next(w, l);
            && id < |v.core.rows|
            && (v.core.rows[id].Some? && v.core.rows[id].value.save == SaveSucceeded ==>
                  || (w.core.rows[id].Some? && w.core.rows[id].value.save == SaveSucceeded)
                  || (l.Job? && v.trace == w.trace + [JobWrote(id, SaveSucceeded, l.asker)]))
  {
    match l
    case Act(r, o) =>
      if CanAct(w, r) && !o.Refused? {
        HandlersNeverWriteSucceeded(w.runs[r]);
        PerformKeepsUnsaved(w.core, CallOf(w.runs[r]), o.pick, id);
      }
    case Land(k, pick) =>
      if CanLand(w, k) { PerformKeepsUnsaved(w.core, w.late[k].call, pick, id); }
    case Reap(c) => PerformKeepsUnsaved(w.core, HibernateRow(c), Pick(0, 0), id);
    case _ =>
  }

  /** Waiting survives every step that is not run r's own. */
  lemma WaitingStays(w: World, l: Label, r: nat, id: ContainerId)
    requires QuietFlights(w) && id < |w.core.rows| && Waiting(w, r, id)
    ensures Waiting(Next(w, l), r, id)
  {
    StepEvolves(w, l);
    TraceGrows(w, l);
    OnlyTheJobSucceeds(w, l, id);
    var v := Next(w, l);
    if Exists(v.core, id) {
      assert w.core.rows[id].Some?;
      var i: nat :| OwnPending(w.trace, i, r, id);
      assert OwnPending(v.trace, i, r, id);
      if v.core.rows[id].value.save == SaveSucceeded {
        if w.core.rows[id].value.save == SaveSucceeded {
          ConfirmedGrows(w.trace, v.trace, |w.trace|, |v.trace|, r, id);
        } else {
          assert Succeeded(v.trace, |w.trace|, id);
        }
      }
    }
  }

  /** Run r's own PENDING write arms the wait: it took, or the row is gone for good. */
  lemma PendingArms(w: World, r: nat, o: Outcome)
    requires CanAct(w, r) && w.runs[r].pc.AtPendingWrite? && Mine(w.core, w.runs[r].user, w.runs[r].id)
    requires Continue(w.runs[r], Exchange(w.core, CallOf(w.runs[r]), o).reply).pc.AtSnapshot?
    ensures Waiting(DoAct(w, r, o), r, w.runs[r].id)
  {
    var v, id := DoAct(w, r, o), w.runs[r].id;
    if Exists(w.core, id) {
      assert OwnPending(v.trace, |w.trace|, r, id);
    }
  }

  /** The poll goes on to the delete only when the row it read said SUCCEEDED. */
  lemma PollConfirms(w: World, r: nat, o: Outcome)
    requires CanAct(w, r) && w.runs[r].pc.AtPoll? && Waiting(w, r, w.runs[r].id)
    requires Continue(w.runs[r], Exchange(w.core, CallOf(w.runs[r]), o).reply).pc.AtDeletePods?
    ensures Confirmed(w.trace, |w.trace|, r, w.runs[r].id)
  {
  }

  /** The deletes of run r stay confirmed over its own step. */
  lemma OwnStepKeepsDeletes(w: World, r: nat, o: Outcome)
    requires HibernateInv(w, r) && CanAct(w, r) && w.runs[r].saga.Hibernate?
    ensures DeletesConfirmed(DoAct(w, r, o).trace, r, w.runs[r].id)
  {
    var v := DoAct(w, r, o);
    var e := v.trace[|w.trace|];
    assert v.trace == w.trace + [e];
    DeletesStayConfirmed(w.trace, e, r, w.runs[r].id);
  }

  lemma HibernateStages(run: Run, reply: Reply)
    requires run.saga.Hibernate? && !run.pc.Ended?
    ensures var pc := NextPc(run, reply);
            && (pc.AtSnapshot? ==> run.pc.AtPendingWrite?)
            && (pc.AtPoll? ==> run.pc.AtSnapshot? || run.pc.AtPoll?)
            && (pc.AtDeletePods? ==> run.pc.AtPoll?)
  {
  }

  /** The step of run r itself: what it waits for stays in place, or it goes on confirmed. */
  lemma OwnStepStage(w: World, r: nat, o: Outcome)
    requires HibernateInv(w, r) && InstanceConfined(w, r) && QuietFlights(w)
    requires CanAct(w, r) && w.runs[r].saga.Hibernate?
    ensures var v, run := DoAct(w, r, o), DoAct(w, r, o).runs[r];
            && (run.pc.AtSnapshot? || run.pc.AtPoll? ==> Waiting(v, r, run.id))
            && (run.pc.AtDeletePods? ==> Confirmed(v.trace, |v.trace|, r, run.id))
  {
    var run, v := w.runs[r], DoAct(w, r, o);
    HibernateStages(run, Exchange(w.core, CallOf(run), o).reply);
    if v.runs[r].pc.AtSnapshot? {
      PendingArms(w, r, o);
    } else if v.runs[r].pc.AtPoll? {
      assert v == Next(w, Act(r, o));
      WaitingStays(w, Act(r, o), r, run.id);
    } else if v.runs[r].pc.AtDeletePods? {
      PollConfirms(w, r, o);
      ConfirmedGrows(w.trace, v.trace, |w.trace|, |v.trace|, r, run.id);
    }
  }

  lemma OwnStepKeepsInv(w: World, r: nat, o: Outcome)
    requires HibernateInv(w, r) && InstanceConfined(w, r) && QuietFlights(w)
    requires CanAct(w, r) && w.runs[r].saga.Hibernate?
    ensures HibernateInv(DoAct(w, r, o), r)
  {
    OwnStepKeepsDeletes(w, r, o);
    OwnStepStage(w, r, o);
    assert DoAct(w, r, o) == Next(w, Act(r, o));
    InstanceStaysConfined(w, Act(r, o), r);
  }

  /** What a step that is not run r's own leaves in place. */
  lemma OthersKeepInv(w: World, v: World, r: nat)
    requires HibernateInv(w, r) && LeavesAlone(w, v, r) && Evolves(w.core, v.core)
    requires r < |w.runs| && Waiting(w, r, w.runs[r].id) && w.runs[r].id < |w.core.rows| ==> Waiting(v, r, w.runs[r].id)
    ensures HibernateInv(v, r)
  {
    if r < |w.runs| && w.runs[r].saga.Hibernate? {
      var run := w.runs[r];
      if v.trace != w.trace { DeletesStayConfirmed(w.trace, v.trace[|w.trace|], r, run.id); }
      if run.pc.AtDeletePods? { ConfirmedGrows(w.trace, v.trace, |w.trace|, |v.trace|, r, run.id); }
    }
  }

  /** Any other step. */
  lemma OtherStepKeepsInv(w: World, l: Label, r: nat)
    requires HibernateInv(w, r) && QuietFlights(w) && !OwnStep(w, l, r)
    ensures HibernateInv(Next(w, l), r)
  {
    StepEvolves(w, l);
    OthersLeaveAlone(w, l, r);
    if r < |w.runs| && Waiting(w, r, w.runs[r].id) && w.runs[r].id < |w.core.rows| {
      WaitingStays(w, l, r, w.runs[r].id);
    }
    OthersKeepInv(w, Next(w, l), r);
  }

  /** The window closes. */
  lemma CloseKeepsInv(w: World, r: nat)
    requires HibernateInv(w, r) && CanClose(w, r)
    ensures HibernateInv(DoClose(w, r), r)
  {
    if w.runs[r].saga.Hibernate? { DeletesStayConfirmed(w.trace, Other, r, w.runs[r].id); }
  }

  lemma {:induction false} EveryHibernateInv(capacity: map<Device, Demand>, ls: seq<Label>, r: nat)
    ensures HibernateInv(Execute(capacity, ls), r)
    decreases |ls|
  {
    if ls != [] {
      var w, l := Execute(capacity, ls[..|ls| - 1]), ls[|ls| - 1];
      EveryHibernateInv(capacity, ls[..|ls| - 1], r);
      EveryInstanceConfined(capacity, ls[..|ls| - 1], r);
      FlightsNeverSucceed(capacity, ls[..|ls| - 1]);
      if l.Act? && l.run == r && CanAct(w, r) {
        if w.runs[r].saga.Hibernate? { OwnStepKeepsInv(w, r, l.outcome); }
      } else if !OwnStep(w, l, r) {
        OtherStepKeepsInv(w, l, r);
      } else {
        assert Next(w, l) == DoClose(w, r);
        CloseKeepsInv(w, r);
      }
    }
  }

  /** Main result: in every interleaving, with any call refused, lost, garbled or late, a hibernate
      run's pod delete is preceded by its own PENDING write reaching the row and, after that, by the
      Job's SUCCEEDED for that container. */
  lemma HibernateSavesBeforeItDeletes(capacity: map<Device, Demand>, ls: seq<Label>, r: nat, k: nat)
    requires var w := Execute(capacity, ls);
             && r < |w.runs| && w.runs[r].saga.Hibernate?
             && k < |w.trace| && IsPodDelete(w.trace[k], r)
    ensures var w := Execute(capacity, ls);
            exists i: nat, j: nat ::
              OwnPending(w.trace, i, r, w.runs[r].id) && i < j < k && Succeeded(w.trace, j, w.runs[r].id)
  {
    EveryHibernateInv(capacity, ls, r);
    var w := Execute(capacity, ls);
    assert Confirmed(w.trace, k, r, w.runs[r].id);
  }

  /** What a handler may write to save_status, over every event of every run. */
  predicate LocalSaveWrite(e: Event) {
    (e.Called? || e.Landed?) && e.call.UpdateRow? ==> e.call.body.save in {None, Some(SavePending), Some(SaveFailed)}
  }

  lemma {:induction false} LocalOnlyWritesPendingOrFailed(capacity: map<Device, Demand>, ls: seq<Label>)
    ensures forall k :: 0 <= k < |Execute(capacity, ls).trace| ==> LocalSaveWrite(Execute(capacity, ls).trace[k])
    ensures forall k :: 0 <= k < |Execute(capacity, ls).late| ==>
              var c := Execute(capacity, ls).late[k].call;
              c.UpdateRow? ==> c.body.save in {None, Some(SavePending), Some(SaveFailed)}
    decreases |ls|
  {
    if ls != [] {
      var w, l := Execute(capacity, ls[..|ls| - 1]), ls[|ls| - 1];
      LocalOnlyWritesPendingOrFailed(capacity, ls[..|ls| - 1]);
      if l.Act? && CanAct(w, l.run) { HandlersNeverWriteSucceeded(w.runs[l.run]); }
      TraceGrows(w, l);
    }
  }
}
