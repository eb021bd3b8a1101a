/** Every instance follows its plan, in every interleaving. */
module PlanFollowing {
  import opened Prelude
  import opened Platform
  import opened Sagas
  import opened Interleaving
  import opened Plans

  /** Replies are of the kind the call asks for, and rejections are errors. */
  predicate Suits(m: Made) {
    && (m.call.GetRow? && m.reply.Accepted? ==> m.reply.view.RowView?)
    && (m.call.StartPod? && m.reply.Accepted? ==> m.reply.view.PodView?)
    && (m.reply.Rejected? ==> m.reply.code >= 400)
  }

  lemma RepliesFit(core: Core, call: Call, o: Outcome)
    ensures Suits(Made(call, Exchange(core, call, o).reply))
  {
  }

  /** No Cloud transition among these calls. */
  predicate NoHibernateRow(calls: seq<Made>) {
    forall k :: 0 <= k < |calls| ==> !calls[k].call.HibernateRow?
  }

  predicate Looked(run: Run, calls: seq<Made>) {
    |calls| >= 1 && run.row.Some? && ReadRow(calls[0]) == run.row
  }

  /** How the stages of a handler sit on its plan. */
  predicate Tied(run: Run, calls: seq<Made>) {
    var n := |calls|;
    match run.pc
    case AtCreateRow => n == 0 && run.saga.CreateInDb?
    case AtDeleteRow => n == 0 && run.saga.DeleteInDb?
    case AtUpdate => n == 0 && run.saga.Update?
    case AtLookup => n == 0 && (run.saga.CreateInK8s? || run.saga.Save? || run.saga.Resume? || run.saga.Hibernate?)
    case AtImage =>
      && Looked(run, calls)
      && if run.saga.Resume? then n == 3 && !HasSavedImage(calls) else run.saga.CreateInK8s? && n == 1
    case AtStartPod =>
      && Looked(run, calls)
      && if run.saga.Resume? then n == (if HasSavedImage(calls) then 3 else 4) else run.saga.CreateInK8s? && n == 2
    case AtTransition => n == 1 && run.saga.Resume? && Looked(run, calls)
    case AtStamp => n == 2 && run.saga.Resume? && Looked(run, calls)
    case AtSync(pod) =>
      && run.saga.Resume? && Looked(run, calls)
      && n == (if HasSavedImage(calls) then 4 else 5) && ReadPod(calls[n - 1]) == Some(pod)
    case AtPendingWrite => n == 1 && (run.saga.Save? || run.saga.Hibernate?) && NoHibernateRow(calls)
    case AtSnapshot => n == 2 && (run.saga.Save? || run.saga.Hibernate?) && NoHibernateRow(calls)
    case AtPoll => Waits(run.saga, calls)
    case AtDeletePods =>
      if run.saga.Hibernate? then
        n >= 4 && NoHibernateRow(calls) && calls[n - 1].call.GetRow? && ReadsSave(calls[n - 1], SaveSucceeded)
      else n == 0 && run.saga.DeleteInK8s?
    case AtHibernate => run.saga.Hibernate? && n >= 5 && calls[n - 1].call.DeletePods?
    case AtFinalRead => run.saga.Hibernate? && n >= 6 && calls[n - 1].call.HibernateRow?
    case _ => false
  }

  /** The stages of the closing calls, and the answer they lead to. */
  function ClosingCode(pc: Pc): Option<nat> {
    match pc
    case AtRelease(e) => Some(ErrorResponse(e).code)
    case AtRollback(e) => Some(ErrorResponse(e).code)
    case AtMarkFailed(e) => Some(ErrorResponse(e).code)
    case AtFailedWrite => Some(202)
    case _ => None
  }

  predicate InPlace(run: Run, calls: seq<Made>) {
    if run.pc.Ended? then Ends(run.saga, run.user, run.id, calls, run.pc.response.code)
    else if ClosingCode(run.pc).Some? then
      && Broken(run.saga, run.user, run.id, calls)
      && ClosingAfter(run.saga, run.user, run.id, calls) == Some(CallOf(run))
      && ClosingCode(run.pc) == Some(CodeAfter(run.saga, calls))
    else
      && Going(run.saga, run.user, run.id, calls) && Planned(run.saga, run.user, run.id, calls) == Some(CallOf(run))
      && Tied(run, calls)
  }

  lemma InPlaceFollows(run: Run, calls: seq<Made>)
    requires InPlace(run, calls)
    ensures Follows(run, calls)
  {
  }

  /** The plan up to one more call. */
  lemma PlanGrows(saga: Saga, user: User, id: ContainerId, calls: seq<Made>, m: Made)
    requires Going(saga, user, id, calls) && Planned(saga, user, id, calls) == Some(m.call)
    ensures if Fine(|calls|, m) then Going(saga, user, id, calls + [m]) else Broken(saga, user, id, calls + [m])
  {
    var more := calls + [m];
    forall k | 0 <= k < |more| ensures PlannedAt(saga, user, id, more, k) == Some(more[k].call) {
      if k < |calls| {
        assert more[..k] == calls[..k];
        assert PlannedAt(saga, user, id, calls, k) == Some(calls[k].call);
      } else {
        assert more[..k] == calls;
      }
    }
    forall k | 0 <= k < |calls| ensures Fine(k, more[k]) { assert Fine(k, calls[k]); }
    assert more[..|more| - 1] == calls;
  }

  lemma PlanEnds(saga: Saga, user: User, id: ContainerId, calls: seq<Made>, m: Made, code: nat)
    requires Broken(saga, user, id, calls) && ClosingAfter(saga, user, id, calls) == Some(m.call)
    requires code == CodeAfter(saga, calls)
    ensures Ends(saga, user, id, calls + [m], code)
  {
    assert (calls + [m])[..|calls|] == calls;
  }

  lemma EndsDone(saga: Saga, user: User, id: ContainerId, calls: seq<Made>, code: nat)
    requires Going(saga, user, id, calls) && Planned(saga, user, id, calls).None? && code == DoneCode(saga, calls)
    ensures Ends(saga, user, id, calls, code)
  {
  }

  lemma EndsBroken(saga: Saga, user: User, id: ContainerId, calls: seq<Made>, code: nat)
    requires Broken(saga, user, id, calls)
    requires ClosingAfter(saga, user, id, calls).None? && code == CodeAfter(saga, calls)
    ensures Ends(saga, user, id, calls, code)
  {
  }

  /** A handler with one call. */
  lemma SingleCallEnds(saga: Saga, user: User, id: ContainerId, m: Made, code: nat)
    requires (saga.Update? || saga.CreateInDb? || saga.DeleteInDb? || saga.DeleteInK8s?)
    requires Planned(saga, user, id, []) == Some(m.call)
    requires code == if Fine(0, m) then 200 else FailureCode(saga, 0, m)
    ensures Ends(saga, user, id, [m], code)
  {
    PlanGrows(saga, user, id, [], m);
    assert [] + [m] == [m];
    if Fine(0, m) { EndsDone(saga, user, id, [m], code); } else { EndsBroken(saga, user, id, [m], code); }
  }

  lemma CreateRowAnswered(run: Run, m: Made) returns (code: nat)
    requires run.pc.AtCreateRow? && m.call.CreateRow? && Suits(m)
    ensures Continue(run, m.reply).pc.Ended? && Continue(run, m.reply).pc.response.code == code
    ensures code == if Fine(0, m) then 200 else 500
  {
    code := NextPc(run, m.reply).response.code;
  }

  lemma DeleteRowAnswered(run: Run, m: Made) returns (code: nat)
    requires run.pc.AtDeleteRow? && m.call.DeleteRow? && Suits(m)
    ensures Continue(run, m.reply).pc.Ended? && Continue(run, m.reply).pc.response.code == code
    ensures code == if Fine(0, m) then 200 else FailureCode(DeleteInDb, 0, m)
  {
    code := NextPc(run, m.reply).response.code;
  }

  lemma AfterCreateRow(run: Run, calls: seq<Made>, m: Made)
    requires InPlace(run, calls) && run.pc.AtCreateRow? && m.call == CallOf(run) && Suits(m)
    ensures InPlace(Continue(run, m.reply), calls + [m])
  {
    var code := CreateRowAnswered(run, m);
    SingleCallEnds(run.saga, run.user, run.id, m, code);
    assert calls + [m] == [m];
  }

  lemma AfterLookup(run: Run, calls: seq<Made>, m: Made)
    requires InPlace(run, calls) && run.pc.AtLookup? && m.call == CallOf(run) && Suits(m)
    ensures InPlace(Continue(run, m.reply), calls + [m])
  {
    PlanGrows(run.saga, run.user, run.id, calls, m);
  }

  lemma AfterImage(run: Run, calls: seq<Made>, m: Made)
    requires InPlace(run, calls) && run.pc.AtImage? && m.call == CallOf(run) && Suits(m)
    ensures InPlace(Continue(run, m.reply), calls + [m])
  {
    PlanGrows(run.saga, run.user, run.id, calls, m);
  }

  lemma AfterStartPod(run: Run, calls: seq<Made>, m: Made)
    requires InPlace(run, calls) && run.pc.AtStartPod? && m.call == CallOf(run) && Suits(m)
    ensures InPlace(Continue(run, m.reply), calls + [m])
  {
    PlanGrows(run.saga, run.user, run.id, calls, m);
  }

  lemma AfterDeleteRow(run: Run, calls: seq<Made>, m: Made)
    requires InPlace(run, calls) && run.pc.AtDeleteRow? && m.call == CallOf(run) && Suits(m)
    ensures InPlace(Continue(run, m.reply), calls + [m])
  {
    var code := DeleteRowAnswered(run, m);
    SingleCallEnds(run.saga, run.user, run.id, m, code);
    assert calls + [m] == [m];
  }

  lemma AfterDeletePods(run: Run, calls: seq<Made>, m: Made)
    requires InPlace(run, calls) && run.pc.AtDeletePods? && m.call == CallOf(run) && Suits(m)
    ensures InPlace(Continue(run, m.reply), calls + [m])
  {
    PlanGrows(run.saga, run.user, run.id, calls, m);
  }

  lemma AfterPendingWrite(run: Run, calls: seq<Made>, m: Made)
    requires InPlace(run, calls) && run.pc.AtPendingWrite? && m.call == CallOf(run) && Suits(m)
    ensures InPlace(Continue(run, m.reply), calls + [m])
  {
    PlanGrows(run.saga, run.user, run.id, calls, m);
  }

  lemma AfterSnapshot(run: Run, calls: seq<Made>, m: Made)
    requires InPlace(run, calls) && run.pc.AtSnapshot? && m.call == CallOf(run) && Suits(m)
    ensures InPlace(Continue(run, m.reply), calls + [m])
  {
    PlanGrows(run.saga, run.user, run.id, calls, m);
  }

  lemma AfterTransition(run: Run, calls: seq<Made>, m: Made)
    requires InPlace(run, calls) && run.pc.AtTransition? && m.call == CallOf(run) && Suits(m)
    ensures InPlace(Continue(run, m.reply), calls + [m])
  {
    PlanGrows(run.saga, run.user, run.id, calls, m);
  }

  lemma AfterStamp(run: Run, calls: seq<Made>, m: Made)
    requires InPlace(run, calls) && run.pc.AtStamp? && m.call == CallOf(run) && Suits(m)
    ensures InPlace(Continue(run, m.reply), calls + [m])
  {
    PlanGrows(run.saga, run.user, run.id, calls, m);
  }

  lemma AfterSync(run: Run, calls: seq<Made>, m: Made)
    requires InPlace(run, calls) && run.pc.AtSync? && m.call == CallOf(run) && Suits(m)
    ensures InPlace(Continue(run, m.reply), calls + [m])
  {
    PlanGrows(run.saga, run.user, run.id, calls, m);
  }

  lemma PollAnswered(run: Run, m: Made)
    requires run.pc.AtPoll? && m.call.GetRow? && Suits(m)
    ensures var pc := Continue(run, m.reply).pc;
            if !Fine(1, m) then pc.Ended? && pc.response.code == 500
            else if ReadsSave(m, SaveSucceeded) then pc == AtDeletePods
            else if ReadsSave(m, SaveFailed) then pc.Ended? && pc.response.code == 502
            else pc == AtPoll
  {
  }

  /** A poll that was answered, added to the calls. */
  lemma PollPlanned(user: User, id: ContainerId, calls: seq<Made>, m: Made)
    requires Waits(Hibernate, calls) && m.call.GetRow?
    ensures var more := calls + [m];
            && Waits(Hibernate, more) && NoHibernateRow(more)
            && (if ReadsSave(m, SaveSucceeded) then Planned(Hibernate, user, id, more) == Some(DeletePods(user, id))
                else if ReadsSave(m, SaveFailed) then
                  Planned(Hibernate, user, id, more).None? && DoneCode(Hibernate, more) == 502
                else Planned(Hibernate, user, id, more) == Some(GetRow(id, user)))
  {
    var more := calls + [m];
    forall k | 0 <= k < |more| ensures !more[k].call.HibernateRow? {
      if k < |calls| { assert more[k] == calls[k]; }
    }
  }

  lemma AfterPoll(run: Run, calls: seq<Made>, m: Made)
    requires InPlace(run, calls) && run.pc.AtPoll? && m.call == CallOf(run) && Suits(m)
    ensures InPlace(Continue(run, m.reply), calls + [m])
  {
    PlanGrows(run.saga, run.user, run.id, calls, m);
    PollAnswered(run, m);
    PollPlanned(run.user, run.id, calls, m);
    if !Fine(|calls|, m) { EndsBroken(run.saga, run.user, run.id, calls + [m], 500); }
  }

  lemma TransitionAnswered(run: Run, m: Made)
    requires run.pc.AtHibernate? && m.call.HibernateRow? && Suits(m)
    ensures var pc := Continue(run, m.reply).pc;
            if Fine(1, m) then pc == AtFinalRead else pc.Ended? && pc.response.code == 500
  {
  }

  lemma AwaitsFinalRead(run: Run, calls: seq<Made>)
    requires run.saga.Hibernate? && run.pc.AtFinalRead? && Going(run.saga, run.user, run.id, calls)
    requires |calls| >= 6 && calls[|calls| - 1].call.HibernateRow?
    ensures InPlace(run, calls)
  {
  }

  lemma TransitionFails(run: Run, calls: seq<Made>)
    requires run.saga.Hibernate? && run.pc.Ended? && run.pc.response.code == 500
    requires Broken(run.saga, run.user, run.id, calls) && |calls| >= 6 && calls[|calls| - 1].call.HibernateRow?
    ensures InPlace(run, calls)
  {
    EndsBroken(run.saga, run.user, run.id, calls, 500);
  }

  lemma TransitionIsPlanned(run: Run, calls: seq<Made>)
    requires InPlace(run, calls) && run.pc.AtHibernate?
    ensures run.saga.Hibernate? && |calls| >= 5 && Going(run.saga, run.user, run.id, calls)
    ensures Planned(run.saga, run.user, run.id, calls) == Some(CallOf(run)) && CallOf(run) == HibernateRow(run.id)
  {
  }

  lemma AfterHibernate(run: Run, calls: seq<Made>, m: Made)
    requires InPlace(run, calls) && run.pc.AtHibernate? && m.call == CallOf(run) && Suits(m)
    ensures InPlace(Continue(run, m.reply), calls + [m])
  {
    TransitionIsPlanned(run, calls);
    TransitionMade(run, calls, m);
  }

  lemma TransitionMade(run: Run, calls: seq<Made>, m: Made)
    requires run.pc.AtHibernate? && run.saga.Hibernate? && |calls| >= 5 && Going(run.saga, run.user, run.id, calls)
    requires Planned(run.saga, run.user, run.id, calls) == Some(m.call) && m.call == HibernateRow(run.id) && Suits(m)
    ensures InPlace(Continue(run, m.reply), calls + [m])
  {
    PlanGrows(run.saga, run.user, run.id, calls, m);
    TransitionAnswered(run, m);
    if Fine(|calls|, m) {
      AwaitsFinalRead(Continue(run, m.reply), calls + [m]);
    } else {
      TransitionFails(Continue(run, m.reply), calls + [m]);
    }
  }

  lemma FinalReadAnswered(run: Run, m: Made) returns (code: nat)
    requires run.pc.AtFinalRead? && m.call.GetRow? && Suits(m)
    ensures Continue(run, m.reply).pc.Ended? && Continue(run, m.reply).pc.response.code == code
    ensures code == if Fine(1, m) then 200 else 500
  {
    code := NextPc(run, m.reply).response.code;
  }

  lemma AfterFinalRead(run: Run, calls: seq<Made>, m: Made)
    requires InPlace(run, calls) && run.pc.AtFinalRead? && m.call == CallOf(run) && Suits(m)
    ensures InPlace(Continue(run, m.reply), calls + [m])
  {
    PlanGrows(run.saga, run.user, run.id, calls, m);
    var code := FinalReadAnswered(run, m);
    if Fine(|calls|, m) {
      assert (calls + [m])[|calls| - 1] == calls[|calls| - 1];
      EndsDone(run.saga, run.user, run.id, calls + [m], code);
    } else {
      EndsBroken(run.saga, run.user, run.id, calls + [m], code);
    }
  }

  lemma UpdateAnswered(run: Run, m: Made) returns (code: nat)
    requires run.pc.AtUpdate? && m.call.UpdateRow? && Suits(m)
    ensures Continue(run, m.reply).pc.Ended? && Continue(run, m.reply).pc.response.code == code
    ensures code == if Fine(0, m) then 200 else 500
  {
    code := NextPc(run, m.reply).response.code;
  }

  lemma AfterUpdate(run: Run, calls: seq<Made>, m: Made)
    requires InPlace(run, calls) && run.pc.AtUpdate? && m.call == CallOf(run) && Suits(m)
    ensures InPlace(Continue(run, m.reply), calls + [m])
  {
    var code := UpdateAnswered(run, m);
    SingleCallEnds(run.saga, run.user, run.id, m, code);
    assert calls + [m] == [m];
  }

  /** A closing call is the last, whatever it is answered. */
  lemma AfterClosing(run: Run, calls: seq<Made>, m: Made)
    requires InPlace(run, calls) && !run.pc.Ended? && ClosingCode(run.pc).Some? && m.call == CallOf(run)
    ensures InPlace(Continue(run, m.reply), calls + [m])
  {
    PlanEnds(run.saga, run.user, run.id, calls, m, ClosingCode(run.pc).value);
  }

  lemma StepInPlace(run: Run, calls: seq<Made>, m: Made)
    requires InPlace(run, calls) && !run.pc.Ended? && m.call == CallOf(run) && Suits(m)
    ensures InPlace(Continue(run, m.reply), calls + [m])
  {
    match run.pc
    case AtCreateRow => AfterCreateRow(run, calls, m);
    case AtLookup => AfterLookup(run, calls, m);
    case AtImage => AfterImage(run, calls, m);
    case AtStartPod => AfterStartPod(run, calls, m);
    case AtDeleteRow => AfterDeleteRow(run, calls, m);
    case AtDeletePods => AfterDeletePods(run, calls, m);
    case AtPendingWrite => AfterPendingWrite(run, calls, m);
    case AtSnapshot => AfterSnapshot(run, calls, m);
    case AtTransition => AfterTransition(run, calls, m);
    case AtStamp => AfterStamp(run, calls, m);
    case AtSync(_) => AfterSync(run, calls, m);
    case AtPoll => AfterPoll(run, calls, m);
    case AtHibernate => AfterHibernate(run, calls, m);
    case AtFinalRead => AfterFinalRead(run, calls, m);
    case AtUpdate => AfterUpdate(run, calls, m);
    case _ => AfterClosing(run, calls, m);
  }

  lemma StartInPlace(user: User, id: ContainerId, saga: Saga)
    ensures InPlace(Start(user, id, saga), [])
  {
  }

  lemma MadeAfterEvent(trace: seq<Event>, e: Event, r: nat)
    ensures MadeBy(trace + [e], r) == MadeBy(trace, r) + if e.Called? && e.run == r then [Made(e.call, e.reply)] else []
  {
    assert (trace + [e])[..|trace|] == trace;
  }

  predicate InstanceInPlace(w: World, r: nat) {
    if r < |w.runs| then InPlace(w.runs[r], MadeBy(w.trace, r)) else MadeBy(w.trace, r) == []
  }

  lemma CallInPlace(w: World, r: nat, o: Outcome)
    requires InstanceInPlace(w, r) && CanAct(w, r)
    ensures InstanceInPlace(DoAct(w, r, o), r)
  {
    var run, x := w.runs[r], Exchange(w.core, CallOf(w.runs[r]), o);
    MadeAfterEvent(w.trace, Called(r, run.saga, CallOf(run), x.reply, x.took), r);
    RepliesFit(w.core, CallOf(run), o);
    StepInPlace(run, MadeBy(w.trace, r), Made(CallOf(run), x.reply));
  }

  lemma CloseInPlace(w: World, r: nat)
    requires InstanceInPlace(w, r) && CanClose(w, r)
    ensures InstanceInPlace(DoClose(w, r), r)
  {
    MadeAfterEvent(w.trace, Other, r);
    WindowClosesInPlace(w.runs[r], MadeBy(w.trace, r));
    AsSeen(DoClose(w, r), r, w.runs[r].(pc := Ended(Response(502, "timed out"))), MadeBy(w.trace, r));
  }

  lemma AsSeen(v: World, r: nat, run: Run, calls: seq<Made>)
    requires r < |v.runs| && v.runs[r] == run && MadeBy(v.trace, r) == calls && InPlace(run, calls)
    ensures InstanceInPlace(v, r)
  {
  }

  lemma WindowClosesInPlace(run: Run, calls: seq<Made>)
    requires InPlace(run, calls) && run.pc.AtPoll?
    ensures InPlace(run.(pc := Ended(Response(502, "timed out"))), calls)
  {
  }

  lemma OthersInPlace(w: World, v: World, r: nat)
    requires InstanceInPlace(w, r) && LeavesAlone(w, v, r)
    ensures InstanceInPlace(v, r)
  {
    if v.trace != w.trace { MadeAfterEvent(w.trace, v.trace[|w.trace|], r); }
    if r < |v.runs| { NotMoved(w, v, r); }
  }

  lemma NotMoved(w: World, v: World, r: nat)
    requires InstanceInPlace(w, r) && LeavesAlone(w, v, r) && r < |v.runs|
    requires MadeBy(v.trace, r) == MadeBy(w.trace, r)
    ensures InPlace(v.runs[r], MadeBy(v.trace, r))
  {
    if r >= |w.runs| { StartInPlace(v.runs[r].user, v.runs[r].id, v.runs[r].saga); }
  }

  lemma {:induction false} EveryInstanceInPlace(capacity: map<Device, Demand>, ls: seq<Label>, r: nat)
    ensures InstanceInPlace(Execute(capacity, ls), r)
    decreases |ls|
  {
    if ls != [] {
      var w, l := Execute(capacity, ls[..|ls| - 1]), ls[|ls| - 1];
      EveryInstanceInPlace(capacity, ls[..|ls| - 1], r);
      if l.Act? && l.run == r && CanAct(w, r) {
        CallInPlace(w, r, l.outcome);
      } else if OwnStep(w, l, r) {
        CloseInPlace(w, r);
      } else {
        OthersLeaveAlone(w, l, r);
        OthersInPlace(w, Next(w, l), r);
      }
    }
  }

  /** Main result: in every reachable state every instance is where its plan says: it has made the calls of
      the plan in order, all fine but perhaps the last, and is about to make the next one or the closing
      one, or has answered as the plan says. */
  lemma EveryInstanceFollowsItsPlan(capacity: map<Device, Demand>, ls: seq<Label>, r: nat)
    requires r < |Execute(capacity, ls).runs|
    ensures var w := Execute(capacity, ls); Follows(w.runs[r], MadeBy(w.trace, r))
  {
    EveryInstanceInPlace(capacity, ls, r);
    InPlaceFollows(Execute(capacity, ls).runs[r], MadeBy(Execute(capacity, ls).trace, r));
  }
}
