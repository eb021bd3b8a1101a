/** What the plans come to: when a handler goes through, and what each handler accepts. */
module PlanResults {
  import opened Prelude
  import opened Platform
  import opened Sagas
  import opened Interleaving
  import opened Plans
  import opened PlanFollowing

  /** A reply is of the kind its call asks for, and the row a lookup reads is its user's. */
  predicate Sane(m: Made) {
    Suits(m) && (m.call.GetRow? && ReadRow(m).Some? ==> ReadRow(m).value.owner == m.call.user)
  }

  predicate AllSane(calls: seq<Made>) {
    forall k {:trigger Sane(calls[k])} :: 0 <= k < |calls| ==> Sane(calls[k])
  }

  lemma RepliesAreSane(core: Core, call: Call, o: Outcome)
    ensures Sane(Made(call, Exchange(core, call, o).reply))
  {
    RepliesFit(core, call, o);
  }

  lemma SaneGrows(calls: seq<Made>, m: Made)
    requires AllSane(calls) && Sane(m)
    ensures AllSane(calls + [m])
  {
    forall k | 0 <= k < |calls + [m]| ensures Sane((calls + [m])[k]) {
      if k < |calls| { assert Sane(calls[k]); }
    }
  }

  lemma StepStaysSane(w: World, l: Label, r: nat)
    requires AllSane(MadeBy(w.trace, r))
    ensures AllSane(MadeBy(Next(w, l).trace, r))
  {
    if l.Act? && l.run == r && CanAct(w, r) {
      var call, x := CallOf(w.runs[r]), Exchange(w.core, CallOf(w.runs[r]), l.outcome);
      MadeAfterEvent(w.trace, Called(r, w.runs[r].saga, call, x.reply, x.took), r);
      RepliesAreSane(w.core, call, l.outcome);
      SaneGrows(MadeBy(w.trace, r), Made(call, x.reply));
    } else if OwnStep(w, l, r) {
      MadeAfterEvent(w.trace, Other, r);
    } else {
      OthersLeaveAlone(w, l, r);
      OthersMakeNone(w, Next(w, l), r);
    }
  }

  lemma OthersMakeNone(w: World, v: World, r: nat)
    requires LeavesAlone(w, v, r)
    ensures MadeBy(v.trace, r) == MadeBy(w.trace, r)
  {
    if v.trace != w.trace { MadeAfterEvent(w.trace, v.trace[|w.trace|], r); }
  }

  lemma {:induction false} EveryReplyIsSane(capacity: map<Device, Demand>, ls: seq<Label>, r: nat)
    ensures AllSane(MadeBy(Execute(capacity, ls).trace, r))
    decreases |ls|
  {
    if ls != [] {
      EveryReplyIsSane(capacity, ls[..|ls| - 1], r);
      StepStaysSane(Execute(capacity, ls[..|ls| - 1]), ls[|ls| - 1], r);
    }
  }

  // Hibernate.

  /** The lookup showed a row of the user's that is running and has a pod. */
  predicate FoundReady(user: User, calls: seq<Made>) {
    && calls != [] && ReadRow(calls[0]).Some? && ReadRow(calls[0]).value.owner == user
    && ReadRow(calls[0]).value.status == Running && ReadRow(calls[0]).value.kubernetesId.Some?
  }

  predicate FoundUnready(calls: seq<Made>) {
    && calls != [] && ReadRow(calls[0]).Some?
    && (ReadRow(calls[0]).value.status != Running || ReadRow(calls[0]).value.kubernetesId.None?)
  }

  predicate WritesPending(call: Call, user: User, id: ContainerId) {
    call.UpdateRow? && call.id == id && call.body == NO_FIELDS.(userId := Some(user), save := Some(SavePending))
  }

  /** The next call after a lookup. */
  lemma HibernateSecondCall(run: Run, calls: seq<Made>)
    requires run.saga.Hibernate? && Follows(run, calls) && AllSane(calls) && calls != [] && ReadRow(calls[0]).Some?
    ensures |calls| >= 2 ==> Ready(ReadRow(calls[0]).value) && WritesPending(calls[1].call, run.user, run.id)
    ensures |calls| == 1 ==>
              if Ready(ReadRow(calls[0]).value) then !run.pc.Ended? && WritesPending(CallOf(run), run.user, run.id)
              else run.pc.Ended? && run.pc.response.code == 409
  {
    if |calls| >= 2 { SecondIsPlanned(run, calls); }
  }

  lemma SecondIsPlanned(run: Run, calls: seq<Made>)
    requires run.saga.Hibernate? && Follows(run, calls) && |calls| >= 2
    ensures PlannedHibernate(run.user, run.id, calls[..1]) == Some(calls[1].call) && calls[..1][0] == calls[0]
  {
    assert OnPlan(run.saga, run.user, run.id, calls);
    assert PlannedAt(run.saga, run.user, run.id, calls, 1) == Some(calls[1].call);
  }

  /** Only the second call of a hibernate writes to the row. */
  lemma HibernateWritesOnce(run: Run, calls: seq<Made>, k: nat)
    requires run.saga.Hibernate? && Follows(run, calls) && k < |calls| && calls[k].call.UpdateRow?
    ensures k == 1
  {
    assert OnPlan(run.saga, run.user, run.id, calls);
    assert PlannedAt(run.saga, run.user, run.id, calls, k) == Some(calls[k].call);
  }

  lemma FirstIsLookup(run: Run, calls: seq<Made>)
    requires run.saga.Hibernate? && Follows(run, calls) && calls != []
    ensures calls[0].call == GetRow(run.id, run.user)
  {
    assert OnPlan(run.saga, run.user, run.id, calls);
    assert PlannedAt(run.saga, run.user, run.id, calls, 0) == Some(calls[0].call);
  }

  /** Main result: in every reachable state, a hibernate writes PENDING only after its own lookup showed a
      row of its user's that was RUNNING and had a pod; after such a lookup that write is its next call;
      and after a lookup of any other row it has answered 409, without another call. */
  lemma HibernateAcceptsOnlyReadyRows(capacity: map<Device, Demand>, ls: seq<Label>, r: nat)
    requires r < |Execute(capacity, ls).runs| && Execute(capacity, ls).runs[r].saga.Hibernate?
    ensures var w := Execute(capacity, ls);
            var run, calls := w.runs[r], MadeBy(w.trace, r);
            && (forall k :: 0 <= k < |calls| && calls[k].call.UpdateRow? ==> k == 1 && FoundReady(run.user, calls))
            && (FoundReady(run.user, calls) ==>
                  if |calls| >= 2 then WritesPending(calls[1].call, run.user, run.id)
                  else !run.pc.Ended? && WritesPending(CallOf(run), run.user, run.id))
            && (FoundUnready(calls) ==> |calls| == 1 && run.pc.Ended? && run.pc.response.code == 409)
  {
    var w := Execute(capacity, ls);
    var run, calls := w.runs[r], MadeBy(w.trace, r);
    EveryInstanceFollowsItsPlan(capacity, ls, r);
    EveryReplyIsSane(capacity, ls, r);
    if calls != [] {
      assert Sane(calls[0]);
      FirstIsLookup(run, calls);
      if ReadRow(calls[0]).Some? { HibernateSecondCall(run, calls); }
    }
    forall k | 0 <= k < |calls| && calls[k].call.UpdateRow? ensures k == 1 && FoundReady(run.user, calls) {
      HibernateWritesOnce(run, calls, k);
      SecondIsPlanned(run, calls);
    }
  }

  // When a handler goes through.

  lemma FailuresAreErrors(saga: Saga, k: nat, m: Made)
    requires Sane(m) && !saga.Save?
    ensures FailureCode(saga, k, m) >= 400
  {
  }

  lemma BrokenIsNotFine(saga: Saga, user: User, id: ContainerId, calls: seq<Made>)
    requires Broken(saga, user, id, calls)
    ensures !AllFine(calls)
  {
    assert !Fine(|calls| - 1, calls[|calls| - 1]);
  }

  lemma NotFineBefore(calls: seq<Made>)
    requires calls != [] && !AllFine(calls[..|calls| - 1])
    ensures !AllFine(calls)
  {
    var before := calls[..|calls| - 1];
    var k :| 0 <= k < |before| && !Fine(k, before[k]);
    assert calls[k] == before[k] && !Fine(k, calls[k]);
  }

  /** An end with every call fine is the end of the plan, or of the window. */
  lemma FineEnds(saga: Saga, user: User, id: ContainerId, calls: seq<Made>, code: nat)
    requires Ends(saga, user, id, calls, code) && AllFine(calls) && !saga.Hibernate?
    ensures Planned(saga, user, id, calls).None? && code == DoneCode(saga, calls)
  {
    if Broken(saga, user, id, calls) { BrokenIsNotFine(saga, user, id, calls); }
    if |calls| >= 2 && Broken(saga, user, id, calls[..|calls| - 1]) {
      BrokenIsNotFine(saga, user, id, calls[..|calls| - 1]);
      NotFineBefore(calls);
    }
  }

  lemma UnfineEnds(saga: Saga, user: User, id: ContainerId, calls: seq<Made>, code: nat)
    requires Ends(saga, user, id, calls, code) && !AllFine(calls) && AllSane(calls) && !saga.Save?
    ensures code >= 400
  {
    var n := |calls|;
    if Broken(saga, user, id, calls) && code == CodeAfter(saga, calls) {
      assert Sane(calls[n - 1]);
      FailuresAreErrors(saga, n - 1, calls[n - 1]);
    } else {
      assert Sane(calls[n - 2]);
      FailuresAreErrors(saga, n - 2, calls[n - 2]);
    }
  }

  /** Main result: in every interleaving, a handler other than save and hibernate that has answered has
      answered 200 exactly if every one of its calls was answered so that it could go on. So a resume or
      a create fails only because one of its calls did, and a resume whose calls go well is not rolled
      back. */
  lemma GoesThroughIff(capacity: map<Device, Demand>, ls: seq<Label>, r: nat)
    requires var w := Execute(capacity, ls);
             && r < |w.runs| && w.runs[r].pc.Ended? && !w.runs[r].saga.Save? && !w.runs[r].saga.Hibernate?
             && MadeBy(w.trace, r) != []
    ensures var w := Execute(capacity, ls);
            && (w.runs[r].pc.response.code == 200 <==> AllFine(MadeBy(w.trace, r)))
            && (AllFine(MadeBy(w.trace, r)) ==>
                  Planned(w.runs[r].saga, w.runs[r].user, w.runs[r].id, MadeBy(w.trace, r)).None?)
  {
    var w := Execute(capacity, ls);
    var run, calls := w.runs[r], MadeBy(w.trace, r);
    EveryInstanceFollowsItsPlan(capacity, ls, r);
    EveryReplyIsSane(capacity, ls, r);
    if AllFine(calls) { FineEnds(run.saga, run.user, run.id, calls, run.pc.response.code); }
    else { UnfineEnds(run.saga, run.user, run.id, calls, run.pc.response.code); }
  }

  /** Main result: in every interleaving, a save that has answered has answered 202 exactly if its lookup
      found the row and its PENDING write was answered. */
  lemma SaveIsAcceptedIff(capacity: map<Device, Demand>, ls: seq<Label>, r: nat)
    requires var w := Execute(capacity, ls); r < |w.runs| && w.runs[r].pc.Ended? && w.runs[r].saga.Save?
    ensures var w := Execute(capacity, ls);
            var calls := MadeBy(w.trace, r);
            w.runs[r].pc.response.code == 202 <==> |calls| >= 2 && Fine(0, calls[0]) && Fine(1, calls[1])
  {
    var w := Execute(capacity, ls);
    EveryInstanceFollowsItsPlan(capacity, ls, r);
    SaveEnds(w.runs[r].user, w.runs[r].id, MadeBy(w.trace, r), w.runs[r].pc.response.code);
  }

  lemma SaveEnds(user: User, id: ContainerId, calls: seq<Made>, code: nat)
    requires Ends(Save, user, id, calls, code)
    ensures code == 202 <==> |calls| >= 2 && Fine(0, calls[0]) && Fine(1, calls[1])
  {
    var n := |calls|;
    if Broken(Save, user, id, calls) {
      SaveBroken(user, id, calls);
      if n >= 2 { assert Fine(n - 2, calls[..n - 1][n - 2]); }
    } else if n >= 2 && Broken(Save, user, id, calls[..n - 1]) && !Going(Save, user, id, calls) {
      SaveBroken(user, id, calls[..n - 1]);
    } else {
      if n >= 1 { assert Fine(0, calls[0]); }
      if n >= 2 { assert Fine(1, calls[1]); }
    }
  }

  /** Which call of a save failed. */
  lemma SaveBroken(user: User, id: ContainerId, calls: seq<Made>)
    requires Broken(Save, user, id, calls)
    ensures |calls| <= 3
    ensures calls[|calls| - 1].call.TakeSnapshot? <==> |calls| == 3
    ensures |calls| == 3 <==> |calls| >= 2 && Fine(0, calls[0]) && Fine(1, calls[1])
    ensures |calls| == 3 <==> ClosingAfter(Save, user, id, calls).Some?
    ensures CodeAfter(Save, calls) == 202 <==> |calls| == 3
  {
    var n := |calls|;
    assert PlannedAt(Save, user, id, calls, n - 1) == Some(calls[n - 1].call);
    var before := calls[..n - 1];
    if n >= 2 { assert Fine(0, before[0]) && before[0] == calls[0]; }
    if n >= 3 { assert Fine(1, before[1]) && before[1] == calls[1]; }
  }
}
