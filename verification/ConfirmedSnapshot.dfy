/** Whose snapshot a hibernate trusts. A save status names no snapshot: the newest report decides, even
    one that an older Job makes after this hibernate has written PENDING. */
module ConfirmedSnapshot {
  import opened Prelude
  import opened Platform
  import opened Sagas
  import opened Interleaving
  import opened TenantFrame
  import opened SaveBeforeDelete
  import opened SaveExit

  /** Event j is the newest write to the save status of the row. */
  predicate Newest(trace: seq<Event>, j: nat, id: ContainerId) {
    j < |trace| && Writes(trace[j], id).Some? && forall m :: j < m < |trace| ==> Writes(trace[m], id).None?
  }

  lemma {:induction false} LastWriteIsNewest(trace: seq<Event>, id: ContainerId) returns (j: nat)
    requires LastWrite(trace, id).Some?
    ensures Newest(trace, j, id) && Writes(trace[j], id) == LastWrite(trace, id)
  {
    var n := |trace| - 1;
    if Writes(trace[n], id).Some? {
      j := n;
    } else {
      j := LastWriteIsNewest(trace[..n], id);
      forall m | j < m < |trace| ensures Writes(trace[m], id).None? {
        if m < n { assert trace[..n][m] == trace[m]; }
      }
    }
  }

  /** Event j is the newest write, a Job's SUCCEEDED, and this instance's own PENDING came before it. */
  predicate Decides(trace: seq<Event>, p: nat, j: nat, r: nat, id: ContainerId) {
    OwnPending(trace, p, r, id) && p < j && Newest(trace, j, id) && Succeeded(trace, j, id)
  }

  predicate PollsOn(w: World, r: nat, o: Outcome) {
    && CanAct(w, r) && w.runs[r].saga.Hibernate? && w.runs[r].pc.AtPoll?
    && Next(w, Act(r, o)).runs[r].pc.AtDeletePods?
  }

  lemma PollReadsTheRow(w: World, r: nat, o: Outcome)
    requires PollsOn(w, r, o)
    ensures Owned(w.core, w.runs[r].id, w.runs[r].user)
    ensures w.core.rows[w.runs[r].id].value.save == SaveSucceeded
  {
  }

  /** Main result: in every interleaving, the poll that leads a hibernate on to the pod delete rests on
      the newest report about the container, a Job's SUCCEEDED made after its own PENDING. */
  lemma DeleteRestsOnTheNewestReport(capacity: map<Device, Demand>, ls: seq<Label>, r: nat, o: Outcome)
    returns (p: nat, j: nat)
    requires PollsOn(Execute(capacity, ls), r, o)
    ensures Decides(Execute(capacity, ls).trace, p, j, r, Execute(capacity, ls).runs[r].id)
  {
    var w := Execute(capacity, ls);
    var id := w.runs[r].id;
    PollReadsTheRow(w, r, o);
    SaveStatusIsTheLastWrite(capacity, ls, id);
    j := LastWriteIsNewest(w.trace, id);
    LocalOnlyWritesPendingOrFailed(capacity, ls);
    assert LocalSaveWrite(w.trace[j]);
    EveryHibernateInv(capacity, ls, r);
    p :| OwnPending(w.trace, p, r, id);
    assert Writes(w.trace[p], id) == Some(SavePending);
  }

  // Whose snapshot that report is about.

  /** The instance whose Job made the newest write to the save status, if a Job did. */
  function Confirmer(trace: seq<Event>, id: ContainerId): Option<nat> {
    if trace == [] then None
    else
      var e := trace[|trace| - 1];
      if Writes(e, id).None? then Confirmer(trace[..|trace| - 1], id)
      else if e.JobWrote? then Some(e.asker)
      else None
  }

  lemma {:induction false} NewestConfirms(trace: seq<Event>, j: nat, id: ContainerId)
    requires Newest(trace, j, id) && trace[j].JobWrote?
    ensures Confirmer(trace, id) == Some(trace[j].asker)
  {
    var n := |trace| - 1;
    if j < n {
      assert Writes(trace[n], id).None?;
      assert Newest(trace[..n], j, id);
      NewestConfirms(trace[..n], j, id);
    }
  }

  /** A Job has reported for instance q on this container. */
  predicate Reported(trace: seq<Event>, q: nat, id: ContainerId) {
    trace != [] && (Reports(trace[|trace| - 1], q, id) || Reported(trace[..|trace| - 1], q, id))
  }

  predicate Reports(e: Event, q: nat, id: ContainerId) {
    e.JobWrote? && e.id == id && e.asker == q
  }

  /** Instance q has a snapshot of this container under way or done. */
  predicate Snapshots(w: World, q: nat, id: ContainerId) {
    Asking(w, q, id) || AskedFor(w.trace, q, id)
  }

  /** No other instance has a snapshot of this container that no Job has reported on yet. */
  ghost predicate NoOtherOutstanding(w: World, r: nat, id: ContainerId) {
    forall q: nat {:trigger Reported(w.trace, q, id)} :: q != r && Snapshots(w, q, id) ==> Reported(w.trace, q, id)
  }

  /** A Job reports on each snapshot once, and no other instance starts on one of this container. */
  predicate Orderly(v: World, l: Label, r: nat, id: ContainerId) {
    && (l.Job? && l.id == id ==> !Reported(v.trace, l.asker, id))
    && (l.Act? && l.run != r && CanAct(v, l.run) ==>
          !(v.runs[l.run].pc.AtPendingWrite? && v.runs[l.run].id == id))
  }

  ghost predicate Undisturbed(w: World, rest: seq<Label>, r: nat, id: ContainerId) {
    forall n {:trigger rest[n]} :: 0 <= n < |rest| ==> Orderly(ExecuteFrom(w, rest[..n]), rest[n], r, id)
  }

  lemma EventsAfterStep(trace: seq<Event>, e: Event, q: nat, id: ContainerId)
    ensures AskedFor(trace + [e], q, id) <==> Asks(e, q, id) || AskedFor(trace, q, id)
    ensures Reported(trace + [e], q, id) <==> Reports(e, q, id) || Reported(trace, q, id)
  {
    assert (trace + [e])[..|trace|] == trace;
  }

  /** Only the PENDING write leads to the snapshot call. */
  lemma AskingComesFromPending(run: Run, reply: Reply)
    requires !run.pc.Ended? && Continue(run, reply).pc.AtSnapshot?
    ensures run.pc.AtPendingWrite?
  {
  }

  lemma OwnStepStartsNone(v: World, q: nat, o: Outcome, id: ContainerId)
    requires CanAct(v, q) && !(v.runs[q].pc.AtPendingWrite? && v.runs[q].id == id)
    ensures Snapshots(DoAct(v, q, o), q, id) ==> Snapshots(v, q, id)
    ensures Reported(DoAct(v, q, o).trace, q, id) <==> Reported(v.trace, q, id)
  {
    var run, x := v.runs[q], Exchange(v.core, CallOf(v.runs[q]), o);
    EventsAfterStep(v.trace, Called(q, run.saga, CallOf(run), x.reply, x.took), q, id);
    if Asking(DoAct(v, q, o), q, id) { AskingComesFromPending(run, x.reply); }
  }

  lemma OthersStartNone(v: World, v': World, q: nat, id: ContainerId)
    requires LeavesAlone(v, v', q)
    ensures Snapshots(v', q, id) ==> Snapshots(v, q, id)
    ensures Reported(v.trace, q, id) ==> Reported(v'.trace, q, id)
  {
    if v'.trace != v.trace { EventsAfterStep(v.trace, v'.trace[|v.trace|], q, id); }
  }

  lemma CloseStartsNone(v: World, q: nat, id: ContainerId)
    requires CanClose(v, q)
    ensures Snapshots(DoClose(v, q), q, id) ==> Snapshots(v, q, id)
    ensures Reported(v.trace, q, id) ==> Reported(DoClose(v, q).trace, q, id)
  {
    EventsAfterStep(v.trace, Other, q, id);
  }

  /** An orderly step leaves no other snapshot outstanding. */
  lemma StaysClear(v: World, l: Label, r: nat, id: ContainerId)
    requires NoOtherOutstanding(v, r, id) && Orderly(v, l, r, id)
    ensures NoOtherOutstanding(Next(v, l), r, id)
  {
    var v' := Next(v, l);
    forall q: nat | q != r && Snapshots(v', q, id) ensures Reported(v'.trace, q, id) {
      if l.Act? && l.run == q && CanAct(v, q) {
        OwnStepStartsNone(v, q, l.outcome, id);
      } else if OwnStep(v, l, q) {
        CloseStartsNone(v, q, id);
      } else {
        OthersLeaveAlone(v, l, q);
        OthersStartNone(v, v', q, id);
      }
      assert Reported(v.trace, q, id);
    }
  }

  /** And so only the instance's own Job can report. */
  lemma OnlyItsOwnReports(v: World, l: Label, r: nat, id: ContainerId)
    requires NoOtherOutstanding(v, r, id) && Orderly(v, l, r, id)
    ensures var t := Next(v, l).trace;
            || t == v.trace
            || (t == v.trace + [t[|v.trace|]] && forall q: nat :: Reports(t[|v.trace|], q, id) ==> q == r)
  {
    TraceGrows(v, l);
  }

  /** All reports on the container from event n on are about instance r's snapshot. */
  predicate OwnReportsFrom(trace: seq<Event>, n: nat, r: nat, id: ContainerId) {
    forall m :: n <= m < |trace| && trace[m].JobWrote? && trace[m].id == id ==> trace[m].asker == r
  }

  lemma UndisturbedBefore(w: World, rest: seq<Label>, r: nat, id: ContainerId)
    requires rest != [] && Undisturbed(w, rest, r, id)
    ensures Undisturbed(w, rest[..|rest| - 1], r, id)
    ensures Orderly(ExecuteFrom(w, rest[..|rest| - 1]), rest[|rest| - 1], r, id)
  {
    var before := rest[..|rest| - 1];
    forall n | 0 <= n < |before| ensures Orderly(ExecuteFrom(w, before[..n]), before[n], r, id) {
      assert before[..n] == rest[..n] && before[n] == rest[n];
    }
  }

  lemma {:induction false} StaysClearThroughout(w: World, rest: seq<Label>, r: nat, id: ContainerId)
    requires NoOtherOutstanding(w, r, id) && Undisturbed(w, rest, r, id)
    ensures var v := ExecuteFrom(w, rest);
            NoOtherOutstanding(v, r, id) && w.trace <= v.trace && OwnReportsFrom(v.trace, |w.trace|, r, id)
    decreases |rest|
  {
    if rest != [] {
      var before, l := rest[..|rest| - 1], rest[|rest| - 1];
      UndisturbedBefore(w, rest, r, id);
      StaysClearThroughout(w, before, r, id);
      StaysClear(ExecuteFrom(w, before), l, r, id);
      OnlyItsOwnReports(ExecuteFrom(w, before), l, r, id);
    }
  }

  /** This hibernate has just written PENDING to its row. */
  predicate JustPended(w: World, r: nat) {
    && r < |w.runs| && w.runs[r].saga.Hibernate? && w.runs[r].pc.AtSnapshot?
    && Owned(w.core, w.runs[r].id, w.runs[r].user)
    && w.trace != [] && OwnPending(w.trace, |w.trace| - 1, r, w.runs[r].id)
  }

  /** Main result: if no other snapshot of the container is outstanding when a hibernate writes PENDING,
      and no other is started and each is reported on once from then on, then the report that leads to
      the pod delete is about the hibernate's own snapshot. */
  lemma TrustsItsOwnSnapshot(capacity: map<Device, Demand>, ls: seq<Label>, r: nat, rest: seq<Label>, o: Outcome)
    requires JustPended(Execute(capacity, ls), r)
    requires NoOtherOutstanding(Execute(capacity, ls), r, Execute(capacity, ls).runs[r].id)
    requires Undisturbed(Execute(capacity, ls), rest, r, Execute(capacity, ls).runs[r].id)
    requires PollsOn(ExecuteFrom(Execute(capacity, ls), rest), r, o)
    ensures Confirmer(ExecuteFrom(Execute(capacity, ls), rest).trace, Execute(capacity, ls).runs[r].id) == Some(r)
  {
    var w := Execute(capacity, ls);
    var v, id := ExecuteFrom(w, rest), w.runs[r].id;
    StaysClearThroughout(w, rest, r, id);
    ExecuteSplits(capacity, ls, rest);
    KeepsIdentity(w, rest, r);
    var p, j := DeleteRestsOnTheNewestReport(capacity, ls + rest, r, o);
    NewestReportIsOwn(w.trace, v.trace, j, r, id);
  }

  /** After the instance's own PENDING, and with no report but on its own snapshot since, it is confirmed
      by its own. */
  lemma NewestReportIsOwn(before: seq<Event>, trace: seq<Event>, j: nat, r: nat, id: ContainerId)
    requires before != [] && before <= trace && OwnPending(before, |before| - 1, r, id)
    requires OwnReportsFrom(trace, |before|, r, id) && Newest(trace, j, id) && Succeeded(trace, j, id)
    ensures Confirmer(trace, id) == Some(r)
  {
    var n := |before| - 1;
    assert trace[n] == before[n] && Writes(trace[n], id) == Some(SavePending);
    assert j > n;
    NewestConfirms(trace, j, id);
  }

  lemma {:induction false} KeepsIdentity(w: World, rest: seq<Label>, r: nat)
    requires r < |w.runs|
    ensures r < |ExecuteFrom(w, rest).runs| && ExecuteFrom(w, rest).runs[r].id == w.runs[r].id
    decreases |rest|
  {
    if rest != [] {
      KeepsIdentity(w, rest[..|rest| - 1], r);
      RunsKeepTheirIdentity(ExecuteFrom(w, rest[..|rest| - 1]), rest[|rest| - 1], r);
    }
  }

  /** The snapshot call is served, and the Job of instance q reports SUCCEEDED. */
  function OtherReports(w: World, r: nat, q: nat): seq<Label>
    requires r < |w.runs|
  {
    [Act(r, SERVED), Job(w.runs[r].id, SaveSucceeded, q)]
  }

  lemma SnapshotServed(w: World, r: nat)
    requires r < |w.runs| && w.runs[r].saga.Hibernate? && w.runs[r].pc.AtSnapshot?
    ensures var v := Next(w, Act(r, SERVED));
            && v.core == w.core && v.runs == w.runs[r := w.runs[r].(pc := AtPoll)]
            && |v.trace| == |w.trace| + 1 && v.trace == w.trace + [v.trace[|w.trace|]]
            && v.trace[|w.trace|].Called? && v.trace[|w.trace|].run == r
  {
  }

  lemma JobReports(w: World, id: ContainerId, q: nat)
    requires CanReport(w, id, q)
    ensures var v := Next(w, Job(id, SaveSucceeded, q));
            && v.runs == w.runs && v.trace == w.trace + [JobWrote(id, SaveSucceeded, q)]
            && Confirmer(v.trace, id) == Some(q)
            && Exists(v.core, id) && v.core.rows[id].value == w.core.rows[id].value.(save := SaveSucceeded)
  {
  }

  lemma PollsOnWhenSucceeded(w: World, r: nat)
    requires CanAct(w, r) && w.runs[r].saga.Hibernate? && w.runs[r].pc.AtPoll?
    requires Owned(w.core, w.runs[r].id, w.runs[r].user) && w.core.rows[w.runs[r].id].value.save == SaveSucceeded
    ensures PollsOn(w, r, SERVED)
  {
  }

  lemma TwoSteps(w: World, l: Label, l': Label, r: nat, id: ContainerId)
    requires Orderly(w, l, r, id) && Orderly(Next(w, l), l', r, id)
    ensures ExecuteFrom(w, [l, l']) == Next(Next(w, l), l') && Undisturbed(w, [l, l'], r, id)
  {
    var rest := [l, l'];
    assert rest[..0] == [] && rest[..1] == [l] && rest[..1][..0] == [];
    assert ExecuteFrom(w, rest[..1]) == Next(w, l);
  }

  /** The converse: any other outstanding snapshot can come to be the one that is trusted, in a
      continuation that is just as orderly. */
  lemma OtherSnapshotCanBeTrusted(w: World, r: nat, q: nat)
    requires JustPended(w, r) && q != r && Snapshots(w, q, w.runs[r].id) && !Reported(w.trace, q, w.runs[r].id)
    ensures var v, id := ExecuteFrom(w, OtherReports(w, r, q)), w.runs[r].id;
            Undisturbed(w, OtherReports(w, r, q), r, id) && PollsOn(v, r, SERVED) && Confirmer(v.trace, id) == Some(q)
  {
    var id, w1 := w.runs[r].id, Next(w, Act(r, SERVED));
    SnapshotServed(w, r);
    EventsAfterStep(w.trace, w1.trace[|w.trace|], q, id);
    JobReports(w1, id, q);
    PollsOnWhenSucceeded(Next(w1, Job(id, SaveSucceeded, q)), r);
    TwoSteps(w, Act(r, SERVED), Job(id, SaveSucceeded, q), r, id);
  }

  /** In every orderly continuation, the snapshot that is trusted is the hibernate's own. */
  ghost predicate OnlyItsOwnIsTrusted(w: World, r: nat)
    requires r < |w.runs|
  {
    forall rest: seq<Label>, o: Outcome {:trigger PollsOn(ExecuteFrom(w, rest), r, o)} ::
      Undisturbed(w, rest, r, w.runs[r].id) && PollsOn(ExecuteFrom(w, rest), r, o) ==>
        Confirmer(ExecuteFrom(w, rest).trace, w.runs[r].id) == Some(r)
  }

  /** Main result: in every reachable state in which a hibernate has just written PENDING, it is sure to
      trust only its own snapshot exactly if no other instance has one outstanding. */
  lemma TrustsItsOwnSnapshotIff(capacity: map<Device, Demand>, ls: seq<Label>, r: nat)
    requires JustPended(Execute(capacity, ls), r)
    ensures var w := Execute(capacity, ls); OnlyItsOwnIsTrusted(w, r) <==> NoOtherOutstanding(w, r, w.runs[r].id)
  {
    var w := Execute(capacity, ls);
    var id := w.runs[r].id;
    if NoOtherOutstanding(w, r, id) {
      forall rest: seq<Label>, o: Outcome | Undisturbed(w, rest, r, id) && PollsOn(ExecuteFrom(w, rest), r, o)
        ensures Confirmer(ExecuteFrom(w, rest).trace, id) == Some(r)
      {
        TrustsItsOwnSnapshot(capacity, ls, r, rest, o);
      }
    }
    if OnlyItsOwnIsTrusted(w, r) {
      forall q: nat | q != r && Snapshots(w, q, id) ensures Reported(w.trace, q, id) {
        if !Reported(w.trace, q, id) {
          OtherSnapshotCanBeTrusted(w, r, q);
          assert PollsOn(ExecuteFrom(w, OtherReports(w, r, q)), r, SERVED);
        }
      }
    }
  }
}
