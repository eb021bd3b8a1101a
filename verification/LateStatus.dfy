/** What the late calls of a resume do to the other fields of its row: each field says what the newest of
    the run's calls to write it and take effect, in time or late, wrote there. */
module LateStatus {
  import opened Prelude
  import opened Platform
  import opened ErrorLayers
  import opened Sagas
  import opened Interleaving
  import opened LateEffects

  function StatusOf(call: Call): Option<Status> {
    match call
    case ResumeRow(_, _) => Some(Resuming)
    case HibernateRow(_) => Some(Hibernated)
    case UpdateRow(_, body) => body.status
    case _ => None
  }

  function KubernetesIdOf(call: Call): Option<nat> {
    if call.UpdateRow? then call.body.kubernetesId else None
  }

  function IpOf(call: Call): Option<nat> {
    if call.UpdateRow? then call.body.ip else None
  }

  function ResourcesOf(call: Call): Option<nat> {
    if call.UpdateRow? then call.body.resources else None
  }

  predicate Effective(e: Event, r: nat) {
    (e.Called? || e.Landed?) && e.run == r && e.took
  }

  /** What the newest effective call of instance r wrote to a field. */
  function LastOf<T>(trace: seq<Event>, r: nat, field: Call -> Option<T>): Option<T> {
    if trace == [] then None
    else
      var e := trace[|trace| - 1];
      if Effective(e, r) && field(e.call).Some? then field(e.call) else LastOf(trace[..|trace| - 1], r, field)
  }

  function LastStatus(trace: seq<Event>, r: nat): Option<Status> {
    LastOf(trace, r, StatusOf)
  }

  lemma LastOfAfterEvent<T>(trace: seq<Event>, e: Event, r: nat, field: Call -> Option<T>)
    ensures LastOf(trace + [e], r, field)
            == if Effective(e, r) && field(e.call).Some? then field(e.call) else LastOf(trace, r, field)
  {
    assert (trace + [e])[..|trace|] == trace;
  }

  /** The row after what the instance wrote to it. */
  predicate RowFollows(was: Row, row: Row, trace: seq<Event>, r: nat) {
    && row.status == Written(was.status, LastStatus(trace, r))
    && row.kubernetesId == WrittenOption(was.kubernetesId, LastOf(trace, r, KubernetesIdOf))
    && row.ip == WrittenOption(was.ip, LastOf(trace, r, IpOf))
    && row.resources == WrittenOption(was.resources, LastOf(trace, r, ResourcesOf))
    && row.save == was.save && row.savedImage == was.savedImage
  }

  /** The calls a resume makes about its container. */
  predicate ResumeCall(call: Call, id: ContainerId) {
    match call
    case GetRow(_, _) => true
    case ReadImage => true
    case StartPod(_, _) => true
    case UpdateRow(c, body) => c == id && body.save.None? && body.savedImage.None?
    case ResumeRow(c, _) => c == id
    case HibernateRow(c) => c == id
    case _ => false
  }

  /** The row after a call that took effect or not. */
  predicate RowChanges(was: Row, row: Row, call: Call, took: bool) {
    && row.status == (if took then Written(was.status, StatusOf(call)) else was.status)
    && row.kubernetesId == (if took then WrittenOption(was.kubernetesId, KubernetesIdOf(call)) else was.kubernetesId)
    && row.ip == (if took then WrittenOption(was.ip, IpOf(call)) else was.ip)
    && row.resources == (if took then WrittenOption(was.resources, ResourcesOf(call)) else was.resources)
    && row.save == was.save && row.savedImage == was.savedImage
  }

  lemma CallChanges(core: Core, call: Call, pick: Pick, id: ContainerId)
    requires ResumeCall(call, id) && Exists(core, id)
    ensures var core' := Perform(core, call, pick);
            Exists(core', id) && RowChanges(core.rows[id].value, core'.rows[id].value, call, Accepts(core, call))
  {
  }

  lemma ChangesFollow(was: Row, row: Row, row': Row, trace: seq<Event>, e: Event, r: nat)
    requires RowFollows(was, row, trace, r) && (e.Called? || e.Landed?) && e.run == r
    requires RowChanges(row, row', e.call, e.took)
    ensures RowFollows(was, row', trace + [e], r)
  {
    LastOfAfterEvent(trace, e, r, StatusOf);
    LastOfAfterEvent(trace, e, r, KubernetesIdOf);
    LastOfAfterEvent(trace, e, r, IpOf);
    LastOfAfterEvent(trace, e, r, ResourcesOf);
  }

  /** The invariant: the row of the container, if there is one, follows the instance's calls. */
  predicate Follows(a: Core, v: World, r: nat, id: ContainerId) {
    Exists(a, id) ==> Exists(v.core, id) && RowFollows(a.rows[id].value, v.core.rows[id].value, v.trace, r)
  }

  lemma CallsAreResumeCalls(run: Run)
    requires run.saga == Resume && !run.pc.Ended?
    requires run.pc.AtLookup? || run.pc.AtTransition? || run.pc.AtStamp? || run.pc.AtImage? || run.pc.AtStartPod?
             || run.pc.AtSync? || run.pc.AtRollback? || run.pc.AtMarkFailed?
    ensures ResumeCall(CallOf(run), run.id)
  {
  }

  lemma ActFollows(a: Core, v: World, r: nat, id: ContainerId, o: Outcome)
    requires CanAct(v, r) && Follows(a, v, r, id) && ResumeCall(CallOf(v.runs[r]), id)
    ensures Follows(a, DoAct(v, r, o), r, id)
  {
    if Exists(a, id) {
      var call, x := CallOf(v.runs[r]), Exchange(v.core, CallOf(v.runs[r]), o);
      if !o.Refused? { CallChanges(v.core, call, o.pick, id); }
      assert Exists(x.core, id) && RowChanges(v.core.rows[id].value, x.core.rows[id].value, call, x.took);
      ChangesFollow(a.rows[id].value, v.core.rows[id].value, x.core.rows[id].value, v.trace,
                    Called(r, v.runs[r].saga, call, x.reply, x.took), r);
    }
  }

  lemma LandFollows(a: Core, v: World, r: nat, id: ContainerId, k: nat, pick: Pick)
    requires CanLand(v, k) && v.late[k].run == r && Follows(a, v, r, id) && ResumeCall(v.late[k].call, id)
    ensures Follows(a, DoLand(v, k, pick), r, id)
  {
    if Exists(a, id) {
      var call := v.late[k].call;
      CallChanges(v.core, call, pick, id);
      ChangesFollow(a.rows[id].value, v.core.rows[id].value, Perform(v.core, call, pick).rows[id].value, v.trace,
                    Landed(r, call, Accepts(v.core, call)), r);
    }
  }

  /** What a resume leaves in flight are calls of its own. */
  predicate OwnFlights(v: World, r: nat, k0: nat, id: ContainerId) {
    forall k :: k0 <= k < |v.late| ==> v.late[k].run == r && ResumeCall(v.late[k].call, id)
  }

  lemma ActKeepsFlights(v: World, r: nat, k0: nat, id: ContainerId, o: Outcome)
    requires CanAct(v, r) && OwnFlights(v, r, k0, id) && ResumeCall(CallOf(v.runs[r]), id)
    ensures OwnFlights(DoAct(v, r, o), r, k0, id)
  {
  }

  lemma LandKeepsFlights(v: World, r: nat, k0: nat, id: ContainerId, k: nat, pick: Pick)
    requires CanLand(v, k) && OwnFlights(v, r, k0, id)
    ensures OwnFlights(DoLand(v, k, pick), r, k0, id)
  {
  }

  lemma {:induction false} NothingWritten<T>(trace: seq<Event>, r: nat, field: Call -> Option<T>)
    requires forall i :: 0 <= i < |trace| ==> !((trace[i].Called? || trace[i].Landed?) && trace[i].run == r)
    ensures LastOf(trace, r, field).None?
  {
    if trace != [] { NothingWritten(trace[..|trace| - 1], r, field); }
  }

  lemma BeginFollows(w: World, user: User, id: ContainerId)
    requires NothingYet(w, |w.runs|)
    ensures Follows(w.core, Next(w, Begin(user, id, Resume)), |w.runs|, id)
    ensures OwnFlights(Next(w, Begin(user, id, Resume)), |w.runs|, |w.late|, id)
  {
    var r, t := |w.runs|, Next(w, Begin(user, id, Resume)).trace;
    assert t == w.trace + [Other];
    NothingWritten(t, r, StatusOf);
    NothingWritten(t, r, KubernetesIdOf);
    NothingWritten(t, r, IpOf);
    NothingWritten(t, r, ResourcesOf);
  }

  lemma {:induction false} EveryFollows(w: World, user: User, id: ContainerId, rest: seq<Label>)
    requires NothingYet(w, |w.runs|) && OwnOrLate(rest, |w.runs|, |w.late|)
    ensures var v := ExecuteFrom(Next(w, Begin(user, id, Resume)), rest);
            Follows(w.core, v, |w.runs|, id) && OwnFlights(v, |w.runs|, |w.late|, id)
    decreases |rest|
  {
    var r, k0 := |w.runs|, |w.late|;
    if rest == [] {
      BeginFollows(w, user, id);
    } else {
      var before, l := rest[..|rest| - 1], rest[|rest| - 1];
      assert IsOwnOrLate(l, r, k0);
      forall n | 0 <= n < |before| ensures IsOwnOrLate(before[n], r, k0) { assert before[n] == rest[n]; }
      EveryFollows(w, user, id, before);
      EveryInv(w, user, id, before);
      var v := ExecuteFrom(Next(w, Begin(user, id, Resume)), before);
      if l.Act? {
        if CanAct(v, r) {
          CallsAreResumeCalls(v.runs[r]);
          ActFollows(w.core, v, r, id, l.outcome);
          ActKeepsFlights(v, r, k0, id, l.outcome);
        }
      } else if CanLand(v, l.k) {
        LandFollows(w.core, v, r, id, l.k, l.pick);
        LandKeepsFlights(v, r, k0, id, l.k, l.pick);
      }
    }
  }

  /** Main result: from every reachable state, at every moment of a resume that only its own late calls
      overlap and ever after it, the row's status and the identity of its pod are what the newest of the
      run's calls to write them and take effect wrote, and otherwise what they were. */
  lemma RowFollowsTheNewestWrites(
      capacity: map<Device, Demand>, ls: seq<Label>, user: User, id: ContainerId, rest: seq<Label>)
    requires OwnOrLate(rest, |Execute(capacity, ls).runs|, |Execute(capacity, ls).late|)
    ensures var w, v := Execute(capacity, ls), Execute(capacity, ls + [Begin(user, id, Resume)] + rest);
            Exists(w.core, id) ==>
              Exists(v.core, id) && RowFollows(w.core.rows[id].value, v.core.rows[id].value, v.trace, |w.runs|)
  {
    NothingYetToBegin(capacity, ls);
    EveryFollows(Execute(capacity, ls), user, id, rest);
    ExecuteExtends(capacity, ls, Begin(user, id, Resume));
    ExecuteSplits(capacity, ls + [Begin(user, id, Resume)], rest);
  }

  /** The row runs without a reservation. */
  predicate RunsUnreserved(core: Core, id: ContainerId) {
    Exists(core, id) && core.rows[id].value.status == Running && core.rows[id].value.hold.None?
  }

  /** Main result: once the transition has taken effect, the row comes to say RUNNING without holding a
      reservation exactly if the rollback has taken effect and the run's newest effective write of the
      status is RUNNING: its final sync, which took effect after the rollback. */
  lemma RunsUnreservedIff(capacity: map<Device, Demand>, ls: seq<Label>, user: User, id: ContainerId, rest: seq<Label>)
    requires OwnOrLate(rest, |Execute(capacity, ls).runs|, |Execute(capacity, ls).late|)
    requires TookBy(Execute(capacity, ls + [Begin(user, id, Resume)] + rest).trace, |Execute(capacity, ls).runs|,
                    ResumeRow(id, user))
    ensures var r, v := |Execute(capacity, ls).runs|, Execute(capacity, ls + [Begin(user, id, Resume)] + rest);
            RunsUnreserved(v.core, id)
            <==> TookBy(v.trace, r, HibernateRow(id)) && LastStatus(v.trace, r) == Some(Running)
  {
    ReservationFollowsTheTransitions(capacity, ls, user, id, rest);
    RowFollowsTheNewestWrites(capacity, ls, user, id, rest);
  }

  /** It does happen: a final sync whose reply was lost lands after the rollback, and the row says RUNNING,
      under a pod of its own. */
  lemma LateSyncAfterRollback(v: World, r: nat, pod: Pod)
    requires r < |v.runs| && v.runs[r].saga == Resume && v.runs[r].pc == AtSync(pod)
    requires Owned(v.core, v.runs[r].id, v.runs[r].user)
    ensures var lost, id := ReplyLost(false, Pick(0, 0), ""), v.runs[r].id;
            var v' := Next(Next(Next(v, Act(r, lost)), Act(r, SERVED)), Land(|v.late|, Pick(0, 0)));
            && v'.runs[r].pc == Ended(Response(500, "")) && Exists(v'.core, id)
            && v'.core.rows[id].value.status == Running && v'.core.rows[id].value.kubernetesId == Some(pod.uid)
            && v'.core.rows[id].value.hold.None?
  {
    var lost, sync := ReplyLost(false, Pick(0, 0), ""), UpdateRow(v.runs[r].id, Merge(SyncFields(pod), v.runs[r].user));
    var v1 := Next(v, Act(r, lost));
    SyncReplyLost(v, r, pod);
    RollbackServed(v1, r);
    var v2 := Next(v1, Act(r, SERVED));
    assert v2.late[|v.late|] == InFlight(r, sync, false);
    assert Next(v2, Land(|v.late|, Pick(0, 0))) == DoLand(v2, |v.late|, Pick(0, 0));
    SyncAfterRollback(v.core, v.runs[r].user, v.runs[r].id, pod);
  }

  lemma RollbackServed(v: World, r: nat)
    requires r < |v.runs| && v.runs[r].saga == Resume && v.runs[r].pc == AtRollback(OtherError(""))
    requires Exists(v.core, v.runs[r].id)
    ensures var v' := Next(v, Act(r, SERVED));
            && v'.core == Perform(v.core, HibernateRow(v.runs[r].id), Pick(0, 0)) && v'.late == v.late
            && |v'.runs| == |v.runs| && v'.runs[r].pc == Ended(Response(500, ""))
  {
  }

  lemma SyncAfterRollback(core: Core, user: User, id: ContainerId, pod: Pod)
    requires Owned(core, id, user)
    ensures var rolled := Perform(core, HibernateRow(id), Pick(0, 0));
            var core' := Perform(rolled, UpdateRow(id, Merge(SyncFields(pod), user)), Pick(0, 0));
            && Exists(core', id) && core'.rows[id].value.status == Running
            && core'.rows[id].value.kubernetesId == Some(pod.uid) && core'.rows[id].value.hold.None?
  {
  }

  lemma SyncReplyLost(v: World, r: nat, pod: Pod)
    requires r < |v.runs| && v.runs[r].saga == Resume && v.runs[r].pc == AtSync(pod)
    ensures var v' := Next(v, Act(r, ReplyLost(false, Pick(0, 0), "")));
            && v'.core == v.core && v'.runs[r] == v.runs[r].(pc := AtRollback(OtherError("")))
            && |v'.runs| == |v.runs|
            && v'.late == v.late + [InFlight(r, UpdateRow(v.runs[r].id, Merge(SyncFields(pod), v.runs[r].user)), false)]
  {
  }
}
