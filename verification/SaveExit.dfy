/** What save_status says. Over every history it is the word that was written last; at the end of a
    save it is what the handler and the save's own snapshot Job made of it between them. */
module SaveExit {
  import opened Prelude
  import opened Platform
  import opened ErrorLayers
  import opened Sagas
  import opened Interleaving
  import opened Stages

  function CallWrites(call: Call, id: ContainerId, took: bool): Option<SaveStatus> {
    if took && call.UpdateRow? && call.id == id then call.body.save else None
  }

  /** What an event writes to the save status of a row. */
  function Writes(e: Event, id: ContainerId): Option<SaveStatus> {
    match e
    case JobWrote(c, save, _) => if c == id then Some(save) else None
    case Called(_, _, call, _, took) => CallWrites(call, id, took)
    case Landed(_, call, took) => CallWrites(call, id, took)
    case Other => None
  }

  function LastWrite(trace: seq<Event>, id: ContainerId): Option<SaveStatus> {
    if trace == [] then None
    else
      var e := trace[|trace| - 1];
      if Writes(e, id).Some? then Writes(e, id) else LastWrite(trace[..|trace| - 1], id)
  }

  lemma LastWriteAfterEvent(trace: seq<Event>, e: Event, id: ContainerId)
    ensures LastWrite(trace + [e], id) == if Writes(e, id).Some? then Writes(e, id) else LastWrite(trace, id)
  {
    assert (trace + [e])[..|trace|] == trace;
  }

  /** The row says what was written last; an id that is still to come has not been written to. */
  predicate SaysTheLastWrite(w: World, id: ContainerId) {
    && (Exists(w.core, id) ==> w.core.rows[id].value.save == WrittenOr(w.trace, id))
    && (id >= |w.core.rows| ==> LastWrite(w.trace, id).None?)
  }

  function WrittenOr(trace: seq<Event>, id: ContainerId): SaveStatus {
    if LastWrite(trace, id).Some? then LastWrite(trace, id).value else NotSaved
  }

  lemma PerformWrites(core: Core, call: Call, pick: Pick, id: ContainerId)
    ensures var core', written := Perform(core, call, pick), CallWrites(call, id, Accepts(core, call));
            && |core.rows| <= |core'.rows|
            && (id >= |core.rows| ==> written.None?)
            && (Exists(core', id) ==>
                  if id >= |core.rows| then core'.rows[id].value.save == NotSaved
                  else
                    && Exists(core, id)
                    && core'.rows[id].value.save == if written.Some? then written.value else core.rows[id].value.save)
  {
  }

  lemma ActSaysTheLastWrite(w: World, r: nat, o: Outcome, id: ContainerId)
    requires SaysTheLastWrite(w, id) && CanAct(w, r)
    ensures SaysTheLastWrite(DoAct(w, r, o), id)
  {
    var call, x := CallOf(w.runs[r]), Exchange(w.core, CallOf(w.runs[r]), o);
    LastWriteAfterEvent(w.trace, Called(r, w.runs[r].saga, call, x.reply, x.took), id);
    if !o.Refused? { PerformWrites(w.core, call, o.pick, id); }
  }

  lemma LandSaysTheLastWrite(w: World, k: nat, pick: Pick, id: ContainerId)
    requires SaysTheLastWrite(w, id) && CanLand(w, k)
    ensures SaysTheLastWrite(DoLand(w, k, pick), id)
  {
    var l := w.late[k];
    LastWriteAfterEvent(w.trace, Landed(l.run, l.call, Accepts(w.core, l.call)), id);
    PerformWrites(w.core, l.call, pick, id);
  }

  lemma JobSaysTheLastWrite(w: World, c: ContainerId, save: SaveStatus, asker: nat, id: ContainerId)
    requires SaysTheLastWrite(w, id)
    ensures SaysTheLastWrite(Next(w, Job(c, save, asker)), id)
  {
    LastWriteAfterEvent(w.trace, JobWrote(c, save, asker), id);
  }

  lemma ReapSaysTheLastWrite(w: World, c: ContainerId, id: ContainerId)
    requires SaysTheLastWrite(w, id)
    ensures SaysTheLastWrite(Next(w, Reap(c)), id)
  {
    LastWriteAfterEvent(w.trace, Other, id);
    PerformWrites(w.core, HibernateRow(c), Pick(0, 0), id);
  }

  lemma MonitorSaysTheLastWrite(w: World, c: ContainerId, p: Phase, id: ContainerId)
    requires SaysTheLastWrite(w, id)
    ensures SaysTheLastWrite(Next(w, Monitor(c, p)), id)
  {
    LastWriteAfterEvent(w.trace, Other, id);
  }

  lemma OtherSaysTheLastWrite(w: World, l: Label, id: ContainerId)
    requires SaysTheLastWrite(w, id) && (l.Begin? || l.WindowCloses? || l.Activate?)
    ensures SaysTheLastWrite(Next(w, l), id)
  {
    LastWriteAfterEvent(w.trace, Other, id);
  }

  /** Main result: in every interleaving a row's save status is the last one written to it by a handler,
      in time or late, or by a snapshot Job; nothing else changes it. */
  lemma {:induction false} SaveStatusIsTheLastWrite(capacity: map<Device, Demand>, ls: seq<Label>, id: ContainerId)
    ensures SaysTheLastWrite(Execute(capacity, ls), id)
    decreases |ls|
  {
    if ls != [] {
      var w, l := Execute(capacity, ls[..|ls| - 1]), ls[|ls| - 1];
      SaveStatusIsTheLastWrite(capacity, ls[..|ls| - 1], id);
      if l.Act? {
        if CanAct(w, l.run) { ActSaysTheLastWrite(w, l.run, l.outcome, id); }
      } else if l.Land? {
        if CanLand(w, l.k) { LandSaysTheLastWrite(w, l.k, l.pick, id); }
      } else if l.Job? {
        JobSaysTheLastWrite(w, l.id, l.save, l.asker, id);
      } else if l.Reap? {
        ReapSaysTheLastWrite(w, l.id, id);
      } else if l.Monitor? {
        MonitorSaysTheLastWrite(w, l.id, l.phase, id);
      } else {
        OtherSaysTheLastWrite(w, l, id);
      }
    }
  }

  // The calls of one save, whatever happens around it.

  /** The calls instance r has made, in order. */
  function CallsOf(trace: seq<Event>, r: nat): seq<Event> {
    if trace == [] then []
    else
      var e := trace[|trace| - 1];
      CallsOf(trace[..|trace| - 1], r) + if e.Called? && e.run == r then [e] else []
  }

  lemma CallsAfterEvent(trace: seq<Event>, e: Event, r: nat)
    ensures CallsOf(trace + [e], r) == CallsOf(trace, r) + if e.Called? && e.run == r then [e] else []
  {
    assert (trace + [e])[..|trace|] == trace;
  }

  predicate WroteSave(e: Event, run: Run, save: SaveStatus) {
    e.Called? && e.call == UpdateRow(run.id, Merge(SaveWrite(save), run.user))
  }

  predicate AskedForSnapshot(e: Event, run: Run) {
    e.Called? && e.call == TakeSnapshot(run.user, run.id)
  }

  /** The calls of a save that was accepted: the lookup, PENDING, the snapshot, and an attempt at FAILED
      exactly if the snapshot call was answered with an error or not at all. */
  predicate SaveAccepted(run: Run, calls: seq<Event>) {
    && 3 <= |calls| <= 4
    && WroteSave(calls[1], run, SavePending) && DbUpdate(calls[1].reply).Ok?
    && AskedForSnapshot(calls[2], run)
    && (|calls| == 4 <==> !calls[2].reply.Accepted?)
    && (|calls| == 4 ==> WroteSave(calls[3], run, SaveFailed))
  }

  /** The snapshot was never asked for. */
  predicate NoSnapshotCall(calls: seq<Event>) {
    forall k :: 0 <= k < |calls| ==> !(calls[k].Called? && calls[k].call.TakeSnapshot?)
  }

  predicate SaveStage(run: Run, calls: seq<Event>) {
    match run.pc
    case AtLookup => calls == []
    case AtPendingWrite => |calls| == 1 && NoSnapshotCall(calls)
    case AtSnapshot => |calls| == 2 && WroteSave(calls[1], run, SavePending) && DbUpdate(calls[1].reply).Ok?
    case AtFailedWrite =>
      && |calls| == 3 && WroteSave(calls[1], run, SavePending) && DbUpdate(calls[1].reply).Ok?
      && AskedForSnapshot(calls[2], run) && !calls[2].reply.Accepted?
    case Ended(response) =>
      if response.code == 202 then SaveAccepted(run, calls) else |calls| <= 2 && NoSnapshotCall(calls)
    case _ => false
  }

  predicate SaveInv(w: World, r: nat) {
    if r < |w.runs| then w.runs[r].saga.Save? ==> SaveStage(w.runs[r], CallsOf(w.trace, r))
    else CallsOf(w.trace, r) == []
  }

  lemma SaveStageStep(run: Run, calls: seq<Event>, e: Event)
    requires run.saga.Save? && !run.pc.Ended? && SaveStage(run, calls) && e.Called? && e.call == CallOf(run)
    ensures SaveStage(Continue(run, e.reply), calls + [e])
  {
  }

  lemma OwnSaveInvStep(w: World, r: nat, o: Outcome)
    requires SaveInv(w, r) && CanAct(w, r)
    ensures SaveInv(DoAct(w, r, o), r)
  {
    var call, x := CallOf(w.runs[r]), Exchange(w.core, CallOf(w.runs[r]), o);
    var e := Called(r, w.runs[r].saga, call, x.reply, x.took);
    CallsAfterEvent(w.trace, e, r);
    if w.runs[r].saga.Save? { SaveStageStep(w.runs[r], CallsOf(w.trace, r), e); }
  }

  lemma OtherSaveInvStep(w: World, v: World, r: nat)
    requires SaveInv(w, r) && LeavesAlone(w, v, r)
    ensures SaveInv(v, r)
  {
    if v.trace != w.trace { CallsAfterEvent(w.trace, v.trace[|w.trace|], r); }
  }

  lemma SaveInvStep(w: World, l: Label, r: nat)
    requires SaveInv(w, r)
    ensures SaveInv(Next(w, l), r)
  {
    if l.Act? && l.run == r && CanAct(w, r) {
      OwnSaveInvStep(w, r, l.outcome);
    } else if !OwnStep(w, l, r) {
      OthersLeaveAlone(w, l, r);
      OtherSaveInvStep(w, Next(w, l), r);
    }
  }

  lemma {:induction false} EverySaveInv(capacity: map<Device, Demand>, ls: seq<Label>, r: nat)
    ensures SaveInv(Execute(capacity, ls), r)
    decreases |ls|
  {
    if ls != [] {
      EverySaveInv(capacity, ls[..|ls| - 1], r);
      SaveInvStep(Execute(capacity, ls[..|ls| - 1]), ls[|ls| - 1], r);
    }
  }

  /** Main result: in every interleaving, a save ends in a 202 exactly if it asked for the snapshot, and
      it attempts FAILED exactly if that call was not answered with success. */
  lemma SaveCalls(capacity: map<Device, Demand>, ls: seq<Label>, r: nat)
    requires var w := Execute(capacity, ls); r < |w.runs| && w.runs[r].saga.Save? && w.runs[r].pc.Ended?
    ensures var w := Execute(capacity, ls);
            var calls := CallsOf(w.trace, r);
            if w.runs[r].pc.response.code == 202 then SaveAccepted(w.runs[r], calls)
            else |calls| <= 2 && NoSnapshotCall(calls)
  {
    EverySaveInv(capacity, ls, r);
  }

  // A recorded success can be overwritten.

  /** The FAILED write of a save takes effect on this row, in time or late. */
  predicate MarkTakes(w: World, l: Label, id: ContainerId) {
    match l
    case Act(r, o) =>
      && CanAct(w, r) && w.runs[r].pc.AtFailedWrite? && w.runs[r].id == id
      && Exchange(w.core, CallOf(w.runs[r]), o).took
    case Land(k, _) =>
      && CanLand(w, k) && w.late[k].call.UpdateRow? && w.late[k].call.id == id
      && w.late[k].call.body.save == Some(SaveFailed) && Accepts(w.core, w.late[k].call)
    case _ => false
  }

  lemma CallTurnsFailedIff(core: Core, run: Run, o: Outcome, id: ContainerId)
    requires !run.pc.Ended? && Exists(core, id) && core.rows[id].value.save == SaveSucceeded
    requires Exists(Exchange(core, CallOf(run), o).core, id)
    ensures var x := Exchange(core, CallOf(run), o);
            x.core.rows[id].value.save == SaveFailed <==> run.pc.AtFailedWrite? && run.id == id && x.took
  {
    if !o.Refused? { PerformWrites(core, CallOf(run), o.pick, id); }
  }

  /** A FAILED write in flight is the last call of a save that has answered 202. */
  predicate FailedFlight(w: World, k: nat) {
    k < |w.late| && w.late[k].call.UpdateRow? && w.late[k].call.body.save == Some(SaveFailed) ==>
      var q := w.late[k].run;
      q < |w.runs| && w.runs[q].saga.Save? && w.runs[q].pc == Done(202) && |CallsOf(w.trace, q)| == 4
  }

  /** The flight stays as it is, but for landing. */
  lemma OldFailedFlight(w: World, v: World, k: nat)
    requires FailedFlight(w, k) && k < |w.late| <= |v.late|
    requires v.late[k].call == w.late[k].call && v.late[k].run == w.late[k].run
    requires LeavesAlone(w, v, w.late[k].run)
    ensures FailedFlight(v, k)
  {
    if v.trace != w.trace { CallsAfterEvent(w.trace, v.trace[|w.trace|], w.late[k].run); }
  }

  lemma NewFailedFlight(w: World, r: nat, o: Outcome)
    requires CanAct(w, r) && SaveInv(w, r) && PcFits(w.runs[r])
    ensures StaysInFlight(o) ==> FailedFlight(DoAct(w, r, o), |w.late|)
  {
    var run, x := w.runs[r], Exchange(w.core, CallOf(w.runs[r]), o);
    CallsAfterEvent(w.trace, Called(r, run.saga, CallOf(run), x.reply, x.took), r);
  }

  lemma FlightsPersist(w: World, l: Label, k: nat)
    requires k < |w.late|
    ensures k < |Next(w, l).late|
    ensures Next(w, l).late[k].call == w.late[k].call && Next(w, l).late[k].run == w.late[k].run
  {
  }

  lemma FlightsAppear(w: World, l: Label, k: nat)
    requires |w.late| <= k < |Next(w, l).late|
    ensures l.Act? && CanAct(w, l.run) && k == |w.late| && StaysInFlight(l.outcome)
  {
  }

  lemma {:induction false} EveryFailedFlight(capacity: map<Device, Demand>, ls: seq<Label>, k: nat)
    ensures FailedFlight(Execute(capacity, ls), k)
    decreases |ls|
  {
    if ls != [] {
      var w, l := Execute(capacity, ls[..|ls| - 1]), ls[|ls| - 1];
      EveryFailedFlight(capacity, ls[..|ls| - 1], k);
      if k < |w.late| {
        FlightsPersist(w, l, k);
        if !OwnStep(w, l, w.late[k].run) {
          OthersLeaveAlone(w, l, w.late[k].run);
          OldFailedFlight(w, Next(w, l), k);
        }
      } else if k < |Next(w, l).late| {
        FlightsAppear(w, l, k);
        EverySaveInv(capacity, ls[..|ls| - 1], l.run);
        EveryPcFits(capacity, ls[..|ls| - 1]);
        NewFailedFlight(w, l.run, l.outcome);
      }
    }
  }

  /** The instance behind the call that a step carries out. */
  function Marker(w: World, l: Label): nat {
    if l.Act? then l.run else if l.Land? && l.k < |w.late| then w.late[l.k].run else 0
  }

  /** Instance q is a save whose snapshot call was not answered with success. */
  predicate GotNoSuccess(w: World, q: nat) {
    && q < |w.runs| && w.runs[q].saga.Save?
    && var calls := CallsOf(w.trace, q);
       |calls| >= 3 && AskedForSnapshot(calls[2], w.runs[q]) && !calls[2].reply.Accepted?
  }

  lemma MarkersGotNoSuccess(capacity: map<Device, Demand>, ls: seq<Label>, l: Label, id: ContainerId)
    requires MarkTakes(Execute(capacity, ls), l, id)
    ensures GotNoSuccess(Execute(capacity, ls), Marker(Execute(capacity, ls), l))
  {
    var w := Execute(capacity, ls);
    EveryPcFits(capacity, ls);
    EverySaveInv(capacity, ls, Marker(w, l));
    if l.Land? { EveryFailedFlight(capacity, ls, l.k); }
  }

  /** A Job's FAILED is reported. */
  predicate JobFails(w: World, l: Label, id: ContainerId) {
    l.Job? && l.id == id && l.save == SaveFailed && CanReport(w, id, l.asker)
  }

  lemma LandTurnsFailedIff(core: Core, call: Call, pick: Pick, id: ContainerId)
    requires Exists(core, id) && core.rows[id].value.save == SaveSucceeded && Exists(Perform(core, call, pick), id)
    ensures Perform(core, call, pick).rows[id].value.save == SaveFailed
            <==> call.UpdateRow? && call.id == id && call.body.save == Some(SaveFailed) && Accepts(core, call)
  {
    PerformWrites(core, call, pick, id);
  }

  /** Whatever does not write the save status leaves it. */
  lemma OthersDoNotTurn(w: World, l: Label, id: ContainerId)
    requires !l.Act? && !l.Land? && Exists(w.core, id) && w.core.rows[id].value.save == SaveSucceeded
    requires Exists(Next(w, l).core, id)
    ensures Next(w, l).core.rows[id].value.save == SaveFailed <==> JobFails(w, l, id)
  {
    if l.Reap? { PerformWrites(w.core, HibernateRow(l.id), Pick(0, 0), id); }
  }

  /** Main result: in every reachable state, what turns a recorded SUCCEEDED into FAILED is exactly a
      Job's FAILED or the FAILED write of a save, in time or late; and that save got no success for its
      snapshot call. */
  lemma SuccessTurnsFailedIff(capacity: map<Device, Demand>, ls: seq<Label>, l: Label, id: ContainerId)
    requires var w, v := Execute(capacity, ls), Next(Execute(capacity, ls), l);
             && Exists(w.core, id) && w.core.rows[id].value.save == SaveSucceeded && Exists(v.core, id)
    ensures var w, v := Execute(capacity, ls), Next(Execute(capacity, ls), l);
            && (v.core.rows[id].value.save == SaveFailed <==> JobFails(w, l, id) || MarkTakes(w, l, id))
            && (MarkTakes(w, l, id) ==> GotNoSuccess(w, Marker(w, l)))
  {
    var w := Execute(capacity, ls);
    if MarkTakes(w, l, id) { MarkersGotNoSuccess(capacity, ls, l, id); }
    if l.Act? {
      if CanAct(w, l.run) { CallTurnsFailedIff(w.core, w.runs[l.run], l.outcome, id); }
    } else if l.Land? {
      if CanLand(w, l.k) { LandTurnsFailedIff(w.core, w.late[l.k].call, l.pick, id); }
    } else {
      OthersDoNotTurn(w, l, id);
    }
  }

  /** The Job reports during the snapshot call; then the call returns and the save runs to its end. */
  function JobThenEnd(w: World, r: nat, save: SaveStatus, o1: Outcome, o2: Outcome): World
    requires r < |w.runs|
  {
    Next(Next(Next(w, Job(w.runs[r].id, save, r)), Act(r, o1)), Act(r, o2))
  }

  lemma SnapshotReturns(w: World, r: nat, o: Outcome)
    requires r < |w.runs| && w.runs[r].saga == Save && w.runs[r].pc == AtSnapshot
    ensures var v := Next(w, Act(r, o));
            && v.core == w.core && r < |v.runs|
            && v.runs[r] == w.runs[r].(pc := if o.Delivered? then Done(202) else AtFailedWrite)
  {
  }

  /** Main result: a SUCCEEDED that the Job recorded during the snapshot call is overwritten with FAILED
      exactly if the call was not answered with success and the FAILED write took effect; otherwise it
      stands. The answer is 202 in every case. */
  lemma SuccessOverwrittenIff(w: World, r: nat, o1: Outcome, o2: Outcome)
    requires r < |w.runs| && w.runs[r].saga == Save && w.runs[r].pc == AtSnapshot
    requires Owned(w.core, w.runs[r].id, w.runs[r].user)
    ensures var v, id := JobThenEnd(w, r, SaveSucceeded, o1, o2), w.runs[r].id;
            && v.runs[r].pc == Done(202) && Exists(v.core, id)
            && v.core.rows[id].value.save
               == if !o1.Delivered? && (o2.Delivered? || (!o2.Refused? && o2.now)) then SaveFailed else SaveSucceeded
  {
    var w1 := Next(w, Job(w.runs[r].id, SaveSucceeded, r));
    SnapshotReturns(w1, r, o1);
  }

  /** So a save whose snapshot was recorded as SUCCEEDED can end as FAILED: the reply is lost, and the
      FAILED write is served. */
  lemma RecordedSuccessIsOverwritten(w: World, r: nat)
    requires r < |w.runs| && w.runs[r].saga == Save && w.runs[r].pc == AtSnapshot
    requires Owned(w.core, w.runs[r].id, w.runs[r].user)
    ensures var v, id := JobThenEnd(w, r, SaveSucceeded, ReplyLost(true, Pick(0, 0), ""), SERVED), w.runs[r].id;
            Exists(v.core, id) && v.core.rows[id].value.save == SaveFailed
  {
    SuccessOverwrittenIff(w, r, ReplyLost(true, Pick(0, 0), ""), SERVED);
  }

  // A save that nothing overlaps but snapshot Jobs.

  /** Only instance r steps, and Jobs report on its container, at any time. */
  predicate Accompanied(rest: seq<Label>, r: nat, id: ContainerId) {
    forall k :: 0 <= k < |rest| ==> IsOwnOrJob(rest[k], r, id)
  }

  predicate IsOwnOrJob(l: Label, r: nat, id: ContainerId) {
    (l.Act? && l.run == r) || (l.Job? && l.id == id)
  }

  /** The newest report of a Job since the instance's own newest effective write. */
  function NewestReport(trace: seq<Event>, r: nat, id: ContainerId): Option<SaveStatus> {
    if trace == [] then None
    else
      var e := trace[|trace| - 1];
      if e.JobWrote? && e.id == id then Some(e.save)
      else if e.Called? && e.run == r && Writes(e, id).Some? then None
      else NewestReport(trace[..|trace| - 1], r, id)
  }

  lemma ReportAfterEvent(trace: seq<Event>, e: Event, r: nat, id: ContainerId)
    ensures NewestReport(trace + [e], r, id)
            == if e.JobWrote? && e.id == id then Some(e.save)
               else if e.Called? && e.run == r && Writes(e, id).Some? then None
               else NewestReport(trace, r, id)
  {
    assert (trace + [e])[..|trace|] == trace;
  }

  /** The row is the user's and says what the Job reported last, or else this. */
  predicate Says(v: World, r: nat, user: User, id: ContainerId, otherwise: SaveStatus) {
    && Owned(v.core, id, user)
    && v.core.rows[id].value.save
       == if NewestReport(v.trace, r, id).Some? then NewestReport(v.trace, r, id).value else otherwise
  }

  /** What the handler itself wrote last. */
  function OwnWord(calls: seq<Event>): SaveStatus {
    if |calls| == 4 && calls[3].Called? && calls[3].took then SaveFailed else SavePending
  }

  predicate Saving(v: World, r: nat, user: User, id: ContainerId) {
    && r < |v.runs| && SaveInv(v, r)
    && v.runs[r].saga == Save && v.runs[r].user == user && v.runs[r].id == id
    && match v.runs[r].pc {
         case AtPendingWrite => Owned(v.core, id, user)
         case AtSnapshot => Says(v, r, user, id, SavePending)
         case AtFailedWrite => Says(v, r, user, id, SavePending)
         case Ended(response) => response.code == 202 ==> Says(v, r, user, id, OwnWord(CallsOf(v.trace, r)))
         case _ => true
       }
  }

  /** What the instance's own call adds to the trace. */
  lemma OwnCallAdds(v: World, r: nat, id: ContainerId, o: Outcome)
    requires CanAct(v, r)
    ensures var call, x, v' := CallOf(v.runs[r]), Exchange(v.core, CallOf(v.runs[r]), o), Next(v, Act(r, o));
            && v'.core == x.core && v'.runs == v.runs[r := Continue(v.runs[r], x.reply)]
            && CallsOf(v'.trace, r) == CallsOf(v.trace, r) + [Called(r, v.runs[r].saga, call, x.reply, x.took)]
            && NewestReport(v'.trace, r, id)
               == if CallWrites(call, id, x.took).Some? then None else NewestReport(v.trace, r, id)
  {
    var call, x := CallOf(v.runs[r]), Exchange(v.core, CallOf(v.runs[r]), o);
    var e := Called(r, v.runs[r].saga, call, x.reply, x.took);
    ReportAfterEvent(v.trace, e, r, id);
    CallsAfterEvent(v.trace, e, r);
  }

  lemma LookupLeadsOn(core: Core, run: Run, o: Outcome)
    requires run.saga == Save && run.pc.AtLookup?
    ensures var pc := NextPc(run, Exchange(core, CallOf(run), o).reply);
            if pc.AtPendingWrite? then Owned(core, run.id, run.user) && o.Delivered?
            else pc.Ended? && pc.response.code != 202
  {
  }

  lemma LookupKeepsSaving(v: World, r: nat, user: User, id: ContainerId, o: Outcome)
    requires Saving(v, r, user, id) && CanAct(v, r) && v.runs[r].pc.AtLookup?
    requires SaveInv(Next(v, Act(r, o)), r)
    ensures Saving(Next(v, Act(r, o)), r, user, id)
  {
    LookupLeadsOn(v.core, v.runs[r], o);
    OwnCallAdds(v, r, id, o);
  }

  lemma PendingWriteKeepsSaving(v: World, r: nat, user: User, id: ContainerId, o: Outcome)
    requires Saving(v, r, user, id) && CanAct(v, r) && v.runs[r].pc.AtPendingWrite?
    requires SaveInv(Next(v, Act(r, o)), r)
    ensures Saving(Next(v, Act(r, o)), r, user, id)
  {
    OwnCallAdds(v, r, id, o);
  }

  lemma SnapshotKeepsSaving(v: World, r: nat, user: User, id: ContainerId, o: Outcome)
    requires Saving(v, r, user, id) && CanAct(v, r) && v.runs[r].pc.AtSnapshot?
    requires SaveInv(Next(v, Act(r, o)), r)
    ensures Saving(Next(v, Act(r, o)), r, user, id)
  {
    OwnCallAdds(v, r, id, o);
  }

  lemma FailedWriteKeepsSaving(v: World, r: nat, user: User, id: ContainerId, o: Outcome)
    requires Saving(v, r, user, id) && CanAct(v, r) && v.runs[r].pc.AtFailedWrite?
    requires SaveInv(Next(v, Act(r, o)), r)
    ensures Saving(Next(v, Act(r, o)), r, user, id)
  {
    OwnCallAdds(v, r, id, o);
  }

  lemma OwnStepKeepsSaving(v: World, r: nat, user: User, id: ContainerId, o: Outcome)
    requires Saving(v, r, user, id) && CanAct(v, r)
    ensures Saving(Next(v, Act(r, o)), r, user, id)
  {
    SaveInvStep(v, Act(r, o), r);
    match v.runs[r].pc
    case AtPendingWrite => PendingWriteKeepsSaving(v, r, user, id, o);
    case AtSnapshot => SnapshotKeepsSaving(v, r, user, id, o);
    case AtFailedWrite => FailedWriteKeepsSaving(v, r, user, id, o);
    case AtLookup => LookupKeepsSaving(v, r, user, id, o);
    case _ =>
  }

  lemma JobKeepsSaving(v: World, r: nat, user: User, id: ContainerId, save: SaveStatus, asker: nat)
    requires Saving(v, r, user, id)
    ensures Saving(Next(v, Job(id, save, asker)), r, user, id)
  {
    SaveInvStep(v, Job(id, save, asker), r);
    ReportAfterEvent(v.trace, JobWrote(id, save, asker), r, id);
    CallsAfterEvent(v.trace, JobWrote(id, save, asker), r);
  }

  lemma {:induction false} EverySaving(w: World, user: User, id: ContainerId, rest: seq<Label>)
    requires SaveInv(w, |w.runs|) && Accompanied(rest, |w.runs|, id)
    ensures Saving(ExecuteFrom(Next(w, Begin(user, id, Save)), rest), |w.runs|, user, id)
    decreases |rest|
  {
    var r := |w.runs|;
    if rest == [] {
      SaveInvStep(w, Begin(user, id, Save), r);
    } else {
      var before, l := rest[..|rest| - 1], rest[|rest| - 1];
      assert IsOwnOrJob(l, r, id);
      forall k | 0 <= k < |before| ensures IsOwnOrJob(before[k], r, id) { assert before[k] == rest[k]; }
      EverySaving(w, user, id, before);
      var v := ExecuteFrom(Next(w, Begin(user, id, Save)), before);
      if l.Job? {
        JobKeepsSaving(v, r, user, id, l.save, l.asker);
      } else if CanAct(v, r) {
        OwnStepKeepsSaving(v, r, user, id, l.outcome);
      }
    }
  }

  /** Main result: from every reachable state, a save that nothing overlaps but Jobs and that answered
      202 leaves on the user's row what a Job reported after the handler's own last write, and otherwise
      that write: FAILED if it was attempted and took effect, and PENDING if not. */
  lemma SaveExits(capacity: map<Device, Demand>, ls: seq<Label>, user: User, id: ContainerId, rest: seq<Label>)
    requires Accompanied(rest, |Execute(capacity, ls).runs|, id)
    requires var r, v := |Execute(capacity, ls).runs|, Execute(capacity, ls + [Begin(user, id, Save)] + rest);
             r < |v.runs| && v.runs[r].pc.Ended? && v.runs[r].pc.response.code == 202
    ensures var r, v := |Execute(capacity, ls).runs|, Execute(capacity, ls + [Begin(user, id, Save)] + rest);
            var calls := CallsOf(v.trace, r);
            && SaveAccepted(v.runs[r], calls)
            && Says(v, r, user, id, if |calls| == 4 && calls[3].took then SaveFailed else SavePending)
  {
    var w := Execute(capacity, ls);
    EverySaveInv(capacity, ls, |w.runs|);
    EverySaving(w, user, id, rest);
    ExecuteExtends(capacity, ls, Begin(user, id, Save));
    ExecuteSplits(capacity, ls + [Begin(user, id, Save)], rest);
  }
}
