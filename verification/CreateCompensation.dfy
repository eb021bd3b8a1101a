/** The create saga's compensation: when the pod cannot be created, the row and its reservation are
    released exactly once by the server, and at most once overall. */
module CreateCompensation {
  import opened Prelude
  import opened Platform
  import opened ErrorLayers
  import opened Sagas
  import opened Interleaving
  import opened Reservations

  /** Release calls instance r has made. */
  function ReleaseAttempts(trace: seq<Event>, r: nat): nat {
    if trace == [] then 0
    else
      var e := trace[|trace| - 1];
      ReleaseAttempts(trace[..|trace| - 1], r) + One(e.Called? && e.run == r && e.call.DeleteRow?)
  }

  lemma AttemptsAfterEvent(trace: seq<Event>, e: Event, r: nat)
    ensures ReleaseAttempts(trace + [e], r) ==
            ReleaseAttempts(trace, r) + One(e.Called? && e.run == r && e.call.DeleteRow?)
  {
    assert (trace + [e])[..|trace|] == trace;
  }

  /** The failure a create instance meets when it reads the image catalog or starts the pod. */
  function CreationFailure(e: Event): Option<Raised> {
    if !e.Called? then None
    else if e.call.ReadImage? && ImageRead(e.reply).Err? then Some(ImageRead(e.reply).error)
    else if e.call.StartPod? && ServiceGrpc(e.reply).Err? then Some(ServiceGrpc(e.reply).error)
    else None
  }

  /** Instance r met this failure at event i. */
  predicate FailedAt(trace: seq<Event>, i: nat, r: nat, failure: Raised) {
    i < |trace| && trace[i].Called? && trace[i].run == r && CreationFailure(trace[i]) == Some(failure)
  }

  ghost predicate Failed(trace: seq<Event>, r: nat) {
    exists i: nat, f: Raised :: FailedAt(trace, i, r, f)
  }

  /** How far a create instance has come decides what it has done. */
  ghost predicate CreateAt(trace: seq<Event>, r: nat, pc: Pc) {
    match pc {
      case AtRelease(failure) => ReleaseAttempts(trace, r) == 0 && exists i: nat :: FailedAt(trace, i, r, failure)
      case Ended(response) =>
        if Failed(trace, r) then
          && ReleaseAttempts(trace, r) == 1
          && exists i: nat, f: Raised :: FailedAt(trace, i, r, f) && response == ErrorResponse(f)
        else ReleaseAttempts(trace, r) == 0
      case _ =>
        (pc.AtLookup? || pc.AtImage? || pc.AtStartPod?) && ReleaseAttempts(trace, r) == 0 && !Failed(trace, r)
    }
  }

  ghost predicate CreateInv(w: World, r: nat) {
    if r < |w.runs| then w.runs[r].saga.CreateInK8s? ==> CreateAt(w.trace, r, w.runs[r].pc)
    else ReleaseAttempts(w.trace, r) == 0 && !Failed(w.trace, r)
  }

  lemma FailedAfterEvent(trace: seq<Event>, e: Event, r: nat)
    requires CreationFailure(e).None? || (e.Called? && e.run != r)
    ensures Failed(trace + [e], r) <==> Failed(trace, r)
    ensures forall i: nat, f: Raised :: FailedAt(trace + [e], i, r, f) <==> FailedAt(trace, i, r, f)
  {
    forall i: nat, f: Raised ensures FailedAt(trace + [e], i, r, f) <==> FailedAt(trace, i, r, f) {
      if i < |trace| { assert (trace + [e])[i] == trace[i]; }
    }
  }

  /** A failure at the new event is a failure of the instance. */
  lemma FailureRecorded(trace: seq<Event>, e: Event, r: nat, f: Raised)
    requires e.Called? && e.run == r && CreationFailure(e) == Some(f)
    ensures FailedAt(trace + [e], |trace|, r, f)
  {
  }

  /** The next stage of a create instance: any failure to create the pod leads to the release. */
  lemma CreateNext(run: Run, e: Event)
    requires run.saga.CreateInK8s? && (run.pc.AtLookup? || run.pc.AtImage? || run.pc.AtStartPod? || run.pc.AtRelease?)
    requires e.Called? && e.call == CallOf(run)
    ensures !e.call.DeleteRow? && CreationFailure(e).Some? ==>
              NextPc(run, e.reply) == AtRelease(CreationFailure(e).value)
    ensures !e.call.DeleteRow? && CreationFailure(e).None? ==>
              NextPc(run, e.reply).AtImage? || NextPc(run, e.reply).AtStartPod? || NextPc(run, e.reply).Ended?
    ensures e.call.DeleteRow? <==> run.pc.AtRelease?
    ensures run.pc.AtRelease? ==>
              CreationFailure(e).None? && NextPc(run, e.reply) == Ended(ErrorResponse(run.pc.failure))
  {
  }

  lemma OwnCreateStep(trace: seq<Event>, run: Run, r: nat, e: Event)
    requires run.saga.CreateInK8s? && !run.pc.Ended? && CreateAt(trace, r, run.pc)
    requires e.Called? && e.run == r && e.call == CallOf(run)
    ensures CreateAt(trace + [e], r, NextPc(run, e.reply))
  {
    CreateNext(run, e);
    AttemptsAfterEvent(trace, e, r);
    if CreationFailure(e).None? {
      FailedAfterEvent(trace, e, r);
    } else {
      FailureRecorded(trace, e, r, CreationFailure(e).value);
    }
  }

  lemma OtherEvent(trace: seq<Event>, r: nat, pc: Pc, e: Event)
    requires CreateAt(trace, r, pc) && (e.Called? ==> e.run != r)
    ensures CreateAt(trace + [e], r, pc)
  {
    AttemptsAfterEvent(trace, e, r);
    FailedAfterEvent(trace, e, r);
  }

  lemma OtherCreateStep(w: World, v: World, r: nat)
    requires CreateInv(w, r) && LeavesAlone(w, v, r)
    ensures CreateInv(v, r)
  {
    if v.trace != w.trace {
      var e := v.trace[|w.trace|];
      if r < |w.runs| {
        if w.runs[r].saga.CreateInK8s? { OtherEvent(w.trace, r, w.runs[r].pc, e); }
      } else {
        AttemptsAfterEvent(w.trace, e, r);
        FailedAfterEvent(w.trace, e, r);
      }
    }
  }

  lemma CreateCallStep(w: World, r: nat, o: Outcome)
    requires CreateInv(w, r) && CanAct(w, r)
    ensures CreateInv(DoAct(w, r, o), r)
  {
    var run, x := w.runs[r], Exchange(w.core, CallOf(w.runs[r]), o);
    var e := Called(r, run.saga, CallOf(run), x.reply, x.took);
    if run.saga.CreateInK8s? { OwnCreateStep(w.trace, run, r, e); }
  }

  lemma {:induction false} EveryCreateInv(capacity: map<Device, Demand>, ls: seq<Label>, r: nat)
    ensures CreateInv(Execute(capacity, ls), r)
    decreases |ls|
  {
    if ls != [] {
      var w, l := Execute(capacity, ls[..|ls| - 1]), ls[|ls| - 1];
      EveryCreateInv(capacity, ls[..|ls| - 1], r);
      if l.Act? && l.run == r && CanAct(w, r) {
        CreateCallStep(w, r, l.outcome);
      } else if !OwnStep(w, l, r) {
        OthersLeaveAlone(w, l, r);
        OtherCreateStep(w, Next(w, l), r);
      }
    }
  }

  /** Main result: an ended create instance made exactly one release attempt if its pod creation
      failed and none otherwise, and its reply carries that failure whatever the release did. */
  lemma FailedCreateReleasesOnce(capacity: map<Device, Demand>, ls: seq<Label>, r: nat)
    requires var w := Execute(capacity, ls);
             r < |w.runs| && w.runs[r].saga.CreateInK8s? && w.runs[r].pc.Ended?
    ensures var w := Execute(capacity, ls);
            if Failed(w.trace, r) then
              && ReleaseAttempts(w.trace, r) == 1
              && exists i: nat, f: Raised :: FailedAt(w.trace, i, r, f) && w.runs[r].pc.response == ErrorResponse(f)
            else ReleaseAttempts(w.trace, r) == 0
  {
    EveryCreateInv(capacity, ls, r);
  }

  /** Deletions of the row that took effect, by whichever instance, in time or late. */
  function EffectiveDeletes(trace: seq<Event>, id: ContainerId): nat {
    if trace == [] then 0
    else
      var e := trace[|trace| - 1];
      EffectiveDeletes(trace[..|trace| - 1], id) + One(Deletes(e, id))
  }

  predicate Deletes(e: Event, id: ContainerId) {
    (e.Called? || e.Landed?) && e.call.DeleteRow? && e.call.id == id && e.took
  }

  lemma DeletesAfterEvent(trace: seq<Event>, e: Event, id: ContainerId)
    ensures EffectiveDeletes(trace + [e], id) ==
            EffectiveDeletes(trace, id) + One(Deletes(e, id))
  {
    assert (trace + [e])[..|trace|] == trace;
  }

  /** The row is there until its one deletion. */
  predicate DeletedOnce(w: World, id: ContainerId) {
    if id < |w.core.rows| && w.core.rows[id].None? then EffectiveDeletes(w.trace, id) == 1
    else EffectiveDeletes(w.trace, id) == 0
  }

  lemma PerformDeletes(core: Core, call: Call, pick: Pick, id: ContainerId)
    ensures var core' := Perform(core, call, pick);
            (id < |core'.rows| && core'.rows[id].None?) <==>
              ((id < |core.rows| && core.rows[id].None?) || (call.DeleteRow? && call.id == id && Accepts(core, call)))
  {
  }

  lemma CallDeletesOnce(w: World, r: nat, o: Outcome, id: ContainerId)
    requires DeletedOnce(w, id) && CanAct(w, r)
    ensures DeletedOnce(DoAct(w, r, o), id)
  {
    var call, x := CallOf(w.runs[r]), Exchange(w.core, CallOf(w.runs[r]), o);
    DeletesAfterEvent(w.trace, Called(r, w.runs[r].saga, call, x.reply, x.took), id);
    if !o.Refused? { PerformDeletes(w.core, call, o.pick, id); }
  }

  lemma LandDeletesOnce(w: World, k: nat, pick: Pick, id: ContainerId)
    requires DeletedOnce(w, id) && CanLand(w, k)
    ensures DeletedOnce(DoLand(w, k, pick), id)
  {
    var l := w.late[k];
    DeletesAfterEvent(w.trace, Landed(l.run, l.call, Accepts(w.core, l.call)), id);
    PerformDeletes(w.core, l.call, pick, id);
  }

  /** A step that deletes nothing and records no call. */
  lemma StillDeletedOnce(w: World, v: World, id: ContainerId)
    requires DeletedOnce(w, id)
    requires (id < |v.core.rows| && v.core.rows[id].None?) <==> (id < |w.core.rows| && w.core.rows[id].None?)
    requires v.trace == w.trace || exists e: Event :: v.trace == w.trace + [e] && (e.Other? || e.JobWrote?)
    ensures DeletedOnce(v, id)
  {
    if v.trace != w.trace {
      var e: Event :| v.trace == w.trace + [e] && (e.Other? || e.JobWrote?);
      DeletesAfterEvent(w.trace, e, id);
    }
  }

  lemma OthersDeleteNone(w: World, l: Label, id: ContainerId)
    requires !l.Act? && !l.Land?
    ensures var v := Next(w, l);
            && ((id < |v.core.rows| && v.core.rows[id].None?) <==> (id < |w.core.rows| && w.core.rows[id].None?))
            && (v.trace == w.trace || exists e: Event :: v.trace == w.trace + [e] && (e.Other? || e.JobWrote?))
  {
    var t := Next(w, l).trace;
    if t != w.trace { assert t == w.trace + [t[|w.trace|]]; }
    if l.Reap? { PerformDeletes(w.core, HibernateRow(l.id), Pick(0, 0), id); }
  }

  lemma DeletedOnceStays(w: World, l: Label, id: ContainerId)
    requires DeletedOnce(w, id)
    ensures DeletedOnce(Next(w, l), id)
  {
    if l.Act? {
      if CanAct(w, l.run) { CallDeletesOnce(w, l.run, l.outcome, id); }
    } else if l.Land? {
      if CanLand(w, l.k) { LandDeletesOnce(w, l.k, l.pick, id); }
    } else {
      OthersDeleteNone(w, l, id);
      StillDeletedOnce(w, Next(w, l), id);
    }
  }

  /** Main result: however often the server's release, the browser's follow-up delete and late
      deletes repeat, a container's row and reservation go away at most once; a missing row means
      exactly one deletion took effect. */
  lemma {:induction false} ReleasedAtMostOnce(capacity: map<Device, Demand>, ls: seq<Label>, id: ContainerId)
    ensures DeletedOnce(Execute(capacity, ls), id)
    decreases |ls|
  {
    if ls != [] {
      ReleasedAtMostOnce(capacity, ls[..|ls| - 1], id);
      DeletedOnceStays(Execute(capacity, ls[..|ls| - 1]), ls[|ls| - 1], id);
    }
  }

  /** Releasing undoes reserving: in any later state, deleting the row gives its device back exactly
      what the row holds, and nothing else changes in the books. */
  lemma ReleaseGivesBackTheReservation(core: Core, id: ContainerId, user: User, pick: Pick, d: Device, k: Kind)
    requires Sound(core) && Owned(core, id, user)
    ensures var core' := Perform(core, DeleteRow(id, user), pick);
            && UsedOn(core', d).Of(k) == UsedOn(core, d).Of(k) - Share(core.rows[id], d, k)
            && HeldOn(core'.rows, d, k) == UsedOn(core', d).Of(k)
  {
    ReleaseKeepsSound(core, id, None);
  }
}
