/** When a failed pod start of a resume is rolled back, and when it is not. */
module RollbackPromise {
  import opened Prelude
  import opened Platform
  import opened Sagas
  import opened SoloRuns
  import opened FreshPods
  import opened ResumeExit

  /** README.md promises a rollback whenever the pod-start step fails after the transition. It comes
      exactly when that step failed at its catalog read and not at the container-maker call. */
  lemma {:induction false} PodStartFailureIsRolledBackIff(a: Core, user: User, id: ContainerId, os: seq<Outcome>)
    requires FreshUids(a)
    requires var s := SoloRun(Alone(a, user, id, Resume), os);
             && s.run.pc.Ended? && s.run.pc.response.code != 200 && TransitionKnown(s.legs)
             && (FailingLeg(s.legs).pc.AtImage? || FailingLeg(s.legs).pc.AtStartPod?)
    ensures var s := SoloRun(Alone(a, user, id, Resume), os);
            RollbackSent(s.legs) <==> FailingLeg(s.legs).pc.AtImage?
  {
    ResumeExits(a, user, id, os);
  }

  /** Neither at the catalog read nor ever there. */
  predicate NoCatalogRead(s: Solo) {
    && s.run.saga == Resume && !s.run.pc.AtImage?
    && (s.run.row.Some? ==> s.run.row.value.savedImage.Some?)
    && (s.run.pc.AtStamp? || s.run.pc.AtTransition? ==> s.run.row.Some?)
    && forall k :: 0 <= k < |s.legs| ==> !s.legs[k].pc.AtImage?
  }

  lemma NoCatalogReadStep(a: Core, s: Solo, user: User, id: ContainerId, o: Outcome)
    requires NoCatalogRead(s) && s.run.user == user && s.run.id == id
    requires s.run.pc.AtLookup? ==> s.core == a
    requires Owned(a, id, user) ==> a.rows[id].value.savedImage.Some?
    ensures NoCatalogRead(SoloStep(s, o))
  {
  }

  lemma {:induction false} SavedImageSkipsCatalog(a: Core, user: User, id: ContainerId, os: seq<Outcome>)
    requires FreshUids(a) && (Owned(a, id, user) ==> a.rows[id].value.savedImage.Some?)
    ensures NoCatalogRead(SoloRun(Alone(a, user, id, Resume), os))
    decreases |os|
  {
    if os != [] {
      SavedImageSkipsCatalog(a, user, id, os[..|os| - 1]);
      EveryStage(a, user, id, os[..|os| - 1]);
      NoCatalogReadStep(a, SoloRun(Alone(a, user, id, Resume), os[..|os| - 1]), user, id, os[|os| - 1]);
    }
  }

  /** What a caller can tell beforehand: for a row that has a saved image, no failure of the pod-start
      step is ever rolled back, and the reservation is always left behind. */
  lemma SavedImageNeverRolledBack(a: Core, user: User, id: ContainerId, os: seq<Outcome>)
    requires FreshUids(a) && Owned(a, id, user) && a.rows[id].value.savedImage.Some?
    requires var s := SoloRun(Alone(a, user, id, Resume), os);
             && s.run.pc.Ended? && s.run.pc.response.code != 200 && TransitionKnown(s.legs)
             && (FailingLeg(s.legs).pc.AtImage? || FailingLeg(s.legs).pc.AtStartPod?)
    ensures var s := SoloRun(Alone(a, user, id, Resume), os);
            !RollbackSent(s.legs) && Holding(s.core, id)
  {
    SavedImageSkipsCatalog(a, user, id, os);
    ReservationLeftBehind(a, user, id, os);
    PodStartFailureIsRolledBackIff(a, user, id, os);
  }

  const SLEEPING := Row(0, Hibernated, SaveSucceeded, None, None, None, Some(7), Demand(1, 1, 1), None)
  const ONE_SLEEPING := Core([Some(SLEEPING)], map[], map[0 := Demand(4, 4, 4)], map[0 := 0], {}, 0)
  const NO_ROOM := Refused(500, "no room")

  function AfterTransitionServed(): Solo {
    SoloStep(SoloStep(Alone(ONE_SLEEPING, 0, 0, Resume), SERVED), SERVED)
  }

  lemma TransitionServed()
    ensures var s := AfterTransitionServed();
            && s.run == Run(0, 0, Resume, AtStamp, Some(SLEEPING))
            && s.core == Transitioned(ONE_SLEEPING, 0, 0)
            && s.core.rows == [Some(ResumedRow(SLEEPING, 0))]
            && UsedOn(s.core, 0) == Usage(1, 1, 1)
  {
    var s := SoloStep(Alone(ONE_SLEEPING, 0, 0, Resume), SERVED);
    assert s.core == ONE_SLEEPING && s.run == Run(0, 0, Resume, AtTransition, Some(SLEEPING));
    assert Fits(ONE_SLEEPING, 0, SLEEPING.demand);
  }

  lemma StampServed()
    ensures var s := SoloStep(AfterTransitionServed(), SERVED);
            && s.run == Run(0, 0, Resume, AtStartPod, Some(SLEEPING))
            && s.core.rows == [Some(ResumedRow(SLEEPING, 0))]
            && UsedOn(s.core, 0) == Usage(1, 1, 1)
  {
    TransitionServed();
    var before := AfterTransitionServed();
    assert UpdatedRow(ResumedRow(SLEEPING, 0), Merge(NO_FIELDS, 0)) == ResumedRow(SLEEPING, 0);
    assert Accepts(before.core, UpdateRow(0, Merge(NO_FIELDS, 0)));
  }

  /** A run that breaks that promise: container-maker refuses the pod, the reply is 500, and the row is
      left RESUMING with its reservation. */
  lemma PodStartFailureLeavesReservation()
    ensures var s := SoloStep(SoloStep(AfterTransitionServed(), SERVED), NO_ROOM);
            && s.run.pc == Ended(Response(500, "no room"))
            && Holding(s.core, 0) && s.core.rows[0].value.status == Resuming
            && UsedOn(s.core, 0) == Usage(1, 1, 1)
  {
    StampServed();
  }
}
