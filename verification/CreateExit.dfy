/** How a create that nothing overlaps leaves its row, its reservation and the pods. */
module CreateExit {
  import opened Prelude
  import opened Platform
  import opened ErrorLayers
  import opened Sagas
  import opened SoloRuns
  import opened ShortSagas

  /** The run went on to release the row. */
  predicate ReleaseSent(legs: seq<Leg>) {
    |legs| >= 2 && legs[|legs| - 1].pc.AtRelease?
  }

  predicate ReleaseTook(legs: seq<Leg>) {
    ReleaseSent(legs) && legs[|legs| - 1].took
  }

  /** The books of b are those of a without the row and its reservation. */
  predicate BooksReleased(a: Core, b: Core, id: ContainerId) {
    Exists(a, id) && SameBooks(PutRow(Release(a, a.rows[id].value.hold), id, None), b)
  }

  /** The exception that the failed creation of the pod raised. */
  function CreationError(leg: Leg): Raised
    requires !leg.reply.Accepted?
  {
    if leg.pc.AtImage? then ImageRead(leg.reply).error else ServiceGrpc(leg.reply).error
  }

  /** Every way a create can end: with the pod started and the books untouched; with an early answer that
      changed nothing, because the lookup did not find the row; or with a failed creation, answered with its
      own failure, whose release took the row and the reservation away exactly if it took effect. A pod
      started by a call that was not answered with success stays, whether the row does or not. */
  ghost predicate Exit(a: Core, s: Solo, user: User, id: ContainerId, response: Response) {
    && |s.legs| >= 1
    && PodsAfter(a, s.core, user, id, PodMade(s.legs))
    && (if ReleaseTook(s.legs) then BooksReleased(a, s.core, id) else SameBooks(a, s.core))
    && (response.code == 200 <==> AllAccepted(s.legs))
    && (response.code == 200 ==> |s.legs| == 3 && s.legs[2].pc.AtStartPod? && PodMade(s.legs))
    && (ReleaseSent(s.legs) ==>
          && Owned(a, id, user)
          && var failed := s.legs[|s.legs| - 2];
             && (failed.pc.AtImage? || failed.pc.AtStartPod?) && !failed.reply.Accepted?
             && response == ErrorResponse(CreationError(failed)))
    && (!ReleaseSent(s.legs) && response.code != 200 ==>
          && |s.legs| == 1 && s.core == a && s.legs[0].pc.AtLookup? && !s.legs[0].reply.Accepted?
          && response.code == (if s.legs[0].reply.Rejected? && s.legs[0].reply.code == 404 then 404 else 500))
  }

  /** Every call was served. */
  predicate AllAccepted(legs: seq<Leg>) {
    forall k {:trigger Accepted(legs[k])} :: 0 <= k < |legs| ==> Accepted(legs[k])
  }

  predicate Accepted(leg: Leg) {
    leg.reply.Accepted?
  }

  lemma AllAcceptedGrows(legs: seq<Leg>, leg: Leg)
    ensures AllAccepted(legs + [leg]) <==> AllAccepted(legs) && Accepted(leg)
  {
    var more := legs + [leg];
    if AllAccepted(more) {
      forall k | 0 <= k < |legs| ensures Accepted(legs[k]) { assert Accepted(more[k]); }
      assert Accepted(more[|legs|]);
    }
    if AllAccepted(legs) && Accepted(leg) {
      forall k | 0 <= k < |more| ensures Accepted(more[k]) {
        if k < |legs| { assert Accepted(legs[k]); }
      }
    }
  }

  ghost predicate Stage(a: Core, s: Solo, user: User, id: ContainerId) {
    && s.run.user == user && s.run.id == id && s.run.saga == CreateInK8s
    && match s.run.pc {
         case AtLookup => s.legs == [] && s.core == a
         case AtImage => |s.legs| == 1 && s.core == a && Owned(a, id, user) && !PodMade(s.legs) && AllAccepted(s.legs)
         case AtStartPod =>
           |s.legs| == 2 && s.core == a && Owned(a, id, user) && !PodMade(s.legs) && AllAccepted(s.legs)
         case AtRelease(e) => Releasing(a, s, user, id, e)
         case Ended(response) => Exit(a, s, user, id, response)
         case _ => false
       }
  }

  ghost predicate Releasing(a: Core, s: Solo, user: User, id: ContainerId, e: Raised) {
    && 2 <= |s.legs| <= 3 && SameBooks(a, s.core) && Owned(a, id, user)
    && PodsAfter(a, s.core, user, id, PodMade(s.legs))
    && var failed := s.legs[|s.legs| - 1];
       && (if |s.legs| == 2 then failed.pc.AtImage? else failed.pc.AtStartPod?)
       && !Accepted(failed) && !AllAccepted(s.legs) && e == CreationError(failed)
  }

  lemma EarlyStep(a: Core, s: Solo, user: User, id: ContainerId, o: Outcome)
    requires Stage(a, s, user, id) && (s.run.pc.AtLookup? || s.run.pc.AtImage?)
    ensures Stage(a, SoloStep(s, o), user, id)
  {
    var x := Exchange(s.core, CallOf(s.run), o);
    AllAcceptedGrows(s.legs, Leg(s.run.pc, x.reply, x.took));
    PodMadeAfterLeg(s.legs, Leg(s.run.pc, x.reply, x.took));
  }

  lemma StartPodStep(a: Core, s: Solo, user: User, id: ContainerId, o: Outcome)
    requires Stage(a, s, user, id) && s.run.pc.AtStartPod?
    ensures Stage(a, SoloStep(s, o), user, id)
  {
    var t := SoloStep(s, o);
    PodMadeAfterLeg(s.legs, t.legs[2]);
    AllAcceptedGrows(s.legs, t.legs[2]);
    if t.legs[2].took { assert t.core.pods == a.pods + {NewPod(a, user, id, o.pick)}; }
  }

  lemma ReleaseBooks(a: Core, b: Core, user: User, id: ContainerId, o: Outcome)
    requires SameBooks(a, b) && Owned(a, id, user)
    ensures var x := Exchange(b, DeleteRow(id, user), o);
            && x.core.pods == b.pods
            && (if x.took then BooksReleased(a, x.core, id) else SameBooks(a, x.core))
  {
  }

  lemma ReleaseStep(a: Core, s: Solo, user: User, id: ContainerId, o: Outcome)
    requires Stage(a, s, user, id) && s.run.pc.AtRelease?
    ensures Stage(a, SoloStep(s, o), user, id)
  {
    ReleaseBooks(a, s.core, user, id, o);
    var x := Exchange(s.core, DeleteRow(id, user), o);
    assert SoloStep(s, o).legs == s.legs + [Leg(s.run.pc, x.reply, x.took)];
    PodMadeAfterLeg(s.legs, Leg(s.run.pc, x.reply, x.took));
    AllAcceptedGrows(s.legs, Leg(s.run.pc, x.reply, x.took));
  }

  /** Main result: every way a lone create can end. */
  lemma {:induction false} CreateExits(a: Core, user: User, id: ContainerId, os: seq<Outcome>)
    ensures Stage(a, SoloRun(Alone(a, user, id, CreateInK8s), os), user, id)
    decreases |os|
  {
    if os != [] {
      CreateExits(a, user, id, os[..|os| - 1]);
      var s, o := SoloRun(Alone(a, user, id, CreateInK8s), os[..|os| - 1]), os[|os| - 1];
      match s.run.pc
      case AtStartPod => StartPodStep(a, s, user, id, o);
      case AtRelease(_) => ReleaseStep(a, s, user, id, o);
      case Ended(_) =>
      case _ => EarlyStep(a, s, user, id, o);
    }
  }

  /** Releasing a new row undoes creating it in the books. */
  lemma ReleaseUndoesCreate(a: Core, user: User, demand: Demand, pick: Pick, b: Core, d: Device)
    requires Accepts(a, CreateRow(user, demand))
    requires BooksReleased(Perform(a, CreateRow(user, demand), pick), b, |a.rows|)
    ensures b.rows == a.rows + [None] && UsedOn(b, d) == UsedOn(a, d)
  {
  }

  /** Main result: create-in-db, and then a create whose pod creation fails. If its release takes effect,
      the row is gone and every device is as before create-in-db; if not, the row and its reservation
      stay. Either way the pods are as before exactly if no pod was started: one that was, by a call
      whose reply was lost, outlives the row. */
  lemma FailedCreateAfterCreateInDb(a: Core, user: User, demand: Demand, pick: Pick, os: seq<Outcome>, d: Device)
    requires Accepts(a, CreateRow(user, demand))
    requires var s := SoloRun(Alone(Perform(a, CreateRow(user, demand), pick), user, |a.rows|, CreateInK8s), os);
             s.run.pc.Ended? && ReleaseSent(s.legs)
    ensures var created := Perform(a, CreateRow(user, demand), pick);
            var s := SoloRun(Alone(created, user, |a.rows|, CreateInK8s), os);
            && s.run.pc.response.code != 200
            && (if ReleaseTook(s.legs) then s.core.rows == a.rows + [None] && UsedOn(s.core, d) == UsedOn(a, d)
                else s.core.rows == created.rows && UsedOn(s.core, d) == UsedOn(created, d))
            && PodsAfter(a, s.core, user, |a.rows|, PodMade(s.legs))
  {
    var created := Perform(a, CreateRow(user, demand), pick);
    var s := SoloRun(Alone(created, user, |a.rows|, CreateInK8s), os);
    CreateExits(created, user, |a.rows|, os);
    if ReleaseTook(s.legs) { ReleaseUndoesCreate(a, user, demand, pick, s.core, d); }
    if PodMade(s.legs) {
      var p: Pick :| s.core.pods == created.pods + {NewPod(created, user, |a.rows|, p)};
      assert NewPod(created, user, |a.rows|, p) == NewPod(a, user, |a.rows|, p);
    }
  }
}
