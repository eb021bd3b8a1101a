/** What a lone delete, the first steps of a save and the last steps of a hibernate leave behind. */
module ShortSagas {
  import opened Prelude
  import opened Platform
  import opened ErrorLayers
  import opened Sagas
  import opened SoloRuns

  /** Main result: a delete answers 200 exactly when the row was the user's and the reply arrived, and
      then the row is gone. A 404 does not mean that nothing happened: a reply that cannot be decoded is
      reported the same way as a missing row. */
  lemma DeleteExits(a: Core, user: User, id: ContainerId, o: Outcome)
    ensures var s := SoloStep(Alone(a, user, id, DeleteInDb), o);
            && s.run.pc.Ended?
            && (s.run.pc.response.code == 200 <==> o.Delivered? && Owned(a, id, user))
            && (s.run.pc.response.code == 200 ==> id < |s.core.rows| && s.core.rows[id].None?)
            && (s.run.pc.response.code == 404 <==> (o.Delivered? && !Owned(a, id, user)) || o.ReplyGarbled?)
            && (s.run.pc.response.code == 404 && s.core != a ==> o.ReplyGarbled? && s.core.rows[id].None?)
  {
    if Owned(a, id, user) && !o.Refused? {
      assert Perform(a, DeleteRow(id, user), o.pick).rows[id] == None;
    }
  }

  /** What a save has done by the time it writes PENDING, and by the time it asks for the snapshot. */
  predicate SaveBegun(s: Solo, user: User, id: ContainerId) {
    && s.run.user == user && s.run.id == id && s.run.saga == Save
    && (s.run.pc.AtPendingWrite? ==> Owned(s.core, id, user))
    && (s.run.pc.AtSnapshot? ==> Owned(s.core, id, user) && s.core.rows[id].value.save == SavePending)
  }

  lemma SaveBegins(run: Run, reply: Reply)
    requires run.saga == Save && !run.pc.Ended?
    ensures NextPc(run, reply).AtPendingWrite? ==> run.pc.AtLookup? && reply.Accepted?
    ensures NextPc(run, reply).AtSnapshot? ==> run.pc.AtPendingWrite? && DbUpdate(reply).Ok?
  {
  }

  lemma SaveBegunStep(s: Solo, user: User, id: ContainerId, o: Outcome)
    requires SaveBegun(s, user, id)
    ensures SaveBegun(SoloStep(s, o), user, id)
  {
    if !s.run.pc.Ended? { SaveBegins(s.run, Exchange(s.core, CallOf(s.run), o).reply); }
  }

  lemma {:induction false} SavePends(a: Core, user: User, id: ContainerId, os: seq<Outcome>)
    ensures SaveBegun(SoloRun(Alone(a, user, id, Save), os), user, id)
    decreases |os|
  {
    if os != [] {
      SavePends(a, user, id, os[..|os| - 1]);
      SaveBegunStep(SoloRun(Alone(a, user, id, Save), os[..|os| - 1]), user, id, os[|os| - 1]);
    }
  }

  /** A hibernate whose snapshot is confirmed, about to delete the pod. */
  predicate AboutToDelete(run: Run, user: User, id: ContainerId) {
    run.user == user && run.id == id && run.saga == Hibernate && run.pc == AtDeletePods
  }

  predicate SameBooks(a: Core, b: Core) {
    b.rows == a.rows && b.used == a.used && b.active == a.active && b.capacity == a.capacity
  }

  /** The books of b are those of a after Cloud's hibernate transition of the row. */
  predicate BooksHibernated(a: Core, b: Core, id: ContainerId) {
    Exists(a, id) && SameBooks(PutRow(Release(a, a.rows[id].value.hold), id, Some(HibernatedRow(a.rows[id].value))), b)
  }

  predicate PodsGone(a: Core, b: Core, user: User, id: ContainerId) {
    b.pods == a.pods - PodsOf(a, user, id)
  }

  /** Cloud's hibernate transition took place. */
  predicate TransitionTaken(legs: seq<Leg>) {
    |legs| >= 2 && legs[1].took
  }

  /** How a hibernate can end once its snapshot is confirmed: the pods are gone exactly if the pod delete
      took effect, the row is HIBERNATED and released exactly if Cloud's transition did and untouched
      otherwise; 200 means that all of it was done, and every other answer is a 500. */
  predicate HibernateEnd(a: Core, s: Solo, user: User, id: ContainerId, code: nat) {
    && 1 <= |s.legs| <= 3
    && (if s.legs[0].took then PodsGone(a, s.core, user, id) else s.core.pods == a.pods)
    && (if TransitionTaken(s.legs) then BooksHibernated(a, s.core, id) else SameBooks(a, s.core))
    && (|s.legs| >= 2 <==> s.legs[0].reply.Accepted?)
    && (|s.legs| == 3 <==> |s.legs| >= 2 && s.legs[1].reply.Accepted?)
    && (code == 200 <==> |s.legs| == 3 && DbGet(s.legs[2].reply).Ok?)
    && (code == 200 ==> s.legs[0].took && s.legs[1].took)
    && (code != 200 ==> code == 500)
  }

  predicate HibernateStage(a: Core, s: Solo, user: User, id: ContainerId) {
    && s.run.user == user && s.run.id == id && s.run.saga == Hibernate
    && match s.run.pc {
         case AtDeletePods => s.legs == [] && s.core == a
         case AtHibernate =>
           && |s.legs| == 1 && s.legs[0].took && s.legs[0].reply.Accepted?
           && PodsGone(a, s.core, user, id) && SameBooks(a, s.core)
         case AtFinalRead =>
           && |s.legs| == 2 && s.legs[0].took && s.legs[0].reply.Accepted?
           && s.legs[1].took && s.legs[1].reply.Accepted?
           && PodsGone(a, s.core, user, id) && BooksHibernated(a, s.core, id)
         case Ended(response) => HibernateEnd(a, s, user, id, response.code)
         case _ => false
       }
  }

  lemma DeletePodsStep(a: Core, s: Solo, user: User, id: ContainerId, o: Outcome)
    requires HibernateStage(a, s, user, id) && s.run.pc.AtDeletePods?
    ensures HibernateStage(a, SoloStep(s, o), user, id)
  {
  }

  lemma TransitionStep(a: Core, s: Solo, user: User, id: ContainerId, o: Outcome)
    requires HibernateStage(a, s, user, id) && s.run.pc.AtHibernate?
    ensures HibernateStage(a, SoloStep(s, o), user, id)
  {
  }

  lemma FinalReadStep(a: Core, s: Solo, user: User, id: ContainerId, o: Outcome)
    requires HibernateStage(a, s, user, id) && s.run.pc.AtFinalRead?
    ensures HibernateStage(a, SoloStep(s, o), user, id)
  {
  }

  /** Main result: every way a hibernate can end after its snapshot is confirmed. */
  lemma {:induction false} HibernateEnds(a: Core, run: Run, user: User, id: ContainerId, os: seq<Outcome>)
    requires AboutToDelete(run, user, id)
    ensures HibernateStage(a, SoloRun(Solo(a, run, []), os), user, id)
    decreases |os|
  {
    if os != [] {
      HibernateEnds(a, run, user, id, os[..|os| - 1]);
      var s, o := SoloRun(Solo(a, run, []), os[..|os| - 1]), os[|os| - 1];
      match s.run.pc
      case AtDeletePods => DeletePodsStep(a, s, user, id, o);
      case AtHibernate => TransitionStep(a, s, user, id, o);
      case AtFinalRead => FinalReadStep(a, s, user, id, o);
      case _ =>
    }
  }

  /** Nothing undoes the pod delete: from every state, if Cloud then refuses the transition, the answer
      is a 500, the pods are gone, and the row is as it was: if it was RUNNING it still is, with its
      reservation. */
  lemma PodGoneAndRowLeftRunning(a: Core, run: Run, user: User, id: ContainerId, code: RefusalCode, message: string)
    requires AboutToDelete(run, user, id)
    ensures var s := SoloStep(SoloStep(Solo(a, run, []), SERVED), Refused(code, message));
            && s.run.pc == Ended(Response(500, message))
            && PodsGone(a, s.core, user, id) && SameBooks(a, s.core)
    ensures var s := SoloStep(SoloStep(Solo(a, run, []), SERVED), Refused(code, message));
            Exists(a, id) && a.rows[id].value.status == Running ==>
              && Exists(s.core, id) && s.core.rows[id].value.status == Running
              && s.core.rows[id].value.hold == a.rows[id].value.hold
  {
    DeletePodsStep(a, Solo(a, run, []), user, id, SERVED);
  }
}
