/** When everything is served, the handlers do what they are for. */
module ServedRuns {
  import opened Platform
  import opened Sagas
  import opened SoloRuns
  import opened FreshPods
  import opened ResumeExit
  import CreateExit

  predicate AllDelivered(os: seq<Outcome>) {
    forall n :: 0 <= n < |os| ==> os[n].Delivered?
  }

  /** The stages a resume still has to go through, at most. */
  function ResumeRank(pc: Pc): nat {
    match pc
    case AtLookup => 6
    case AtTransition => 5
    case AtStamp => 4
    case AtImage => 3
    case AtStartPod => 2
    case AtSync(_) => 1
    case _ => 0
  }

  /** A served call of a resume that Cloud accepts goes well. */
  lemma ServedLegIsFine(a: Core, s: Solo, user: User, id: ContainerId, o: Outcome)
    requires Inv(a, s, user, id) && !s.run.pc.Ended? && !ClosingStage(s.run.pc)
    requires Accepts(a, ResumeRow(id, user)) && o.Delivered?
    ensures Exchange(s.core, CallOf(s.run), o).reply.Accepted?
  {
  }

  lemma FineLegDescends(run: Run, reply: Reply)
    requires run.saga == Resume && (BeforePod(run.pc) || run.pc.AtSync?) && reply.Accepted?
    requires run.pc.AtLookup? ==> reply.view.RowView?
    ensures ResumeRank(NextPc(run, reply)) < ResumeRank(run.pc) && !ClosingStage(NextPc(run, reply))
  {
  }

  lemma {:induction false} ServedResumeGoesOn(a: Core, user: User, id: ContainerId, os: seq<Outcome>)
    requires FreshUids(a) && Accepts(a, ResumeRow(id, user)) && AllDelivered(os)
    ensures var s := SoloRun(Alone(a, user, id, Resume), os);
            && !ClosingStage(s.run.pc) && AllLegsFine(s.legs)
            && (s.run.pc.Ended? || ResumeRank(s.run.pc) + |os| <= 6)
            && (!s.run.pc.Ended? ==> ResumeRank(s.run.pc) > 0)
    decreases |os|
  {
    if os != [] {
      var n := |os| - 1;
      ServedResumeGoesOn(a, user, id, os[..n]);
      EveryStage(a, user, id, os[..n]);
      var s := SoloRun(Alone(a, user, id, Resume), os[..n]);
      if !s.run.pc.Ended? { ServedResumeStep(a, s, user, id, os[n]); }
    }
  }

  lemma ServedResumeStep(a: Core, s: Solo, user: User, id: ContainerId, o: Outcome)
    requires Inv(a, s, user, id) && !s.run.pc.Ended? && !ClosingStage(s.run.pc) && AllLegsFine(s.legs)
    requires Accepts(a, ResumeRow(id, user)) && o.Delivered?
    ensures var t := SoloStep(s, o);
            && !ClosingStage(t.run.pc) && AllLegsFine(t.legs)
            && ResumeRank(t.run.pc) < ResumeRank(s.run.pc)
            && (!t.run.pc.Ended? ==> ResumeRank(t.run.pc) > 0)
  {
    var x := Exchange(s.core, CallOf(s.run), o);
    ServedLegIsFine(a, s, user, id, o);
    ReplyFits(s.core, s.run, o);
    FineLegDescends(s.run, x.reply);
    AllLegsFineGrows(s.legs, Leg(s.run.pc, x.reply, x.took));
    NextIsAStage(s.run, x.reply);
  }

  lemma NextIsAStage(run: Run, reply: Reply)
    requires run.saga == Resume && (BeforePod(run.pc) || run.pc.AtSync?) && reply.Accepted?
    ensures NextPc(run, reply).Ended? || ResumeRank(NextPc(run, reply)) > 0
  {
  }

  /** Main result: a resume of a row that Cloud lets resume, with every call served, answers 200 after at
      most six calls, and the row is RUNNING with its reservation and a new pod. */
  lemma ServedResumeSucceeds(a: Core, user: User, id: ContainerId, os: seq<Outcome>)
    requires FreshUids(a) && Accepts(a, ResumeRow(id, user)) && AllDelivered(os) && |os| >= 6
    ensures var s := SoloRun(Alone(a, user, id, Resume), os);
            && s.run.pc.Ended? && s.run.pc.response.code == 200
            && Reserved(a, s.core, id, user)
            && exists p: Pod :: p.ns == user && p.container == id && p !in a.pods && RunsPod(s.core, id, p)
  {
    ServedResumeGoesOn(a, user, id, os);
    ResumeExits(a, user, id, os);
    var s := SoloRun(Alone(a, user, id, Resume), os);
    EveryStage(a, user, id, os);
    FineTookTransition(a, s, user, id);
  }

  lemma FineTookTransition(a: Core, s: Solo, user: User, id: ContainerId)
    requires Exit(a, s, user, id, 200)
    ensures ExitResumed(a, s, user, id)
  {
  }

  /** Where a create with every call served is after n of them. */
  predicate CreateServed(a: Core, s: Solo, user: User, id: ContainerId, n: nat) {
    && s.run.user == user && s.run.id == id && s.run.saga == CreateInK8s
    && (n == 0 ==> s.run.pc == AtLookup && s.core == a)
    && (n == 1 ==> s.run.pc == AtImage && s.core == a)
    && (n == 2 ==> s.run.pc == AtStartPod && s.core == a)
    && (n >= 3 ==> s.run.pc.Ended? && s.run.pc.response.code == 200)
  }

  lemma CreateServedStep(a: Core, s: Solo, user: User, id: ContainerId, n: nat, o: Outcome)
    requires CreateServed(a, s, user, id, n) && Owned(a, id, user) && o.Delivered?
    ensures CreateServed(a, SoloStep(s, o), user, id, n + 1)
  {
  }

  lemma {:induction false} ServedCreateGoesOn(a: Core, user: User, id: ContainerId, os: seq<Outcome>)
    requires Owned(a, id, user) && AllDelivered(os)
    ensures CreateServed(a, SoloRun(Alone(a, user, id, CreateInK8s), os), user, id, |os|)
    decreases |os|
  {
    if os != [] {
      var n := |os| - 1;
      ServedCreateGoesOn(a, user, id, os[..n]);
      CreateServedStep(a, SoloRun(Alone(a, user, id, CreateInK8s), os[..n]), user, id, n, os[n]);
    }
  }

  /** Main result: a create for the user's own row, with every call served, answers 200 after three calls,
      and there is one new pod of the user's for the row. */
  lemma ServedCreateSucceeds(a: Core, user: User, id: ContainerId, os: seq<Outcome>)
    requires Owned(a, id, user) && AllDelivered(os) && |os| >= 3
    ensures var s := SoloRun(Alone(a, user, id, CreateInK8s), os);
            && s.run.pc.Ended? && s.run.pc.response.code == 200
            && PodMade(s.legs) && PodsAfter(a, s.core, user, id, true)
  {
    ServedCreateGoesOn(a, user, id, os);
    CreateExit.CreateExits(a, user, id, os);
  }

  /** Where a save with every call served is after n of them. */
  predicate SaveServed(s: Solo, user: User, id: ContainerId, n: nat) {
    && s.run.user == user && s.run.id == id && s.run.saga == Save && Owned(s.core, id, user)
    && (n == 0 ==> s.run.pc == AtLookup)
    && (n == 1 ==> s.run.pc == AtPendingWrite)
    && (n == 2 ==> s.run.pc == AtSnapshot)
    && (n >= 3 ==> s.run.pc.Ended? && s.run.pc.response.code == 202)
    && (n >= 2 ==> s.core.rows[id].value.save == SavePending)
  }

  lemma SaveServedStep(s: Solo, user: User, id: ContainerId, n: nat, o: Outcome)
    requires SaveServed(s, user, id, n) && o.Delivered?
    ensures SaveServed(SoloStep(s, o), user, id, n + 1)
  {
  }

  /** Main result: a save of the user's own row, with every call served, asks for the snapshot with PENDING
      on the row, and answers 202. */
  lemma {:induction false} ServedSaveIsAccepted(a: Core, user: User, id: ContainerId, os: seq<Outcome>)
    requires Owned(a, id, user) && AllDelivered(os)
    ensures SaveServed(SoloRun(Alone(a, user, id, Save), os), user, id, |os|)
    decreases |os|
  {
    if os != [] {
      var n := |os| - 1;
      ServedSaveIsAccepted(a, user, id, os[..n]);
      SaveServedStep(SoloRun(Alone(a, user, id, Save), os[..n]), user, id, n, os[n]);
    }
  }
}
