/** How a resume that nothing overlaps leaves the container, for every failure and lost reply. */
module ResumeExit {
  import opened Prelude
  import opened Platform
  import opened Sagas
  import opened SoloRuns
  import opened FreshPods

  /** The state right after Cloud's transition. */
  function Transitioned(a: Core, id: ContainerId, user: User): Core {
    Perform(a, ResumeRow(id, user), Pick(0, 0))
  }

  predicate Holding(core: Core, id: ContainerId) {
    Exists(core, id) && core.rows[id].value.hold.Some?
  }

  /** The reservation Cloud made for this resume is in place. */
  predicate Reserved(a: Core, b: Core, id: ContainerId, user: User) {
    && Accepts(a, ResumeRow(id, user))
    && Owned(b, id, user) && b.rows[id].value.hold == Some(Hold(a.active[user], a.rows[id].value.demand))
    && b.used == Transitioned(a, id, user).used
  }

  /** The row is HIBERNATED without a device, and the books are as before the resume. */
  ghost predicate RolledBack(a: Core, b: Core, id: ContainerId) {
    && Exists(b, id) && b.rows[id].value.status == Hibernated && b.rows[id].value.hold.None?
    && (forall d: Device :: UsedOn(b, d) == UsedOn(a, d))
  }

  /** The row runs this pod, under its id, address and resources. */
  predicate RunsPod(core: Core, id: ContainerId, p: Pod) {
    && Exists(core, id) && p in core.pods
    && core.rows[id].value.status == Running
    && core.rows[id].value.kubernetesId == Some(p.uid)
    && core.rows[id].value.ip == Some(p.ip)
    && core.rows[id].value.resources == Some(p.resources)
  }

  /** At most the status of the user's row differs, and then it says FAILED. */
  predicate AtMostMarkedFailed(a: Core, b: Core, id: ContainerId, user: User) {
    b == a || (Owned(a, id, user) && b == PutRow(a, id, Some(a.rows[id].value.(status := Failed))))
  }

  /** The lookup found the row. */
  predicate Looked(legs: seq<Leg>) {
    |legs| >= 1 && legs[0].pc.AtLookup? && legs[0].reply.Accepted?
  }

  /** Cloud's transition took place, known to the run or not. */
  predicate TransitionTook(legs: seq<Leg>) {
    |legs| >= 2 && legs[1].pc.AtTransition? && legs[1].took
  }

  /** Cloud's transition took place and the run knows. */
  predicate TransitionKnown(legs: seq<Leg>) {
    TransitionTook(legs) && legs[1].reply.Accepted?
  }

  /** The call on which the run gave up; a rollback or FAILED mark comes after it. */
  function FailingLeg(legs: seq<Leg>): Leg
    requires |legs| >= 2
  {
    var last := legs[|legs| - 1];
    if last.pc.AtRollback? || last.pc.AtMarkFailed? then legs[|legs| - 2] else last
  }

  predicate RollbackSent(legs: seq<Leg>) {
    |legs| >= 2 && legs[|legs| - 1].pc.AtRollback?
  }

  predicate RollbackTook(legs: seq<Leg>) {
    RollbackSent(legs) && legs[|legs| - 1].took
  }

  /** The call that marks the row FAILED was made. */
  predicate MarkSent(legs: seq<Leg>) {
    |legs| >= 2 && legs[|legs| - 1].pc.AtMarkFailed?
  }

  /** The lookup failed otherwise than with a 404, or the transition's reply could not be decoded. */
  predicate FallsBack(legs: seq<Leg>) {
    && |legs| >= 1
    && if Looked(legs) then |legs| >= 2 && legs[1].reply.Unreadable? else !NotFound(legs[0].reply)
  }

  /** The transition did not take place: nothing but a FAILED mark, and that exactly after a lookup that
      failed or a transition reply that could not be read. */
  predicate ExitBefore(a: Core, s: Solo, user: User, id: ContainerId, code: nat) {
    && |s.legs| >= 1 && code != 200
    && AtMostMarkedFailed(a, s.core, id, user)
    && (MarkSent(s.legs) <==> FallsBack(s.legs))
    && (s.core != a ==> MarkSent(s.legs))
    && (Looked(s.legs) && |s.legs| == 2 && s.legs[1].reply.Rejected? ==> s.core == a && code == s.legs[1].reply.code)
    && (!Looked(s.legs) && s.legs[0].reply.Rejected? && s.legs[0].reply.code == 404 ==> s.core == a && code == 404)
  }

  /** A successful exit: the row is RUNNING with the new pod and keeps its reservation. */
  ghost predicate ExitResumed(a: Core, s: Solo, user: User, id: ContainerId) {
    && TransitionKnown(s.legs)
    && Reserved(a, s.core, id, user)
    && exists p: Pod :: p.ns == user && p.container == id && p !in a.pods && RunsPod(s.core, id, p)
  }

  /** A failed exit after the transition. */
  ghost predicate ExitFailed(a: Core, s: Solo, user: User, id: ContainerId) {
    && |s.legs| >= 2
    && (MarkSent(s.legs) <==> s.legs[1].reply.Unreadable?)
    && (RollbackSent(s.legs) <==> s.legs[1].reply.Accepted? && !FailingLeg(s.legs).pc.AtStartPod?)
    && (if RollbackTook(s.legs) then RolledBack(a, s.core, id) else Reserved(a, s.core, id, user))
    && (FailingLeg(s.legs).pc.AtSync? ==> FailingLeg(s.legs).pc.pod in s.core.pods)
  }

  /** How the row, its reservation and the books come out. */
  ghost predicate BooksExit(a: Core, s: Solo, user: User, id: ContainerId, code: nat) {
    && |s.legs| >= 1
    && if !TransitionTook(s.legs) then ExitBefore(a, s, user, id, code)
       else if code == 200 then ExitResumed(a, s, user, id)
       else ExitFailed(a, s, user, id)
  }

  /** Past the transition, with the run knowing. */
  predicate Onward(a: Core, s: Solo, user: User, id: ContainerId) {
    && Looked(s.legs) && TransitionKnown(s.legs) && s.run.row.Some?
    && Reserved(a, s.core, id, user)
  }

  predicate SamePods(a: Core, b: Core) {
    b.pods == a.pods && b.nextUid == a.nextUid
  }

  /** The pod this stage is about to record. */
  predicate NewPodOf(a: Core, s: Solo, user: User, id: ContainerId, p: Pod) {
    p.ns == user && p.container == id && p in s.core.pods && p !in a.pods
  }

  ghost predicate ByStage(a: Core, s: Solo, user: User, id: ContainerId) {
    match s.run.pc
    case AtLookup => s.legs == [] && s.core == a
    case AtTransition => |s.legs| == 1 && Looked(s.legs) && s.run.row.Some? && s.core == a
    case AtStamp => |s.legs| == 2 && Onward(a, s, user, id) && SamePods(a, s.core)
    case AtImage => |s.legs| >= 3 && Onward(a, s, user, id) && SamePods(a, s.core)
    case AtStartPod => |s.legs| >= 3 && Onward(a, s, user, id) && SamePods(a, s.core)
    case AtSync(pod) => |s.legs| >= 4 && Onward(a, s, user, id) && NewPodOf(a, s, user, id, pod)
    case AtRollback(e) =>
      && |s.legs| >= 3 && Onward(a, s, user, id) && !e.HttpError?
      && var last := s.legs[|s.legs| - 1].pc;
         (last.AtStamp? || last.AtImage? || (last.AtSync? && last.pod in s.core.pods))
    case AtMarkFailed(e) =>
      && !e.HttpError?
      && ((|s.legs| == 1 && s.core == a && !Looked(s.legs) && !NotFound(s.legs[0].reply))
          || (|s.legs| == 2 && Looked(s.legs) && s.legs[1].pc.AtTransition? && s.legs[1].reply.Unreadable?
              && if s.legs[1].took then Reserved(a, s.core, id, user) else s.core == a))
    case Ended(response) => BooksExit(a, s, user, id, response.code)
    case _ => false
  }

  predicate NotFound(reply: Reply) {
    reply.Rejected? && reply.code == 404
  }

  ghost predicate Inv(a: Core, s: Solo, user: User, id: ContainerId) {
    && s.run.user == user && s.run.id == id && s.run.saga == Resume
    && (s.run.row.Some? ==> s.run.row.value.owner == user)
    && ByStage(a, s, user, id)
  }

  /** Serving the transition reserves. */
  lemma TransitionReserves(a: Core, user: User, id: ContainerId, pick: Pick)
    requires Accepts(a, ResumeRow(id, user))
    ensures Perform(a, ResumeRow(id, user), pick) == Transitioned(a, id, user)
    ensures Reserved(a, Transitioned(a, id, user), id, user)
    ensures SamePods(a, Transitioned(a, id, user))
  {
  }

  /** Writing fields of the row keeps the reservation. */
  lemma UpdateKeepsReserved(a: Core, b: Core, id: ContainerId, user: User, body: Fields, pick: Pick)
    requires Reserved(a, b, id, user)
    ensures Reserved(a, Perform(b, UpdateRow(id, body), pick), id, user)
    ensures SamePods(b, Perform(b, UpdateRow(id, body), pick))
  {
  }

  /** The rollback undoes the reservation in the books. */
  lemma RollbackRestores(a: Core, b: Core, id: ContainerId, user: User, pick: Pick)
    requires Reserved(a, b, id, user)
    ensures RolledBack(a, Perform(b, HibernateRow(id), pick), id)
    ensures SamePods(b, Perform(b, HibernateRow(id), pick))
  {
  }

  lemma LookupStep(a: Core, s: Solo, user: User, id: ContainerId, o: Outcome)
    requires Inv(a, s, user, id) && s.run.pc.AtLookup?
    ensures Inv(a, SoloStep(s, o), user, id)
  {
  }

  lemma TransitionStep(a: Core, s: Solo, user: User, id: ContainerId, o: Outcome)
    requires Inv(a, s, user, id) && s.run.pc.AtTransition?
    ensures Inv(a, SoloStep(s, o), user, id)
  {
    if Accepts(a, ResumeRow(id, user)) && !o.Refused? { TransitionReserves(a, user, id, o.pick); }
  }

  lemma StampStep(a: Core, s: Solo, user: User, id: ContainerId, o: Outcome)
    requires Inv(a, s, user, id) && s.run.pc.AtStamp?
    ensures Inv(a, SoloStep(s, o), user, id)
  {
    if !o.Refused? { UpdateKeepsReserved(a, s.core, id, user, Merge(NO_FIELDS, user), o.pick); }
  }

  lemma ImageStep(a: Core, s: Solo, user: User, id: ContainerId, o: Outcome)
    requires Inv(a, s, user, id) && s.run.pc.AtImage?
    ensures Inv(a, SoloStep(s, o), user, id)
  {
  }

  lemma StartPodStep(a: Core, s: Solo, user: User, id: ContainerId, o: Outcome)
    requires Inv(a, s, user, id) && s.run.pc.AtStartPod? && FreshUids(a)
    ensures Inv(a, SoloStep(s, o), user, id)
  {
  }

  /** Writing the pod's identity makes the row run it. */
  lemma SyncRuns(a: Core, b: Core, user: User, id: ContainerId, pod: Pod, pick: Pick)
    requires Reserved(a, b, id, user) && pod in b.pods
    ensures RunsPod(Perform(b, UpdateRow(id, Merge(SyncFields(pod), user)), pick), id, pod)
    ensures Accepts(b, UpdateRow(id, Merge(SyncFields(pod), user)))
  {
  }

  lemma SyncStep(a: Core, s: Solo, user: User, id: ContainerId, o: Outcome)
    requires Inv(a, s, user, id) && s.run.pc.AtSync?
    ensures Inv(a, SoloStep(s, o), user, id)
  {
    if !o.Refused? {
      UpdateKeepsReserved(a, s.core, id, user, Merge(SyncFields(s.run.pc.pod), user), o.pick);
      SyncRuns(a, s.core, user, id, s.run.pc.pod, o.pick);
    }
  }

  lemma RollbackStep(a: Core, s: Solo, user: User, id: ContainerId, o: Outcome)
    requires Inv(a, s, user, id) && s.run.pc.AtRollback?
    ensures Inv(a, SoloStep(s, o), user, id)
  {
    if !o.Refused? { RollbackRestores(a, s.core, id, user, o.pick); }
  }

  lemma MarkFailedStep(a: Core, s: Solo, user: User, id: ContainerId, o: Outcome)
    requires Inv(a, s, user, id) && s.run.pc.AtMarkFailed?
    ensures Inv(a, SoloStep(s, o), user, id)
  {
    var body := Merge(NO_FIELDS.(status := Some(Failed)), user);
    if !o.Refused? && |s.legs| == 2 && s.legs[1].took { UpdateKeepsReserved(a, s.core, id, user, body, o.pick); }
  }

  lemma {:induction false} EveryStage(a: Core, user: User, id: ContainerId, os: seq<Outcome>)
    requires FreshUids(a)
    ensures Inv(a, SoloRun(Alone(a, user, id, Resume), os), user, id)
    decreases |os|
  {
    if os != [] {
      EveryStage(a, user, id, os[..|os| - 1]);
      var s, o := SoloRun(Alone(a, user, id, Resume), os[..|os| - 1]), os[|os| - 1];
      match s.run.pc
      case AtLookup => LookupStep(a, s, user, id, o);
      case AtTransition => TransitionStep(a, s, user, id, o);
      case AtStamp => StampStep(a, s, user, id, o);
      case AtImage => ImageStep(a, s, user, id, o);
      case AtStartPod => StartPodStep(a, s, user, id, o);
      case AtSync(_) => SyncStep(a, s, user, id, o);
      case AtRollback(_) => RollbackStep(a, s, user, id, o);
      case AtMarkFailed(_) => MarkFailedStep(a, s, user, id, o);
      case _ =>
    }
  }

  // The pods, and the status of a row that is not rolled back.

  /** A resume has started no pod before it gets to, and none but, the pod start. */
  ghost predicate PodsFit(a: Core, s: Solo, user: User, id: ContainerId) {
    && PodsAfter(a, s.core, user, id, PodMade(s.legs))
    && (BeforePod(s.run.pc) ==> !PodMade(s.legs) && s.core.nextUid == a.nextUid)
  }

  predicate BeforePod(pc: Pc) {
    pc.AtLookup? || pc.AtTransition? || pc.AtStamp? || pc.AtImage? || pc.AtStartPod?
  }

  lemma PodStartIsReachedOnce(run: Run, reply: Reply)
    requires run.saga == Resume && !run.pc.Ended?
    requires BeforePod(NextPc(run, reply))
    ensures BeforePod(run.pc) && !run.pc.AtStartPod?
  {
  }

  lemma PodsStep(a: Core, s: Solo, user: User, id: ContainerId, o: Outcome)
    requires Inv(a, s, user, id) && PodsFit(a, s, user, id)
    ensures PodsFit(a, SoloStep(s, o), user, id)
  {
    if !s.run.pc.Ended? {
      var x, t := Exchange(s.core, CallOf(s.run), o), SoloStep(s, o);
      PodMadeAfterLeg(s.legs, Leg(s.run.pc, x.reply, x.took));
      if s.run.pc.AtStartPod? {
        if x.took { assert x.core.pods == a.pods + {NewPod(a, user, id, o.pick)}; }
      } else {
        OtherCallsStartNone(s.core, s.run, o);
        if BeforePod(t.run.pc) { PodStartIsReachedOnce(s.run, x.reply); }
      }
    }
  }

  lemma OtherCallsStartNone(core: Core, run: Run, o: Outcome)
    requires run.saga == Resume && !run.pc.Ended? && !run.pc.AtStartPod? && !run.pc.AtDeletePods?
    ensures var core' := Exchange(core, CallOf(run), o).core; core'.pods == core.pods && core'.nextUid == core.nextUid
  {
  }

  /** RESUMING, unless a later write took effect: FAILED, or the final sync. */
  function StatusLeft(legs: seq<Leg>): Status
    requires |legs| >= 2
  {
    if MarkSent(legs) && legs[|legs| - 1].took then Failed
    else if FailingLeg(legs).pc.AtSync? && FailingLeg(legs).took then Running
    else Resuming
  }

  predicate Says(core: Core, id: ContainerId, status: Status) {
    Exists(core, id) && core.rows[id].value.status == status
  }

  predicate StatusFits(s: Solo, id: ContainerId) {
    match s.run.pc
    case AtStamp => Says(s.core, id, Resuming)
    case AtImage => Says(s.core, id, Resuming)
    case AtStartPod => Says(s.core, id, Resuming)
    case AtSync(_) => Says(s.core, id, Resuming)
    case AtRollback(_) =>
      && |s.legs| >= 2
      && var last := s.legs[|s.legs| - 1];
         Says(s.core, id, if last.pc.AtSync? && last.took then Running else Resuming)
    case AtMarkFailed(_) => TransitionTook(s.legs) ==> Says(s.core, id, Resuming)
    case Ended(response) =>
      TransitionTook(s.legs) && response.code != 200 && !RollbackTook(s.legs) ==> Says(s.core, id, StatusLeft(s.legs))
    case _ => true
  }

  lemma StatusAfterLookup(a: Core, s: Solo, user: User, id: ContainerId, o: Outcome)
    requires Inv(a, s, user, id) && StatusFits(s, id) && s.run.pc.AtLookup?
    ensures StatusFits(SoloStep(s, o), id)
  {
  }

  lemma StatusAfterTransition(a: Core, s: Solo, user: User, id: ContainerId, o: Outcome)
    requires Inv(a, s, user, id) && StatusFits(s, id) && s.run.pc.AtTransition?
    ensures StatusFits(SoloStep(s, o), id)
  {
  }

  lemma StatusAfterStamp(a: Core, s: Solo, user: User, id: ContainerId, o: Outcome)
    requires Inv(a, s, user, id) && StatusFits(s, id) && s.run.pc.AtStamp?
    ensures StatusFits(SoloStep(s, o), id)
  {
  }

  lemma StatusAfterImage(a: Core, s: Solo, user: User, id: ContainerId, o: Outcome)
    requires Inv(a, s, user, id) && StatusFits(s, id) && s.run.pc.AtImage?
    ensures StatusFits(SoloStep(s, o), id)
  {
  }

  lemma StatusAfterStartPod(a: Core, s: Solo, user: User, id: ContainerId, o: Outcome)
    requires Inv(a, s, user, id) && StatusFits(s, id) && s.run.pc.AtStartPod?
    ensures StatusFits(SoloStep(s, o), id)
  {
  }

  lemma StatusAfterSync(a: Core, s: Solo, user: User, id: ContainerId, o: Outcome)
    requires Inv(a, s, user, id) && StatusFits(s, id) && s.run.pc.AtSync?
    ensures StatusFits(SoloStep(s, o), id)
  {
  }

  lemma StatusAfterRollback(a: Core, s: Solo, user: User, id: ContainerId, o: Outcome)
    requires Inv(a, s, user, id) && StatusFits(s, id) && s.run.pc.AtRollback?
    ensures StatusFits(SoloStep(s, o), id)
  {
  }

  lemma StatusAfterMarkFailed(a: Core, s: Solo, user: User, id: ContainerId, o: Outcome)
    requires Inv(a, s, user, id) && StatusFits(s, id) && s.run.pc.AtMarkFailed?
    ensures StatusFits(SoloStep(s, o), id)
  {
  }

  lemma StatusStep(a: Core, s: Solo, user: User, id: ContainerId, o: Outcome)
    requires Inv(a, s, user, id) && StatusFits(s, id)
    ensures StatusFits(SoloStep(s, o), id)
  {
    match s.run.pc
    case AtLookup => StatusAfterLookup(a, s, user, id, o);
    case AtTransition => StatusAfterTransition(a, s, user, id, o);
    case AtStamp => StatusAfterStamp(a, s, user, id, o);
    case AtImage => StatusAfterImage(a, s, user, id, o);
    case AtStartPod => StatusAfterStartPod(a, s, user, id, o);
    case AtSync(_) => StatusAfterSync(a, s, user, id, o);
    case AtRollback(_) => StatusAfterRollback(a, s, user, id, o);
    case AtMarkFailed(_) => StatusAfterMarkFailed(a, s, user, id, o);
    case _ =>
  }

  // When a resume goes through.

  /** The call was answered so that the resume goes on; to write to a missing row is no failure. */
  predicate FineLeg(leg: Leg) {
    leg.reply.Accepted? || (NotFound(leg.reply) && (leg.pc.AtStamp? || leg.pc.AtSync?))
  }

  predicate AllLegsFine(legs: seq<Leg>) {
    forall k {:trigger FineLeg(legs[k])} :: 0 <= k < |legs| ==> FineLeg(legs[k])
  }

  predicate ClosingStage(pc: Pc) {
    pc.AtRollback? || pc.AtMarkFailed?
  }

  /** A resume goes on while its calls go well, closes after the first that does not, and answers 200
      exactly if there was none. */
  predicate FineFits(s: Solo) {
    if s.run.pc.Ended? then
      && |s.legs| >= 1
      && (s.run.pc.response.code == 200 <==> AllLegsFine(s.legs))
      && (s.run.pc.response.code != 200 && |s.legs| >= 2 ==> !FineLeg(FailingLeg(s.legs)))
    else if ClosingStage(s.run.pc) then |s.legs| >= 1 && !FineLeg(s.legs[|s.legs| - 1])
    else AllLegsFine(s.legs) && forall k :: 0 <= k < |s.legs| ==> !ClosingStage(s.legs[k].pc)
  }

  lemma FineLeads(run: Run, reply: Reply)
    requires BeforePod(run.pc) || run.pc.AtSync?
    requires run.pc.AtLookup? && reply.Accepted? ==> reply.view.RowView?
    requires run.saga == Resume && (reply.Rejected? ==> reply.code >= 400)
    ensures var next := NextPc(run, reply);
            if FineLeg(Leg(run.pc, reply, false)) then
              !ClosingStage(next) && (next.Ended? ==> next.response.code == 200)
            else ClosingStage(next) || (next.Ended? && next.response.code != 200)
  {
  }

  lemma ClosingEnds(run: Run, reply: Reply)
    requires ClosingStage(run.pc) && ClosingFailure(run.pc) != 200
    ensures NextPc(run, reply).Ended? && NextPc(run, reply).response.code != 200
  {
  }

  function ClosingFailure(pc: Pc): nat
    requires ClosingStage(pc)
  {
    ErrorResponse(pc.failure).code
  }

  lemma AllLegsFineGrows(legs: seq<Leg>, leg: Leg)
    ensures AllLegsFine(legs + [leg]) <==> AllLegsFine(legs) && FineLeg(leg)
  {
    var more := legs + [leg];
    if AllLegsFine(more) {
      forall k | 0 <= k < |legs| ensures FineLeg(legs[k]) { assert FineLeg(more[k]); }
      assert FineLeg(more[|legs|]);
    }
    if AllLegsFine(legs) && FineLeg(leg) {
      forall k | 0 <= k < |more| ensures FineLeg(more[k]) {
        if k < |legs| { assert FineLeg(legs[k]); }
      }
    }
  }

  /** What an answered call adds. */
  lemma FineStep(a: Core, s: Solo, user: User, id: ContainerId, o: Outcome)
    requires Inv(a, s, user, id) && FineFits(s)
    ensures FineFits(SoloStep(s, o))
  {
    if !s.run.pc.Ended? {
      var x := Exchange(s.core, CallOf(s.run), o);
      var leg := Leg(s.run.pc, x.reply, x.took);
      AllLegsFineGrows(s.legs, leg);
      ReplyFits(s.core, s.run, o);
      if ClosingStage(s.run.pc) {
        AfterClosingLeg(s, leg);
        ClosingEnds(s.run, x.reply);
      } else {
        FineLeads(s.run, x.reply);
        AfterPlannedLeg(s, leg);
      }
    }
  }

  lemma ReplyFits(core: Core, run: Run, o: Outcome)
    requires !run.pc.Ended?
    ensures var reply := Exchange(core, CallOf(run), o).reply;
            (run.pc.AtLookup? && reply.Accepted? ==> reply.view.RowView?) && (reply.Rejected? ==> reply.code >= 400)
  {
  }

  lemma AfterClosingLeg(s: Solo, leg: Leg)
    requires FineFits(s) && ClosingStage(s.run.pc) && leg.pc == s.run.pc
    ensures !AllLegsFine(s.legs) && |s.legs + [leg]| >= 2 && FailingLeg(s.legs + [leg]) == s.legs[|s.legs| - 1]
  {
  }

  lemma AfterPlannedLeg(s: Solo, leg: Leg)
    requires FineFits(s) && !s.run.pc.Ended? && !ClosingStage(s.run.pc) && leg.pc == s.run.pc
    ensures forall k :: 0 <= k < |s.legs + [leg]| ==> !ClosingStage((s.legs + [leg])[k].pc)
    ensures |s.legs + [leg]| >= 2 ==> FailingLeg(s.legs + [leg]) == leg
  {
  }

  /** Every way a resume can end: how its row, its reservation and the books come out; what the row says
      if it is not rolled back; a pod, exactly if the pod start took effect, known to the run or not; and
      a 200 exactly if every call went well, so that only a call that did not is ever rolled back. */
  ghost predicate Exit(a: Core, s: Solo, user: User, id: ContainerId, code: nat) {
    && BooksExit(a, s, user, id, code)
    && PodsAfter(a, s.core, user, id, PodMade(s.legs))
    && (TransitionTook(s.legs) && code != 200 && !RollbackTook(s.legs) ==> Says(s.core, id, StatusLeft(s.legs)))
    && (code == 200 <==> AllLegsFine(s.legs))
    && (code != 200 && |s.legs| >= 2 ==> !FineLeg(FailingLeg(s.legs)))
  }

  lemma {:induction false} EveryPodAndStatus(a: Core, user: User, id: ContainerId, os: seq<Outcome>)
    requires FreshUids(a)
    ensures var s := SoloRun(Alone(a, user, id, Resume), os);
            PodsFit(a, s, user, id) && StatusFits(s, id) && FineFits(s)
    decreases |os|
  {
    if os != [] {
      var n := |os| - 1;
      EveryPodAndStatus(a, user, id, os[..n]);
      EveryStage(a, user, id, os[..n]);
      var s := SoloRun(Alone(a, user, id, Resume), os[..n]);
      PodsStep(a, s, user, id, os[n]);
      StatusStep(a, s, user, id, os[n]);
      FineStep(a, s, user, id, os[n]);
    }
  }

  /** Main result: every way a lone resume can end. */
  lemma {:induction false} ResumeExits(a: Core, user: User, id: ContainerId, os: seq<Outcome>)
    requires FreshUids(a) && SoloRun(Alone(a, user, id, Resume), os).run.pc.Ended?
    ensures var s := SoloRun(Alone(a, user, id, Resume), os);
            Exit(a, s, user, id, s.run.pc.response.code)
  {
    EveryStage(a, user, id, os);
    EveryPodAndStatus(a, user, id, os);
  }

  /** Whether the pod start was answered or not, an HTTPException leaves both the reservation and, if
      Kubernetes did start it, the pod: it runs, and no row knows it. */
  lemma LostPodStartLeavesPodAndReservation(a: Core, user: User, id: ContainerId, os: seq<Outcome>)
    requires FreshUids(a)
    requires var s := SoloRun(Alone(a, user, id, Resume), os);
             && s.run.pc.Ended? && s.run.pc.response.code != 200 && TransitionKnown(s.legs)
             && FailingLeg(s.legs).pc.AtStartPod?
    ensures var s := SoloRun(Alone(a, user, id, Resume), os);
            && Reserved(a, s.core, id, user) && Says(s.core, id, Resuming)
            && (s.core.pods != a.pods <==> PodMade(s.legs))
  {
    ResumeExits(a, user, id, os);
    var s := SoloRun(Alone(a, user, id, Resume), os);
    if PodMade(s.legs) {
      var pick: Pick :| s.core.pods == a.pods + {NewPod(a, user, id, pick)};
      assert NewPod(a, user, id, pick) in s.core.pods;
    }
  }

  /** After the transition, a failed exit leaves the reservation in place exactly when the run did not
      know of the transition, or the failure was the HTTPException every pod start failure is turned
      into, or the rollback took no effect; otherwise the row is HIBERNATED and released. */
  lemma ReservationLeftBehind(a: Core, user: User, id: ContainerId, os: seq<Outcome>)
    requires FreshUids(a)
    requires var s := SoloRun(Alone(a, user, id, Resume), os);
             s.run.pc.Ended? && s.run.pc.response.code != 200 && TransitionTook(s.legs)
    ensures var s := SoloRun(Alone(a, user, id, Resume), os);
            && (Holding(s.core, id) <==>
                  || !s.legs[1].reply.Accepted?
                  || FailingLeg(s.legs).pc.AtStartPod?
                  || !s.legs[|s.legs| - 1].took)
            && (!Holding(s.core, id) ==> RolledBack(a, s.core, id))
  {
    ResumeExits(a, user, id, os);
    if SoloRun(Alone(a, user, id, Resume), os).legs[1].reply.Accepted? { LastLegOfFailure(a, user, id, os); }
  }

  /** A failing call that was not rolled back is the last one, and a rollback is the last one. */
  lemma LastLegOfFailure(a: Core, user: User, id: ContainerId, os: seq<Outcome>)
    requires FreshUids(a)
    requires var s := SoloRun(Alone(a, user, id, Resume), os);
             s.run.pc.Ended? && s.run.pc.response.code != 200 && TransitionKnown(s.legs)
    ensures var s := SoloRun(Alone(a, user, id, Resume), os);
            RollbackSent(s.legs) || FailingLeg(s.legs).pc.AtStartPod?
  {
    ResumeExits(a, user, id, os);
  }
}
