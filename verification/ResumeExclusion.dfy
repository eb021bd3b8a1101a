/** Concurrent resumes of one container exclude each other. HIBERNATED is a token: Cloud's resume
    transition takes it from the row and hands it to one run, a rollback hands it back. */
module ResumeExclusion {
  import opened Prelude
  import opened Platform
  import opened Sagas
  import opened Interleaving
  import opened Stages
  import opened TenantFrame
  import opened Reservations

  /** Past Cloud's transition, confirmed to the run, and not finished. */
  predicate PastTransition(run: Run, id: ContainerId) {
    && run.saga.Resume? && run.id == id
    && (run.pc.AtStamp? || run.pc.AtImage? || run.pc.AtStartPod? || run.pc.AtSync? || run.pc.AtRollback?)
  }

  /** At the FAILED fallback, unfinished, although Cloud's transition took effect, in time or late: its
      reply could not be decoded. */
  predicate Stranded(w: World, id: ContainerId, r: nat) {
    && r < |w.runs| && w.runs[r].saga.Resume? && w.runs[r].id == id && w.runs[r].pc.AtMarkFailed?
    && TookBy(w.trace, r, ResumeRow(id, w.runs[r].user))
  }

  /** Who may hold the token of a container: a resume run past Cloud's transition, whether it knows or
      not; a rollback still in flight; or the row. */
  datatype Holder = RunHolder(r: nat) | FlightHolder(k: nat) | RowHolder

  predicate Holds(w: World, id: ContainerId, h: Holder) {
    match h
    case RunHolder(r) => r < |w.runs| && (PastTransition(w.runs[r], id) || Stranded(w, id, r))
    case FlightHolder(k) =>
      && k < |w.late| && !w.late[k].landed && w.late[k].call == HibernateRow(id)
      && w.late[k].run < |w.runs| && w.runs[w.late[k].run].saga.Resume?
    case RowHolder => Exists(w.core, id) && w.core.rows[id].value.status == Hibernated
  }

  /** A hibernation of this container that is not the rollback of a resume: the reaper's, a hibernate
      run's, or the late effect of one. */
  predicate HibernatesFromOutside(w: World, l: Label, id: ContainerId) {
    match l
    case Reap(c) => c == id
    case Act(r, _) => CanAct(w, r) && w.runs[r].pc.AtHibernate? && w.runs[r].id == id
    case Land(k, _) =>
      && CanLand(w, k) && w.late[k].call == HibernateRow(id)
      && !(w.late[k].run < |w.runs| && w.runs[w.late[k].run].saga.Resume?)
    case _ => false
  }

  ghost predicate ResumeInProgress(w: World, id: ContainerId) {
    exists h: Holder :: h != RowHolder && Holds(w, id, h)
  }

  /** No hibernation from outside overlaps a resume of this container. */
  ghost predicate Apart(capacity: map<Device, Demand>, ls: seq<Label>, id: ContainerId) {
    forall n {:trigger ls[n]} :: 0 <= n < |ls| ==>
      HibernatesFromOutside(Execute(capacity, ls[..n]), ls[n], id) ==> !ResumeInProgress(Execute(capacity, ls[..n]), id)
  }

  /** Where the token was before the step that brought it to `h`. */
  function Source(w: World, l: Label, h: Holder): Holder {
    match h
    case RunHolder(_) => RowHolder
    case FlightHolder(_) => if l.Act? then RunHolder(l.run) else h
    case RowHolder => if l.Act? then RunHolder(l.run) else if l.Land? then FlightHolder(l.k) else h
  }

  /** How a row can become HIBERNATED by a call. */
  lemma OnlyHibernationHibernates(core: Core, call: Call, pick: Pick, id: ContainerId)
    requires Tame(call)
    requires !(Exists(core, id) && core.rows[id].value.status == Hibernated)
    requires Exists(Perform(core, call, pick), id) && Perform(core, call, pick).rows[id].value.status == Hibernated
    ensures call == HibernateRow(id)
  {
  }

  lemma OnlyTheTransitionLeadsOn(run: Run, reply: Reply, id: ContainerId)
    requires PcFits(run) && !run.pc.Ended? && !PastTransition(run, id) && PastTransition(Continue(run, reply), id)
    ensures run.pc.AtTransition? && run.id == id && reply.Accepted?
  {
  }

  lemma TransitionTakesTheToken(core: Core, id: ContainerId, user: User, o: Outcome)
    requires Exchange(core, ResumeRow(id, user), o).reply.Accepted?
    ensures Exists(core, id) && core.rows[id].value.status == Hibernated
    ensures var core' := Exchange(core, ResumeRow(id, user), o).core;
            Exists(core', id) && core'.rows[id].value.status != Hibernated
  {
  }

  /** A resume that has not asked for the transition yet, or an instance that has not begun. */
  predicate Unasked(w: World, r: nat) {
    r < |w.runs| ==> w.runs[r].saga.Resume? && (w.runs[r].pc.AtLookup? || w.runs[r].pc.AtTransition?)
  }

  /** Nothing of an instance that has not asked for the transition has taken it or can still take it. */
  predicate NothingAsked(w: World, r: nat, user: User, id: ContainerId) {
    Unasked(w, r) ==>
      && !TookBy(w.trace, r, ResumeRow(id, user))
      && forall k :: 0 <= k < |w.late| && w.late[k].run == r ==> w.late[k].call != ResumeRow(id, user)
  }

  /** Only the lookup leads to the transition. */
  lemma UnaskedComesFromLookup(run: Run, reply: Reply)
    requires !run.pc.Ended? && run.saga.Resume?
    requires Continue(run, reply).pc.AtLookup? || Continue(run, reply).pc.AtTransition?
    ensures run.pc.AtLookup?
  {
  }

  lemma OwnStepStillUnasked(w: World, r: nat, o: Outcome, user: User, id: ContainerId)
    requires CanAct(w, r) && NothingAsked(w, r, user, id)
    ensures NothingAsked(DoAct(w, r, o), r, user, id)
  {
    var run, x, v := w.runs[r], Exchange(w.core, CallOf(w.runs[r]), o), DoAct(w, r, o);
    if Unasked(v, r) {
      UnaskedComesFromLookup(run, x.reply);
      TookAfterEvent(w.trace, Called(r, run.saga, GetRow(run.id, run.user), x.reply, x.took), r, ResumeRow(id, user));
    }
  }

  lemma LandStillUnasked(w: World, k: nat, pick: Pick, r: nat, user: User, id: ContainerId)
    requires CanLand(w, k) && NothingAsked(w, r, user, id)
    ensures NothingAsked(DoLand(w, k, pick), r, user, id)
  {
    var l := w.late[k];
    TookAfterEvent(w.trace, Landed(l.run, l.call, Accepts(w.core, l.call)), r, ResumeRow(id, user));
  }

  /** What an instance that has not moved leaves as it was. */
  lemma OthersStillUnasked(w: World, v: World, r: nat, user: User, id: ContainerId)
    requires NothingAsked(w, r, user, id) && LeavesAlone(w, v, r)
    requires |v.trace| > |w.trace| ==> !v.trace[|w.trace|].Landed?
    requires v.late == w.late || exists f: InFlight :: v.late == w.late + [f] && f.run != r
    ensures NothingAsked(v, r, user, id)
  {
    if v.trace != w.trace { TookAfterEvent(w.trace, v.trace[|w.trace|], r, ResumeRow(id, user)); }
  }

  lemma OthersFlights(w: World, l: Label, r: nat)
    requires !OwnStep(w, l, r) && !l.Land?
    ensures var v := Next(w, l);
            && (|v.trace| > |w.trace| ==> !v.trace[|w.trace|].Landed?)
            && (v.late == w.late || exists f: InFlight :: v.late == w.late + [f] && f.run != r)
  {
    var v := Next(w, l);
    if v.late != w.late {
      assert v.late == w.late + [v.late[|w.late|]];
    }
  }

  lemma StepStillUnasked(w: World, l: Label, r: nat, user: User, id: ContainerId)
    requires NothingAsked(w, r, user, id)
    ensures NothingAsked(Next(w, l), r, user, id)
  {
    if l.Act? && l.run == r && CanAct(w, r) {
      OwnStepStillUnasked(w, r, l.outcome, user, id);
    } else if l.Land? {
      if CanLand(w, l.k) { LandStillUnasked(w, l.k, l.pick, r, user, id); }
    } else if !OwnStep(w, l, r) {
      OthersLeaveAlone(w, l, r);
      OthersFlights(w, l, r);
      OthersStillUnasked(w, Next(w, l), r, user, id);
    }
  }

  lemma {:induction false} EveryNothingAsked(
      capacity: map<Device, Demand>, ls: seq<Label>, r: nat, user: User, id: ContainerId)
    ensures NothingAsked(Execute(capacity, ls), r, user, id)
    decreases |ls|
  {
    if ls != [] {
      EveryNothingAsked(capacity, ls[..|ls| - 1], r, user, id);
      StepStillUnasked(Execute(capacity, ls[..|ls| - 1]), ls[|ls| - 1], r, user, id);
    }
  }

  /** The instance whose call a step carries out. */
  function Mover(w: World, l: Label): Option<nat> {
    if l.Act? then Some(l.run)
    else if l.Land? && CanLand(w, l.k) then Some(w.late[l.k].run)
    else None
  }

  lemma OnlyLookupAndTransitionFallBack(run: Run, reply: Reply)
    requires run.saga.Resume? && !run.pc.Ended? && Continue(run, reply).pc.AtMarkFailed?
    ensures run.pc.AtLookup? || run.pc.AtTransition?
  {
  }

  /** By its own step a run gains the token only from the row, by Cloud's transition. */
  lemma RunGainsByActing(w: World, r: nat, o: Outcome, id: ContainerId)
    requires CanAct(w, r) && PcsFit(w) && NothingAsked(w, r, w.runs[r].user, id)
    requires !Holds(w, id, RunHolder(r)) && Holds(DoAct(w, r, o), id, RunHolder(r))
    ensures Holds(w, id, RowHolder) && !Holds(DoAct(w, r, o), id, RowHolder)
  {
    var run, v, x := w.runs[r], DoAct(w, r, o), Exchange(w.core, CallOf(w.runs[r]), o);
    if PastTransition(v.runs[r], id) {
      OnlyTheTransitionLeadsOn(run, x.reply, id);
      TransitionTakesTheToken(w.core, id, run.user, o);
    } else {
      OnlyLookupAndTransitionFallBack(run, x.reply);
      TookAfterEvent(w.trace, Called(r, run.saga, CallOf(run), x.reply, x.took), r, ResumeRow(id, run.user));
      assert x.took && CallOf(run) == ResumeRow(id, run.user);
    }
  }

  /** By a transition that lands late, a run that gave up on it gains the token from the row. */
  lemma RunGainsByLanding(w: World, k: nat, pick: Pick, id: ContainerId, r: nat)
    requires CanLand(w, k) && !Holds(w, id, RunHolder(r)) && Holds(DoLand(w, k, pick), id, RunHolder(r))
    ensures w.late[k].run == r && Holds(w, id, RowHolder) && !Holds(DoLand(w, k, pick), id, RowHolder)
  {
    var l, call := w.late[k], ResumeRow(id, w.runs[r].user);
    TookAfterEvent(w.trace, Landed(l.run, l.call, Accepts(w.core, l.call)), r, call);
    assert l.call == call && Accepts(w.core, call);
  }

  /** No other step gives a run the token. */
  lemma RunGainsNoOtherWay(w: World, v: World, id: ContainerId, r: nat)
    requires LeavesAlone(w, v, r) && !Holds(w, id, RunHolder(r))
    requires |v.trace| > |w.trace| ==> !v.trace[|w.trace|].Landed?
    ensures !Holds(v, id, RunHolder(r))
  {
    if r < |w.runs| && v.trace != w.trace {
      TookAfterEvent(w.trace, v.trace[|w.trace|], r, ResumeRow(id, w.runs[r].user));
    }
  }

  /** A run gains the token only by Cloud's transition, in time or late, which takes it from the row. */
  lemma RunGains(w: World, l: Label, id: ContainerId, r: nat)
    requires PcsFit(w) && (r < |w.runs| ==> NothingAsked(w, r, w.runs[r].user, id))
    requires !Holds(w, id, RunHolder(r)) && Holds(Next(w, l), id, RunHolder(r))
    ensures Mover(w, l) == Some(r) && Holds(w, id, RowHolder) && !Holds(Next(w, l), id, RowHolder)
  {
    if l.Act? && l.run == r && CanAct(w, r) {
      RunGainsByActing(w, r, l.outcome, id);
    } else if l.Land? && CanLand(w, l.k) {
      RunGainsByLanding(w, l.k, l.pick, id, r);
    } else if !OwnStep(w, l, r) {
      OthersLeaveAlone(w, l, r);
      RunGainsNoOtherWay(w, Next(w, l), id, r);
    }
  }

  /** A rollback in flight got its token from the run that gave up on it. */
  lemma FlightGains(w: World, l: Label, id: ContainerId, k: nat)
    requires PcsFit(w) && !Holds(w, id, FlightHolder(k)) && Holds(Next(w, l), id, FlightHolder(k))
    requires k < |w.late| ==> w.late[k].run < |w.runs|
    ensures l.Act? && Holds(w, id, RunHolder(l.run)) && !Holds(Next(w, l), id, RunHolder(l.run))
  {
    if k < |w.late| {
      RunsKeepTheirIdentity(w, l, w.late[k].run);
    } else {
      assert l.Act? && CanAct(w, l.run);
      RunsKeepTheirIdentity(w, l, l.run);
    }
  }

  lemma RowGainsByActing(w: World, r: nat, o: Outcome, id: ContainerId)
    requires CanAct(w, r) && PcFits(w.runs[r]) && Tame(CallOf(w.runs[r]))
    requires !Holds(w, id, RowHolder) && Holds(DoAct(w, r, o), id, RowHolder)
    ensures w.runs[r].id == id && (w.runs[r].pc.AtHibernate? || w.runs[r].pc.AtRollback?)
    ensures w.runs[r].pc.AtRollback? ==>
              Holds(w, id, RunHolder(r)) && !Holds(DoAct(w, r, o), id, RunHolder(r))
  {
    if !o.Refused? { OnlyHibernationHibernates(w.core, CallOf(w.runs[r]), o.pick, id); }
  }

  lemma TameCall(run: Run)
    requires TameSaga(run.saga) && !run.pc.Ended?
    ensures Tame(CallOf(run))
  {
  }

  lemma RowGainsByLanding(w: World, k: nat, pick: Pick, id: ContainerId)
    requires CanLand(w, k) && Tame(w.late[k].call)
    requires !Holds(w, id, RowHolder) && Holds(DoLand(w, k, pick), id, RowHolder)
    ensures w.late[k].call == HibernateRow(id) && !Holds(DoLand(w, k, pick), id, FlightHolder(k))
  {
    OnlyHibernationHibernates(w.core, w.late[k].call, pick, id);
  }

  /** The row becomes HIBERNATED by a rollback, whose token it takes, or by an outside hibernation. */
  lemma RowGains(w: World, l: Label, id: ContainerId)
    requires PcsFit(w) && TameWorld(w) && !Holds(w, id, RowHolder) && Holds(Next(w, l), id, RowHolder)
    ensures HibernatesFromOutside(w, l, id)
            || (Holds(w, id, Source(w, l, RowHolder)) && !Holds(Next(w, l), id, Source(w, l, RowHolder)))
  {
    match l
    case Act(r, o) =>
      if CanAct(w, r) {
        TameCall(w.runs[r]);
        RowGainsByActing(w, r, o, id);
      }
    case Land(k, pick) => if CanLand(w, k) { RowGainsByLanding(w, k, pick, id); }
    case Reap(c) => OnlyHibernationHibernates(w.core, HibernateRow(c), Pick(0, 0), id);
    case _ =>
  }

  /** What the step that gives holder h the token needs to know of w. */
  predicate Known(w: World, id: ContainerId, h: Holder) {
    match h
    case RunHolder(r) => r < |w.runs| ==> NothingAsked(w, r, w.runs[r].user, id)
    case FlightHolder(k) => k < |w.late| ==> w.late[k].run < |w.runs|
    case RowHolder => true
  }

  /** A gained token left its source, unless it came from outside. */
  lemma Gains(w: World, l: Label, id: ContainerId, h: Holder)
    requires PcsFit(w) && TameWorld(w) && Known(w, id, h) && !Holds(w, id, h) && Holds(Next(w, l), id, h)
    ensures (h == RowHolder && HibernatesFromOutside(w, l, id))
            || (Holds(w, id, Source(w, l, h)) && !Holds(Next(w, l), id, Source(w, l, h)))
    ensures h.RunHolder? ==> Mover(w, l) == Some(h.r)
  {
    match h
    case RunHolder(r) => RunGains(w, l, id, r);
    case FlightHolder(k) => FlightGains(w, l, id, k);
    case RowHolder => RowGains(w, l, id);
  }

  /** Two different runs or flights cannot both gain the token in one step. */
  lemma OneGain(w: World, l: Label, id: ContainerId, h: Holder, h': Holder)
    requires PcsFit(w) && TameWorld(w) && Known(w, id, h) && Known(w, id, h')
    requires !Holds(w, id, h) && Holds(Next(w, l), id, h)
    requires !Holds(w, id, h') && Holds(Next(w, l), id, h')
    ensures h == h'
  {
    Gains(w, l, id, h);
    Gains(w, l, id, h');
  }

  lemma EveryKnown(capacity: map<Device, Demand>, ls: seq<Label>, id: ContainerId, h: Holder)
    ensures Known(Execute(capacity, ls), id, h)
  {
    var w := Execute(capacity, ls);
    match h
    case RunHolder(r) => if r < |w.runs| { EveryNothingAsked(capacity, ls, r, w.runs[r].user, id); }
    case FlightHolder(k) => EveryFlightConfined(capacity, ls, k);
    case RowHolder =>
  }

  /** Apart before the last step, too. */
  lemma ApartBefore(capacity: map<Device, Demand>, ls: seq<Label>, id: ContainerId)
    requires ls != [] && Apart(capacity, ls, id)
    ensures Apart(capacity, ls[..|ls| - 1], id)
  {
    var ps := ls[..|ls| - 1];
    forall n | 0 <= n < |ps| && HibernatesFromOutside(Execute(capacity, ps[..n]), ps[n], id)
      ensures !ResumeInProgress(Execute(capacity, ps[..n]), id)
    {
      assert ps[..n] == ls[..n] && ps[n] == ls[n];
    }
  }

  /** Main result: in every state of a run of the system in which no outside hibernation overlaps a
      resume of this container, the token has at most one holder: at most one resume run is past
      Cloud's transition and unfinished, whatever is refused, lost, undecodable, rolled back, at the
      FAILED fallback, or late. */
  lemma {:induction false} AtMostOneResume(
      capacity: map<Device, Demand>, ls: seq<Label>, id: ContainerId, h: Holder, h': Holder)
    requires TameLabels(ls) && Apart(capacity, ls, id)
    requires Holds(Execute(capacity, ls), id, h) && Holds(Execute(capacity, ls), id, h')
    ensures h == h'
    decreases |ls|
  {
    if ls != [] {
      var ps, l := ls[..|ls| - 1], ls[|ls| - 1];
      var w := Execute(capacity, ps);
      EveryPcFits(capacity, ps);
      SoundAndTame(capacity, ps);
      EveryKnown(capacity, ps, id, h);
      EveryKnown(capacity, ps, id, h');
      ApartBefore(capacity, ls, id);
      if Holds(w, id, h) && Holds(w, id, h') {
        AtMostOneResume(capacity, ps, id, h, h');
      } else if !Holds(w, id, h) && !Holds(w, id, h') {
        OneGain(w, l, id, h, h');
      } else {
        var new_, kept := if Holds(w, id, h) then h' else h, if Holds(w, id, h) then h else h';
        Gains(w, l, id, new_);
        if HibernatesFromOutside(w, l, id) && new_ == RowHolder {
          assert false;  // the token would be in progress during an outside hibernation
        } else {
          AtMostOneResume(capacity, ps, id, Source(w, l, new_), kept);
        }
      }
    }
  }

  // The hypothesis is needed: from any state in which a resume is possible, one overlapping
  // hibernation lets a second resume in beside the first.

  /** The row is the user's, hibernated, holds nothing, and its device has room. */
  predicate Resumable(core: Core, user: User, id: ContainerId) {
    && Accepts(core, ResumeRow(id, user))
    && core.rows[id].value.hold.None?
  }

  /** A resume that is served up to and including Cloud's transition. */
  function AfterResume(w: World, user: User, id: ContainerId): World {
    var r := |w.runs|;
    Next(Next(Next(w, Begin(user, id, Resume)), Act(r, SERVED)), Act(r, SERVED))
  }

  lemma ResumeGoesThrough(w: World, user: User, id: ContainerId)
    requires Resumable(w.core, user, id)
    ensures var v, r := AfterResume(w, user, id), |w.runs|;
            && |v.runs| == r + 1 && v.runs[..r] == w.runs && PastTransition(v.runs[r], id)
            && v.core == Perform(w.core, ResumeRow(id, user), Pick(0, 0))
  {
    var r := |w.runs|;
    var w1 := Next(w, Begin(user, id, Resume));
    var w2 := Next(w1, Act(r, SERVED));
    assert w1.core == w.core && w1.runs[r] == Start(user, id, Resume);
    assert w2.core == w.core && w2.runs[r].pc.AtTransition? && w2.runs[r].id == id && w2.runs[r].user == user;
    assert w2.runs[..r] == w.runs;
  }

  lemma ReapUndoesTransition(core: Core, user: User, id: ContainerId, d: Device)
    requires Resumable(core, user, id)
    ensures var core' := Perform(Perform(core, ResumeRow(id, user), Pick(0, 0)), HibernateRow(id), Pick(0, 0));
            && core'.rows == core.rows && UsedOn(core', d) == UsedOn(core, d)
            && core'.active == core.active && core'.capacity == core.capacity
  {
    var core' := Perform(Perform(core, ResumeRow(id, user), Pick(0, 0)), HibernateRow(id), Pick(0, 0));
    assert core'.rows[id] == core.rows[id];
  }

  /** The transition's answer depends only on the row, the user's device and its books. */
  lemma SameBooksSameAnswer(a: Core, b: Core, user: User, id: ContainerId)
    requires Resumable(a, user, id) && b.rows == a.rows && b.active == a.active && b.capacity == a.capacity
    requires UsedOn(b, a.active[user]) == UsedOn(a, a.active[user])
    ensures Resumable(b, user, id)
  {
  }

  lemma RoomAfterReap(core: Core, user: User, id: ContainerId)
    requires Resumable(core, user, id)
    ensures Resumable(Perform(Perform(core, ResumeRow(id, user), Pick(0, 0)), HibernateRow(id), Pick(0, 0)), user, id)
  {
    ReapUndoesTransition(core, user, id, core.active[user]);
    var resumed := Perform(core, ResumeRow(id, user), Pick(0, 0));
    SameBooksSameAnswer(core, Perform(resumed, HibernateRow(id), Pick(0, 0)), user, id);
  }

  lemma ReapChangesOnlyCloud(w: World, id: ContainerId)
    ensures Next(w, Reap(id)).core == Perform(w.core, HibernateRow(id), Pick(0, 0)) && Next(w, Reap(id)).runs == w.runs
  {
  }

  lemma ReapedInBetween(w: World, user: User, id: ContainerId)
    requires Resumable(w.core, user, id)
    ensures var v := Next(AfterResume(w, user, id), Reap(id));
            Resumable(v.core, user, id) && |v.runs| == |w.runs| + 1 && PastTransition(v.runs[|w.runs|], id)
  {
    ResumeGoesThrough(w, user, id);
    ReapChangesOnlyCloud(AfterResume(w, user, id), id);
    RoomAfterReap(w.core, user, id);
  }

  /** One overlapping hibernation is enough for two runs to be past the transition at once. */
  lemma OverlapLetsTwoIn(w: World, user: User, id: ContainerId)
    requires Resumable(w.core, user, id)
    ensures var v := AfterResume(Next(AfterResume(w, user, id), Reap(id)), user, id);
            && Holds(v, id, RunHolder(|w.runs|)) && Holds(v, id, RunHolder(|w.runs| + 1))
  {
    var w2 := Next(AfterResume(w, user, id), Reap(id));
    ReapedInBetween(w, user, id);
    ResumeGoesThrough(w2, user, id);
    RunStillHolds(w2, AfterResume(w2, user, id), id, |w.runs|);
  }

  lemma RunStillHolds(w: World, v: World, id: ContainerId, r: nat)
    requires r < |w.runs| <= |v.runs| && PastTransition(w.runs[r], id) && v.runs[..|w.runs|] == w.runs
    ensures Holds(v, id, RunHolder(r))
  {
    assert v.runs[r] == v.runs[..|w.runs|][r];
  }
}
