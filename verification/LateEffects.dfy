/** A resume that nothing overlaps but its own lost calls, which may take effect late, also long after it
    has answered: whether the reservation is held depends only on which of its two Cloud transitions took
    effect. */
module LateEffects {
  import opened Prelude
  import opened Platform
  import opened Sagas
  import opened Interleaving
  import opened ResumeExit

  /** Only instance r steps, and calls it gave up on land. */
  predicate OwnOrLate(rest: seq<Label>, r: nat, k0: nat) {
    forall n :: 0 <= n < |rest| ==> IsOwnOrLate(rest[n], r, k0)
  }

  predicate IsOwnOrLate(l: Label, r: nat, k0: nat) {
    (l.Act? && l.run == r) || (l.Land? && l.k >= k0)
  }

  /** What the devices have given out once the transition (t) and the rollback (b) have taken effect. */
  function Ledger(a: Core, user: User, id: ContainerId, t: bool, b: bool): map<Device, Usage> {
    if !t || !Accepts(a, ResumeRow(id, user)) then a.used
    else
      var resumed := Transitioned(a, id, user);
      if b then Release(resumed, resumed.rows[id].value.hold).used else resumed.used
  }

  function HeldBy(a: Core, user: User, id: ContainerId, t: bool, b: bool): Option<Hold>
    requires Exists(a, id)
  {
    if b then None
    else if t && user in a.active then Some(Hold(a.active[user], a.rows[id].value.demand))
    else a.rows[id].value.hold
  }

  /** The row as far as its reservation goes; before the transition its status can only have become FAILED. */
  predicate RowFits(a: Core, c: Core, user: User, id: ContainerId, t: bool, b: bool) {
    && (Exists(c, id) <==> Exists(a, id))
    && (Exists(a, id) ==>
          var was, row := a.rows[id].value, c.rows[id].value;
          && row.owner == was.owner && row.demand == was.demand && row.hold == HeldBy(a, user, id, t, b)
          && (!t ==> row.status in {was.status, Failed}))
  }

  /** The books of c are those of a after the transition (t) and the rollback (b). */
  predicate Books(a: Core, c: Core, user: User, id: ContainerId, t: bool, b: bool) {
    && (t ==> Accepts(a, ResumeRow(id, user))) && (b ==> t)
    && |c.rows| == |a.rows| && c.active == a.active && c.capacity == a.capacity
    && c.used == Ledger(a, user, id, t, b)
    && (forall j {:trigger c.rows[j]} :: 0 <= j < |a.rows| && j != id ==> c.rows[j] == a.rows[j])
    && RowFits(a, c, user, id, t, b)
  }

  /** The calls of a resume that change nothing but fields of the row and pods; `t` tells whether the
      transition has taken effect. */
  predicate Minor(call: Call, user: User, id: ContainerId, t: bool) {
    match call
    case GetRow(_, _) => true
    case ReadImage => true
    case StartPod(_, _) => true
    case UpdateRow(c, body) =>
      && c == id && body.userId == Some(user) && body.limits.None?
      && (!t ==> body.status in {None, Some(Status.Failed)})
    case _ => false
  }

  lemma MinorKeepsBooks(a: Core, c: Core, user: User, id: ContainerId, t: bool, b: bool, call: Call, pick: Pick)
    requires Books(a, c, user, id, t, b) && Minor(call, user, id, t)
    ensures Books(a, Perform(c, call, pick), user, id, t, b)
  {
  }

  lemma TransitionTakes(a: Core, c: Core, user: User, id: ContainerId, pick: Pick)
    requires Books(a, c, user, id, false, false) && Accepts(c, ResumeRow(id, user))
    ensures Books(a, Perform(c, ResumeRow(id, user), pick), user, id, true, false)
  {
  }

  lemma RollbackTakes(a: Core, c: Core, user: User, id: ContainerId, pick: Pick)
    requires Books(a, c, user, id, true, false)
    ensures Accepts(c, HibernateRow(id))
    ensures Books(a, Perform(c, HibernateRow(id), pick), user, id, true, true)
  {
  }

  function Transition(v: World, r: nat): bool
    requires r < |v.runs|
  {
    TookBy(v.trace, r, ResumeRow(v.runs[r].id, v.runs[r].user))
  }

  function Rollback(v: World, r: nat): bool
    requires r < |v.runs|
  {
    TookBy(v.trace, r, HibernateRow(v.runs[r].id))
  }

  /** This call is still in flight. */
  predicate Flying(v: World, k: nat, k0: nat, call: Call) {
    k0 <= k < |v.late| && !v.late[k].landed && v.late[k].call == call
  }

  /** A call in flight: a minor one, a transition that has not taken effect, or a rollback between the
      two. */
  predicate FlightFits(f: InFlight, r: nat, user: User, id: ContainerId, t: bool, b: bool) {
    !f.landed ==>
      && f.run == r
      && (Minor(f.call, user, id, t)
          || (f.call == ResumeRow(id, user) && !t)
          || (f.call == HibernateRow(id) && t && !b))
  }

  ghost predicate AtMostOneFlying(v: World, k0: nat, call: Call) {
    forall j: nat, k: nat :: Flying(v, j, k0, call) && Flying(v, k, k0, call) ==> j == k
  }

  ghost predicate NoneFlying(v: World, k0: nat, call: Call) {
    forall k: nat :: !Flying(v, k, k0, call)
  }

  ghost predicate Flights(v: World, r: nat, k0: nat) {
    && r < |v.runs| && k0 <= |v.late|
    && var user, id := v.runs[r].user, v.runs[r].id;
       && (forall k {:trigger v.late[k]} :: k0 <= k < |v.late| ==>
             FlightFits(v.late[k], r, user, id, Transition(v, r), Rollback(v, r)))
       && AtMostOneFlying(v, k0, ResumeRow(id, user)) && AtMostOneFlying(v, k0, HibernateRow(id))
  }

  /** What the stage of the resume says about its two transitions. */
  ghost predicate StageFits(v: World, r: nat, k0: nat) {
    && r < |v.runs|
    && var run := v.runs[r];
       && run.saga == Resume && (run.row.Some? ==> run.row.value.owner == run.user)
       && (match run.pc {
             case AtLookup => !Transition(v, r)
             case AtTransition => !Transition(v, r)
             case AtStamp => Transition(v, r) && !Rollback(v, r)
             case AtImage => Transition(v, r) && !Rollback(v, r)
             case AtStartPod => Transition(v, r) && !Rollback(v, r)
             case AtSync(_) => Transition(v, r) && !Rollback(v, r)
             case AtRollback(_) => Transition(v, r) && !Rollback(v, r)
             case AtMarkFailed(_) => true
             case Ended(_) => true
             case _ => false
           })
       && (run.pc.AtLookup? || run.pc.AtTransition? ==> NoneFlying(v, k0, ResumeRow(run.id, run.user)))
       && (!run.pc.Ended? ==> NoneFlying(v, k0, HibernateRow(run.id)))
  }

  ghost predicate Inv(a: Core, v: World, r: nat, k0: nat) {
    && StageFits(v, r, k0) && Flights(v, r, k0)
    && Books(a, v.core, v.runs[r].user, v.runs[r].id, Transition(v, r), Rollback(v, r))
  }

  lemma CallTook(v: World, r: nat, o: Outcome)
    requires CanAct(v, r)
    ensures var run, x, v' := v.runs[r], Exchange(v.core, CallOf(v.runs[r]), o), DoAct(v, r, o);
            && v'.core == x.core
            && (Transition(v', r) <==> Transition(v, r) || (x.took && CallOf(run) == ResumeRow(run.id, run.user)))
            && (Rollback(v', r) <==> Rollback(v, r) || (x.took && CallOf(run) == HibernateRow(run.id)))
  {
    var run, x := v.runs[r], Exchange(v.core, CallOf(v.runs[r]), o);
    var e := Called(r, run.saga, CallOf(run), x.reply, x.took);
    TookAfterEvent(v.trace, e, r, ResumeRow(run.id, run.user));
    TookAfterEvent(v.trace, e, r, HibernateRow(run.id));
  }

  lemma FlightTook(v: World, r: nat, k: nat, pick: Pick)
    requires r < |v.runs| && CanLand(v, k) && v.late[k].run == r
    ensures var run, call, v' := v.runs[r], v.late[k].call, DoLand(v, k, pick);
            && (Transition(v', r) <==>
                  Transition(v, r) || (Accepts(v.core, call) && call == ResumeRow(run.id, run.user)))
            && (Rollback(v', r) <==> Rollback(v, r) || (Accepts(v.core, call) && call == HibernateRow(run.id)))
  {
    var run := v.runs[r];
    var e := Landed(r, v.late[k].call, Accepts(v.core, v.late[k].call));
    TookAfterEvent(v.trace, e, r, ResumeRow(run.id, run.user));
    TookAfterEvent(v.trace, e, r, HibernateRow(run.id));
  }

  /** Every stage but two makes a minor call. */
  lemma CallsAreMinor(run: Run, t: bool)
    requires run.saga == Resume && !run.pc.Ended? && (run.pc.AtSync? ==> t)
    requires run.pc.AtLookup? || run.pc.AtStamp? || run.pc.AtImage? || run.pc.AtStartPod? || run.pc.AtSync?
             || run.pc.AtMarkFailed?
    ensures Minor(CallOf(run), run.user, run.id, t)
  {
  }

  lemma MinorStepBooks(a: Core, v: World, r: nat, k0: nat, o: Outcome)
    requires Inv(a, v, r, k0) && CanAct(v, r) && !v.runs[r].pc.AtTransition? && !v.runs[r].pc.AtRollback?
    ensures var v' := DoAct(v, r, o);
            && Transition(v', r) == Transition(v, r) && Rollback(v', r) == Rollback(v, r)
            && Minor(CallOf(v.runs[r]), v.runs[r].user, v.runs[r].id, Transition(v, r))
            && Books(a, v'.core, v.runs[r].user, v.runs[r].id, Transition(v', r), Rollback(v', r))
  {
    var run := v.runs[r];
    CallTook(v, r, o);
    CallsAreMinor(run, Transition(v, r));
    if !o.Refused? {
      MinorKeepsBooks(a, v.core, run.user, run.id, Transition(v, r), Rollback(v, r), CallOf(run), o.pick);
    }
  }

  /** The flights after a call of instance r; `added` is what it leaves in flight, if anything. */
  lemma FlightsAfterCall(v: World, v': World, r: nat, k0: nat, added: seq<InFlight>)
    requires Flights(v, r, k0) && r < |v'.runs| && |added| <= 1 && v'.late == v.late + added
    requires v'.runs[r].user == v.runs[r].user && v'.runs[r].id == v.runs[r].id
    requires forall k {:trigger v.late[k]} :: k0 <= k < |v.late| ==>
               FlightFits(v.late[k], r, v.runs[r].user, v.runs[r].id, Transition(v', r), Rollback(v', r))
    requires added != [] ==>
               && FlightFits(added[0], r, v.runs[r].user, v.runs[r].id, Transition(v', r), Rollback(v', r))
               && (added[0].call == ResumeRow(v.runs[r].id, v.runs[r].user) ==> NoneFlying(v, k0, added[0].call))
               && (added[0].call == HibernateRow(v.runs[r].id) ==> NoneFlying(v, k0, added[0].call))
    ensures Flights(v', r, k0)
    ensures forall call: Call :: (added == [] || added[0].call != call) && NoneFlying(v, k0, call) ==>
              NoneFlying(v', k0, call)
  {
    forall k: nat, call: Call
      ensures Flying(v', k, k0, call) <==>
                Flying(v, k, k0, call) || (k == |v.late| && added != [] && !added[0].landed && added[0].call == call)
    {
    }
    forall k | k0 <= k < |v'.late|
      ensures FlightFits(v'.late[k], r, v.runs[r].user, v.runs[r].id, Transition(v', r), Rollback(v', r))
    {
      if k < |v.late| { assert v'.late[k] == v.late[k]; }
    }
  }

  function Added(v: World, r: nat, o: Outcome): seq<InFlight>
    requires CanAct(v, r)
  {
    if StaysInFlight(o) then [InFlight(r, CallOf(v.runs[r]), false)] else []
  }

  lemma NextStage(run: Run, reply: Reply)
    requires run.saga == Resume && !run.pc.Ended? && !run.pc.AtTransition? && !run.pc.AtRollback?
    requires run.pc.AtLookup? || run.pc.AtStamp? || run.pc.AtImage? || run.pc.AtStartPod? || run.pc.AtSync?
             || run.pc.AtMarkFailed?
    ensures var pc := NextPc(run, reply);
            && (run.pc.AtLookup? ==> pc.AtTransition? || pc.AtMarkFailed? || pc.Ended?)
            && (run.pc.AtMarkFailed? ==> pc.Ended?)
            && (!run.pc.AtLookup? && !run.pc.AtMarkFailed? ==>
                  pc.AtImage? || pc.AtStartPod? || pc.AtSync? || pc.AtRollback? || pc.Ended?)
  {
  }

  lemma MinorStep(a: Core, v: World, r: nat, k0: nat, o: Outcome)
    requires Inv(a, v, r, k0) && CanAct(v, r) && !v.runs[r].pc.AtTransition? && !v.runs[r].pc.AtRollback?
    requires Continue(v.runs[r], Exchange(v.core, CallOf(v.runs[r]), o).reply).row.Some? ==>
               Continue(v.runs[r], Exchange(v.core, CallOf(v.runs[r]), o).reply).row.value.owner == v.runs[r].user
    ensures Inv(a, DoAct(v, r, o), r, k0)
  {
    var v' := DoAct(v, r, o);
    MinorStepBooks(a, v, r, k0, o);
    NextStage(v.runs[r], Exchange(v.core, CallOf(v.runs[r]), o).reply);
    FlightsAfterCall(v, v', r, k0, Added(v, r, o));
  }

  lemma RowReadIsOwn(core: Core, run: Run, o: Outcome)
    requires !run.pc.Ended? && (run.row.Some? ==> run.row.value.owner == run.user)
    ensures var run' := Continue(run, Exchange(core, CallOf(run), o).reply);
            run'.row.Some? ==> run'.row.value.owner == run.user
  {
  }

  lemma AfterTransitionStage(run: Run, reply: Reply)
    requires run.pc.AtTransition? && run.saga == Resume
    ensures var pc := NextPc(run, reply);
            (pc.AtStamp? && reply.Accepted?) || pc.AtMarkFailed? || pc.Ended?
  {
  }

  lemma TransitionStep(a: Core, v: World, r: nat, k0: nat, o: Outcome)
    requires Inv(a, v, r, k0) && CanAct(v, r) && v.runs[r].pc.AtTransition?
    ensures Inv(a, DoAct(v, r, o), r, k0)
  {
    var run, v' := v.runs[r], DoAct(v, r, o);
    CallTook(v, r, o);
    RowReadIsOwn(v.core, run, o);
    AfterTransitionStage(run, Exchange(v.core, CallOf(run), o).reply);
    if Transition(v', r) { TransitionTakes(a, v.core, run.user, run.id, o.pick); }
    forall k | k0 <= k < |v.late|
      ensures FlightFits(v.late[k], r, run.user, run.id, Transition(v', r), Rollback(v', r))
    {
      assert FlightFits(v.late[k], r, run.user, run.id, false, false);
      assert !Flying(v, k, k0, ResumeRow(run.id, run.user));
    }
    FlightsAfterCall(v, v', r, k0, Added(v, r, o));
  }

  lemma RollbackBooks(a: Core, v: World, r: nat, k0: nat, o: Outcome)
    requires Inv(a, v, r, k0) && CanAct(v, r) && v.runs[r].pc.AtRollback?
    ensures var v' := DoAct(v, r, o);
            && Transition(v', r)
            && Books(a, v'.core, v.runs[r].user, v.runs[r].id, Transition(v', r), Rollback(v', r))
            && (StaysInFlight(o) ==> !Rollback(v', r))
            && v'.runs[r].pc.Ended? && v'.runs[r] == v.runs[r].(pc := v'.runs[r].pc)
  {
    CallTook(v, r, o);
    RollbackTakes(a, v.core, v.runs[r].user, v.runs[r].id, if o.Refused? then Pick(0, 0) else o.pick);
  }

  lemma RollbackStep(a: Core, v: World, r: nat, k0: nat, o: Outcome)
    requires Inv(a, v, r, k0) && CanAct(v, r) && v.runs[r].pc.AtRollback?
    ensures Inv(a, DoAct(v, r, o), r, k0)
  {
    var run, v' := v.runs[r], DoAct(v, r, o);
    RollbackBooks(a, v, r, k0, o);
    forall k | k0 <= k < |v.late|
      ensures FlightFits(v.late[k], r, run.user, run.id, Transition(v', r), Rollback(v', r))
    {
      assert FlightFits(v.late[k], r, run.user, run.id, true, false);
      assert !Flying(v, k, k0, HibernateRow(run.id));
    }
    FlightsAfterCall(v, v', r, k0, Added(v, r, o));
  }

  lemma LandBooks(a: Core, v: World, r: nat, k0: nat, k: nat, pick: Pick)
    requires Inv(a, v, r, k0) && CanLand(v, k) && k >= k0
    ensures var v' := DoLand(v, k, pick);
            Books(a, v'.core, v.runs[r].user, v.runs[r].id, Transition(v', r), Rollback(v', r))
  {
    var run, call := v.runs[r], v.late[k].call;
    FlightTook(v, r, k, pick);
    if call == ResumeRow(run.id, run.user) {
      if Accepts(v.core, call) { TransitionTakes(a, v.core, run.user, run.id, pick); }
    } else if call == HibernateRow(run.id) {
      RollbackTakes(a, v.core, run.user, run.id, pick);
    } else {
      MinorKeepsBooks(a, v.core, run.user, run.id, Transition(v, r), Rollback(v, r), call, pick);
    }
  }

  lemma LandFlights(v: World, r: nat, k0: nat, k: nat, pick: Pick)
    requires Flights(v, r, k0) && CanLand(v, k) && k >= k0
    ensures Flights(DoLand(v, k, pick), r, k0)
    ensures forall call: Call :: NoneFlying(v, k0, call) ==> NoneFlying(DoLand(v, k, pick), k0, call)
  {
    var run, v', landing := v.runs[r], DoLand(v, k, pick), v.late[k].call;
    FlightTook(v, r, k, pick);
    forall j: nat, c: Call ensures Flying(v', j, k0, c) <==> Flying(v, j, k0, c) && j != k {
    }
    assert Flying(v, k, k0, landing);
    forall j | k0 <= j < |v'.late|
      ensures FlightFits(v'.late[j], r, run.user, run.id, Transition(v', r), Rollback(v', r))
    {
      if j != k && !v.late[j].landed {
        assert FlightFits(v.late[j], r, run.user, run.id, Transition(v, r), Rollback(v, r));
        assert Flying(v, j, k0, v.late[j].call);
      }
    }
  }

  lemma LandStep(a: Core, v: World, r: nat, k0: nat, k: nat, pick: Pick)
    requires Inv(a, v, r, k0) && CanLand(v, k) && k >= k0
    ensures Inv(a, DoLand(v, k, pick), r, k0)
  {
    LandBooks(a, v, r, k0, k, pick);
    LandFlights(v, r, k0, k, pick);
    FlightTook(v, r, k, pick);
    var run := v.runs[r];
    assert Flying(v, k, k0, v.late[k].call);
  }

  lemma ActStep(a: Core, v: World, r: nat, k0: nat, o: Outcome)
    requires Inv(a, v, r, k0) && CanAct(v, r)
    ensures Inv(a, DoAct(v, r, o), r, k0)
  {
    if v.runs[r].pc.AtTransition? {
      TransitionStep(a, v, r, k0, o);
    } else if v.runs[r].pc.AtRollback? {
      RollbackStep(a, v, r, k0, o);
    } else {
      RowReadIsOwn(v.core, v.runs[r], o);
      MinorStep(a, v, r, k0, o);
    }
  }

  lemma BeginInv(w: World, user: User, id: ContainerId)
    requires NothingYet(w, |w.runs|)
    ensures Inv(w.core, Next(w, Begin(user, id, Resume)), |w.runs|, |w.late|)
  {
    var v, r := Next(w, Begin(user, id, Resume)), |w.runs|;
    TookAfterEvent(w.trace, Other, r, ResumeRow(id, user));
    TookAfterEvent(w.trace, Other, r, HibernateRow(id));
    assert !TookBy(w.trace, r, ResumeRow(id, user)) && !TookBy(w.trace, r, HibernateRow(id));
  }

  /** No event of instance r has been recorded. */
  ghost predicate NothingYet(w: World, r: nat) {
    && (forall i :: 0 <= i < |w.trace| ==> !((w.trace[i].Called? || w.trace[i].Landed?) && w.trace[i].run == r))
    && forall call: Call :: !TookBy(w.trace, r, call)
  }

  lemma {:induction false} NothingTook(trace: seq<Event>, r: nat, call: Call)
    requires forall i :: 0 <= i < |trace| ==> !((trace[i].Called? || trace[i].Landed?) && trace[i].run == r)
    ensures !TookBy(trace, r, call)
  {
    if trace != [] { NothingTook(trace[..|trace| - 1], r, call); }
  }

  /** Every event and every flight is of an instance that has begun. */
  predicate OnlyBegun(w: World) {
    && (forall i :: 0 <= i < |w.trace| ==> w.trace[i].Called? || w.trace[i].Landed? ==> w.trace[i].run < |w.runs|)
    && (forall k :: 0 <= k < |w.late| ==> w.late[k].run < |w.runs|)
  }

  lemma StepOnlyBegun(w: World, l: Label)
    requires OnlyBegun(w)
    ensures OnlyBegun(Next(w, l))
  {
  }

  lemma {:induction false} EveryOnlyBegun(capacity: map<Device, Demand>, ls: seq<Label>)
    ensures OnlyBegun(Execute(capacity, ls))
    decreases |ls|
  {
    if ls != [] {
      EveryOnlyBegun(capacity, ls[..|ls| - 1]);
      StepOnlyBegun(Execute(capacity, ls[..|ls| - 1]), ls[|ls| - 1]);
    }
  }

  lemma {:induction false} EveryInv(w: World, user: User, id: ContainerId, rest: seq<Label>)
    requires NothingYet(w, |w.runs|) && OwnOrLate(rest, |w.runs|, |w.late|)
    ensures Inv(w.core, ExecuteFrom(Next(w, Begin(user, id, Resume)), rest), |w.runs|, |w.late|)
    ensures var v := ExecuteFrom(Next(w, Begin(user, id, Resume)), rest);
            v.runs[|w.runs|].user == user && v.runs[|w.runs|].id == id
    decreases |rest|
  {
    var r, k0 := |w.runs|, |w.late|;
    if rest == [] {
      BeginInv(w, user, id);
    } else {
      var before, l := rest[..|rest| - 1], rest[|rest| - 1];
      assert IsOwnOrLate(l, r, k0);
      forall n | 0 <= n < |before| ensures IsOwnOrLate(before[n], r, k0) { assert before[n] == rest[n]; }
      EveryInv(w, user, id, before);
      var v := ExecuteFrom(Next(w, Begin(user, id, Resume)), before);
      if l.Act? {
        if CanAct(v, r) { ActStep(w.core, v, r, k0, l.outcome); }
      } else if CanLand(v, l.k) {
        LandStep(w.core, v, r, k0, l.k, l.pick);
      }
    }
  }

  /** Between the transition and the rollback the row holds exactly the reservation Cloud made; otherwise
      every device has given out what it had given out before. A rollback never comes first. */
  ghost predicate Accounted(a: Core, c: Core, user: User, id: ContainerId, t: bool, b: bool) {
    && (b ==> t)
    && (t ==> Accepts(a, ResumeRow(id, user)) && Exists(c, id))
    && (t && !b ==>
          && c.rows[id].value.hold == Some(Hold(a.active[user], a.rows[id].value.demand))
          && c.used == Transitioned(a, id, user).used)
    && (t && b ==> c.rows[id].value.hold.None?)
    && (!t && Exists(a, id) ==> Exists(c, id) && c.rows[id].value.hold == a.rows[id].value.hold)
    && (!t || b ==> forall d: Device :: UsedOn(c, d) == UsedOn(a, d))
  }

  lemma BooksAccount(a: Core, c: Core, user: User, id: ContainerId, t: bool, b: bool)
    requires Books(a, c, user, id, t, b)
    ensures Accounted(a, c, user, id, t, b)
  {
  }

  lemma NothingYetToBegin(capacity: map<Device, Demand>, ls: seq<Label>)
    ensures NothingYet(Execute(capacity, ls), |Execute(capacity, ls).runs|)
  {
    var w := Execute(capacity, ls);
    EveryOnlyBegun(capacity, ls);
    forall call: Call ensures !TookBy(w.trace, |w.runs|, call) { NothingTook(w.trace, |w.runs|, call); }
  }

  /** Main result: from every reachable state, at every moment of a resume that only its own late calls
      overlap and ever after it, the reservation is held exactly if the transition has taken effect and
      the rollback has not, whichever of the two the resume knows of. */
  lemma ReservationFollowsTheTransitions(
      capacity: map<Device, Demand>, ls: seq<Label>, user: User, id: ContainerId, rest: seq<Label>)
    requires OwnOrLate(rest, |Execute(capacity, ls).runs|, |Execute(capacity, ls).late|)
    ensures var w, v := Execute(capacity, ls), Execute(capacity, ls + [Begin(user, id, Resume)] + rest);
            Accounted(w.core, v.core, user, id,
                      TookBy(v.trace, |w.runs|, ResumeRow(id, user)), TookBy(v.trace, |w.runs|, HibernateRow(id)))
  {
    var w := Execute(capacity, ls);
    NothingYetToBegin(capacity, ls);
    EveryInv(w, user, id, rest);
    ExecuteExtends(capacity, ls, Begin(user, id, Resume));
    ExecuteSplits(capacity, ls + [Begin(user, id, Resume)], rest);
    var v := Execute(capacity, ls + [Begin(user, id, Resume)] + rest);
    BooksAccount(w.core, v.core, user, id, Transition(v, |w.runs|), Rollback(v, |w.runs|));
  }
}
