/** Tenancy over whole runs: whatever else happens meanwhile, a handler instance of session user u
    for container id c only ever changes the row c, only if u owns it, and pods of u's namespace. */
module TenantFrame {
  import opened Prelude
  import opened Platform
  import opened Sagas
  import opened Interleaving

  /** Rows are only appended, keep their owner, and once deleted stay deleted. */
  ghost predicate Evolves(a: Core, b: Core) {
    && |a.rows| <= |b.rows|
    && forall j {:trigger a.rows[j]} {:trigger b.rows[j]} :: 0 <= j < |a.rows| && b.rows[j].Some? ==>
         a.rows[j].Some? && a.rows[j].value.owner == b.rows[j].value.owner
  }

  lemma PerformEvolves(core: Core, call: Call, pick: Pick)
    ensures Evolves(core, Perform(core, call, pick))
  {
  }

  lemma {:induction false} StepEvolves(w: World, l: Label)
    ensures Evolves(w.core, Next(w, l).core)
  {
    match l
    case Act(r, o) =>
      if CanAct(w, r) && !o.Refused? { PerformEvolves(w.core, CallOf(w.runs[r]), o.pick); }
    case Land(k, pick) =>
      if CanLand(w, k) { PerformEvolves(w.core, w.late[k].call, pick); }
    case Reap(id) => PerformEvolves(w.core, HibernateRow(id), Pick(0, 0));
    case _ =>
  }

  /** The id names a row of this user's, still there or deleted since. */
  predicate Mine(core: Core, user: User, id: ContainerId) {
    id < |core.rows| && (core.rows[id].Some? ==> core.rows[id].value.owner == user)
  }

  /** Calls that stay inside the tenant: every one carries the user, except Cloud's hibernate, which
      is safe only because the id is known to be the user's. */
  predicate Scoped(core: Core, user: User, id: ContainerId, call: Call) {
    match call
    case CreateRow(u, _) => u == user
    case GetRow(_, _) => true
    case UpdateRow(c, body) => c == id && body.userId == Some(user)
    case DeleteRow(c, u) => c == id && u == user
    case ResumeRow(c, u) => c == id && u == user
    case HibernateRow(c) => c == id && Mine(core, user, id)
    case ReadImage => true
    case StartPod(ns, c) => ns == user && c == id
    case DeletePods(ns, c) => ns == user && c == id
    case TakeSnapshot(ns, c) => ns == user && c == id
  }

  /** What changes between two states belongs to the user: at most the row `id`, owned by the user
      before and after, rows appended for the user, and pods of the user's namespace for `id`. */
  ghost predicate OnlyTouches(a: Core, b: Core, user: User, id: ContainerId) {
    && |a.rows| <= |b.rows|
    && (forall j {:trigger b.rows[j]} :: 0 <= j < |a.rows| && a.rows[j] != b.rows[j] ==>
          && j == id
          && a.rows[j].Some? && a.rows[j].value.owner == user
          && (b.rows[j].Some? ==> b.rows[j].value.owner == user))
    && (forall j {:trigger b.rows[j]} :: |a.rows| <= j < |b.rows| ==> b.rows[j].Some? && b.rows[j].value.owner == user)
    && (forall p {:trigger p in a.pods} {:trigger p in b.pods} :: (p in a.pods) != (p in b.pods) ==>
          p.ns == user && p.container == id)
  }

  lemma ScopedCallOnlyTouches(core: Core, user: User, id: ContainerId, call: Call, pick: Pick)
    requires Scoped(core, user, id, call)
    ensures OnlyTouches(core, Perform(core, call, pick), user, id)
  {
  }

  /** The instance has read its row only if the row is its user's; the stages that use Cloud's
      unscoped hibernate or the row's own namespace come after that read. */
  predicate InstanceConfined(w: World, r: nat) {
    r < |w.runs| ==>
      var run := w.runs[r];
      && (run.row.Some? ==> run.row.value.owner == run.user && Mine(w.core, run.user, run.id))
      && (run.row.None? ==> !PastLookup(run))
  }

  predicate PastLookup(run: Run) {
    match run.pc
    case AtRollback(_) => true
    case AtHibernate => true
    case AtTransition => true
    case AtStamp => true
    case AtImage => true
    case AtStartPod => true
    case AtSync(_) => true
    case AtPendingWrite => true
    case AtSnapshot => true
    case AtPoll => true
    case AtDeletePods => run.saga.Hibernate?
    case _ => false
  }

  lemma MineStays(a: Core, b: Core, user: User, id: ContainerId)
    requires Mine(a, user, id) && Evolves(a, b)
    ensures Mine(b, user, id)
  {
    if b.rows[id].Some? { assert a.rows[id].Some?; }
  }

  /** Reading a row through the ownership lookup yields the user's own row. */
  lemma LookupReadsOwnRow(w: World, r: nat, o: Outcome)
    requires InstanceConfined(w, r) && CanAct(w, r) && w.runs[r].pc.AtLookup?
    ensures var run := Continue(w.runs[r], Exchange(w.core, CallOf(w.runs[r]), o).reply);
            && (run.row.Some? ==> run.row.value.owner == run.user && Mine(w.core, run.user, run.id))
            && (run.row.None? ==> !PastLookup(run))
  {
  }

  lemma InstanceStaysConfined(w: World, l: Label, r: nat)
    requires InstanceConfined(w, r)
    ensures InstanceConfined(Next(w, l), r)
  {
    StepEvolves(w, l);
    if r < |w.runs| {
      var run, v := w.runs[r], Next(w, l);
      if run.row.Some? { MineStays(w.core, v.core, run.user, run.id); }
      if l.Act? && l.run == r && CanAct(w, r) && run.pc.AtLookup? { LookupReadsOwnRow(w, r, l.outcome); }
    }
  }

  lemma {:induction false} EveryInstanceConfined(capacity: map<Device, Demand>, ls: seq<Label>, r: nat)
    ensures InstanceConfined(Execute(capacity, ls), r)
    decreases |ls|
  {
    if ls != [] {
      EveryInstanceConfined(capacity, ls[..|ls| - 1], r);
      InstanceStaysConfined(Execute(capacity, ls[..|ls| - 1]), ls[|ls| - 1], r);
    }
  }

  lemma ConfinedCallIsScoped(w: World, r: nat)
    requires InstanceConfined(w, r) && CanAct(w, r)
    ensures Scoped(w.core, w.runs[r].user, w.runs[r].id, CallOf(w.runs[r]))
  {
  }

  /** A call in flight stays as scoped as it was when its caller gave up on it. */
  predicate FlightConfined(w: World, k: nat) {
    k < |w.late| ==>
      && w.late[k].run < |w.runs|
      && Scoped(w.core, w.runs[w.late[k].run].user, w.runs[w.late[k].run].id, w.late[k].call)
  }

  lemma ScopedStays(a: Core, b: Core, user: User, id: ContainerId, call: Call)
    requires Evolves(a, b) && Scoped(a, user, id, call)
    ensures Scoped(b, user, id, call)
  {
    if call.HibernateRow? { MineStays(a, b, user, id); }
  }

  lemma RunsKeepTheirIdentity(w: World, l: Label, r: nat)
    requires r < |w.runs|
    ensures r < |Next(w, l).runs|
    ensures Next(w, l).runs[r].user == w.runs[r].user && Next(w, l).runs[r].id == w.runs[r].id
    ensures Next(w, l).runs[r].saga == w.runs[r].saga
  {
  }

  lemma {:induction false} EveryFlightConfined(capacity: map<Device, Demand>, ls: seq<Label>, k: nat)
    ensures FlightConfined(Execute(capacity, ls), k)
    decreases |ls|
  {
    if ls != [] {
      var w, l := Execute(capacity, ls[..|ls| - 1]), ls[|ls| - 1];
      EveryFlightConfined(capacity, ls[..|ls| - 1], k);
      StepEvolves(w, l);
      if k < |w.late| {
        var r := w.late[k].run;
        RunsKeepTheirIdentity(w, l, r);
        ScopedStays(w.core, Next(w, l).core, w.runs[r].user, w.runs[r].id, w.late[k].call);
      } else if l.Act? && CanAct(w, l.run) {
        EveryInstanceConfined(capacity, ls[..|ls| - 1], l.run);
        ConfinedCallIsScoped(w, l.run);
        RunsKeepTheirIdentity(w, l, l.run);
        ScopedStays(w.core, Next(w, l).core, w.runs[l.run].user, w.runs[l.run].id, CallOf(w.runs[l.run]));
      }
    }
  }

  /** Main result: in every reachable state, every step of a handler instance, and every late effect
      of a call it gave up on, touches only its own user's row and pods. */
  lemma {:induction false} InstancesTouchOnlyTheirTenant(capacity: map<Device, Demand>, ls: seq<Label>, l: Label)
    ensures var w := Execute(capacity, ls);
            && (l.Act? && CanAct(w, l.run) ==>
                  OnlyTouches(w.core, Next(w, l).core, w.runs[l.run].user, w.runs[l.run].id))
            && (l.Land? && CanLand(w, l.k) ==>
                  && w.late[l.k].run < |w.runs|
                  && OnlyTouches(w.core, Next(w, l).core, w.runs[w.late[l.k].run].user, w.runs[w.late[l.k].run].id))
  {
    var w := Execute(capacity, ls);
    if l.Act? && CanAct(w, l.run) {
      EveryInstanceConfined(capacity, ls, l.run);
      ConfinedCallIsScoped(w, l.run);
      var run := w.runs[l.run];
      if !l.outcome.Refused? { ScopedCallOnlyTouches(w.core, run.user, run.id, CallOf(run), l.outcome.pick); }
    } else if l.Land? && CanLand(w, l.k) {
      EveryFlightConfined(capacity, ls, l.k);
      var run := w.runs[w.late[l.k].run];
      ScopedCallOnlyTouches(w.core, run.user, run.id, w.late[l.k].call, l.pick);
    }
  }
}
