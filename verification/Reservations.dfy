/** Reservation accounting: under any interleaving of the sagas, with refusals, lost replies and late
    effects, what a device has given out is the sum of what the rows hold on it. */
module Reservations {
  import opened Prelude
  import opened Platform
  import opened Sagas
  import opened Interleaving

  function Share(slot: Option<Row>, d: Device, k: Kind): int {
    if slot.Some? && slot.value.hold.Some? && slot.value.hold.value.device == d then slot.value.hold.value.demand.Of(k)
    else 0
  }

  /** Everything the rows hold on device d, of one kind of resource. */
  function HeldOn(rows: seq<Option<Row>>, d: Device, k: Kind): int {
    if rows == [] then 0
    else HeldOn(rows[..|rows| - 1], d, k) + Share(rows[|rows| - 1], d, k)
  }

  lemma {:induction false} HeldAfterPut(rows: seq<Option<Row>>, id: nat, slot: Option<Row>, d: Device, k: Kind)
    requires id < |rows|
    ensures HeldOn(rows[id := slot], d, k) == HeldOn(rows, d, k) - Share(rows[id], d, k) + Share(slot, d, k)
    decreases |rows|
  {
    var n := |rows| - 1;
    if id == n {
      assert rows[id := slot][..n] == rows[..n];
    } else {
      assert rows[id := slot][..n] == rows[..n][id := slot];
      HeldAfterPut(rows[..n], id, slot, d, k);
    }
  }

  lemma HeldAfterAppend(rows: seq<Option<Row>>, slot: Option<Row>, d: Device, k: Kind)
    ensures HeldOn(rows + [slot], d, k) == HeldOn(rows, d, k) + Share(slot, d, k)
  {
    assert (rows + [slot])[..|rows|] == rows;
  }

  /** Every RESUMING row holds a reservation and no HIBERNATED row does. */
  predicate StatusAgrees(slot: Option<Row>) {
    slot.Some? ==>
      && (slot.value.status == Resuming ==> slot.value.hold.Some?)
      && (slot.value.status == Hibernated ==> slot.value.hold.None?)
  }

  ghost predicate Balanced(core: Core) {
    forall d: Device, k: Kind :: UsedOn(core, d).Of(k) == HeldOn(core.rows, d, k)
  }

  ghost predicate WithinCapacity(core: Core) {
    forall d: Device :: d in core.capacity ==> UsedOn(core, d).AtMost(core.capacity[d])
  }

  ghost predicate Sound(core: Core) {
    && Balanced(core)
    && WithinCapacity(core)
    && forall j {:trigger core.rows[j]} :: 0 <= j < |core.rows| ==> StatusAgrees(core.rows[j])
  }

  /** Only Cloud's own transitions write RESUMING and HIBERNATED. */
  predicate Tame(call: Call) {
    call.UpdateRow? ==> call.body.status !in {Some(Resuming), Some(Hibernated)}
  }

  lemma PutKeepsBalance(core: Core, core': Core, id: ContainerId, slot: Option<Row>)
    requires Balanced(core) && id < |core.rows| && core'.rows == core.rows[id := slot]
    requires forall d: Device, k: Kind ::
               UsedOn(core', d).Of(k) == UsedOn(core, d).Of(k) - Share(core.rows[id], d, k) + Share(slot, d, k)
    ensures Balanced(core')
  {
    forall d: Device, k: Kind ensures UsedOn(core', d).Of(k) == HeldOn(core'.rows, d, k) {
      HeldAfterPut(core.rows, id, slot, d, k);
    }
  }

  lemma AppendKeepsBalance(core: Core, core': Core, slot: Option<Row>)
    requires Balanced(core) && core'.rows == core.rows + [slot]
    requires forall d: Device, k: Kind :: UsedOn(core', d).Of(k) == UsedOn(core, d).Of(k) + Share(slot, d, k)
    ensures Balanced(core')
  {
    forall d: Device, k: Kind ensures UsedOn(core', d).Of(k) == HeldOn(core'.rows, d, k) {
      HeldAfterAppend(core.rows, slot, d, k);
    }
  }

  lemma CreateKeepsSound(core: Core, user: User, demand: Demand, pick: Pick)
    requires Sound(core) && Accepts(core, CreateRow(user, demand))
    ensures Sound(Perform(core, CreateRow(user, demand), pick))
  {
    var core' := Perform(core, CreateRow(user, demand), pick);
    AppendKeepsBalance(core, core', Some(FreshRow(user, demand, core.active[user])));
  }

  /** A container that is created holds what it asked for on its user's device, within what that device has
      to give, and is PENDING. Every other device, and every other row, is as before. */
  lemma CreateReserves(core: Core, user: User, demand: Demand, pick: Pick)
    requires Sound(core) && Accepts(core, CreateRow(user, demand))
    ensures var core' := Perform(core, CreateRow(user, demand), pick);
            && |core'.rows| == |core.rows| + 1 && core'.rows[..|core.rows|] == core.rows
            && Owned(core', |core.rows|, user) && core'.rows[|core.rows|].value.status == Pending
            && (forall k: Kind :: HeldOn(core'.rows, core.active[user], k)
                               == HeldOn(core.rows, core.active[user], k) + demand.Of(k)
                               <= core.capacity[core.active[user]].Of(k))
            && (forall d: Device, k: Kind :: d != core.active[user] ==>
                  HeldOn(core'.rows, d, k) == HeldOn(core.rows, d, k))
  {
    var core', row := Perform(core, CreateRow(user, demand), pick), FreshRow(user, demand, core.active[user]);
    CreateKeepsSound(core, user, demand, pick);
    forall d: Device, k: Kind ensures HeldOn(core'.rows, d, k) == HeldOn(core.rows, d, k) + Share(Some(row), d, k) {
      HeldAfterAppend(core.rows, Some(row), d, k);
    }
    forall k: Kind
      ensures HeldOn(core'.rows, core.active[user], k) <= core.capacity[core.active[user]].Of(k)
    {
      assert UsedOn(core', core.active[user]).Of(k) == HeldOn(core'.rows, core.active[user], k);
    }
  }

  lemma ResumeKeepsSound(core: Core, id: ContainerId, user: User, pick: Pick)
    requires Sound(core) && Accepts(core, ResumeRow(id, user))
    ensures Sound(Perform(core, ResumeRow(id, user), pick))
  {
    var core' := Perform(core, ResumeRow(id, user), pick);
    assert StatusAgrees(core.rows[id]);
    PutKeepsBalance(core, core', id, core'.rows[id]);
  }

  /** Releasing what a row holds frees its device by exactly that. */
  lemma ReleaseKeepsSound(core: Core, id: ContainerId, slot: Option<Row>)
    requires Sound(core) && Exists(core, id)
    requires slot.Some? ==> slot.value == HibernatedRow(core.rows[id].value)
    ensures Sound(PutRow(Release(core, core.rows[id].value.hold), id, slot))
  {
    var core' := PutRow(Release(core, core.rows[id].value.hold), id, slot);
    PutKeepsBalance(core, core', id, slot);
  }

  lemma PerformKeepsSound(core: Core, call: Call, pick: Pick)
    requires Sound(core) && Tame(call)
    ensures Sound(Perform(core, call, pick))
  {
    var core' := Perform(core, call, pick);
    if !Accepts(core, call) {
    } else if call.UpdateRow? {
      assert StatusAgrees(core.rows[call.id]);
      PutKeepsBalance(core, core', call.id, core'.rows[call.id]);
    } else if call.CreateRow? {
      CreateKeepsSound(core, call.user, call.demand, pick);
    } else if call.ResumeRow? {
      ResumeKeepsSound(core, call.id, call.user, pick);
    } else if call.HibernateRow? {
      ReleaseKeepsSound(core, call.id, Some(HibernatedRow(core.rows[call.id].value)));
    } else if call.DeleteRow? {
      ReleaseKeepsSound(core, call.id, None);
    }
  }

  /** /update-container is given no RESUMING or HIBERNATED to write. */
  predicate TameLabel(l: Label) {
    l.Begin? && l.saga.Update? ==> l.saga.edit.status !in {Some(Resuming), Some(Hibernated)}
  }

  predicate TameLabels(ls: seq<Label>) {
    forall i :: 0 <= i < |ls| ==> TameLabel(ls[i])
  }

  predicate TameSaga(saga: Saga) {
    saga.Update? ==> saga.edit.status !in {Some(Resuming), Some(Hibernated)}
  }

  predicate TameWorld(w: World) {
    && (forall r :: 0 <= r < |w.runs| ==> TameSaga(w.runs[r].saga))
    && (forall k :: 0 <= k < |w.late| ==> Tame(w.late[k].call))
  }

  lemma TameWorldStays(w: World, l: Label)
    requires TameWorld(w) && TameLabel(l)
    ensures TameWorld(Next(w, l))
  {
  }

  lemma RowPutKeepsSound(core: Core, id: ContainerId, row: Row)
    requires Sound(core) && Exists(core, id)
    requires row.hold == core.rows[id].value.hold && StatusAgrees(Some(row))
    ensures Sound(PutRow(core, id, Some(row)))
  {
    var core' := PutRow(core, id, Some(row));
    PutKeepsBalance(core, core', id, Some(row));
  }

  lemma StepKeepsSound(w: World, l: Label)
    requires Sound(w.core) && TameWorld(w)
    ensures Sound(Next(w, l).core)
  {
    match l
    case Act(r, o) =>
      if CanAct(w, r) && !o.Refused? { PerformKeepsSound(w.core, CallOf(w.runs[r]), o.pick); }
    case Land(k, pick) =>
      if CanLand(w, k) { PerformKeepsSound(w.core, w.late[k].call, pick); }
    case Reap(id) => PerformKeepsSound(w.core, HibernateRow(id), Pick(0, 0));
    case Job(id, save, _) =>
      if Exists(w.core, id) {
        assert StatusAgrees(w.core.rows[id]);
        RowPutKeepsSound(w.core, id, w.core.rows[id].value.(save := save));
      }
    case Monitor(id, p) =>
      if Exists(w.core, id) { RowPutKeepsSound(w.core, id, w.core.rows[id].value.(status := PhaseStatus(p))); }
    case Activate(user, device) =>
    case _ =>
  }

  lemma {:induction false} SoundAndTame(capacity: map<Device, Demand>, ls: seq<Label>)
    requires TameLabels(ls)
    ensures Sound(Execute(capacity, ls).core) && TameWorld(Execute(capacity, ls))
    decreases |ls|
  {
    if ls != [] {
      SoundAndTame(capacity, ls[..|ls| - 1]);
      StepKeepsSound(Execute(capacity, ls[..|ls| - 1]), ls[|ls| - 1]);
      TameWorldStays(Execute(capacity, ls[..|ls| - 1]), ls[|ls| - 1]);
    }
  }

  /** Main result: whatever the interleaving, usage is the sum of the reservations the rows hold,
      no device gives out more than it has, and RESUMING and HIBERNATED say what they promise. */
  lemma UsageIsTheSumOfReservations(capacity: map<Device, Demand>, ls: seq<Label>)
    requires TameLabels(ls)
    ensures var core := Execute(capacity, ls).core;
            && (forall d: Device, k: Kind :: UsedOn(core, d).Of(k) == HeldOn(core.rows, d, k))
            && (forall d: Device :: d in core.capacity ==> UsedOn(core, d).AtMost(core.capacity[d]))
            && (forall j :: 0 <= j < |core.rows| && core.rows[j].Some? ==>
                  && (core.rows[j].value.status == Resuming ==> core.rows[j].value.hold.Some?)
                  && (core.rows[j].value.status == Hibernated ==> core.rows[j].value.hold.None?))
  {
    SoundAndTame(capacity, ls);
    var core := Execute(capacity, ls).core;
    forall j | 0 <= j < |core.rows| && core.rows[j].Some?
      ensures core.rows[j].value.status == Resuming ==> core.rows[j].value.hold.Some?
      ensures core.rows[j].value.status == Hibernated ==> core.rows[j].value.hold.None?
    {
      assert StatusAgrees(core.rows[j]);
    }
  }

  lemma {:induction false} NoRowsHoldNothing(rows: seq<Option<Row>>, d: Device, k: Kind)
    requires forall j :: 0 <= j < |rows| ==> rows[j].None? || rows[j].value.hold.None?
    ensures HeldOn(rows, d, k) == 0
    decreases |rows|
  {
    if rows != [] { NoRowsHoldNothing(rows[..|rows| - 1], d, k); }
  }

  /** Nothing leaks in the books: once every row is deleted or hibernated, every device is free. */
  lemma AllReleasedMeansAllFree(capacity: map<Device, Demand>, ls: seq<Label>, d: Device, k: Kind)
    requires TameLabels(ls)
    requires forall j :: 0 <= j < |Execute(capacity, ls).core.rows| ==>
               var slot := Execute(capacity, ls).core.rows[j];
               slot.None? || slot.value.status == Hibernated
    ensures UsedOn(Execute(capacity, ls).core, d).Of(k) == 0
  {
    SoundAndTame(capacity, ls);
    var core := Execute(capacity, ls).core;
    forall j | 0 <= j < |core.rows| ensures core.rows[j].None? || core.rows[j].value.hold.None? {
      assert StatusAgrees(core.rows[j]);
    }
    NoRowsHoldNothing(core.rows, d, k);
  }
}
