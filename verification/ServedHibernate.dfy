/** A hibernate that is served throughout, and whose Job succeeds, does what it is for. */
module ServedHibernate {
  import opened Prelude
  import opened Platform
  import opened Sagas
  import opened Interleaving
  import opened ShortSagas

  /** Instance r is a hibernate at this stage. */
  predicate Stands(v: World, r: nat, user: User, id: ContainerId, pc: Pc) {
    r < |v.runs| && v.runs[r].user == user && v.runs[r].id == id && v.runs[r].saga == Hibernate && v.runs[r].pc == pc
  }

  function Served(v: World, r: nat): World {
    Next(v, Act(r, SERVED))
  }

  /** The row with this save status, and nothing else changed. */
  function WithSave(core: Core, id: ContainerId, save: SaveStatus): Core
    requires Exists(core, id)
  {
    PutRow(core, id, Some(core.rows[id].value.(save := save)))
  }

  lemma LookupServed(v: World, r: nat, user: User, id: ContainerId)
    requires Stands(v, r, user, id, AtLookup) && Owned(v.core, id, user)
    requires v.core.rows[id].value.status == Running && v.core.rows[id].value.kubernetesId.Some?
    ensures Stands(Served(v, r), r, user, id, AtPendingWrite) && Served(v, r).core == v.core
  {
  }

  lemma PendingServed(v: World, r: nat, user: User, id: ContainerId)
    requires Stands(v, r, user, id, AtPendingWrite) && Owned(v.core, id, user)
    ensures Stands(Served(v, r), r, user, id, AtSnapshot) && Served(v, r).core == WithSave(v.core, id, SavePending)
  {
    assert UpdatedRow(v.core.rows[id].value, Merge(SaveWrite(SavePending), user))
        == v.core.rows[id].value.(save := SavePending);
  }

  lemma JobSucceeds(v: World, r: nat, user: User, id: ContainerId)
    requires Stands(v, r, user, id, AtSnapshot) && Owned(v.core, id, user)
    ensures var v' := Next(v, Job(id, SaveSucceeded, r));
            Stands(v', r, user, id, AtSnapshot) && v'.core == WithSave(v.core, id, SaveSucceeded)
  {
  }

  lemma SnapshotServed(v: World, r: nat, user: User, id: ContainerId)
    requires Stands(v, r, user, id, AtSnapshot)
    ensures Stands(Served(v, r), r, user, id, AtPoll) && Served(v, r).core == v.core
  {
  }

  lemma PollServed(v: World, r: nat, user: User, id: ContainerId)
    requires Stands(v, r, user, id, AtPoll) && Owned(v.core, id, user)
    requires v.core.rows[id].value.save == SaveSucceeded
    ensures Stands(Served(v, r), r, user, id, AtDeletePods) && Served(v, r).core == v.core
  {
  }

  lemma PodDeleteServed(v: World, r: nat, user: User, id: ContainerId)
    requires Stands(v, r, user, id, AtDeletePods)
    ensures Stands(Served(v, r), r, user, id, AtHibernate)
    ensures PodsGone(v.core, Served(v, r).core, user, id) && SameBooks(v.core, Served(v, r).core)
  {
  }

  lemma TransitionServed(v: World, r: nat, user: User, id: ContainerId)
    requires Stands(v, r, user, id, AtHibernate) && Exists(v.core, id)
    ensures Stands(Served(v, r), r, user, id, AtFinalRead)
    ensures Served(v, r).core.pods == v.core.pods && BooksHibernated(v.core, Served(v, r).core, id)
  {
  }

  lemma FinalReadServed(v: World, r: nat, user: User, id: ContainerId)
    requires Stands(v, r, user, id, AtFinalRead) && Owned(v.core, id, user)
    ensures Served(v, r).core == v.core && r < |Served(v, r).runs| && Served(v, r).runs[r].pc == Done(200)
  {
  }

  /** The lookup and PENDING. */
  function AskedThrough(w: World, user: User, id: ContainerId): World {
    Served(Served(Next(w, Begin(user, id, Hibernate)), |w.runs|), |w.runs|)
  }

  lemma AsksThrough(w: World, user: User, id: ContainerId)
    requires Owned(w.core, id, user)
    requires w.core.rows[id].value.status == Running && w.core.rows[id].value.kubernetesId.Some?
    ensures var v := AskedThrough(w, user, id);
            Stands(v, |w.runs|, user, id, AtSnapshot) && v.core == WithSave(w.core, id, SavePending)
  {
    var v := Next(w, Begin(user, id, Hibernate));
    LookupServed(v, |w.runs|, user, id);
    PendingServed(Served(v, |w.runs|), |w.runs|, user, id);
  }

  /** Then the Job's report during the snapshot call. */
  function SavedThrough(w: World, user: User, id: ContainerId): World {
    Served(Next(AskedThrough(w, user, id), Job(id, SaveSucceeded, |w.runs|)), |w.runs|)
  }

  lemma SavesThrough(w: World, user: User, id: ContainerId)
    requires Owned(w.core, id, user)
    requires w.core.rows[id].value.status == Running && w.core.rows[id].value.kubernetesId.Some?
    ensures var v := SavedThrough(w, user, id);
            Stands(v, |w.runs|, user, id, AtPoll) && v.core == WithSave(w.core, id, SaveSucceeded)
  {
    AsksThrough(w, user, id);
    ReportsThrough(AskedThrough(w, user, id), |w.runs|, user, id);
    assert WithSave(WithSave(w.core, id, SavePending), id, SaveSucceeded).rows
        == WithSave(w.core, id, SaveSucceeded).rows;
  }

  lemma ReportsThrough(v: World, r: nat, user: User, id: ContainerId)
    requires Stands(v, r, user, id, AtSnapshot) && Owned(v.core, id, user)
    ensures var v' := Served(Next(v, Job(id, SaveSucceeded, r)), r);
            Stands(v', r, user, id, AtPoll) && v'.core == WithSave(v.core, id, SaveSucceeded)
  {
    JobSucceeds(v, r, user, id);
    SnapshotServed(Next(v, Job(id, SaveSucceeded, r)), r, user, id);
  }

  /** The poll, the pod delete, the transition and the final read. */
  function RemovedThrough(v: World, r: nat): World {
    Served(Served(Served(Served(v, r), r), r), r)
  }

  lemma RemovesThrough(v: World, r: nat, user: User, id: ContainerId)
    requires Stands(v, r, user, id, AtPoll) && Owned(v.core, id, user)
    requires v.core.rows[id].value.save == SaveSucceeded
    ensures var v' := RemovedThrough(v, r);
            && r < |v'.runs| && v'.runs[r].pc == Done(200)
            && PodsGone(v.core, v'.core, user, id) && BooksHibernated(v.core, v'.core, id)
  {
    PollServed(v, r, user, id);
    var v1 := Served(v, r);
    PodDeleteServed(v1, r, user, id);
    var v2 := Served(v1, r);
    TransitionServed(v2, r, user, id);
    BooksCarryOver(v1.core, v2.core, Served(v2, r).core, user, id);
    FinalReadServed(Served(v2, r), r, user, id);
  }

  lemma BooksCarryOver(a: Core, b: Core, c: Core, user: User, id: ContainerId)
    requires SameBooks(a, b) && BooksHibernated(b, c, id) && Owned(a, id, user)
    ensures BooksHibernated(a, c, id) && Owned(c, id, user)
  {
  }

  /** Main result: from every state, a hibernate of the user's own running row with a pod, with every call
      served and its Job reporting SUCCEEDED, answers 200; the pods of the container are gone, the row is
      HIBERNATED and saved, and its reservation is released. */
  lemma ServedHibernateSucceeds(w: World, user: User, id: ContainerId)
    requires Owned(w.core, id, user)
    requires w.core.rows[id].value.status == Running && w.core.rows[id].value.kubernetesId.Some?
    ensures var r, v := |w.runs|, RemovedThrough(SavedThrough(w, user, id), |w.runs|);
            && r < |v.runs| && v.runs[r].pc == Done(200)
            && PodsGone(w.core, v.core, user, id)
            && Exists(v.core, id) && v.core.rows[id].value.status == Hibernated
            && v.core.rows[id].value.save == SaveSucceeded && v.core.rows[id].value.hold.None?
            && v.core.used == Release(w.core, w.core.rows[id].value.hold).used
  {
    SavesThrough(w, user, id);
    RemovesThrough(SavedThrough(w, user, id), |w.runs|, user, id);
  }
}
