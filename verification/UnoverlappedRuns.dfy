/** A lone run is a history of the whole system in which, from its beginning to its end, only that
    instance steps. So what is proved of lone runs holds wherever nothing overlaps. */
module UnoverlappedRuns {
  import opened Platform
  import opened Sagas
  import opened Interleaving
  import opened SoloRuns
  import opened ShortSagas
  import FreshPods
  import ResumeExit
  import CreateExit

  /** Instance r steps with these outcomes. */
  function Acts(r: nat, os: seq<Outcome>): seq<Label> {
    seq(|os|, i requires 0 <= i < |os| => Act(r, os[i]))
  }

  /** Instance r of v is where the lone run s is, on the same platform. */
  predicate Agree(v: World, r: nat, s: Solo) {
    r < |v.runs| && v.core == s.core && v.runs[r] == s.run
  }

  lemma StepsAgree(v: World, r: nat, s: Solo, o: Outcome)
    requires Agree(v, r, s)
    ensures Agree(Next(v, Act(r, o)), r, SoloStep(s, o))
  {
  }

  /** Main result: from any world, an instance that steps alone goes where the lone run goes. */
  lemma {:induction false} AloneFromHere(w: World, r: nat, s: Solo, os: seq<Outcome>)
    requires Agree(w, r, s)
    ensures Agree(ExecuteFrom(w, Acts(r, os)), r, SoloRun(s, os))
    decreases |os|
  {
    if os != [] {
      var n := |os| - 1;
      assert Acts(r, os)[..n] == Acts(r, os[..n]) && Acts(r, os)[n] == Act(r, os[n]);
      AloneFromHere(w, r, s, os[..n]);
      StepsAgree(ExecuteFrom(w, Acts(r, os[..n])), r, SoloRun(s, os[..n]), os[n]);
    }
  }

  /** The history ls, followed by a new instance that steps alone. */
  function Then(capacity: map<Device, Demand>, ls: seq<Label>, user: User, id: ContainerId, saga: Saga,
                os: seq<Outcome>): World
  {
    Execute(capacity, ls + [Begin(user, id, saga)] + Acts(|Execute(capacity, ls).runs|, os))
  }

  /** Main result: the lone run and the history end in the same state. */
  lemma LoneRunIsAHistory(
      capacity: map<Device, Demand>, ls: seq<Label>, user: User, id: ContainerId, saga: Saga, os: seq<Outcome>)
    ensures var w := Execute(capacity, ls);
            Agree(Then(capacity, ls, user, id, saga, os), |w.runs|, SoloRun(Alone(w.core, user, id, saga), os))
  {
    var w := Execute(capacity, ls);
    ExecuteExtends(capacity, ls, Begin(user, id, saga));
    ExecuteSplits(capacity, ls + [Begin(user, id, saga)], Acts(|w.runs|, os));
    AloneFromHere(Next(w, Begin(user, id, saga)), |w.runs|, Alone(w.core, user, id, saga), os);
  }

  predicate HasEnded(v: World, r: nat) {
    r < |v.runs| && v.runs[r].pc.Ended?
  }

  /** Main result: from every state the system can reach, a resume that nothing overlaps and that has
      answered has ended in one of the classified ways. */
  lemma UnoverlappedResumeExits(
      capacity: map<Device, Demand>, ls: seq<Label>, user: User, id: ContainerId, os: seq<Outcome>)
    requires HasEnded(Then(capacity, ls, user, id, Resume, os), |Execute(capacity, ls).runs|)
    ensures var w, v := Execute(capacity, ls), Then(capacity, ls, user, id, Resume, os);
            var s := SoloRun(Alone(w.core, user, id, Resume), os);
            v.core == s.core && ResumeExit.Exit(w.core, s, user, id, v.runs[|w.runs|].pc.response.code)
  {
    LoneRunIsAHistory(capacity, ls, user, id, Resume, os);
    FreshPods.EveryUidFresh(capacity, ls);
    ResumeExit.ResumeExits(Execute(capacity, ls).core, user, id, os);
  }

  /** Likewise for a create. */
  lemma UnoverlappedCreateExits(
      capacity: map<Device, Demand>, ls: seq<Label>, user: User, id: ContainerId, os: seq<Outcome>)
    requires HasEnded(Then(capacity, ls, user, id, CreateInK8s, os), |Execute(capacity, ls).runs|)
    ensures var w, v := Execute(capacity, ls), Then(capacity, ls, user, id, CreateInK8s, os);
            var s := SoloRun(Alone(w.core, user, id, CreateInK8s), os);
            v.core == s.core && CreateExit.Exit(w.core, s, user, id, v.runs[|w.runs|].pc.response)
  {
    LoneRunIsAHistory(capacity, ls, user, id, CreateInK8s, os);
    CreateExit.CreateExits(Execute(capacity, ls).core, user, id, os);
  }

  /** Likewise for the last steps of a hibernate, from every state in which its snapshot is confirmed. */
  lemma UnoverlappedHibernateEnds(capacity: map<Device, Demand>, ls: seq<Label>, r: nat, os: seq<Outcome>)
    requires var w := Execute(capacity, ls);
             r < |w.runs| && AboutToDelete(w.runs[r], w.runs[r].user, w.runs[r].id)
    requires HasEnded(ExecuteFrom(Execute(capacity, ls), Acts(r, os)), r)
    ensures var w, v := Execute(capacity, ls), ExecuteFrom(Execute(capacity, ls), Acts(r, os));
            var s := SoloRun(Solo(w.core, w.runs[r], []), os);
            && v.core == s.core
            && HibernateEnd(w.core, s, w.runs[r].user, w.runs[r].id, v.runs[r].pc.response.code)
  {
    var w := Execute(capacity, ls);
    AloneFromHere(w, r, Solo(w.core, w.runs[r], []), os);
    HibernateEnds(w.core, w.runs[r], w.runs[r].user, w.runs[r].id, os);
  }
}
