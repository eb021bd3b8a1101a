/** What each handler is to do, said without its control flow: its calls in order, what counts as an
    answer it can go on with, what it does after the first answer it cannot go on with, and what it
    replies. Every instance does just that, in every interleaving. */
module Plans {
  import opened Prelude
  import opened Platform
  import opened Sagas
  import opened Interleaving

  /** One call of an instance and its reply. */
  datatype Made = Made(call: Call, reply: Reply)

  /** The calls instance r has made, in order. */
  function MadeBy(trace: seq<Event>, r: nat): seq<Made> {
    if trace == [] then []
    else
      var e := trace[|trace| - 1];
      MadeBy(trace[..|trace| - 1], r) + if e.Called? && e.run == r then [Made(e.call, e.reply)] else []
  }

  function ReadRow(m: Made): Option<Row> {
    if m.reply.Accepted? && m.reply.view.RowView? then Some(m.reply.view.row) else None
  }

  function ReadPod(m: Made): Option<Pod> {
    if m.reply.Accepted? && m.reply.view.PodView? then Some(m.reply.view.pod) else None
  }

  /** There is no such row. */
  predicate Missing(reply: Reply) {
    reply.Rejected? && reply.code == 404
  }

  /** A row that can be hibernated: running, and with a pod. */
  predicate Ready(row: Row) {
    row.status == Running && row.kubernetesId.Some?
  }

  /** Call k was answered so that its handler goes on. To write to a row that is missing is no failure,
      nor is reading it again, after the first lookup. */
  predicate Fine(k: nat, m: Made) {
    m.reply.Accepted? || (Missing(m.reply) && (m.call.UpdateRow? || (m.call.GetRow? && k > 0)))
  }

  predicate AllFine(calls: seq<Made>) {
    forall k {:trigger Fine(k, calls[k])} :: 0 <= k < |calls| ==> Fine(k, calls[k])
  }

  // The bodies of the updates: every one carries the session's user.

  function UserBody(user: User): Fields {
    NO_FIELDS.(userId := Some(user))
  }

  function SaveBody(user: User, save: SaveStatus): Fields {
    UserBody(user).(save := Some(save))
  }

  function StatusBody(user: User, status: Status): Fields {
    UserBody(user).(status := Some(status))
  }

  function SyncBody(user: User, pod: Pod): Fields {
    StatusBody(user, Running).(kubernetesId := Some(pod.uid), ip := Some(pod.ip), resources := Some(pod.resources))
  }

  function EditBody(user: User, e: Edit): Fields {
    UserBody(user).(status := e.status, kubernetesId := e.kubernetesId, ip := e.ip, resources := e.resources,
                    savedImage := e.savedImage, limits := e.limits)
  }

  /** The call after these, all of them fine; None when there is nothing more to do. */
  function Planned(saga: Saga, user: User, id: ContainerId, calls: seq<Made>): Option<Call> {
    var n := |calls|;
    match saga
    case CreateInDb(demand) => if n == 0 then Some(CreateRow(user, demand)) else None
    case DeleteInDb => if n == 0 then Some(DeleteRow(id, user)) else None
    case DeleteInK8s => if n == 0 then Some(DeletePods(user, id)) else None
    case Update(e) =>
      if n == 0 && EditBody(user, e) != UserBody(user) then Some(UpdateRow(id, EditBody(user, e))) else None
    case CreateInK8s =>
      if n == 0 then Some(GetRow(id, user))
      else if n == 1 then Some(ReadImage)
      else if n == 2 then Some(StartPod(user, id))
      else None
    case Save =>
      if n == 0 then Some(GetRow(id, user))
      else if n == 1 then Some(UpdateRow(id, SaveBody(user, SavePending)))
      else if n == 2 then Some(TakeSnapshot(user, id))
      else None
    case Resume => PlannedResume(user, id, calls)
    case Hibernate => PlannedHibernate(user, id, calls)
  }

  function Sync(user: User, id: ContainerId, pod: Option<Pod>): Option<Call> {
    if pod.Some? then Some(UpdateRow(id, SyncBody(user, pod.value))) else None
  }

  /** The row read by the lookup has a saved image. */
  predicate HasSavedImage(calls: seq<Made>) {
    calls != [] && ReadRow(calls[0]).Some? && ReadRow(calls[0]).value.savedImage.Some?
  }

  /** The catalog is read exactly if the row has no saved image. */
  function PlannedResume(user: User, id: ContainerId, calls: seq<Made>): Option<Call> {
    var n := |calls|;
    if n == 0 then Some(GetRow(id, user))
    else if n == 1 then Some(ResumeRow(id, user))
    else if n == 2 then Some(UpdateRow(id, UserBody(user)))
    else if ReadRow(calls[0]).None? then None
    else
      var start := StartPod(ReadRow(calls[0]).value.owner, id);
      if HasSavedImage(calls) then
        if n == 3 then Some(start) else if n == 4 then Sync(user, id, ReadPod(calls[3])) else None
      else
        if n == 3 then Some(ReadImage)
        else if n == 4 then Some(start)
        else if n == 5 then Sync(user, id, ReadPod(calls[4]))
        else None
  }

  /** From the fourth call on it polls, until a poll reads SUCCEEDED or FAILED. */
  function PlannedHibernate(user: User, id: ContainerId, calls: seq<Made>): Option<Call> {
    var n := |calls|;
    if n == 0 then Some(GetRow(id, user))
    else if n == 1 then
      if ReadRow(calls[0]).Some? && Ready(ReadRow(calls[0]).value) then Some(UpdateRow(id, SaveBody(user, SavePending)))
      else None
    else if n == 2 then Some(TakeSnapshot(user, id))
    else if n == 3 then Some(GetRow(id, user))
    else
      var last := calls[n - 1];
      if last.call.DeletePods? then Some(HibernateRow(id))
      else if last.call.HibernateRow? then Some(GetRow(id, user))
      else if calls[n - 2].call.HibernateRow? then None
      else if ReadsSave(last, SaveSucceeded) then Some(DeletePods(user, id))
      else if ReadsSave(last, SaveFailed) then None
      else Some(GetRow(id, user))
  }

  predicate ReadsSave(m: Made, save: SaveStatus) {
    ReadRow(m).Some? && ReadRow(m).value.save == save
  }

  /** Between two polls. */
  predicate Waits(saga: Saga, calls: seq<Made>) {
    && saga.Hibernate? && |calls| >= 3 && (|calls| > 3 ==> calls[|calls| - 1].call.GetRow?)
    && forall k :: 0 <= k < |calls| ==> !calls[k].call.HibernateRow?
  }

  /** The answer when there is nothing more to do. */
  function DoneCode(saga: Saga, calls: seq<Made>): nat {
    match saga
    case Save => 202
    case Update(_) => if calls == [] then 500 else 200
    case Hibernate =>
      var n := |calls|;
      if n == 1 then 409
      else if n >= 4 && !calls[n - 2].call.HibernateRow? && ReadsSave(calls[n - 1], SaveFailed) then 502
      else 200
    case _ => 200
  }

  /** What is called after call k, the first that is not fine. */
  function Closing(saga: Saga, user: User, id: ContainerId, k: nat, m: Made): Option<Call> {
    match saga
    case Resume =>
      if k == 0 then if Missing(m.reply) then None else Some(UpdateRow(id, StatusBody(user, Status.Failed)))
      else if k == 1 then if m.reply.Unreadable? then Some(UpdateRow(id, StatusBody(user, Status.Failed))) else None
      else if m.call.StartPod? then None
      else Some(HibernateRow(id))
    case CreateInK8s => if k == 0 then None else Some(DeleteRow(id, user))
    case Save => if m.call.TakeSnapshot? then Some(UpdateRow(id, SaveBody(user, SaveFailed))) else None
    case _ => None
  }

  /** The answer to call k, the first that is not fine. */
  function FailureCode(saga: Saga, k: nat, m: Made): nat {
    if m.call.GetRow? && k == 0 then if Missing(m.reply) then 404 else 500
    else if m.call.ResumeRow? then if m.reply.Rejected? then m.reply.code else 500
    else if m.call.DeleteRow? then if Missing(m.reply) || m.reply.Unreadable? then 404 else 500
    else if saga.Save? && m.call.TakeSnapshot? then 202
    else 500
  }

  /** The calls are those of the plan. */
  predicate OnPlan(saga: Saga, user: User, id: ContainerId, calls: seq<Made>) {
    forall k {:trigger PlannedAt(saga, user, id, calls, k)} :: 0 <= k < |calls| ==>
      PlannedAt(saga, user, id, calls, k) == Some(calls[k].call)
  }

  /** What the plan says for call k. */
  function PlannedAt(saga: Saga, user: User, id: ContainerId, calls: seq<Made>, k: nat): Option<Call>
    requires k <= |calls|
  {
    Planned(saga, user, id, calls[..k])
  }

  /** All went well so far. */
  predicate Going(saga: Saga, user: User, id: ContainerId, calls: seq<Made>) {
    OnPlan(saga, user, id, calls) && AllFine(calls)
  }

  /** All went well up to the last call, which did not. */
  predicate Broken(saga: Saga, user: User, id: ContainerId, calls: seq<Made>) {
    && calls != [] && OnPlan(saga, user, id, calls)
    && AllFine(calls[..|calls| - 1]) && !Fine(|calls| - 1, calls[|calls| - 1])
  }

  function ClosingAfter(saga: Saga, user: User, id: ContainerId, calls: seq<Made>): Option<Call>
    requires calls != []
  {
    Closing(saga, user, id, |calls| - 1, calls[|calls| - 1])
  }

  function CodeAfter(saga: Saga, calls: seq<Made>): nat
    requires calls != []
  {
    FailureCode(saga, |calls| - 1, calls[|calls| - 1])
  }

  /** The four ways to end: nothing more to do; the window closed on the polls; a failure that leaves
      nothing to do; or a failure and its closing call, whatever that was answered. */
  predicate Ends(saga: Saga, user: User, id: ContainerId, calls: seq<Made>, code: nat) {
    || (Going(saga, user, id, calls) && Planned(saga, user, id, calls).None? && code == DoneCode(saga, calls))
    || (Going(saga, user, id, calls) && Waits(saga, calls) && Planned(saga, user, id, calls) == Some(GetRow(id, user))
        && code == 502)
    || (Broken(saga, user, id, calls) && ClosingAfter(saga, user, id, calls).None? && code == CodeAfter(saga, calls))
    || (|calls| >= 2
        && var before := calls[..|calls| - 1];
           && Broken(saga, user, id, before)
           && ClosingAfter(saga, user, id, before) == Some(calls[|calls| - 1].call)
           && code == CodeAfter(saga, before))
  }

  /** An instance with these calls behind it is where the plan says: about to make the next call of the
      plan, or the closing call, or at an end. */
  predicate Follows(run: Run, calls: seq<Made>) {
    if run.pc.Ended? then Ends(run.saga, run.user, run.id, calls, run.pc.response.code)
    else
      || (Going(run.saga, run.user, run.id, calls)
          && Planned(run.saga, run.user, run.id, calls) == Some(CallOf(run)))
      || (Broken(run.saga, run.user, run.id, calls)
          && ClosingAfter(run.saga, run.user, run.id, calls) == Some(CallOf(run)))
  }
}
