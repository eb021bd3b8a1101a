/** The control flow of the container handlers, one remote call at a time: `CallOf` is the call a
    handler instance is about to await, `Continue` what it does with the reply. */
module Sagas {
  import opened Prelude
  import opened Platform
  import opened ErrorLayers

  /** The fields /update-container can carry (UpdateContainerDBData): no save_status, no user_id. */
  datatype Edit = Edit(
    status: Option<Status>,
    kubernetesId: Option<nat>,
    ip: Option<nat>,
    resources: Option<nat>,
    savedImage: Option<nat>,
    limits: Option<Demand>)

  function EditFields(e: Edit): Fields {
    Fields(None, e.status, None, e.kubernetesId, e.ip, e.resources, e.savedImage, e.limits)
  }

  datatype Saga =
    | CreateInDb(demand: Demand)
    | CreateInK8s
    | DeleteInDb
    | DeleteInK8s
    | Save
    | Resume
    | Hibernate
    | Update(edit: Edit)

  datatype Response = Response(code: nat, message: string)

  datatype Pc =
    | AtCreateRow
    | AtLookup
    | AtImage
    | AtStartPod
    | AtRelease(failure: Raised)
    | AtDeleteRow
    | AtDeletePods
    | AtPendingWrite
    | AtSnapshot
    | AtFailedWrite
    | AtTransition
    | AtStamp
    | AtSync(pod: Pod)
    | AtRollback(failure: Raised)
    | AtMarkFailed(failure: Raised)
    | AtPoll
    | AtHibernate
    | AtFinalRead
    | AtUpdate
    | Ended(response: Response)

  /** One handler instance: the session's user, the container id of the request, and the row read
      by the ownership lookup. */
  datatype Run = Run(user: User, id: ContainerId, saga: Saga, pc: Pc, row: Option<Row>)

  function Start(user: User, id: ContainerId, saga: Saga): Run {
    var pc := match saga {
                case CreateInDb(_) => AtCreateRow
                case DeleteInDb => AtDeleteRow
                case DeleteInK8s => AtDeletePods
                case Update(edit) => if EditFields(edit) == NO_FIELDS then Ended(Response(500, "")) else AtUpdate
                case _ => AtLookup
              };
    Run(user, id, saga, pc, None)
  }

  /** CloudClient.update_container: the session's user id overrides whatever the fields hold. */
  function Merge(fields: Fields, user: User): Fields {
    fields.(userId := Some(user))
  }

  function SaveWrite(s: SaveStatus): Fields {
    NO_FIELDS.(save := Some(s))
  }

  /** resume's last write: the identity of the new pod, and RUNNING. */
  function SyncFields(pod: Pod): Fields {
    NO_FIELDS.(status := Some(Running), kubernetesId := Some(pod.uid), ip := Some(pod.ip),
               resources := Some(pod.resources))
  }

  /** resume derives the namespace from the row it read; every other handler from the session. */
  function Namespace(run: Run): User {
    if run.saga.Resume? && run.row.Some? then run.row.value.owner else run.user
  }

  function CallOf(run: Run): Call
    requires !run.pc.Ended?
  {
    match run.pc
    case AtCreateRow => CreateRow(run.user, if run.saga.CreateInDb? then run.saga.demand else Demand(0, 0, 0))
    case AtLookup => GetRow(run.id, run.user)
    case AtImage => ReadImage
    case AtStartPod => StartPod(Namespace(run), run.id)
    case AtRelease(_) => DeleteRow(run.id, run.user)
    case AtDeleteRow => DeleteRow(run.id, run.user)
    case AtDeletePods => DeletePods(run.user, run.id)
    case AtPendingWrite => UpdateRow(run.id, Merge(SaveWrite(SavePending), run.user))
    case AtSnapshot => TakeSnapshot(run.user, run.id)
    case AtFailedWrite => UpdateRow(run.id, Merge(SaveWrite(SaveFailed), run.user))
    case AtTransition => ResumeRow(run.id, run.user)
    case AtStamp => UpdateRow(run.id, Merge(NO_FIELDS, run.user))
    case AtSync(pod) => UpdateRow(run.id, Merge(SyncFields(pod), run.user))
    case AtRollback(_) => HibernateRow(run.id)
    case AtMarkFailed(_) => UpdateRow(run.id, Merge(NO_FIELDS.(status := Some(Failed)), run.user))
    case AtPoll => GetRow(run.id, run.user)
    case AtHibernate => HibernateRow(run.id)
    case AtFinalRead => GetRow(run.id, run.user)
    case AtUpdate =>
      UpdateRow(run.id, Merge(if run.saga.Update? then EditFields(run.saga.edit) else NO_FIELDS, run.user))
  }

  /** The two closing `except` clauses every handler shares. */
  function ErrorResponse(e: Raised): Response {
    if e.HttpError? then Response(e.code, e.message) else Response(500, e.message)
  }

  function Done(code: nat): Pc {
    Ended(Response(code, ""))
  }

  function Fail(e: Raised): Pc {
    Ended(ErrorResponse(e))
  }

  /** resume's closing `except` clauses: HTTPException answers at once; any other exception first
      rolls Cloud's transition back, or marks the row FAILED if there was none. */
  function ResumeFail(e: Raised, resumed: bool): Pc {
    if e.HttpError? then Fail(e)
    else if resumed then AtRollback(e)
    else AtMarkFailed(e)
  }

  function AfterLookup(run: Run, reply: Reply): Pc {
    match DbGet(reply)
    case Err(e) => if run.saga.Resume? then ResumeFail(e, false) else Fail(e)
    case Ok(None) => Ended(Response(404, "not found"))
    case Ok(Some(row)) =>
      match run.saga {
        case Resume => AtTransition
        case CreateInK8s => AtImage
        case Hibernate =>
          if row.status != Running then Ended(Response(409, "not running"))
          else if row.kubernetesId.None? then Ended(Response(409, "no pod"))
          else AtPendingWrite
        case _ => AtPendingWrite
      }
  }

  function AfterTransition(reply: Reply): Pc {
    match Request(reply)
    case Ok(_) => AtStamp
    case Err(CloudError(code, message)) => Ended(Response(if code == 0 then 500 else code, message))
    case Err(e) => ResumeFail(e, false)
  }

  function AfterStamp(run: Run, reply: Reply): Pc {
    match DbUpdate(reply)
    case Err(e) => ResumeFail(e, true)
    case Ok(_) => if run.row.Some? && run.row.value.savedImage.Some? then AtStartPod else AtImage
  }

  function AfterImage(run: Run, reply: Reply): Pc {
    match ImageRead(reply)
    case Err(e) => if run.saga.Resume? then ResumeFail(e, true) else AtRelease(e)
    case Ok(_) => AtStartPod
  }

  function AfterStartPod(run: Run, reply: Reply): Pc {
    match ServiceGrpc(reply)
    case Err(e) => if run.saga.Resume? then ResumeFail(e, true) else AtRelease(e)
    case Ok(PodView(pod)) => if run.saga.Resume? then AtSync(pod) else Done(200)
    case Ok(_) => Done(200)
  }

  /** What a poll reads: the row's save status, None if the row is gone. */
  function SaveStatusRead(reply: Reply): Result<Option<SaveStatus>, Raised> {
    match DbGet(reply)
    case Err(e) => Err(e)
    case Ok(found) => Ok(if found.Some? then Some(found.value.save) else None)
  }

  /** One pass of hibernate's poll loop: only a confirmed success leads on to the pod delete. */
  function PolledPc(read: Result<Option<SaveStatus>, Raised>): Pc {
    match read
    case Err(e) => Fail(e)
    case Ok(Some(SaveSucceeded)) => AtDeletePods
    case Ok(Some(SaveFailed)) => Ended(Response(502, "save failed"))
    case Ok(_) => AtPoll
  }

  function NextPc(run: Run, reply: Reply): Pc
    requires !run.pc.Ended?
  {
    match run.pc
    case AtCreateRow => (match ServiceWrite(reply) case Err(e) => Fail(e) case Ok(_) => Done(200))
    case AtLookup => AfterLookup(run, reply)
    case AtImage => AfterImage(run, reply)
    case AtStartPod => AfterStartPod(run, reply)
    case AtRelease(failure) => Fail(failure)
    case AtDeleteRow => (match ServiceDelete(reply) case Err(e) => Fail(e) case Ok(_) => Done(200))
    case AtDeletePods =>
      (match ServiceGrpc(reply)
       case Err(e) => Fail(e)
       case Ok(_) => if run.saga.Hibernate? then AtHibernate else Done(200))
    case AtPendingWrite => (match DbUpdate(reply) case Err(e) => Fail(e) case Ok(_) => AtSnapshot)
    case AtSnapshot =>
      (match ServiceGrpc(reply)
       case Err(e) => if run.saga.Hibernate? then Fail(e) else AtFailedWrite
       case Ok(_) => if run.saga.Hibernate? then AtPoll else Done(202))
    case AtFailedWrite => Done(202)
    case AtTransition => AfterTransition(reply)
    case AtStamp => AfterStamp(run, reply)
    case AtSync(_) => (match DbUpdate(reply) case Err(e) => ResumeFail(e, true) case Ok(_) => Done(200))
    case AtRollback(failure) => Fail(failure)
    case AtMarkFailed(failure) => Fail(failure)
    case AtPoll => PolledPc(SaveStatusRead(reply))
    case AtHibernate => (match Request(reply) case Err(e) => Fail(e) case Ok(_) => AtFinalRead)
    case AtFinalRead => (match DbGet(reply) case Err(e) => Fail(e) case Ok(_) => Done(200))
    case AtUpdate => (match ServiceUpdate(reply) case Err(e) => Fail(e) case Ok(_) => Done(200))
  }

  function RowRead(run: Run, reply: Reply): Option<Row> {
    if run.pc.AtLookup? && DbGet(reply).Ok? then DbGet(reply).value else run.row
  }

  function Continue(run: Run, reply: Reply): Run
    requires !run.pc.Ended?
  {
    run.(pc := NextPc(run, reply), row := RowRead(run, reply))
  }
}
