/** The stores behind the container handlers: Cloud's container rows and device reservations, and
    the Kubernetes pods. Every operation is one atomic step with the contract Local relies on.

    A container id is an index into `rows`; a deleted row leaves `None` behind, so ids are never
    reused. `hold` is the reservation a row currently owns on a device. */
module Platform {
  import opened Prelude

  type User = nat
  type Device = nat
  type ContainerId = nat

  datatype Status = Pending | Running | Failed | Resuming | Hibernated

  datatype SaveStatus = NotSaved | SavePending | SaveSucceeded | SaveFailed

  datatype Kind = Cpu | Memory | Storage

  /** What a container asks of a device. */
  datatype Demand = Demand(cpu: nat, memory: nat, storage: nat) {
    function Of(k: Kind): nat {
      match k case Cpu => cpu case Memory => memory case Storage => storage
    }
  }

  /** What a device has given out. */
  datatype Usage = Usage(cpu: int, memory: int, storage: int) {
    function Of(k: Kind): int {
      match k case Cpu => cpu case Memory => memory case Storage => storage
    }

    function Plus(d: Demand): Usage {
      Usage(cpu + d.cpu, memory + d.memory, storage + d.storage)
    }

    function Minus(d: Demand): Usage {
      Usage(cpu - d.cpu, memory - d.memory, storage - d.storage)
    }

    predicate AtMost(d: Demand) {
      cpu <= d.cpu && memory <= d.memory && storage <= d.storage
    }
  }

  const ZERO := Usage(0, 0, 0)

  datatype Hold = Hold(device: Device, demand: Demand)

  datatype Row = Row(
    owner: User,
    status: Status,
    save: SaveStatus,
    kubernetesId: Option<nat>,
    ip: Option<nat>,
    resources: Option<nat>,
    savedImage: Option<nat>,
    demand: Demand,
    hold: Option<Hold>)

  /** A pod carries its namespace (one per user) and the container-id label. */
  datatype Pod = Pod(uid: nat, ns: User, container: ContainerId, ip: nat, resources: nat)

  datatype Core = Core(
    rows: seq<Option<Row>>,
    used: map<Device, Usage>,
    capacity: map<Device, Demand>,
    active: map<User, Device>,
    pods: set<Pod>,
    nextUid: nat)

  /** The body of an update: only the fields that are present are written. */
  datatype Fields = Fields(
    userId: Option<User>,
    status: Option<Status>,
    save: Option<SaveStatus>,
    kubernetesId: Option<nat>,
    ip: Option<nat>,
    resources: Option<nat>,
    savedImage: Option<nat>,
    limits: Option<Demand>)

  const NO_FIELDS := Fields(None, None, None, None, None, None, None, None)

  datatype Call =
    | CreateRow(user: User, demand: Demand)
    | GetRow(id: ContainerId, user: User)
    | UpdateRow(id: ContainerId, body: Fields)
    | DeleteRow(id: ContainerId, user: User)
    | ResumeRow(id: ContainerId, user: User)
    | HibernateRow(id: ContainerId)
    | ReadImage
    | StartPod(ns: User, id: ContainerId)
    | DeletePods(ns: User, id: ContainerId)
    | TakeSnapshot(ns: User, id: ContainerId)

  /** The address and resource list Kubernetes picks for a pod it starts. */
  datatype Pick = Pick(ip: nat, resources: nat)

  predicate Exists(core: Core, id: ContainerId) {
    id < |core.rows| && core.rows[id].Some?
  }

  predicate Owned(core: Core, id: ContainerId, user: User) {
    Exists(core, id) && core.rows[id].value.owner == user
  }

  function UsedOn(core: Core, d: Device): Usage {
    if d in core.used then core.used[d] else ZERO
  }

  predicate Fits(core: Core, user: User, demand: Demand) {
    && user in core.active
    && core.active[user] in core.capacity
    && UsedOn(core, core.active[user]).Plus(demand).AtMost(core.capacity[core.active[user]])
  }

  /** Whether the platform carries a call out when it is served. */
  predicate Accepts(core: Core, call: Call) {
    match call
    case CreateRow(user, demand) => Fits(core, user, demand)
    case GetRow(id, user) => Owned(core, id, user)
    case UpdateRow(id, body) => body.userId.Some? && Owned(core, id, body.userId.value)
    case DeleteRow(id, user) => Owned(core, id, user)
    case ResumeRow(id, user) =>
      Owned(core, id, user) && core.rows[id].value.status == Hibernated && Fits(core, user, core.rows[id].value.demand)
    case HibernateRow(id) => Exists(core, id)
    case ReadImage => true
    case StartPod(_, _) => true
    case DeletePods(_, _) => true
    case TakeSnapshot(_, _) => true
  }

  /** The status code of a refusal that follows from the state: 404 for a row that is missing or
      not the caller's, 409 for a row that is not hibernated, 400 for a device without room. */
  function RejectionCode(core: Core, call: Call): nat {
    match call
    case CreateRow(_, _) => 400
    case ResumeRow(id, user) =>
      if !Owned(core, id, user) then 404
      else if core.rows[id].value.status != Hibernated then 409
      else 400
    case _ => 404
  }

  function Written<T>(old_: T, new_: Option<T>): T {
    if new_.Some? then new_.value else old_
  }

  function WrittenOption<T>(old_: Option<T>, new_: Option<T>): Option<T> {
    if new_.Some? then new_ else old_
  }

  function UpdatedRow(row: Row, body: Fields): Row {
    row.(status := Written(row.status, body.status),
         save := Written(row.save, body.save),
         kubernetesId := WrittenOption(row.kubernetesId, body.kubernetesId),
         ip := WrittenOption(row.ip, body.ip),
         resources := WrittenOption(row.resources, body.resources),
         savedImage := WrittenOption(row.savedImage, body.savedImage),
         demand := Written(row.demand, body.limits))
  }

  function PutRow(core: Core, id: ContainerId, row: Option<Row>): Core
    requires id < |core.rows|
  {
    core.(rows := core.rows[id := row])
  }

  function Reserve(core: Core, d: Device, demand: Demand): Core {
    core.(used := core.used[d := UsedOn(core, d).Plus(demand)])
  }

  function Release(core: Core, hold: Option<Hold>): Core {
    if hold.None? then core
    else core.(used := core.used[hold.value.device := UsedOn(core, hold.value.device).Minus(hold.value.demand)])
  }

  /** The row after Cloud's resume transition: reserved on the resolved device and RESUMING. */
  function ResumedRow(row: Row, d: Device): Row {
    row.(status := Resuming, hold := Some(Hold(d, row.demand)))
  }

  /** The row after Cloud's hibernate transition: device cleared and HIBERNATED. */
  function HibernatedRow(row: Row): Row {
    row.(status := Hibernated, hold := None)
  }

  function FreshRow(user: User, demand: Demand, d: Device): Row {
    Row(user, Pending, NotSaved, None, None, None, None, demand, Some(Hold(d, demand)))
  }

  function PodsOf(core: Core, ns: User, id: ContainerId): set<Pod> {
    set p | p in core.pods && p.ns == ns && p.container == id
  }

  function NewPod(core: Core, ns: User, id: ContainerId, pick: Pick): Pod {
    Pod(core.nextUid, ns, id, pick.ip, pick.resources)
  }

  /** The effect of a call, none if the platform does not accept it. */
  function Perform(core: Core, call: Call, pick: Pick): Core {
    if !Accepts(core, call) then core
    else
      match call
      case CreateRow(user, demand) =>
        var d := core.active[user];
        Reserve(core, d, demand).(rows := core.rows + [Some(FreshRow(user, demand, d))])
      case UpdateRow(id, body) => PutRow(core, id, Some(UpdatedRow(core.rows[id].value, body)))
      case DeleteRow(id, _) => PutRow(Release(core, core.rows[id].value.hold), id, None)
      case ResumeRow(id, user) =>
        var row, d := core.rows[id].value, core.active[user];
        PutRow(Reserve(core, d, row.demand), id, Some(ResumedRow(row, d)))
      case HibernateRow(id) =>
        var row := core.rows[id].value;
        PutRow(Release(core, row.hold), id, Some(HibernatedRow(row)))
      case StartPod(ns, id) =>
        core.(pods := core.pods + {NewPod(core, ns, id, pick)}, nextUid := core.nextUid + 1)
      case DeletePods(ns, id) => core.(pods := core.pods - PodsOf(core, ns, id))
      case GetRow(_, _) => core
      case ReadImage => core
      case TakeSnapshot(_, _) => core
  }

  /** What a served call returns. */
  datatype View = Nothing | RowView(row: Row) | PodView(pod: Pod)

  function ViewOf(core: Core, call: Call, pick: Pick): View
    requires Accepts(core, call)
  {
    match call
    case GetRow(id, _) => RowView(core.rows[id].value)
    case StartPod(ns, id) => PodView(NewPod(core, ns, id, pick))
    case _ => Nothing
  }

  /** 404 is honest: it is only ever the platform's own answer about a missing row. */
  type RefusalCode = c: nat | c >= 400 && c != 404 witness 500

  /** How one remote call goes: served and answered; refused without effect; carried out or not (or
      carried out later) with the reply lost; the same with a reply that cannot be decoded. */
  datatype Outcome =
    | Delivered(pick: Pick)
    | Refused(code: RefusalCode, message: string)
    | ReplyLost(now: bool, pick: Pick, message: string)
    | ReplyGarbled(now: bool, pick: Pick, message: string)

  const SERVED := Delivered(Pick(0, 0))

  datatype Reply =
    | Accepted(view: View)
    | Rejected(code: nat, message: string)
    | NoAnswer(message: string)
    | Unreadable(message: string)

  datatype Exchanged = Exchanged(core: Core, reply: Reply, took: bool)

  function Exchange(core: Core, call: Call, o: Outcome): Exchanged {
    match o
    case Delivered(pick) =>
      if Accepts(core, call) then Exchanged(Perform(core, call, pick), Accepted(ViewOf(core, call, pick)), true)
      else Exchanged(core, Rejected(RejectionCode(core, call), "rejected"), false)
    case Refused(code, message) => Exchanged(core, Rejected(code, message), false)
    case ReplyLost(now, pick, message) =>
      Exchanged(if now then Perform(core, call, pick) else core, NoAnswer(message), now && Accepts(core, call))
    case ReplyGarbled(now, pick, message) =>
      Exchanged(if now then Perform(core, call, pick) else core, Unreadable(message), now && Accepts(core, call))
  }

  /** Whether the call may still take effect after its caller has given up on it. */
  predicate StaysInFlight(o: Outcome) {
    (o.ReplyLost? || o.ReplyGarbled?) && !o.now
  }
}
