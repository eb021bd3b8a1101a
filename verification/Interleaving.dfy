/** Any number of handler instances, the snapshot Job, the status monitor and the reaper, stepping
    in any order over the shared platform. A step that is not possible leaves the world as it is, so
    every sequence of labels is a run. */
module Interleaving {
  import opened Prelude
  import opened Platform
  import opened Sagas

  /** A call whose caller has given up on it and that may still take effect, once. */
  datatype InFlight = InFlight(run: nat, call: Call, landed: bool)

  datatype Event =
    | Called(run: nat, saga: Saga, call: Call, reply: Reply, took: bool)
    | Landed(run: nat, call: Call, took: bool)
    | JobWrote(id: ContainerId, save: SaveStatus, asker: nat)
    | Other

  datatype World = World(core: Core, runs: seq<Run>, late: seq<InFlight>, trace: seq<Event>)

  datatype Phase = PodPending | PodRunning | PodFailed

  datatype Label =
    | Begin(user: User, id: ContainerId, saga: Saga)
    | Act(run: nat, outcome: Outcome)
    | WindowCloses(run: nat)
    | Land(k: nat, pick: Pick)
    | Job(id: ContainerId, save: SaveStatus, asker: nat)
    | Monitor(id: ContainerId, phase: Phase)
    | Reap(id: ContainerId)
    | Activate(user: User, device: Device)

  predicate CanAct(w: World, r: nat) {
    r < |w.runs| && !w.runs[r].pc.Ended?
  }

  function DoAct(w: World, r: nat, o: Outcome): World
    requires CanAct(w, r)
  {
    var call := CallOf(w.runs[r]);
    var x := Exchange(w.core, call, o);
    World(x.core,
          w.runs[r := Continue(w.runs[r], x.reply)],
          if StaysInFlight(o) then w.late + [InFlight(r, call, false)] else w.late,
          w.trace + [Called(r, w.runs[r].saga, call, x.reply, x.took)])
  }

  predicate CanClose(w: World, r: nat) {
    r < |w.runs| && w.runs[r].pc.AtPoll?
  }

  function DoClose(w: World, r: nat): World
    requires CanClose(w, r)
  {
    w.(runs := w.runs[r := w.runs[r].(pc := Ended(Response(502, "timed out")))], trace := w.trace + [Other])
  }

  predicate CanLand(w: World, k: nat) {
    k < |w.late| && !w.late[k].landed
  }

  function DoLand(w: World, k: nat, pick: Pick): World
    requires CanLand(w, k)
  {
    var l := w.late[k];
    w.(core := Perform(w.core, l.call, pick),
       late := w.late[k := l.(landed := true)],
       trace := w.trace + [Landed(l.run, l.call, Accepts(w.core, l.call))])
  }

  /** Instance r has called for a snapshot of this container, whatever the reply. */
  predicate AskedFor(trace: seq<Event>, r: nat, id: ContainerId) {
    trace != [] && (Asks(trace[|trace| - 1], r, id) || AskedFor(trace[..|trace| - 1], r, id))
  }

  predicate Asks(e: Event, r: nat, id: ContainerId) {
    e.Called? && e.run == r && e.call.TakeSnapshot? && e.call.id == id
  }

  /** Instance r's snapshot call for this container is under way. */
  predicate Asking(w: World, r: nat, id: ContainerId) {
    r < |w.runs| && w.runs[r].id == id && w.runs[r].pc.AtSnapshot?
  }

  /** A Job reports for the instance whose snapshot call it serves: while that call is under way, or at
      any time after it, also long after the instance has ended. */
  predicate CanReport(w: World, id: ContainerId, asker: nat) {
    Exists(w.core, id) && (Asking(w, asker, id) || AskedFor(w.trace, asker, id))
  }

  /** A snapshot Job writes its verdict. */
  function DoJob(w: World, id: ContainerId, save: SaveStatus, asker: nat): World
    requires Exists(w.core, id)
  {
    w.(core := PutRow(w.core, id, Some(w.core.rows[id].value.(save := save))),
       trace := w.trace + [JobWrote(id, save, asker)])
  }

  function PhaseStatus(p: Phase): Status {
    match p case PodPending => Pending case PodRunning => Running case PodFailed => Failed
  }

  function DoMonitor(w: World, id: ContainerId, p: Phase): World
    requires Exists(w.core, id)
  {
    w.(core := PutRow(w.core, id, Some(w.core.rows[id].value.(status := PhaseStatus(p)))), trace := w.trace + [Other])
  }

  function Next(w: World, l: Label): World {
    match l
    case Begin(user, id, saga) => w.(runs := w.runs + [Start(user, id, saga)], trace := w.trace + [Other])
    case Act(r, o) => if CanAct(w, r) then DoAct(w, r, o) else w
    case WindowCloses(r) => if CanClose(w, r) then DoClose(w, r) else w
    case Land(k, pick) => if CanLand(w, k) then DoLand(w, k, pick) else w
    case Job(id, save, asker) => if CanReport(w, id, asker) then DoJob(w, id, save, asker) else w
    case Monitor(id, p) => if Exists(w.core, id) then DoMonitor(w, id, p) else w
    case Reap(id) => w.(core := Perform(w.core, HibernateRow(id), Pick(0, 0)), trace := w.trace + [Other])
    case Activate(user, device) =>
      w.(core := w.core.(active := w.core.active[user := device]), trace := w.trace + [Other])
  }

  function Init(capacity: map<Device, Demand>): World {
    World(Core([], map[], capacity, map[], {}, 0), [], [], [])
  }

  function Execute(capacity: map<Device, Demand>, ls: seq<Label>): World {
    if ls == [] then Init(capacity)
    else Next(Execute(capacity, ls[..|ls| - 1]), ls[|ls| - 1])
  }

  /** More of a history, from any world. */
  function ExecuteFrom(w: World, ls: seq<Label>): World {
    if ls == [] then w else Next(ExecuteFrom(w, ls[..|ls| - 1]), ls[|ls| - 1])
  }

  lemma ExecuteExtends(capacity: map<Device, Demand>, ls: seq<Label>, l: Label)
    ensures Execute(capacity, ls + [l]) == Next(Execute(capacity, ls), l)
  {
    assert (ls + [l])[..|ls|] == ls;
  }

  lemma {:induction false} ExecuteSplits(capacity: map<Device, Demand>, ls: seq<Label>, rest: seq<Label>)
    ensures Execute(capacity, ls + rest) == ExecuteFrom(Execute(capacity, ls), rest)
    decreases |rest|
  {
    if rest == [] {
      assert ls + rest == ls;
    } else {
      var before := rest[..|rest| - 1];
      assert ls + rest == (ls + before) + [rest[|rest| - 1]];
      ExecuteExtends(capacity, ls + before, rest[|rest| - 1]);
      ExecuteSplits(capacity, ls, before);
    }
  }

  /** Between w and v instance r has not moved: it is where it was, or newly begun, and no event of its
      own has been recorded. */
  predicate LeavesAlone(w: World, v: World, r: nat) {
    && |w.runs| <= |v.runs|
    && (r < |w.runs| ==> v.runs[r] == w.runs[r])
    && (|w.runs| <= r < |v.runs| ==> v.runs[r] == Start(v.runs[r].user, v.runs[r].id, v.runs[r].saga))
    && (v.trace == w.trace
        || (|v.trace| == |w.trace| + 1 && v.trace == w.trace + [v.trace[|w.trace|]]
            && !(v.trace[|w.trace|].Called? && v.trace[|w.trace|].run == r)))
  }

  /** A step by instance r itself, with or without a call. */
  predicate OwnStep(w: World, l: Label, r: nat) {
    (l.Act? && l.run == r && CanAct(w, r)) || (l.WindowCloses? && l.run == r && CanClose(w, r))
  }

  lemma OthersLeaveAlone(w: World, l: Label, r: nat)
    requires !OwnStep(w, l, r)
    ensures LeavesAlone(w, Next(w, l), r)
  {
  }

  /** This call of instance r took effect, in time or late. */
  predicate TookBy(trace: seq<Event>, r: nat, call: Call) {
    trace != [] && (Takes(trace[|trace| - 1], r, call) || TookBy(trace[..|trace| - 1], r, call))
  }

  predicate Takes(e: Event, r: nat, call: Call) {
    (e.Called? || e.Landed?) && e.run == r && e.call == call && e.took
  }

  lemma TookAfterEvent(trace: seq<Event>, e: Event, r: nat, call: Call)
    ensures TookBy(trace + [e], r, call) <==> Takes(e, r, call) || TookBy(trace, r, call)
  {
    assert (trace + [e])[..|trace|] == trace;
  }
}
