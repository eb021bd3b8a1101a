/** The handlers as they run: awaiting one remote call after another, branching on exceptions, against
    a platform they change. Each is tied to the step-by-step control flow of Sagas. */
module ApiHandlers {
  import opened Prelude
  import opened Platform
  import opened ErrorLayers
  import opened Sagas
  import opened SoloRuns
  import opened ShortSagas
  import FreshPods
  import ResumeExit
  import CreateExit

  const HIBERNATE_SAVE_WAIT_TIMEOUT_SECONDS := 300
  const HIBERNATE_SAVE_POLL_INTERVAL_SECONDS := 3

  /** The outcomes of calls number from, from + 1, ..., to - 1. */
  function Served(outcomes: nat -> Outcome, from: nat, to: nat): seq<Outcome>
    requires from <= to
  {
    seq(to - from, i requires 0 <= i < to - from => outcomes(from + i))
  }

  lemma ServedExtends(outcomes: nat -> Outcome, from: nat, to: nat)
    requires from <= to
    ensures Served(outcomes, from, to + 1) == Served(outcomes, from, to) + [outcomes(to)]
  {
  }

  /** One poll of hibernate's wait: when it began, and the save status it read or the exception it
      raised; None is for a row that is gone. */
  datatype Poll = Poll(at: nat, result: Result<Option<SaveStatus>, Raised>)

  predicate Terminal(result: Result<Option<SaveStatus>, Raised>) {
    result == Ok(Some(SaveSucceeded)) || result == Ok(Some(SaveFailed))
  }

  /** What the newest poll came to. */
  function NewestResult(seen: seq<Poll>): Result<Option<SaveStatus>, Raised> {
    if seen == [] then Ok(None) else seen[|seen| - 1].result
  }

  /** A poll inside the window that leaves the wait going. */
  predicate Undecided(p: Poll, begun: nat, timeout: nat) {
    begun <= p.at < begun + timeout && p.result.Ok? && !Terminal(p.result)
  }

  /** The polls of one wait: all but the newest came to nothing, and that one began inside the window. */
  predicate Watched(seen: seq<Poll>, begun: nat, timeout: nat) {
    && (forall k :: 0 <= k < |seen| - 1 ==> Undecided(seen[k], begun, timeout))
    && (seen != [] ==> begun <= seen[|seen| - 1].at < begun + timeout)
  }

  /** The number of polls that fit a window: timeout / interval, rounded up. */
  function PollLimit(timeout: nat, interval: nat): nat
    requires timeout > 0 && interval > 0
  {
    (timeout - 1) / interval + 1
  }

  /** No pod delete among these calls. */
  predicate NoDelete(sent: seq<Call>) {
    forall k :: 0 <= k < |sent| ==> !sent[k].DeletePods?
  }

  /** A poll begun inside the window after n others fits the limit. */
  lemma OneMorePoll(timeout: nat, interval: nat, n: nat)
    requires timeout > 0 && interval > 0 && interval * n < timeout
    ensures n + 1 <= PollLimit(timeout, interval)
    ensures interval * (n + 1) == interval * n + interval
  {
    var q := (timeout - 1) / interval;
    assert timeout - 1 < interval * (q + 1) by { assert timeout - 1 == interval * q + (timeout - 1) % interval; }
  }

  /** The lookup showed a row that is running and has a pod. */
  predicate ReadsReady(replies: seq<Reply>) {
    && replies != [] && replies[0].Accepted? && replies[0].view.RowView?
    && replies[0].view.row.status == Running && replies[0].view.row.kubernetesId.Some?
  }

  /** It showed a row that is not running, or has none. */
  predicate ReadsUnready(replies: seq<Reply>) {
    && replies != [] && replies[0].Accepted? && replies[0].view.RowView?
    && (replies[0].view.row.status != Running || replies[0].view.row.kubernetesId.None?)
  }

  predicate AllServed(replies: seq<Reply>) {
    forall k {:trigger replies[k]} :: 0 <= k < |replies| ==> replies[k].Accepted?
  }

  /** Of everything called, PENDING came second. */
  predicate PendingSecond(sent: seq<Call>, user: User, id: ContainerId) {
    |sent| >= 2 && sent[1] == UpdateRow(id, NO_FIELDS.(userId := Some(user), save := Some(SavePending)))
  }

  lemma ServedGrows(replies: seq<Reply>, reply: Reply)
    ensures AllServed(replies + [reply]) <==> AllServed(replies) && reply.Accepted?
  {
    var more := replies + [reply];
    if AllServed(more) {
      forall k | 0 <= k < |replies| ensures replies[k].Accepted? { assert more[k] == replies[k]; }
      assert more[|replies|] == reply;
    }
  }

  /** A hibernate instance of this user for this container. */
  predicate Hibernating(run: Run, user: User, id: ContainerId) {
    run.user == user && run.id == id && run.saga == Hibernate
  }

  /** Each stage follows from the one before by the reply received there. */
  ghost predicate Leads(start: Run, stages: seq<Run>, replies: seq<Reply>) {
    && |stages| == |replies| + 1 && stages[0] == start
    && forall k {:trigger replies[k]} :: 0 <= k < |replies| ==>
         !stages[k].pc.Ended? && stages[k + 1] == Continue(stages[k], replies[k])
  }

  lemma LeadsOn(start: Run, stages: seq<Run>, replies: seq<Reply>, reply: Reply)
    requires Leads(start, stages, replies) && !stages[|replies|].pc.Ended?
    ensures Leads(start, stages + [Continue(stages[|replies|], reply)], replies + [reply])
  {
    var stages', replies' := stages + [Continue(stages[|replies|], reply)], replies + [reply];
    forall k | 0 <= k < |replies'|
      ensures !stages'[k].pc.Ended? && stages'[k + 1] == Continue(stages'[k], replies'[k])
    {
      if k < |replies| { assert replies'[k] == replies[k]; }
    }
  }

  lemma LedBefore(start: Run, stages: seq<Run>, replies: seq<Reply>)
    requires Leads(start, stages, replies) && replies != []
    ensures var n := |replies| - 1;
            && Leads(start, stages[..n + 1], replies[..n])
            && !stages[n].pc.Ended? && stages[n + 1] == Continue(stages[n], replies[n])
  {
    var n := |replies| - 1;
    var ss, rs := stages[..n + 1], replies[..n];
    forall k | 0 <= k < n ensures !ss[k].pc.Ended? && ss[k + 1] == Continue(ss[k], rs[k]) {
      assert rs[k] == replies[k];
    }
    assert stages[n + 1] == Continue(stages[n], replies[n]);
  }

  /** The last of the stages is the one the replies fold to. */
  lemma {:induction false} LeadsToFold(start: Run, stages: seq<Run>, replies: seq<Reply>)
    requires Leads(start, stages, replies)
    ensures Fold(start, replies) == stages[|replies|]
    decreases |replies|
  {
    if replies != [] {
      var n := |replies| - 1;
      LedBefore(start, stages, replies);
      LeadsToFold(start, stages[..n + 1], replies[..n]);
      FoldExtends(start, replies[..n], replies[n]);
      assert replies == replies[..n] + [replies[n]];
    }
  }

  /** The row after these reports of a Job: the last one stands. */
  function Told(core: Core, id: ContainerId, reports: seq<SaveStatus>): Core {
    if reports == [] || !Exists(core, id) then core
    else PutRow(core, id, Some(core.rows[id].value.(save := reports[|reports| - 1])))
  }

  /** What the FAILED write of a save changes. */
  lemma FailedWriteChanges(core: Core, user: User, id: ContainerId, o: Outcome)
    ensures var core' := Exchange(core, UpdateRow(id, Merge(SaveWrite(SaveFailed), user)), o).core;
            && core'.pods == core.pods && core'.used == core.used && |core'.rows| == |core.rows|
            && (forall c :: 0 <= c < |core.rows| && c != id ==> core'.rows[c] == core.rows[c])
            && (Owned(core, id, user) ==>
                  && Exists(core', id)
                  && core'.rows[id].value
                     == core.rows[id].value.(save := if TakesNow(o) then SaveFailed else core.rows[id].value.save))
  {
  }

  /** A call with this outcome is carried out by the time its caller goes on, if the platform accepts it. */
  predicate TakesNow(o: Outcome) {
    o.Delivered? || (!o.Refused? && o.now)
  }

  class Handlers {
    var core: Core
    var calls: nat
    var now: nat
    ghost var sent: seq<Call>      // the calls of the current request
    ghost var replies: seq<Reply>  // and their replies
    ghost var journey: seq<Run>    // the stages a waiting request has been through
    const outcomes: nat -> Outcome
    const latency: nat -> nat
    const oversleep: nat -> nat
    const meanwhile: (nat, Core) -> Core
    const reports: nat -> seq<SaveStatus>

    constructor (core: Core, outcomes: nat -> Outcome, latency: nat -> nat, oversleep: nat -> nat,
                 meanwhile: (nat, Core) -> Core, reports: nat -> seq<SaveStatus>)
      ensures this.core == core && calls == 0 && now == 0 && sent == [] && replies == []
      ensures this.outcomes == outcomes && this.latency == latency
      ensures this.oversleep == oversleep && this.meanwhile == meanwhile && this.reports == reports
    {
      this.core, calls, now, sent, replies, journey := core, 0, 0, [], [], [];
      this.outcomes, this.latency, this.oversleep := outcomes, latency, oversleep;
      this.meanwhile, this.reports := meanwhile, reports;
    }

    /** Await one remote call. */
    method Send(call: Call) returns (reply: Reply)
      modifies this
      ensures calls == old(calls) + 1 && now == old(now) + latency(old(calls))
      ensures var x := Exchange(old(core), call, outcomes(old(calls))); core == x.core && reply == x.reply
      ensures sent == old(sent) + [call] && replies == old(replies) + [reply] && journey == old(journey)
    {
      var x := Exchange(core, call, outcomes(calls));
      core, reply := x.core, x.reply;
      now := now + latency(calls);
      calls := calls + 1;
      sent, replies := sent + [call], replies + [reply];
    }

    /** Await a lapse of time, while everyone else does what they like to the platform. */
    method Elapse(seconds: nat)
      modifies this`core, this`now
      ensures now == old(now) + seconds + oversleep(calls)
      ensures core == meanwhile(old(now), old(core))
    {
      core := meanwhile(now, core);
      now := now + seconds + oversleep(calls);
    }

    // Handlers that nothing overlaps: each call is the next one of the lone run.

    /** The lone run that began as `start` when `from` calls had been made. */
    ghost function At(start: Solo, from: nat): Solo
      reads this
      requires from <= calls
    {
      SoloRun(start, Served(outcomes, from, calls))
    }

    /** Await the call the lone run is at. */
    method Await(call: Call, ghost start: Solo, ghost from: nat) returns (reply: Reply)
      requires from <= calls && At(start, from).core == core
      requires !At(start, from).run.pc.Ended? && call == CallOf(At(start, from).run)
      modifies this
      ensures from <= calls && At(start, from).core == core
      ensures At(start, from).run == Continue(old(At(start, from).run), reply)
    {
      ghost var before := calls;
      reply := Send(call);
      ServedExtends(outcomes, from, before);
      SoloRunExtends(start, Served(outcomes, from, before), outcomes(before));
    }

    /** ContainerService.create_container_in_k8s, for create and for resume: the image is looked up
        unless the caller overrides it, then container-maker is asked for the pod. */
    method StartContainer(ns: User, id: ContainerId, imageOverride: bool, ghost start: Solo, ghost from: nat)
      returns (result: Result<View, Raised>)
      requires from <= calls && At(start, from).core == core
      requires var run := At(start, from).run;
               && run.pc == (if imageOverride then AtStartPod else AtImage)
               && run.id == id && Namespace(run) == ns
      modifies this
      ensures from <= calls && At(start, from).core == core
      ensures var run, was := At(start, from).run, old(At(start, from).run);
              && run == was.(pc := run.pc)
              && match result {
                   case Err(e) => run.pc == if was.saga.Resume? then ResumeFail(e, true) else AtRelease(e)
                   case Ok(view) =>
                     run.pc == if was.saga.Resume? && view.PodView? then AtSync(view.pod) else Done(200)
                 }
    {
      if !imageOverride {
        var read := Await(ReadImage, start, from);
        var image := ImageRead(read);
        if image.Err? { return Err(image.error); }
      }
      var reply := Await(StartPod(ns, id), start, from);
      return ServiceGrpc(reply);
    }

    /** The part of resume's try block after Cloud's transition. */
    method RecreatePod(user: User, id: ContainerId, row: Row, ghost start: Solo, ghost from: nat)
      returns (result: Result<Response, Raised>)
      requires from <= calls && At(start, from).core == core
      requires At(start, from).run == Run(user, id, Resume, AtStamp, Some(row))
      modifies this
      ensures from <= calls && At(start, from).core == core
      ensures var run := At(start, from).run;
              && run.user == user && run.id == id
              && run.pc == match result { case Ok(response) => Ended(response) case Err(e) => ResumeFail(e, true) }
    {
      var reply := Await(UpdateRow(id, Merge(NO_FIELDS, user)), start, from);
      var stamped := DbUpdate(reply);
      if stamped.Err? { return Err(stamped.error); }

      var started := StartContainer(row.owner, id, row.savedImage.Some?, start, from);
      if started.Err? { return Err(started.error); }
      if !started.value.PodView? { return Ok(Response(200, "")); }

      result := RecordPod(user, id, started.value.pod, start, from);
    }

    /** The final sync of resume: the identity of the new pod, and RUNNING. */
    method RecordPod(user: User, id: ContainerId, pod: Pod, ghost start: Solo, ghost from: nat)
      returns (result: Result<Response, Raised>)
      requires from <= calls && At(start, from).core == core
      requires var run := At(start, from).run;
               run.user == user && run.id == id && run.saga == Resume && run.pc == AtSync(pod)
      modifies this
      ensures from <= calls && At(start, from).core == core
      ensures var run := At(start, from).run;
              && run.user == user && run.id == id
              && run.pc == match result { case Ok(response) => Ended(response) case Err(e) => ResumeFail(e, true) }
    {
      var reply := Await(UpdateRow(id, Merge(SyncFields(pod), user)), start, from);
      var synced := DbUpdate(reply);
      if synced.Err? { return Err(synced.error); }
      return Ok(Response(200, ""));
    }

    /** The try block of resume: a response, or the exception that left it; `resumed` tells whether
        Cloud's transition is known to have succeeded. */
    method TryResume(user: User, id: ContainerId, ghost start: Solo, ghost from: nat)
      returns (result: Result<Response, Raised>, resumed: bool)
      requires start == Alone(core, user, id, Resume) && from == calls
      modifies this
      ensures from <= calls && At(start, from).core == core
      ensures var run := At(start, from).run;
              && run.user == user && run.id == id
              && run.pc == match result { case Ok(response) => Ended(response) case Err(e) => ResumeFail(e, resumed) }
    {
      resumed := false;
      assert At(start, from) == start;
      var reply := Await(GetRow(id, user), start, from);
      var found := DbGet(reply);
      if found.Err? { return Err(found.error), resumed; }
      if found.value.None? { return Ok(Response(404, "not found")), resumed; }

      reply := Await(ResumeRow(id, user), start, from);
      match Request(reply) {
        case Err(CloudError(code, message)) => return Ok(Response(if code == 0 then 500 else code, message)), resumed;
        case Err(e) => return Err(e), resumed;
        case Ok(_) =>
      }
      resumed := true;
      result := RecreatePod(user, id, found.value.value, start, from);
    }

    /** POST /resume-container. */
    method ResumeContainer(user: User, id: ContainerId) returns (response: Response)
      modifies this
      ensures old(calls) <= calls
      ensures var s := SoloRun(Alone(old(core), user, id, Resume), Served(outcomes, old(calls), calls));
              && s.core == core && s.run.pc == Ended(response)
              && (FreshPods.FreshUids(old(core)) ==> ResumeExit.Exit(old(core), s, user, id, response.code))
    {
      response := RunResume(user, id);
      if FreshPods.FreshUids(old(core)) {
        ResumeExit.ResumeExits(old(core), user, id, Served(outcomes, old(calls), calls));
      }
    }

    method RunResume(user: User, id: ContainerId) returns (response: Response)
      modifies this
      ensures old(calls) <= calls
      ensures var s := SoloRun(Alone(old(core), user, id, Resume), Served(outcomes, old(calls), calls));
              s.core == core && s.run.pc == Ended(response)
    {
      ghost var start, from := Alone(core, user, id, Resume), calls;
      var result, resumed := TryResume(user, id, start, from);
      match result {
        case Ok(r) => response := r;
        case Err(e) =>
          response := ErrorResponse(e);
          if !e.HttpError? { AfterFailure(user, id, e, resumed, start, from); }
      }
    }

    /** resume's last clause: roll Cloud's transition back, or mark the row FAILED if there was none. */
    method AfterFailure(user: User, id: ContainerId, e: Raised, resumed: bool, ghost start: Solo, ghost from: nat)
      requires from <= calls && At(start, from).core == core
      requires var run := At(start, from).run;
               run.user == user && run.id == id && !e.HttpError? && run.pc == ResumeFail(e, resumed)
      modifies this
      ensures from <= calls && At(start, from).core == core && At(start, from).run.pc == Ended(ErrorResponse(e))
    {
      if resumed {
        var _ := Await(HibernateRow(id), start, from);
      } else {
        var _ := Await(UpdateRow(id, Merge(NO_FIELDS.(status := Some(Status.Failed)), user)), start, from);
      }
    }

    /** POST /create-container-in-k8s: a failed creation releases the row once, and the reply carries
        the failure whatever that release does. */
    method CreateContainerInK8s(user: User, id: ContainerId) returns (response: Response)
      modifies this
      ensures old(calls) <= calls
      ensures var s := SoloRun(Alone(old(core), user, id, CreateInK8s), Served(outcomes, old(calls), calls));
              && s.core == core && s.run.pc == Ended(response)
              && CreateExit.Exit(old(core), s, user, id, response)
    {
      response := RunCreate(user, id);
      CreateExit.CreateExits(old(core), user, id, Served(outcomes, old(calls), calls));
    }

    method RunCreate(user: User, id: ContainerId) returns (response: Response)
      modifies this
      ensures old(calls) <= calls
      ensures var s := SoloRun(Alone(old(core), user, id, CreateInK8s), Served(outcomes, old(calls), calls));
              s.core == core && s.run.pc == Ended(response)
    {
      ghost var start, from := Alone(core, user, id, CreateInK8s), calls;
      assert At(start, from) == start;
      var reply := Await(GetRow(id, user), start, from);
      var found := DbGet(reply);
      if found.Err? { return ErrorResponse(found.error); }
      if found.value.None? { return Response(404, "not found"); }
      var started := StartContainer(user, id, false, start, from);
      if started.Err? {
        var _ := Await(DeleteRow(id, user), start, from);
        return ErrorResponse(started.error);
      }
      return Response(200, "");
    }

    /** POST /save-container: a 202 goes out at once, with PENDING on the row, and leaves the snapshot to
        a background task. */
    method SaveContainer(user: User, id: ContainerId) returns (response: Response)
      modifies this
      ensures old(calls) <= calls
      ensures var s := SoloRun(Alone(old(core), user, id, Save), Served(outcomes, old(calls), calls));
              s.core == core && s.run.pc == if response.code == 202 then AtSnapshot else Ended(response)
      ensures response.code == 202 ==> Owned(core, id, user) && core.rows[id].value.save == SavePending
    {
      response := StartSave(user, id);
      SavePends(old(core), user, id, Served(outcomes, old(calls), calls));
    }

    method StartSave(user: User, id: ContainerId) returns (response: Response)
      modifies this
      ensures old(calls) <= calls
      ensures var s := SoloRun(Alone(old(core), user, id, Save), Served(outcomes, old(calls), calls));
              s.core == core && s.run.pc == if response.code == 202 then AtSnapshot else Ended(response)
    {
      ghost var start, from := Alone(core, user, id, Save), calls;
      assert At(start, from) == start;
      var reply := Await(GetRow(id, user), start, from);
      var found := DbGet(reply);
      if found.Err? { return ErrorResponse(found.error); }
      if found.value.None? { return Response(404, "not found"); }
      response := MarkPending(user, id, start, from);
    }

    method MarkPending(user: User, id: ContainerId, ghost start: Solo, ghost from: nat) returns (response: Response)
      requires from <= calls && At(start, from).core == core
      requires var run := At(start, from).run;
               run.user == user && run.id == id && run.saga == Save && run.pc == AtPendingWrite
      modifies this
      ensures from <= calls && At(start, from).core == core
      ensures At(start, from).run.pc == if response.code == 202 then AtSnapshot else Ended(response)
    {
      var reply := Await(UpdateRow(id, Merge(SaveWrite(SavePending), user)), start, from);
      var marked := DbUpdate(reply);
      return if marked.Err? then ErrorResponse(marked.error) else Response(202, "");
    }

    /** _run_save, the background task of a save, at any later time. The snapshot call lasts until the Job
        is done, so the Job's reports come before the reply. If the call is answered with success the row
        says what the Job reported last; if not, FAILED is written over it, whatever it was, even
        SUCCEEDED, unless that write has no effect itself. Nothing else changes. */
    method RunSave(user: User, id: ContainerId)
      modifies this
      ensures var n := old(calls);
              var told, answered := Told(old(core), id, reports(n)), outcomes(n).Delivered?;
              && calls == (if answered then n + 1 else n + 2)
              && core.pods == told.pods && core.used == told.used && |core.rows| == |told.rows|
              && (forall c :: 0 <= c < |told.rows| && c != id ==> core.rows[c] == told.rows[c])
              && (Owned(told, id, user) ==>
                    && Exists(core, id)
                    && core.rows[id].value
                       == told.rows[id].value.(save := if !answered && TakesNow(outcomes(n + 1)) then SaveFailed
                                                       else told.rows[id].value.save))
    {
      var reply := SendMeanwhile(TakeSnapshot(user, id), id);
      FailedWriteChanges(core, user, id, outcomes(calls));
      if ServiceGrpc(reply).Err? {
        var _ := Send(UpdateRow(id, Merge(SaveWrite(SaveFailed), user)));
      }
    }

    /** Await one remote call that a snapshot Job reports during. */
    method SendMeanwhile(call: Call, id: ContainerId) returns (reply: Reply)
      modifies this
      ensures calls == old(calls) + 1
      ensures var x := Exchange(Told(old(core), id, reports(old(calls))), call, outcomes(old(calls)));
              core == x.core && reply == x.reply
    {
      core := Told(core, id, reports(calls));
      reply := Send(call);
    }

    /** POST /delete-container-in-db. */
    method DeleteContainerInDb(user: User, id: ContainerId) returns (response: Response)
      modifies this
      ensures old(calls) <= calls
      ensures var s := SoloRun(Alone(old(core), user, id, DeleteInDb), Served(outcomes, old(calls), calls));
              s.core == core && s.run.pc == Ended(response)
    {
      ghost var start, from := Alone(core, user, id, DeleteInDb), calls;
      assert At(start, from) == start;
      var reply := Await(DeleteRow(id, user), start, from);
      var deleted := ServiceDelete(reply);
      return if deleted.Err? then ErrorResponse(deleted.error) else Response(200, "");
    }

    // Hibernate waits for the snapshot Job, so its platform changes under it, here before every call:
    // its own control flow is tied to the saga.

    /** The stages of the current request lead from `start` to `stage`. */
    ghost predicate Follows(start: Run, stage: Run)
      reads this
    {
      Leads(start, journey, replies) && journey[|replies|] == stage
    }

    /** Await the call an instance is at, after everyone else has done what they like. */
    method AwaitAs(call: Call, ghost start: Run, ghost stage: Run) returns (reply: Reply)
      requires Follows(start, stage) && !stage.pc.Ended? && call == CallOf(stage)
      modifies this
      ensures now >= old(now) && sent == old(sent) + [call] && replies == old(replies) + [reply]
      ensures AllServed(replies) <==> AllServed(old(replies)) && reply.Accepted?
      ensures Follows(start, Continue(stage, reply))
    {
      Elapse(0);
      ghost var before := replies;
      reply := Send(call);
      LeadsOn(start, journey, before, reply);
      ServedGrows(before, reply);
      journey := journey + [Continue(stage, reply)];
    }

    /** Up to the finished save call: None to go on waiting, or the early answer. */
    method TriggerSave(user: User, id: ContainerId) returns (early: Option<Response>, ghost stage: Run)
      requires sent == [] && replies == [] && Follows(Start(user, id, Hibernate), Start(user, id, Hibernate))
      modifies this
      ensures ReadsReady(replies) ==> PendingSecond(sent, user, id)
      ensures ReadsUnready(replies) ==> |sent| == 1 && early.Some? && early.value.code == 409
      ensures early.None? ==> ReadsReady(replies)
      ensures ReadsReady(replies) && AllServed(replies) ==> early.None?
      ensures NoDelete(sent) && Follows(Start(user, id, Hibernate), stage) && Hibernating(stage, user, id)
      ensures stage.pc == if early.None? then AtPoll else Ended(early.value)
    {
      ghost var start := Start(user, id, Hibernate);
      stage := start;
      var reply := AwaitAs(GetRow(id, user), start, stage);
      stage := Continue(stage, reply);
      var found := DbGet(reply);
      if found.Err? { return Some(ErrorResponse(found.error)), stage; }
      if found.value.None? { return Some(Response(404, "not found")), stage; }
      var row := found.value.value;
      if row.status != Running { return Some(Response(409, "not running")), stage; }
      if row.kubernetesId.None? { return Some(Response(409, "no pod")), stage; }
      early, stage := AskForSnapshot(user, id, start, stage);
    }

    /** PENDING on the row, and then container-maker is asked for the snapshot. */
    method AskForSnapshot(user: User, id: ContainerId, ghost start: Run, ghost before: Run)
      returns (early: Option<Response>, ghost stage: Run)
      requires |sent| == 1 && |replies| == 1 && NoDelete(sent)
      requires Follows(start, before) && Hibernating(before, user, id) && before.pc == AtPendingWrite
      modifies this
      ensures PendingSecond(sent, user, id) && old(replies) <= replies
      ensures AllServed(replies) ==> early.None?
      ensures NoDelete(sent) && Follows(start, stage) && Hibernating(stage, user, id)
      ensures stage.pc == if early.None? then AtPoll else Ended(early.value)
    {
      stage := before;
      var reply := AwaitAs(UpdateRow(id, Merge(SaveWrite(SavePending), user)), start, stage);
      stage := Continue(stage, reply);
      var marked := DbUpdate(reply);
      if marked.Err? { return Some(ErrorResponse(marked.error)), stage; }
      reply := AwaitAs(TakeSnapshot(user, id), start, stage);
      stage := Continue(stage, reply);
      var saved := ServiceGrpc(reply);
      return if saved.Err? then Some(ErrorResponse(saved.error)) else None, stage;
    }

    /** One poll: the save status of the row, None if the row is gone. */
    method PollSaveStatus(user: User, id: ContainerId, ghost start: Run, ghost before: Run)
      returns (result: Result<Option<SaveStatus>, Raised>, ghost stage: Run)
      requires NoDelete(sent) && Follows(start, before) && Hibernating(before, user, id) && before.pc == AtPoll
      modifies this
      ensures NoDelete(sent) && now >= old(now) && old(sent) <= sent && old(replies) <= replies
      ensures AllServed(replies) ==> result.Ok?
      ensures Follows(start, stage) && Hibernating(stage, user, id) && stage.pc == PolledPc(result)
    {
      var reply := AwaitAs(GetRow(id, user), start, before);
      stage := Continue(before, reply);
      var current := DbGet(reply);
      if current.Err? { return Err(current.error), stage; }
      return Ok(if current.value.Some? then Some(current.value.value.save) else None), stage;
    }

    /** The poll loop: what the newest poll came to. */
    method AwaitSnapshot(user: User, id: ContainerId, timeout: nat, interval: nat, ghost start: Run, ghost before: Run)
      returns (result: Result<Option<SaveStatus>, Raised>, ghost seen: seq<Poll>, ghost stage: Run)
      requires timeout > 0 && interval > 0
      requires NoDelete(sent) && Follows(start, before) && Hibernating(before, user, id) && before.pc == AtPoll
      modifies this
      ensures NoDelete(sent)
      ensures Follows(start, stage) && Hibernating(stage, user, id) && stage.pc == PolledPc(result)
      ensures |seen| <= PollLimit(timeout, interval) && Watched(seen, old(now), timeout)
      ensures result == NewestResult(seen)
      ensures old(sent) <= sent && old(replies) <= replies && (AllServed(replies) ==> result.Ok?)
    {
      seen, stage := [], before;
      ghost var begun, spent := now, 0;
      var deadline := now + timeout;
      var saveStatus: Option<SaveStatus> := None;
      while now < deadline
        invariant now >= begun + spent && spent == interval * |seen|
        invariant |seen| <= PollLimit(timeout, interval)
        invariant forall k :: 0 <= k < |seen| ==> Undecided(seen[k], begun, timeout)
        invariant NewestResult(seen) == Ok(saveStatus)
        invariant old(sent) <= sent && old(replies) <= replies
        invariant NoDelete(sent) && Follows(start, stage) && Hibernating(stage, user, id) && stage.pc == AtPoll
        decreases deadline - now
      {
        ghost var polledAt := now;
        var current;
        current, stage := PollSaveStatus(user, id, start, stage);
        OneMorePoll(timeout, interval, |seen|);
        spent := spent + interval;
        seen := seen + [Poll(polledAt, current)];
        if current.Err? { return current, seen, stage; }
        saveStatus := current.value;
        if Terminal(current) { break; }
        Elapse(interval);
      }
      return Ok(saveStatus), seen, stage;
    }

    /** After a confirmed save: delete the pod, then Cloud's transition. */
    method RemovePod(user: User, id: ContainerId, ghost start: Run, ghost before: Run)
      returns (response: Response, ghost stage: Run)
      requires Follows(start, before) && Hibernating(before, user, id) && before.pc == AtDeletePods
      modifies this
      ensures DeletePods(user, id) in sent && old(sent) <= sent && old(replies) <= replies
      ensures AllServed(replies) ==> response.code == 200
      ensures Follows(start, stage) && stage.pc == Ended(response)
    {
      stage := before;
      var reply := AwaitAs(DeletePods(user, id), start, stage);
      stage := Continue(stage, reply);
      var deleted := ServiceGrpc(reply);
      if deleted.Err? { return ErrorResponse(deleted.error), stage; }
      reply := AwaitAs(HibernateRow(id), start, stage);
      stage := Continue(stage, reply);
      var hibernated := Request(reply);
      if hibernated.Err? { return ErrorResponse(hibernated.error), stage; }
      reply := AwaitAs(GetRow(id, user), start, stage);
      stage := Continue(stage, reply);
      var updated := DbGet(reply);
      return if updated.Err? then ErrorResponse(updated.error) else Response(200, ""), stage;
    }

    /** POST /hibernate-container, for any positive window and interval. `seen` lists the polls, the
        first of them no earlier than `begun`. */
    method HibernateContainer(user: User, id: ContainerId, timeout: nat, interval: nat)
      returns (response: Response, ghost seen: seq<Poll>, ghost begun: nat)
      requires timeout > 0 && interval > 0
      modifies this
      // the wait is bounded, and polling goes on only while no poll has come to anything
      ensures |seen| <= PollLimit(timeout, interval) && Watched(seen, begun, timeout)
      // the pod is deleted exactly when the first terminal status seen is SUCCEEDED
      ensures DeletePods(user, id) in sent <==> NewestResult(seen) == Ok(Some(SaveSucceeded))
      ensures NewestResult(seen) == Ok(Some(SaveFailed)) ==> response.code == 502
      ensures NewestResult(seen).Err? ==> response == ErrorResponse(NewestResult(seen).error)
      // it goes on only from a row that is running and has a pod, and then with PENDING
      ensures ReadsReady(replies) ==> PendingSecond(sent, user, id)
      ensures ReadsUnready(replies) ==> |sent| == 1 && response.code == 409
      // from such a row, with every call served, it goes through exactly if a poll reads SUCCEEDED
      ensures ReadsReady(replies) && AllServed(replies) ==>
                (response.code == 200 <==> NewestResult(seen) == Ok(Some(SaveSucceeded)))
      // the control flow is the saga's; a window that closes first answers 502
      ensures var pc := Fold(Start(user, id, Hibernate), replies).pc;
              pc == Ended(response) || (pc.AtPoll? && response.code == 502)
    {
      ghost var start := Start(user, id, Hibernate);
      sent, replies, journey := [], [], [start];
      ghost var stage;
      response, seen, begun, stage := RunHibernate(user, id, timeout, interval);
      LeadsToFold(start, journey, replies);
    }

    method RunHibernate(user: User, id: ContainerId, timeout: nat, interval: nat)
      returns (response: Response, ghost seen: seq<Poll>, ghost begun: nat, ghost stage: Run)
      requires timeout > 0 && interval > 0
      requires sent == [] && replies == [] && Follows(Start(user, id, Hibernate), Start(user, id, Hibernate))
      modifies this
      ensures ReadsReady(replies) ==> PendingSecond(sent, user, id)
      ensures ReadsUnready(replies) ==> |sent| == 1 && response.code == 409
      ensures ReadsReady(replies) && AllServed(replies) ==>
                (response.code == 200 <==> NewestResult(seen) == Ok(Some(SaveSucceeded)))
      ensures |seen| <= PollLimit(timeout, interval) && Watched(seen, begun, timeout)
      ensures DeletePods(user, id) in sent <==> NewestResult(seen) == Ok(Some(SaveSucceeded))
      ensures NewestResult(seen) == Ok(Some(SaveFailed)) ==> response.code == 502
      ensures NewestResult(seen).Err? ==> response == ErrorResponse(NewestResult(seen).error)
      ensures Follows(Start(user, id, Hibernate), stage)
      ensures stage.pc == Ended(response) || (stage.pc.AtPoll? && response.code == 502)
    {
      ghost var start := Start(user, id, Hibernate);
      seen, begun := [], 0;
      var early;
      early, stage := TriggerSave(user, id);
      if early.Some? { return early.value, seen, begun, stage; }
      begun := now;
      var saved;
      saved, seen, stage := AwaitSnapshot(user, id, timeout, interval, start, stage);
      if saved.Err? { return ErrorResponse(saved.error), seen, begun, stage; }
      if saved.value != Some(SaveSucceeded) { return Response(502, "save failed"), seen, begun, stage; }
      response, stage := RemovePod(user, id, start, stage);
    }
  }

  /** With the constants of the source, the wait makes at most 100 polls. */
  lemma PollsOfTheSource()
    ensures PollLimit(HIBERNATE_SAVE_WAIT_TIMEOUT_SECONDS, HIBERNATE_SAVE_POLL_INTERVAL_SECONDS) == 100
  {
  }
}
