/** Any schedule of a Cursor bridge session: what each action does to jobs, tasks and log, without the
    dictionaries, and what holds whatever the schedule (codex_shim/cursor_bridge.py, CursorBridgeSession). */
module BridgeRun {
  import opened Common
  import opened BridgeLog
  import opened Bridge

  /** What may happen next: a call starts, a task takes its next step or is cancelled, an output is
      ingested, or the turn changes. A step that is not enabled does nothing. */
  datatype Action =
    | Invoke(tool: string, argumentsAreObject: bool)
    | Wait(jobId: string, patient: bool)
    | Poll(patient: bool)
    | Step(task: nat, timedOut: bool, expired: bool, resolved: Option<string>, failure: Option<string>)
    | CancelTask(task: nat)
    | Ingest(callId: string, output: string)
    | AttachTurn(stream: bool, collector: bool)
    | Reopen
    | CloseTurn

  /** A session without its dictionaries and its count of waiters. */
  datatype Picture = Picture(log: seq<Happening>, jobs: seq<BridgeJob>, tasks: seq<Task>, lockHolder: Option<nat>,
                             invokeCount: nat, hasStream: bool, hasCollector: bool, turnCompleteRequested: bool,
                             turnClosed: bool)
  {
    function Put(t: nat, task: Task): Picture
      requires t < |tasks|
    {
      this.(tasks := tasks[t := task])
    }

    function Add(task: Task): Picture {
      this.(tasks := tasks + [task])
    }
  }

  const NEW_SESSION := Picture([], [], [], None, 0, false, false, false, false)

  function View(session: CursorBridgeSession): Picture
    reads session
  {
    Picture(session.log, session.jobs, session.tasks, session.lockHolder, session.invokeCount, session.hasStream,
            session.hasCollector, session.turnCompleteRequested, session.turnClosed)
  }

  // ---- What an action does ----

  /** The job with an id that has not been consumed. */
  function LiveById(jobs: seq<BridgeJob>, id: string): Option<nat> {
    if jobs == [] then None
    else
      var n := |jobs| - 1;
      if jobs[n].jobId == id && !jobs[n].status.Consumed? then Some(n) else LiveById(jobs[..n], id)
  }

  function LiveByCall(jobs: seq<BridgeJob>, callId: string): Option<nat> {
    if jobs == [] then None
    else
      var n := |jobs| - 1;
      if jobs[n].callId == callId && !jobs[n].status.Consumed? then Some(n) else LiveByCall(jobs[..n], callId)
  }

  lemma {:induction false} LiveMeans(jobs: seq<BridgeJob>, x: string)
    ensures match LiveById(jobs, x)
            case Some(k) => k < |jobs| && jobs[k].jobId == x && !jobs[k].status.Consumed?
            case None => forall k :: 0 <= k < |jobs| ==> jobs[k].jobId != x || jobs[k].status.Consumed?
    ensures match LiveByCall(jobs, x)
            case Some(k) => k < |jobs| && jobs[k].callId == x && !jobs[k].status.Consumed?
            case None => forall k :: 0 <= k < |jobs| ==> jobs[k].callId != x || jobs[k].status.Consumed?
  {
    if jobs != [] {
      LiveMeans(jobs[..|jobs| - 1], x);
    }
  }

  /** The dictionaries find exactly the jobs that have not been consumed. */
  lemma DictionariesFind(jobs: seq<BridgeJob>, byId: map<string, nat>, byCall: map<string, nat>, x: string)
    requires IndexesMatch(jobs, byId, byCall)
    ensures LiveById(jobs, x) == if x in byId then Some(byId[x]) else None
    ensures LiveByCall(jobs, x) == if x in byCall then Some(byCall[x]) else None
    ensures x in byId ==> byId[x] < |jobs|
    ensures x in byCall ==> byCall[x] < |jobs|
  {
    LiveMeans(jobs, x);
  }

  function AfterWait(s: Picture, jobId: string, patient: bool): Picture {
    var clean := Strip(jobId);
    var found := LiveById(s.jobs, clean);
    if clean == "" then s.Add(Finished(Refused("job_id_required")))
    else if found.None? || found.value >= |s.jobs| then s.Add(Finished(UnknownJob(clean)))
    else
      var pending := s.jobs[found.value].status.Pending?;
      s.Add(WaitRequesting(found.value, patient, pending && !s.turnCompleteRequested))
       .(turnCompleteRequested := s.turnCompleteRequested || pending)
  }

  function AfterPoll(s: Picture, patient: bool): Picture {
    var some := exists k :: 0 <= k < |s.jobs| && !s.jobs[k].status.Consumed?;
    s.Add(PollRequesting(patient, some && !s.turnCompleteRequested))
     .(turnCompleteRequested := s.turnCompleteRequested || some)
  }

  function AfterIngest(s: Picture, callId: string, output: string): Picture {
    var clean := Strip(callId);
    var found := LiveByCall(s.jobs, clean);
    var logged := s.(log := s.log + [Ingested(clean, output)]);
    if found.None? || found.value >= |s.jobs| || !s.jobs[found.value].status.Pending? then logged
    else logged.(jobs := s.jobs[found.value := s.jobs[found.value].(status := Ready, output := Some(output))])
  }

  function AfterCancel(s: Picture, t: nat): Picture {
    if t >= |s.tasks| || s.tasks[t].Finished? then s
    else s.Put(t, Finished(Reply.Cancelled)).(lockHolder := if s.tasks[t].InvokeEmitting? then None else s.lockHolder)
  }

  /** An invocation that has the lock. */
  function AfterInvoke(bridgeId: string, mintJobId: nat -> string, s: Picture, t: nat, expired: bool,
                       resolved: Option<string>): Picture
    requires t < |s.tasks|
  {
    var allowed := !expired && !s.turnClosed && resolved.Some?;
    var number := s.invokeCount + (if allowed then 1 else 0);
    var k, jobId, callId := |s.jobs|, mintJobId(number), CallIdOf(bridgeId, number);
    if !allowed || (!s.hasStream && !s.hasCollector) then
      s.Put(t, Finished(Refused(RefusalOf(expired, s.turnClosed, resolved)))).(invokeCount := number)
    else
      s.Put(t, if s.hasStream then InvokeEmitting(k) else Finished(Accepted(jobId, callId)))
       .(invokeCount := number, lockHolder := if s.hasStream then Some(t) else None,
         log := s.log + [Created(k, callId)],
         jobs := s.jobs + [BridgeJob(jobId, callId, number, resolved.value, Pending, None)])
  }

  function AfterWaitRequest(s: Picture, t: nat, k: nat, patient: bool, requester: bool): Picture
    requires t < |s.tasks| && k < |s.jobs|
  {
    var next := match s.jobs[k].status
                case Pending => if patient then WaitBlocked(k) else Finished(TimedOut(s.jobs[k].jobId))
                case Ready => WaitLocking(k)
                case Consumed => Finished(UnknownJob(s.jobs[k].jobId));
    s.Put(t, next).(turnClosed := s.turnClosed || requester)
  }

  function AfterBlocked(s: Picture, t: nat, k: nat, timedOut: bool): Picture
    requires t < |s.tasks| && k < |s.jobs|
  {
    if !timedOut && s.jobs[k].status.Pending? then s
    else s.Put(t, if timedOut then Finished(TimedOut(s.jobs[k].jobId))
                  else if s.jobs[k].status.Ready? then WaitLocking(k)
                  else Finished(UnknownJob(s.jobs[k].jobId)))
  }

  /** A waiter that has the lock. */
  function AfterTake(s: Picture, t: nat, k: nat): Picture
    requires t < |s.tasks| && k < |s.jobs|
  {
    var job := s.jobs[k];
    if job.status.Ready? then
      s.Put(t, Finished(Taken(Payload(job.jobId, job.callId, job.tool, job.output))))
       .(log := s.log + [Delivered(t, k, job.output.GetOr(""))], jobs := s.jobs[k := job.(status := Consumed)])
    else s.Put(t, Finished(UnknownJob(job.jobId)))
  }

  ghost function AfterPollRequest(s: Picture, t: nat, patient: bool, requester: bool): Picture
    requires t < |s.tasks|
  {
    var pending := set k | 0 <= k < |s.jobs| && s.jobs[k].status.Pending?;
    var blocks := patient && pending != {} && !(exists k :: 0 <= k < |s.jobs| && s.jobs[k].status.Ready?);
    s.Put(t, if blocks then PollBlocked(pending) else PollLocking).(turnClosed := s.turnClosed || requester)
  }

  function AllTaken(jobs: seq<BridgeJob>): seq<BridgeJob> {
    seq(|jobs|, k requires 0 <= k < |jobs| => if jobs[k].status.Ready? then jobs[k].(status := Consumed) else jobs[k])
  }

  /** A poll that has the lock. */
  function AfterCollect(s: Picture, t: nat): Picture
    requires t < |s.tasks|
  {
    s.Put(t, Finished(Collected(ReadyPayloads(s.jobs, |s.jobs|), PendingCount(AllTaken(s.jobs)))))
     .(log := s.log + ReadyDeliveries(t, s.jobs, |s.jobs|), jobs := AllTaken(s.jobs))
  }

  /** The call of an invocation is written, or that fails. */
  function AfterEmit(s: Picture, t: nat, k: nat, failure: Option<string>): Picture
    requires t < |s.tasks| && k < |s.jobs|
  {
    s.Put(t, Finished(if failure.Some? then Refused(failure.value)
                      else Accepted(s.jobs[k].jobId, s.jobs[k].callId))).(lockHolder := None)
  }

  function AfterPollBlocked(s: Picture, t: nat, pending: set<nat>, timedOut: bool): Picture
    requires t < |s.tasks|
  {
    if timedOut || exists k :: k in pending && k < |s.jobs| && !s.jobs[k].status.Pending? then s.Put(t, PollLocking)
    else s
  }

  /** The tasks refer to jobs. */
  predicate TaskFits(s: Picture, t: nat) {
    t < |s.tasks| &&
    (s.tasks[t].InvokeEmitting? || s.tasks[t].WaitRequesting? || s.tasks[t].WaitBlocked? || s.tasks[t].WaitLocking? ==>
       s.tasks[t].job < |s.jobs|)
  }

  ghost function AfterStep(bridgeId: string, mintJobId: nat -> string, s: Picture, t: nat, timedOut: bool,
                           expired: bool, resolved: Option<string>, failure: Option<string>): Picture {
    if !TaskFits(s, t) then s
    else
      match s.tasks[t]
      case InvokeLocking(_) =>
        if s.lockHolder.Some? then s else AfterInvoke(bridgeId, mintJobId, s, t, expired, resolved)
      case InvokeEmitting(k) => AfterEmit(s, t, k, failure)
      case WaitRequesting(k, patient, requester) => AfterWaitRequest(s, t, k, patient, requester)
      case WaitBlocked(k) => AfterBlocked(s, t, k, timedOut)
      case WaitLocking(k) => if s.lockHolder.Some? then s else AfterTake(s, t, k)
      case PollRequesting(patient, requester) => AfterPollRequest(s, t, patient, requester)
      case PollBlocked(pending) => AfterPollBlocked(s, t, pending, timedOut)
      case PollLocking => if s.lockHolder.Some? then s else AfterCollect(s, t)
      case Finished(_) => s
  }

  ghost function After(bridgeId: string, mintJobId: nat -> string, s: Picture, a: Action): Picture {
    match a
    case Invoke(tool, argumentsAreObject) =>
      s.Add(if argumentsAreObject then InvokeLocking(tool)
            else Finished(Refused("arguments must be a JSON object")))
    case Wait(jobId, patient) => AfterWait(s, jobId, patient)
    case Poll(patient) => AfterPoll(s, patient)
    case Step(t, timedOut, expired, resolved, failure) =>
      AfterStep(bridgeId, mintJobId, s, t, timedOut, expired, resolved, failure)
    case CancelTask(t) => AfterCancel(s, t)
    case Ingest(callId, output) => AfterIngest(s, callId, output)
    case AttachTurn(stream, collector) =>
      s.(hasStream := stream, hasCollector := collector,
         turnCompleteRequested := if !stream && !collector then false else s.turnCompleteRequested)
    case Reopen => s.(turnClosed := false, turnCompleteRequested := false)
    case CloseTurn => s.(turnClosed := true)
  }


  // ---- Any schedule ----

  /** One task moves on; what it holds afterwards has been handed out to it. */
  ghost predicate Advanced(s: Picture, after: Picture, t: nat) {
    && s.log <= after.log && SameIds(s.jobs, after.jobs)
    && |after.tasks| == |s.tasks| && t < |s.tasks| && after.tasks == s.tasks[t := after.tasks[t]]
    && forall p :: p in PayloadsOf(after.tasks[t]) ==> HandedOut(after.log, after.jobs, t, p)
  }

  method StepInvoke(session: CursorBridgeSession, t: nat, expired: bool, resolved: Option<string>)
    requires session.Valid() && t < |session.tasks| && session.tasks[t].InvokeLocking? && session.lockHolder.None?
    modifies session
    ensures session.Valid() && Advanced(old(View(session)), View(session), t)
    ensures View(session) ==
            AfterInvoke(session.bridgeId, session.mintJobId, old(View(session)), t, expired, resolved)
  {
    hide CursorBridgeSession.Valid, CallIdOf, HandedOut;
    session.RunInvoke(t, expired, resolved);
  }

  method StepWait(session: CursorBridgeSession, t: nat, k: nat, patient: bool, requester: bool)
    requires session.Valid() && t < |session.tasks| && session.tasks[t] == WaitRequesting(k, patient, requester)
    modifies session
    ensures session.Valid() && Advanced(old(View(session)), View(session), t)
    ensures k < |old(session.jobs)|
    ensures View(session) == AfterWaitRequest(old(View(session)), t, k, patient, requester)
  {
    hide CursorBridgeSession.Valid, HandedOut;
    session.ContinueWait(t);
  }

  method StepBlocked(session: CursorBridgeSession, t: nat, k: nat, timedOut: bool)
    requires session.Valid() && t < |session.tasks| && session.tasks[t] == WaitBlocked(k) && k < |session.jobs|
    modifies session
    ensures session.Valid() && Advanced(old(View(session)), View(session), t)
    ensures View(session) == AfterBlocked(old(View(session)), t, k, timedOut)
  {
    hide CursorBridgeSession.Valid, HandedOut;
    if timedOut || !session.jobs[k].status.Pending? {
      session.ResumeWait(t, timedOut);
    }
  }

  method StepTake(session: CursorBridgeSession, t: nat, k: nat)
    requires session.Valid() && t < |session.tasks| && session.tasks[t] == WaitLocking(k) && session.lockHolder.None?
    modifies session
    ensures session.Valid() && Advanced(old(View(session)), View(session), t)
    ensures k < |old(session.jobs)| && View(session) == AfterTake(old(View(session)), t, k)
  {
    hide CursorBridgeSession.Valid, HandedOut;
    AnsweredReady(session);
    session.TakeJob(t);
    var job := old(session.jobs)[k];
    if job.status.Ready? {
      TakenHandedOut(session.log, session.jobs, t, k, job);
    }
  }

  method StepPoll(session: CursorBridgeSession, t: nat, patient: bool, requester: bool)
    requires session.Valid() && t < |session.tasks| && session.tasks[t] == PollRequesting(patient, requester)
    modifies session
    ensures session.Valid() && Advanced(old(View(session)), View(session), t)
    ensures View(session) == AfterPollRequest(old(View(session)), t, patient, requester)
  {
    hide CursorBridgeSession.Valid, HandedOut;
    session.ContinuePoll(t);
  }

  method StepEmit(session: CursorBridgeSession, t: nat, k: nat, failure: Option<string>)
    requires session.Valid() && t < |session.tasks| && session.tasks[t] == InvokeEmitting(k) && k < |session.jobs|
    modifies session
    ensures session.Valid() && Advanced(old(View(session)), View(session), t)
    ensures View(session) == AfterEmit(old(View(session)), t, k, failure)
  {
    hide CursorBridgeSession.Valid, HandedOut;
    session.FinishEmit(t, if failure.Some? then Some(Refused(failure.value)) else None);
  }

  method StepPollBlocked(session: CursorBridgeSession, t: nat, pending: set<nat>, timedOut: bool)
    requires session.Valid() && t < |session.tasks| && session.tasks[t] == PollBlocked(pending)
    modifies session
    ensures session.Valid() && Advanced(old(View(session)), View(session), t)
    ensures View(session) == AfterPollBlocked(old(View(session)), t, pending, timedOut)
  {
    hide CursorBridgeSession.Valid, HandedOut;
    if timedOut || exists k :: k in pending && k < |session.jobs| && !session.jobs[k].status.Pending? {
      session.ResumePoll(t, timedOut);
    }
  }

  lemma SessionTaskFits(session: CursorBridgeSession, t: nat)
    requires session.Valid() && t < |session.tasks|
    ensures TaskFits(View(session), t)
  {
    hide JobsMatch, IndexesMatch, Numbered, Sound, Distinct, Waiters;
    TaskJobs(session.jobs, session.tasks, session.lockHolder, t);
  }

  method StepCollect(session: CursorBridgeSession, t: nat)
    requires session.Valid() && t < |session.tasks| && session.tasks[t].PollLocking? && session.lockHolder.None?
    modifies session
    ensures session.Valid() && Advanced(old(View(session)), View(session), t)
    ensures View(session) == AfterCollect(old(View(session)), t)
  {
    hide CursorBridgeSession.Valid, HandedOut, ReadyDeliveries, ReadyPayloads, PendingCount;
    AnsweredReady(session);
    session.CollectJobs(t);
    assert session.jobs == AllTaken(old(session.jobs));
    ReadyHandedOut(t, old(session.jobs), |session.jobs|, old(session.log), session.jobs);
  }

  lemma AnsweredReady(session: CursorBridgeSession)
    requires session.Valid()
    ensures forall k :: 0 <= k < |session.jobs| && session.jobs[k].status.Ready? ==> session.jobs[k].output.Some?
  {
    hide IndexesMatch, Numbered, Sound, TasksMatch, StatusIn;
    hide CallOf, Deliveries;
    ReadyAnswered(session.log, session.jobs);
  }

  lemma ReadyAnswered(log: seq<Happening>, jobs: seq<BridgeJob>)
    requires JobsMatch(log, jobs)
    ensures forall k :: 0 <= k < |jobs| && jobs[k].status.Ready? ==> jobs[k].output.Some?
  {
  }

  lemma TaskJobs(jobs: seq<BridgeJob>, tasks: seq<Task>, lockHolder: Option<nat>, t: nat)
    requires TasksMatch(jobs, tasks, lockHolder) && t < |tasks|
    ensures tasks[t].InvokeEmitting? || tasks[t].WaitRequesting? || tasks[t].WaitBlocked? || tasks[t].WaitLocking?
            ==> tasks[t].job < |jobs|
  {
  }

  /** A task takes its next step if it can: the lock is free, the event is set or the time is up. */
  method StepTask(session: CursorBridgeSession, t: nat, timedOut: bool, expired: bool, resolved: Option<string>,
                  failure: Option<string>)
    requires session.Valid() && RepliesMatch(session.log, session.jobs, session.tasks)
    modifies session
    ensures session.Valid() && RepliesMatch(session.log, session.jobs, session.tasks)
    ensures View(session) == AfterStep(session.bridgeId, session.mintJobId, old(View(session)), t, timedOut, expired,
                                       resolved, failure)
  {
    hide RepliesMatch, HandedOut, CallIdOf, AfterInvoke, AfterTake, AfterCollect, AfterWaitRequest, AfterBlocked,
         AfterPollRequest, AfterEmit, AfterPollBlocked, CursorBridgeSession.Valid;
    if t >= |session.tasks| { return; }
    var free := session.lockHolder.None?;
    SessionTaskFits(session, t);
    match session.tasks[t] {
      case InvokeLocking(_) => if free { StepInvoke(session, t, expired, resolved); }
      case InvokeEmitting(k) => StepEmit(session, t, k, failure);
      case WaitRequesting(k, patient, requester) => StepWait(session, t, k, patient, requester);
      case WaitBlocked(k) => StepBlocked(session, t, k, timedOut);
      case WaitLocking(k) => if free { StepTake(session, t, k); }
      case PollRequesting(patient, requester) => StepPoll(session, t, patient, requester);
      case PollBlocked(pending) => StepPollBlocked(session, t, pending, timedOut);
      case PollLocking => if free { StepCollect(session, t); }
      case Finished(_) =>
    }
    RepliesKeep(old(session.log), session.log, old(session.jobs), session.jobs, old(session.tasks), session.tasks);
  }

  // ---- What is delivered is held ----

  /** The caller of a delivery holds the job's result: its ids, its tool and the output. */
  ghost predicate IsHeld(s: Picture, e: Happening) {
    e.Delivered? ==>
      && e.caller < |s.tasks| && e.job < |s.jobs| && s.jobs[e.job].output == Some(e.output)
      && Payload(s.jobs[e.job].jobId, s.jobs[e.job].callId, s.jobs[e.job].tool, Some(e.output))
         in PayloadsOf(s.tasks[e.caller])
  }

  /** Nothing that was delivered has been lost on the way. */
  ghost predicate AllHeld(s: Picture) {
    forall e :: e in s.log ==> IsHeld(s, e)
  }

  /** A result that is ready has an output. */
  ghost predicate ReadyHaveOutput(s: Picture) {
    forall k :: 0 <= k < |s.jobs| && s.jobs[k].status.Ready? ==> s.jobs[k].output.Some?
  }

  /** Jobs keep their ids, their tools and their outputs, and callers what they hold. */
  ghost predicate Grows(s: Picture, after: Picture) {
    && |s.jobs| <= |after.jobs| && |s.tasks| <= |after.tasks|
    && (forall k :: 0 <= k < |s.jobs| ==>
          && after.jobs[k].jobId == s.jobs[k].jobId && after.jobs[k].callId == s.jobs[k].callId
          && after.jobs[k].tool == s.jobs[k].tool
          && (s.jobs[k].output.Some? ==> after.jobs[k].output == s.jobs[k].output))
    && (forall t :: 0 <= t < |s.tasks| && PayloadsOf(s.tasks[t]) != [] ==> after.tasks[t] == s.tasks[t])
  }

  lemma HeldStays(s: Picture, after: Picture)
    requires AllHeld(s) && Grows(s, after)
    requires forall e :: e in after.log ==> e in s.log || IsHeld(after, e)
    ensures AllHeld(after)
  {
    forall e | e in after.log && e in s.log ensures IsHeld(after, e) {
      assert IsHeld(s, e);
    }
  }

  /** A poll's deliveries are of the jobs that were ready, and it hands all of them out. */
  lemma {:induction false} ReadyDelivered(caller: nat, jobs: seq<BridgeJob>, n: nat, e: Happening)
    requires n <= |jobs| && e in ReadyDeliveries(caller, jobs, n)
    ensures e.Delivered? && e.caller == caller && e.job < n && jobs[e.job].status.Ready?
    ensures var job := jobs[e.job];
            e.output == job.output.GetOr("")
            && Payload(job.jobId, job.callId, job.tool, job.output) in ReadyPayloads(jobs, n)
  {
    if e in ReadyDeliveries(caller, jobs, n - 1) {
      ReadyDelivered(caller, jobs, n - 1, e);
    }
  }

  lemma CollectHolds(s: Picture, t: nat)
    requires AllHeld(s) && ReadyHaveOutput(s) && t < |s.tasks| && s.tasks[t].PollLocking?
    ensures AllHeld(AfterCollect(s, t))
  {
    hide ReadyDeliveries, ReadyPayloads, PendingCount;
    var after := AfterCollect(s, t);
    forall e | e in after.log && e !in s.log ensures IsHeld(after, e) {
      ReadyDelivered(t, s.jobs, |s.jobs|, e);
    }
    HeldStays(s, after);
  }

  lemma TakeHolds(s: Picture, t: nat, k: nat)
    requires AllHeld(s) && ReadyHaveOutput(s) && t < |s.tasks| && s.tasks[t] == WaitLocking(k) && k < |s.jobs|
    ensures AllHeld(AfterTake(s, t, k))
  {
    var after := AfterTake(s, t, k);
    if s.jobs[k].status.Ready? {
      assert after.tasks[t] == Finished(Taken(Payload(s.jobs[k].jobId, s.jobs[k].callId, s.jobs[k].tool,
                                                      s.jobs[k].output)));
      assert IsHeld(after, Delivered(t, k, s.jobs[k].output.GetOr("")));
    }
    HeldStays(s, after);
  }

  lemma InvokeHolds(bridgeId: string, mintJobId: nat -> string, s: Picture, t: nat, expired: bool,
                    resolved: Option<string>)
    requires AllHeld(s) && t < |s.tasks| && s.tasks[t].InvokeLocking?
    ensures AllHeld(AfterInvoke(bridgeId, mintJobId, s, t, expired, resolved))
  {
    hide CallIdOf;
    HeldStays(s, AfterInvoke(bridgeId, mintJobId, s, t, expired, resolved));
  }

  lemma IngestHolds(s: Picture, callId: string, output: string)
    requires AllHeld(s) && forall k :: 0 <= k < |s.jobs| && s.jobs[k].status.Pending? ==> s.jobs[k].output.None?
    ensures AllHeld(AfterIngest(s, callId, output))
  {
    hide LiveByCall;
    HeldStays(s, AfterIngest(s, callId, output));
  }

  /** A task that holds nothing moves on, and nothing else happens to jobs or log. */
  ghost predicate Moves(s: Picture, after: Picture, t: nat) {
    && t < |s.tasks| == |after.tasks| && after.log == s.log && after.jobs == s.jobs
    && PayloadsOf(s.tasks[t]) == [] && forall i :: 0 <= i < |s.tasks| && i != t ==> after.tasks[i] == s.tasks[i]
  }

  lemma MoveHolds(s: Picture, after: Picture, t: nat)
    requires AllHeld(s) && Moves(s, after, t)
    ensures AllHeld(after)
  {
    HeldStays(s, after);
  }

  lemma EmitMoves(s: Picture, t: nat, k: nat, failure: Option<string>)
    requires TaskFits(s, t) && s.tasks[t] == InvokeEmitting(k)
    ensures Moves(s, AfterEmit(s, t, k, failure), t)
  {
  }

  lemma WaitMoves(s: Picture, t: nat, k: nat, patient: bool, requester: bool, timedOut: bool)
    requires TaskFits(s, t)
    ensures s.tasks[t] == WaitRequesting(k, patient, requester) ==>
              Moves(s, AfterWaitRequest(s, t, k, patient, requester), t)
    ensures s.tasks[t] == WaitBlocked(k) ==> Moves(s, AfterBlocked(s, t, k, timedOut), t)
  {
  }

  lemma PollMoves(s: Picture, t: nat, patient: bool, requester: bool, pending: set<nat>, timedOut: bool)
    requires TaskFits(s, t)
    ensures s.tasks[t] == PollRequesting(patient, requester) ==>
              Moves(s, AfterPollRequest(s, t, patient, requester), t)
    ensures s.tasks[t] == PollBlocked(pending) ==> Moves(s, AfterPollBlocked(s, t, pending, timedOut), t)
  {
  }

  /** The steps that neither create nor deliver. */
  lemma StepMoves(bridgeId: string, mintJobId: nat -> string, s: Picture, t: nat, timedOut: bool, expired: bool,
                  resolved: Option<string>, failure: Option<string>)
    requires TaskFits(s, t) && !s.tasks[t].Finished? && !s.tasks[t].InvokeLocking? && !s.tasks[t].WaitLocking?
             && !s.tasks[t].PollLocking?
    ensures Moves(s, AfterStep(bridgeId, mintJobId, s, t, timedOut, expired, resolved, failure), t)
  {
    hide AfterInvoke, AfterTake, AfterCollect, AfterEmit, AfterWaitRequest, AfterBlocked, AfterPollRequest,
         AfterPollBlocked, Moves;
    match s.tasks[t]
    case InvokeEmitting(k) => EmitMoves(s, t, k, failure);
    case WaitRequesting(k, patient, requester) => WaitMoves(s, t, k, patient, requester, timedOut);
    case WaitBlocked(k) => WaitMoves(s, t, k, false, false, timedOut);
    case PollRequesting(patient, requester) => PollMoves(s, t, patient, requester, {}, timedOut);
    case PollBlocked(pending) => PollMoves(s, t, false, false, pending, timedOut);
  }

  lemma StepHolds(bridgeId: string, mintJobId: nat -> string, s: Picture, t: nat, timedOut: bool, expired: bool,
                  resolved: Option<string>, failure: Option<string>)
    requires AllHeld(s) && ReadyHaveOutput(s)
    ensures AllHeld(AfterStep(bridgeId, mintJobId, s, t, timedOut, expired, resolved, failure))
  {
    hide AfterInvoke, AfterTake, AfterCollect, AfterEmit, AfterWaitRequest, AfterBlocked, AfterPollRequest,
         AfterPollBlocked, AllHeld, Moves, ReadyHaveOutput;
    if TaskFits(s, t) {
      match s.tasks[t]
      case InvokeLocking(_) => InvokeHolds(bridgeId, mintJobId, s, t, expired, resolved);
      case WaitLocking(k) => TakeHolds(s, t, k);
      case PollLocking => CollectHolds(s, t);
      case Finished(_) =>
      case _ =>
        StepMoves(bridgeId, mintJobId, s, t, timedOut, expired, resolved, failure);
        MoveHolds(s, AfterStep(bridgeId, mintJobId, s, t, timedOut, expired, resolved, failure), t);
    }
  }

  lemma CancelHolds(s: Picture, t: nat)
    requires AllHeld(s)
    ensures AllHeld(AfterCancel(s, t))
  {
    HeldStays(s, AfterCancel(s, t));
  }

  /** One more task, which holds nothing. */
  lemma AddedHolds(s: Picture, task: Task, requested: bool)
    requires AllHeld(s)
    ensures AllHeld(s.Add(task).(turnCompleteRequested := requested))
  {
    HeldStays(s, s.Add(task).(turnCompleteRequested := requested));
  }

  lemma WaitHolds(s: Picture, jobId: string, patient: bool)
    requires AllHeld(s)
    ensures AllHeld(AfterWait(s, jobId, patient))
  {
    hide AllHeld, LiveById;
    var after := AfterWait(s, jobId, patient);
    AddedHolds(s, after.tasks[|s.tasks|], after.turnCompleteRequested);
  }

  lemma PollHolds(s: Picture, patient: bool)
    requires AllHeld(s)
    ensures AllHeld(AfterPoll(s, patient))
  {
    hide AllHeld;
    var after := AfterPoll(s, patient);
    AddedHolds(s, after.tasks[|s.tasks|], after.turnCompleteRequested);
  }

  /** Whatever happens, callers keep what was delivered to them, and get what is. */
  lemma ActionHolds(bridgeId: string, mintJobId: nat -> string, s: Picture, a: Action)
    requires AllHeld(s) && ReadyHaveOutput(s)
    requires forall k :: 0 <= k < |s.jobs| && s.jobs[k].status.Pending? ==> s.jobs[k].output.None?
    ensures AllHeld(After(bridgeId, mintJobId, s, a))
  {
    hide AfterStep, AfterIngest, AfterWait, AfterPoll, AfterCancel, AllHeld, LiveById, LiveByCall, Strip;
    match a
    case Wait(jobId, patient) => WaitHolds(s, jobId, patient);
    case Poll(patient) => PollHolds(s, patient);
    case CancelTask(t) => CancelHolds(s, t);
    case Step(t, timedOut, expired, resolved, failure) =>
      StepHolds(bridgeId, mintJobId, s, t, timedOut, expired, resolved, failure);
    case Ingest(callId, output) => IngestHolds(s, callId, output);
    case _ => HeldStays(s, After(bridgeId, mintJobId, s, a));
  }

  function PayloadOf(job: BridgeJob): Payload {
    Payload(job.jobId, job.callId, job.tool, job.output)
  }

  /** The jobs that a step moves from ready to consumed, oldest first. */
  ghost function TakenBy(s: Picture, after: Picture): seq<int> {
    Sorted(set k | 0 <= k < |s.jobs| && k < |after.jobs| && s.jobs[k].status.Ready? && after.jobs[k].status.Consumed?)
  }

  /** A poll returns one result for each job that it moves from ready to consumed, in the order of the jobs, and the
      number of those still pending; it leaves none ready. */
  ghost predicate PollsRight(s: Picture, after: Picture) {
    forall t :: 0 <= t < |s.tasks| && t < |after.tasks| && s.tasks[t].PollLocking? && after.tasks[t].Finished?
                && after.tasks[t].reply.Collected? ==>
      var payloads, taken := after.tasks[t].reply.payloads, TakenBy(s, after);
      && |payloads| == |taken|
      && (forall i :: 0 <= i < |payloads| ==>
            0 <= taken[i] < |s.jobs| && payloads[i] == PayloadOf(s.jobs[taken[i]]))
      && (forall k :: 0 <= k < |after.jobs| ==> !after.jobs[k].status.Ready?)
      && after.tasks[t].reply.pending == |set k | 0 <= k < |after.jobs| && after.jobs[k].status.Pending?|
  }

  ghost function ReadyBelow(jobs: seq<BridgeJob>, n: nat): set<int>
    requires n <= |jobs|
  {
    set k | 0 <= k < n && jobs[k].status.Ready?
  }

  lemma ReadyBelowSnoc(jobs: seq<BridgeJob>, n: nat)
    requires n < |jobs|
    ensures Sorted(ReadyBelow(jobs, n + 1))
            == Sorted(ReadyBelow(jobs, n)) + (if jobs[n].status.Ready? then [n] else [])
  {
    var before, ready := Sorted(ReadyBelow(jobs, n)), Sorted(ReadyBelow(jobs, n + 1));
    assert forall x :: x in before ==> x in ReadyBelow(jobs, n);
    if jobs[n].status.Ready? {
      assert forall i :: 0 <= i < |before| ==> before[i] in before;
      forall x ensures x in ready <==> x in before + [n] {
        assert x in ready <==> x in ReadyBelow(jobs, n + 1);
        assert x in before <==> x in ReadyBelow(jobs, n);
      }
      IncreasingUnique(ready, before + [n]);
    } else {
      assert ReadyBelow(jobs, n + 1) == ReadyBelow(jobs, n);
      assert before + [] == before;
    }
  }

  lemma {:induction false} ReadyPayloadsAre(jobs: seq<BridgeJob>, n: nat)
    requires n <= |jobs|
    ensures var ready, payloads := Sorted(ReadyBelow(jobs, n)), ReadyPayloads(jobs, n);
            && |payloads| == |ready|
            && forall i :: 0 <= i < |ready| ==> 0 <= ready[i] < n && payloads[i] == PayloadOf(jobs[ready[i]])
  {
    hide ReadyBelow, Sorted;
    if n > 0 {
      ReadyPayloadsAre(jobs, n - 1);
      ReadyBelowSnoc(jobs, n - 1);
      var before, payloads := Sorted(ReadyBelow(jobs, n - 1)), ReadyPayloads(jobs, n - 1);
      var ready := Sorted(ReadyBelow(jobs, n));
      assert forall i :: 0 <= i < |before| ==> ready[i] == before[i];
      if jobs[n - 1].status.Ready? {
        assert ReadyPayloads(jobs, n) == payloads + [PayloadOf(jobs[n - 1])];
      } else {
        assert ReadyPayloads(jobs, n) == payloads + [] == payloads;
      }
    } else {
      NothingBelow(jobs);
    }
  }

  lemma NothingBelow(jobs: seq<BridgeJob>)
    ensures Sorted(ReadyBelow(jobs, 0)) == []
  {
    assert ReadyBelow(jobs, 0) == {};
  }

  lemma CollectPolls(s: Picture, t: nat)
    requires t < |s.tasks| && s.tasks[t].PollLocking?
    ensures PollsRight(s, AfterCollect(s, t))
  {
    hide ReadyDeliveries, ReadyPayloads;
    ReadyPayloadsAre(s.jobs, |s.jobs|);
    var after := AfterCollect(s, t);
    assert TakenBy(s, after) == Sorted(ReadyBelow(s.jobs, |s.jobs|)) by {
      assert (set k | 0 <= k < |s.jobs| && k < |after.jobs| && s.jobs[k].status.Ready?
                      && after.jobs[k].status.Consumed?) == ReadyBelow(s.jobs, |s.jobs|);
    }
  }

  lemma ActionPolls(bridgeId: string, mintJobId: nat -> string, s: Picture, a: Action)
    ensures PollsRight(s, After(bridgeId, mintJobId, s, a))
  {
    hide PollsRight, AfterStep, AfterWait, AfterIngest;
    match a
    case Step(t, timedOut, expired, resolved, failure) =>
      StepPolls(bridgeId, mintJobId, s, t, timedOut, expired, resolved, failure);
    case Ingest(callId, output) => IngestTasks(s, callId, output);
    case Wait(jobId, patient) => WaitTasks(s, jobId, patient);
    case _ => NoPoll(s, After(bridgeId, mintJobId, s, a));
  }

  /** Where no poll returns there is nothing to show. */
  lemma NoPoll(s: Picture, after: Picture)
    requires forall t :: 0 <= t < |s.tasks| && t < |after.tasks| && s.tasks[t].PollLocking? ==>
               after.tasks[t] == s.tasks[t] || after.tasks[t] == Finished(Reply.Cancelled)
    ensures PollsRight(s, after)
  {
    hide TakenBy;
  }

  lemma IngestTasks(s: Picture, callId: string, output: string)
    ensures PollsRight(s, AfterIngest(s, callId, output))
  {
    hide PollsRight, LiveByCall;
    NoPoll(s, AfterIngest(s, callId, output));
  }

  lemma WaitTasks(s: Picture, jobId: string, patient: bool)
    ensures PollsRight(s, AfterWait(s, jobId, patient))
  {
    hide PollsRight, LiveById;
    NoPoll(s, AfterWait(s, jobId, patient));
  }

  /** One task at most is another one after a step. */
  ghost predicate OneTask(s: Picture, after: Picture, t: nat) {
    t < |s.tasks| == |after.tasks| && forall i :: 0 <= i < |s.tasks| && i != t ==> after.tasks[i] == s.tasks[i]
  }

  lemma InvokeOneTask(bridgeId: string, mintJobId: nat -> string, s: Picture, t: nat, expired: bool,
                      resolved: Option<string>)
    requires t < |s.tasks|
    ensures OneTask(s, AfterInvoke(bridgeId, mintJobId, s, t, expired, resolved), t)
  {
    hide CallIdOf;
  }

  lemma TakeOneTask(s: Picture, t: nat, k: nat)
    requires t < |s.tasks| && k < |s.jobs|
    ensures OneTask(s, AfterTake(s, t, k), t)
  {
  }

  lemma StepPolls(bridgeId: string, mintJobId: nat -> string, s: Picture, t: nat, timedOut: bool, expired: bool,
                  resolved: Option<string>, failure: Option<string>)
    ensures PollsRight(s, AfterStep(bridgeId, mintJobId, s, t, timedOut, expired, resolved, failure))
  {
    hide PollsRight, AfterCollect, AfterInvoke, AfterTake, AfterEmit, AfterWaitRequest, AfterBlocked, AfterPollRequest,
         AfterPollBlocked;
    if TaskFits(s, t) {
      match s.tasks[t]
      case InvokeLocking(_) => InvokeOneTask(bridgeId, mintJobId, s, t, expired, resolved);
      case WaitLocking(k) => TakeOneTask(s, t, k);
      case PollLocking => CollectPolls(s, t);
      case Finished(_) =>
      case _ => StepMoves(bridgeId, mintJobId, s, t, timedOut, expired, resolved, failure);
    }
    if !TaskFits(s, t) || !s.tasks[t].PollLocking? || s.lockHolder.Some? {
      NoPoll(s, AfterStep(bridgeId, mintJobId, s, t, timedOut, expired, resolved, failure));
    }
  }

  /** What holds of every session: its jobs are as the log says, every delivery hands out the first output
      ingested for its job, no job is delivered twice, its caller holds what was delivered, and no two callers hold
      a result of the same job. */
  ghost predicate DeliversOnce(s: Picture) {
    && Sound(s.log) && JobsMatch(s.log, s.jobs) && RepliesMatch(s.log, s.jobs, s.tasks) && AllHeld(s)
    && forall i, j, p, q :: 0 <= i < |s.tasks| && 0 <= j < |s.tasks| && i != j ==>
         p in PayloadsOf(s.tasks[i]) && q in PayloadsOf(s.tasks[j]) ==> p.jobId != q.jobId
  }

  /** A session whose data agree and whose callers hold what was delivered to them. */
  ghost predicate Healthy(session: CursorBridgeSession)
    reads session
  {
    session.Valid() && RepliesMatch(session.log, session.jobs, session.tasks) && AllHeld(View(session))
  }

  lemma HealthyJobs(session: CursorBridgeSession)
    requires session.Valid()
    ensures ReadyHaveOutput(View(session))
    ensures forall k :: 0 <= k < |session.jobs| && session.jobs[k].status.Pending? ==> session.jobs[k].output.None?
  {
    hide IndexesMatch, Numbered, Sound, TasksMatch, CallOf, Deliveries;
    AnsweredOrNot(session.log, session.jobs);
  }

  lemma AnsweredOrNot(log: seq<Happening>, jobs: seq<BridgeJob>)
    requires JobsMatch(log, jobs)
    ensures forall k :: 0 <= k < |jobs| && jobs[k].status.Ready? ==> jobs[k].output.Some?
    ensures forall k :: 0 <= k < |jobs| && jobs[k].status.Pending? ==> jobs[k].output.None?
  {
  }

  /** Nothing is handed out. */
  ghost predicate Quiet(s: Picture, after: Picture) {
    && s.log <= after.log && SameIds(s.jobs, after.jobs) && |s.tasks| <= |after.tasks|
    && forall t: nat :: t < |after.tasks| ==>
         (t < |s.tasks| && after.tasks[t] == s.tasks[t]) || PayloadsOf(after.tasks[t]) == []
  }

  lemma SessionFinds(session: CursorBridgeSession, x: string)
    requires session.Valid()
    ensures LiveById(session.jobs, x) == if x in session.jobsById then Some(session.jobsById[x]) else None
    ensures LiveByCall(session.jobs, x) == if x in session.jobsByCallId then Some(session.jobsByCallId[x]) else None
    ensures x in session.jobsById ==> session.jobsById[x] < |session.jobs|
    ensures x in session.jobsByCallId ==> session.jobsByCallId[x] < |session.jobs|
  {
    hide JobsMatch, Numbered, Sound, Distinct, TasksMatch, Waiters, LiveById, LiveByCall;
    DictionariesFind(session.jobs, session.jobsById, session.jobsByCallId, x);
  }

  method BeginCall(session: CursorBridgeSession, action: Action)
    requires session.Valid() && (action.Invoke? || action.Wait? || action.Poll?)
    modifies session
    ensures session.Valid() && Quiet(old(View(session)), View(session))
    ensures View(session) == After(session.bridgeId, session.mintJobId, old(View(session)), action)
  {
    hide LiveById, LiveByCall, CursorBridgeSession.Valid, AfterStep, AfterIngest, AfterCancel;
    var t: nat;
    match action {
      case Invoke(tool, argumentsAreObject) => t := session.BeginInvoke(tool, argumentsAreObject);
      case Wait(jobId, patient) =>
        SessionFinds(session, Strip(jobId));
        t := session.BeginWait(jobId, patient);
      case Poll(patient) => t := session.BeginPoll(patient);
    }
  }

  /** The output is for a pending job. */
  predicate Completes(s: Picture, callId: string) {
    var found := LiveByCall(s.jobs, Strip(callId));
    found.Some? && found.value < |s.jobs| && s.jobs[found.value].status.Pending?
  }

  method IngestOne(session: CursorBridgeSession, callId: string, output: string) returns (completed: bool)
    requires Healthy(session)
    modifies session`jobs, session`log
    ensures Healthy(session)
    ensures View(session) == AfterIngest(old(View(session)), callId, output)
    ensures completed == Completes(old(View(session)), callId)
  {
    hide LiveById, LiveByCall, RepliesMatch, CursorBridgeSession.Valid, AllHeld;
    SessionFinds(session, Strip(callId));
    HealthyJobs(session);
    IngestHolds(View(session), callId, output);
    completed := session.CompleteCall(callId, output);
    RepliesKeep(old(session.log), session.log, old(session.jobs), session.jobs, old(session.tasks), session.tasks);
  }

  /** One action of a schedule. */
  method ActOnTurn(session: CursorBridgeSession, action: Action)
    requires session.Valid() && (action.AttachTurn? || action.Reopen? || action.CloseTurn?)
    modifies session
    ensures session.Valid() && Quiet(old(View(session)), View(session))
    ensures View(session) == After(session.bridgeId, session.mintJobId, old(View(session)), action)
  {
    hide CursorBridgeSession.Valid, AfterStep, AfterIngest, AfterCancel, AfterWait, AfterPoll;
    match action {
      case AttachTurn(stream, collector) => session.Attach(stream, collector);
      case Reopen => session.ReopenTurn();
      case CloseTurn => session.MarkTurnClosed();
    }
  }

  method Act(session: CursorBridgeSession, action: Action)
    requires Healthy(session)
    modifies session
    ensures Healthy(session)
    ensures View(session) == After(session.bridgeId, session.mintJobId, old(View(session)), action)
  {
    hide RepliesMatch, HandedOut, AfterStep, AfterWait, AfterPoll, AfterIngest, CursorBridgeSession.Valid, AllHeld;
    HealthyJobs(session);
    ActionHolds(session.bridgeId, session.mintJobId, View(session), action);
    match action {
      case Invoke(_, _) => BeginCall(session, action);
      case Wait(_, _) => BeginCall(session, action);
      case Poll(_) => BeginCall(session, action);
      case Step(task, timedOut, expired, resolved, failure) =>
        StepTask(session, task, timedOut, expired, resolved, failure);
        return;
      case CancelTask(task) =>
        if task < |session.tasks| && !session.tasks[task].Finished? { session.Cancel(task); }
      case Ingest(callId, output) =>
        var completed := IngestOne(session, callId, output);
        return;
      case _ => ActOnTurn(session, action);
    }
    RepliesKeep(old(session.log), session.log, old(session.jobs), session.jobs, old(session.tasks), session.tasks);
  }

  /** Under every schedule of invocations, ingested outputs, waits and polls, every action does what is defined
      above, results are delivered once, both dictionaries hold exactly the jobs not yet consumed, and the
      waiter count is the number of callers that are waiting. */
  method RunSchedule(bridgeId: string, mintJobId: nat -> string, schedule: seq<Action>)
    returns (states: seq<Picture>, byId: map<string, nat>, byCall: map<string, nat>, waiters: int)
    requires Distinct(mintJobId)
    ensures |states| == |schedule| + 1 && states[0] == NEW_SESSION
    ensures forall n :: 0 <= n < |schedule| ==> states[n + 1] == After(bridgeId, mintJobId, states[n], schedule[n])
    ensures forall n :: 0 <= n <= |schedule| ==> DeliversOnce(states[n])
    ensures forall n :: 0 <= n < |schedule| ==> PollsRight(states[n], states[n + 1])
    ensures IndexesMatch(states[|schedule|].jobs, byId, byCall) && waiters == Waiters(states[|schedule|].tasks)
  {
    hide JobsMatch, IndexesMatch, Numbered, Sound, Distinct, Waiters, RepliesMatch, TasksMatch, After, DeliversOnce,
         PollsRight, AllHeld;
    var session := new CursorBridgeSession(bridgeId, mintJobId);
    NoReplies();
    states := [View(session)];
    SessionDelivers(session);
    for n := 0 to |schedule|
      invariant fresh(session) && Healthy(session)
      invariant session.bridgeId == bridgeId && session.mintJobId == mintJobId
      invariant |states| == n + 1 && states[0] == NEW_SESSION && states[n] == View(session)
      invariant forall m :: 0 <= m < n ==> states[m + 1] == After(bridgeId, mintJobId, states[m], schedule[m])
      invariant forall m :: 0 <= m <= n ==> DeliversOnce(states[m])
      invariant forall m :: 0 <= m < n ==> PollsRight(states[m], states[m + 1])
    {
      ActionPolls(bridgeId, mintJobId, states[n], schedule[n]);
      Act(session, schedule[n]);
      SessionDelivers(session);
      states := states + [View(session)];
    }
    byId, byCall, waiters := session.jobsById, session.jobsByCallId, session.waiterCount;
  }

  lemma NoReplies()
    ensures RepliesMatch([], [], []) && AllHeld(NEW_SESSION)
  {
  }

  lemma SessionDelivers(session: CursorBridgeSession)
    requires Healthy(session)
    ensures DeliversOnce(View(session))
  {
    hide AllHeld, JobsMatch, IndexesMatch, Numbered, Sound, Distinct, RepliesMatch, TasksMatch, Waiters;
    OneCaller(session.log, session.jobs, session.tasks, session.bridgeId, session.mintJobId, session.invokeCount);
  }

  // ---- What the log tells of a schedule ----

  function IngestsIn(log: seq<Happening>): seq<(string, string)> {
    if log == [] then []
    else
      var last := log[|log| - 1];
      IngestsIn(log[..|log| - 1]) + (if last.Ingested? then [(last.callId, last.output)] else [])
  }

  function IngestsOf(schedule: seq<Action>): seq<(string, string)> {
    if schedule == [] then []
    else
      var last := schedule[|schedule| - 1];
      IngestsOf(schedule[..|schedule| - 1]) + (if last.Ingest? then [(Strip(last.callId), last.output)] else [])
  }

  /** Calls that were begun, in order. */
  function CallsOf(schedule: seq<Action>): nat {
    if schedule == [] then 0
    else
      var last := schedule[|schedule| - 1];
      CallsOf(schedule[..|schedule| - 1]) + (if last.Invoke? || last.Wait? || last.Poll? then 1 else 0)
  }

  lemma {:induction false} IngestsConcat(a: seq<Happening>, b: seq<Happening>)
    ensures IngestsIn(a + b) == IngestsIn(a) + IngestsIn(b)
  {
    if b == [] {
      assert a + b == a;
    } else {
      var n := |b| - 1;
      IngestsConcat(a, b[..n]);
      assert (a + b)[..|a + b| - 1] == a + b[..n];
    }
  }

  lemma {:induction false} DeliveriesIngestNothing(caller: nat, jobs: seq<BridgeJob>, n: nat)
    requires n <= |jobs|
    ensures IngestsIn(ReadyDeliveries(caller, jobs, n)) == []
  {
    if n > 0 {
      DeliveriesIngestNothing(caller, jobs, n - 1);
      var job := jobs[n - 1];
      var more := if job.status.Ready? then [Delivered(caller, n - 1, job.output.GetOr(""))] else [];
      assert more != [] ==> more[..0] == [];
      IngestsConcat(ReadyDeliveries(caller, jobs, n - 1), more);
    }
  }

  /** What a step adds to the log: nothing, a creation, a delivery, or a poll's deliveries. */
  ghost predicate LogsAs(s: Picture, after: Picture, t: nat) {
    && |after.tasks| == |s.tasks|
    && (|| after.log == s.log
        || (exists k, c :: after.log == s.log + [Created(k, c)])
        || (exists k, o :: after.log == s.log + [Delivered(t, k, o)])
        || after.log == s.log + ReadyDeliveries(t, s.jobs, |s.jobs|))
  }

  lemma LogsNothing(s: Picture, after: Picture, t: nat)
    requires after.log == s.log && |after.tasks| == |s.tasks|
    ensures LogsAs(s, after, t)
  {
  }

  lemma InvokeLogs(bridgeId: string, mintJobId: nat -> string, s: Picture, t: nat, expired: bool,
                   resolved: Option<string>)
    requires t < |s.tasks|
    ensures LogsAs(s, AfterInvoke(bridgeId, mintJobId, s, t, expired, resolved), t)
  {
    hide CallIdOf, ReadyDeliveries;
  }

  lemma TakeLogs(s: Picture, t: nat, k: nat)
    requires t < |s.tasks| && k < |s.jobs|
    ensures LogsAs(s, AfterTake(s, t, k), t)
  {
    hide ReadyDeliveries;
  }

  lemma CollectLogs(s: Picture, t: nat)
    requires t < |s.tasks|
    ensures LogsAs(s, AfterCollect(s, t), t)
  {
    hide ReadyDeliveries, ReadyPayloads, PendingCount, AllTaken;
  }

  lemma StepLogs(bridgeId: string, mintJobId: nat -> string, s: Picture, t: nat, timedOut: bool, expired: bool,
                 resolved: Option<string>, failure: Option<string>)
    ensures LogsAs(s, AfterStep(bridgeId, mintJobId, s, t, timedOut, expired, resolved, failure), t)
  {
    hide LogsAs, AfterInvoke, AfterTake, AfterCollect, AfterEmit, AfterWaitRequest, AfterBlocked, AfterPollRequest,
         AfterPollBlocked, ReadyDeliveries, PendingCount;
    LogsNothing(s, s, t);
    if TaskFits(s, t) {
      match s.tasks[t]
      case InvokeLocking(_) => InvokeLogs(bridgeId, mintJobId, s, t, expired, resolved);
      case WaitLocking(k) => TakeLogs(s, t, k);
      case PollLocking => CollectLogs(s, t);
      case Finished(_) =>
      case _ =>
        StepMoves(bridgeId, mintJobId, s, t, timedOut, expired, resolved, failure);
        LogsNothing(s, AfterStep(bridgeId, mintJobId, s, t, timedOut, expired, resolved, failure), t);
    }
  }

  lemma StepIngestsNothing(bridgeId: string, mintJobId: nat -> string, s: Picture, t: nat, timedOut: bool,
                           expired: bool, resolved: Option<string>, failure: Option<string>)
    ensures var after := AfterStep(bridgeId, mintJobId, s, t, timedOut, expired, resolved, failure);
            IngestsIn(after.log) == IngestsIn(s.log) && |after.tasks| == |s.tasks|
  {
    hide AfterStep, IngestsIn, ReadyDeliveries;
    StepLogs(bridgeId, mintJobId, s, t, timedOut, expired, resolved, failure);
    DeliveriesIngestNothing(t, s.jobs, |s.jobs|);
    IngestsConcat(s.log, ReadyDeliveries(t, s.jobs, |s.jobs|));
    forall k, c ensures IngestsIn(s.log + [Created(k, c)]) == IngestsIn(s.log) { OneIngest(s.log, Created(k, c)); }
    forall k, o ensures IngestsIn(s.log + [Delivered(t, k, o)]) == IngestsIn(s.log) {
      OneIngest(s.log, Delivered(t, k, o));
    }
  }

  lemma OneIngest(log: seq<Happening>, e: Happening)
    ensures IngestsIn(log + [e]) == IngestsIn(log) + (if e.Ingested? then [(e.callId, e.output)] else [])
  {
    assert (log + [e])[..|log|] == log;
  }

  /** The outputs in the log are exactly those that the schedule ingests, in order, and every call that the
      schedule begins is a task. */
  lemma {:induction false} LogTellsSchedule(bridgeId: string, mintJobId: nat -> string, schedule: seq<Action>,
                                            states: seq<Picture>)
    requires |states| == |schedule| + 1 && states[0] == NEW_SESSION
    requires forall n :: 0 <= n < |schedule| ==> states[n + 1] == After(bridgeId, mintJobId, states[n], schedule[n])
    ensures var s := states[|schedule|];
            IngestsIn(s.log) == IngestsOf(schedule) && |s.tasks| == CallsOf(schedule)
  {
    hide After;
    if schedule != [] {
      var n := |schedule| - 1;
      LogTellsSchedule(bridgeId, mintJobId, schedule[..n], states[..n + 1]);
      ActionLogs(bridgeId, mintJobId, states[n], schedule[n]);
    }
  }

  lemma ActionLogs(bridgeId: string, mintJobId: nat -> string, s: Picture, a: Action)
    ensures var after := After(bridgeId, mintJobId, s, a);
            && IngestsIn(after.log) == IngestsIn(s.log) + (if a.Ingest? then [(Strip(a.callId), a.output)] else [])
            && |after.tasks| == |s.tasks| + (if a.Invoke? || a.Wait? || a.Poll? then 1 else 0)
  {
    hide AfterStep, AfterWait, AfterPoll, AfterCancel, LiveByCall, IngestsIn, Strip;
    if a.Step? {
      StepIngestsNothing(bridgeId, mintJobId, s, a.task, a.timedOut, a.expired, a.resolved, a.failure);
    } else if a.Ingest? {
      OneIngest(s.log, Ingested(Strip(a.callId), a.output));
    } else if a.Wait? {
      WaitAdds(s, a.jobId, a.patient);
    } else if a.Poll? {
      PollAdds(s, a.patient);
    } else if a.CancelTask? {
      CancelKeeps(s, a.task);
    }
  }

  lemma WaitAdds(s: Picture, jobId: string, patient: bool)
    ensures var after := AfterWait(s, jobId, patient); after.log == s.log && |after.tasks| == |s.tasks| + 1
  {
    hide LiveById, Strip;
  }

  lemma PollAdds(s: Picture, patient: bool)
    ensures var after := AfterPoll(s, patient); after.log == s.log && |after.tasks| == |s.tasks| + 1
  {
  }

  lemma CancelKeeps(s: Picture, t: nat)
    ensures var after := AfterCancel(s, t); after.log == s.log && |after.tasks| == |s.tasks|
  {
  }
}
