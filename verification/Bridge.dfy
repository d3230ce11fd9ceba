/** A Cursor bridge session: invoke, ingest, wait and poll as tasks that take turns at their awaits
    (codex_shim/cursor_bridge.py, BridgeJob and CursorBridgeSession). */
module Bridge {
  import opened Common
  import opened BridgeLog

  /** A job; what identifies it is its place in the session's list of jobs ever created. */
  datatype BridgeJob = BridgeJob(jobId: string, callId: string, number: nat, tool: string, status: Status,
      output: Option<string>)

  datatype Payload = Payload(jobId: string, callId: string, tool: string, output: Option<string>)

  datatype Reply =
    | Accepted(jobId: string, callId: string)
    | Refused(reason: string)
    | TimedOut(jobId: string)
    | UnknownJob(jobId: string)
    | Taken(payload: Payload)
    | Collected(payloads: seq<Payload>, pending: nat)
    | Cancelled

  /** Where a running call stands: before it has the lock, holding it while its tool call is written, in
      the request to close the turn, waiting for a result, or before it has the lock to take one. */
  datatype Task =
    | InvokeLocking(tool: string)
    | InvokeEmitting(job: nat)
    | WaitRequesting(job: nat, patient: bool, requester: bool)
    | WaitBlocked(job: nat)
    | WaitLocking(job: nat)
    | PollRequesting(patient: bool, requester: bool)
    | PollBlocked(pending: set<nat>)
    | PollLocking
    | Finished(reply: Reply)

  const NO_SINK := "bridge session has no active passthrough sink"

  /** Why an invocation is refused, unless it only lacks a place to write its call. */
  function RefusalOf(expired: bool, turnClosed: bool, resolved: Option<string>): string {
    if expired then "bridge session expired"
    else if turnClosed then "bridge turn already completed for this session"
    else if resolved.None? then "tool not available via Codex bridge"
    else NO_SINK
  }

  /** The tasks that `_waiter_count` counts. */
  predicate Waits(t: Task) {
    t.WaitBlocked? || t.WaitLocking? || t.PollBlocked? || t.PollLocking?
  }

  function Waiters(tasks: seq<Task>): nat {
    if tasks == [] then 0 else Waiters(tasks[..|tasks| - 1]) + (if Waits(tasks[|tasks| - 1]) then 1 else 0)
  }

  /** Every task counts that is blocked in a wait or in a poll, or has been woken and is after the lock. */
  lemma {:induction false} WaitersMeans(tasks: seq<Task>)
    ensures Waiters(tasks) ==
            |set t | 0 <= t < |tasks|
                     && (tasks[t].WaitBlocked? || tasks[t].WaitLocking? || tasks[t].PollBlocked?
                         || tasks[t].PollLocking?)|
  {
    if tasks != [] {
      var n := |tasks| - 1;
      WaitersMeans(tasks[..n]);
      var before := set t | 0 <= t < n && (tasks[..n][t].WaitBlocked? || tasks[..n][t].WaitLocking?
                                           || tasks[..n][t].PollBlocked? || tasks[..n][t].PollLocking?);
      var all := set t | 0 <= t < |tasks| && (tasks[t].WaitBlocked? || tasks[t].WaitLocking?
                                              || tasks[t].PollBlocked? || tasks[t].PollLocking?);
      assert all == before + (if n in all then {n} else {});
    }
  }

  lemma {:induction false} WaitersUpdate(tasks: seq<Task>, t: nat, task: Task)
    requires t < |tasks|
    ensures Waiters(tasks[t := task]) ==
            Waiters(tasks) - (if Waits(tasks[t]) then 1 else 0) + (if Waits(task) then 1 else 0)
    ensures Waits(tasks[t]) ==> Waiters(tasks) > 0
  {
    var n := |tasks| - 1;
    if t < n {
      WaitersUpdate(tasks[..n], t, task);
      assert tasks[t := task][..n] == tasks[..n][t := task];
    } else {
      assert tasks[t := task][..n] == tasks[..n];
    }
  }

  lemma WaitersSnoc(tasks: seq<Task>, task: Task)
    ensures Waiters(tasks + [task]) == Waiters(tasks) + (if Waits(task) then 1 else 0)
  {
    assert (tasks + [task])[..|tasks|] == tasks;
  }

  // ---- Call ids ----

  function CallIdOf(bridgeId: string, number: nat): string {
    "call_" + bridgeId + "_" + NatText(number)
  }

  lemma DigitsOnly(n: nat)
    ensures NatText(n) != "" && forall i :: 0 <= i < |NatText(n)| ==> NatText(n)[i] != '_'
  {
  }

  lemma {:induction false} NatTextInjective(m: nat, n: nat)
    requires NatText(m) == NatText(n)
    ensures m == n
  {
    DigitsOnly(m / 10);
    DigitsOnly(n / 10);
    if m < 10 || n < 10 {
      assert |NatText(m)| == |NatText(n)|;
    } else {
      var s := NatText(m);
      assert NatText(m / 10) == s[..|s| - 1] == NatText(n / 10);
      NatTextInjective(m / 10, n / 10);
      assert s[|s| - 1] == "0123456789"[m % 10] == "0123456789"[n % 10];
    }
  }

  function LastUnderscore(s: string): int {
    if s == "" || s[|s| - 1] == '_' then |s| - 1 else LastUnderscore(s[..|s| - 1])
  }

  lemma {:induction false} LastUnderscoreIs(prefix: string, digits: string)
    requires forall i :: 0 <= i < |digits| ==> digits[i] != '_'
    ensures LastUnderscore(prefix + "_" + digits) == |prefix|
  {
    var s := prefix + "_" + digits;
    if digits == "" {
      assert s[|s| - 1] == '_';
    } else {
      var n := |digits| - 1;
      LastUnderscoreIs(prefix, digits[..n]);
      assert s[..|s| - 1] == prefix + "_" + digits[..n];
      assert s[|s| - 1] == digits[n];
    }
  }

  /** A call id belongs to one call of one bridge. */
  lemma CallIdsApart(bridgeA: string, m: nat, bridgeB: string, n: nat)
    requires CallIdOf(bridgeA, m) == CallIdOf(bridgeB, n)
    ensures bridgeA == bridgeB && m == n
  {
    var s := CallIdOf(bridgeA, m);
    DigitsOnly(m);
    DigitsOnly(n);
    LastUnderscoreIs("call_" + bridgeA, NatText(m));
    LastUnderscoreIs("call_" + bridgeB, NatText(n));
    var a := LastUnderscore(s);
    assert s[5..a] == bridgeA && s[a + 1..] == NatText(m);
    assert s[5..a] == bridgeB && s[a + 1..] == NatText(n);
    NatTextInjective(m, n);
  }

  // ---- What holds of a session's data ----

  /** The jobs are as the log says. */
  ghost predicate JobsMatch(log: seq<Happening>, jobs: seq<BridgeJob>) {
    && (forall k :: 0 <= k < |jobs| ==>
          && CallOf(log, k) == Some(jobs[k].callId) && Answer(log, k) == jobs[k].output
          && StatusIn(log, k) == jobs[k].status)
    && (forall k :: |jobs| <= k ==> CallOf(log, k) == None && Deliveries(log, k) == 0)
  }

  /** Both dictionaries hold exactly the jobs that have not been consumed, one entry for each. */
  ghost predicate IndexesMatch(jobs: seq<BridgeJob>, byId: map<string, nat>, byCall: map<string, nat>) {
    && (forall id :: id in byId ==> byId[id] < |jobs| && jobs[byId[id]].jobId == id && !jobs[byId[id]].status.Consumed?)
    && (forall c :: c in byCall ==>
          byCall[c] < |jobs| && jobs[byCall[c]].callId == c && !jobs[byCall[c]].status.Consumed?)
    && (forall k :: 0 <= k < |jobs| && !jobs[k].status.Consumed? ==>
          && jobs[k].jobId in byId && byId[jobs[k].jobId] == k
          && jobs[k].callId in byCall && byCall[jobs[k].callId] == k)
  }

  ghost predicate Numbered(bridgeId: string, mintJobId: nat -> string, count: nat, jobs: seq<BridgeJob>) {
    && (forall k :: 0 <= k < |jobs| ==>
          && jobs[k].number <= count && jobs[k].jobId == mintJobId(jobs[k].number)
          && jobs[k].callId == CallIdOf(bridgeId, jobs[k].number))
    && (forall i, j :: 0 <= i < j < |jobs| ==> jobs[i].number < jobs[j].number)
  }

  /** Job ids are never drawn twice. */
  ghost predicate Distinct(mintJobId: nat -> string) {
    forall m, n :: mintJobId(m) == mintJobId(n) ==> m == n
  }

  ghost predicate TasksMatch(jobs: seq<BridgeJob>, tasks: seq<Task>, lockHolder: Option<nat>) {
    && (forall t :: 0 <= t < |tasks| ==>
          && (tasks[t].InvokeEmitting? || tasks[t].WaitRequesting? || tasks[t].WaitBlocked? || tasks[t].WaitLocking? ==>
                tasks[t].job < |jobs|)
          && (tasks[t].InvokeEmitting? <==> lockHolder == Some(t))
          && (tasks[t].PollBlocked? ==> forall k :: k in tasks[t].pending ==> k < |jobs|))
    && (lockHolder.Some? ==> lockHolder.value < |tasks|)
  }

  lemma JobAdded(log: seq<Happening>, jobs: seq<BridgeJob>, byId: map<string, nat>, byCall: map<string, nat>,
                 bridgeId: string, mintJobId: nat -> string, count: nat, tool: string)
    requires JobsMatch(log, jobs) && IndexesMatch(jobs, byId, byCall) && Numbered(bridgeId, mintJobId, count, jobs)
    requires Distinct(mintJobId) && Sound(log)
    ensures var job := BridgeJob(mintJobId(count + 1), CallIdOf(bridgeId, count + 1), count + 1, tool, Pending, None);
            var k := |jobs|;
            && JobsMatch(log + [Created(k, job.callId)], jobs + [job]) && Sound(log + [Created(k, job.callId)])
            && IndexesMatch(jobs + [job], byId[job.jobId := k], byCall[job.callId := k])
            && Numbered(bridgeId, mintJobId, count + 1, jobs + [job])
            && job.jobId !in byId && job.callId !in byCall
  {
    hide JobsMatch, IndexesMatch, Sound, CallIdOf;
    var job := BridgeJob(mintJobId(count + 1), CallIdOf(bridgeId, count + 1), count + 1, tool, Pending, None);
    SoundSnoc(log, Created(|jobs|, job.callId));
    MatchAdded(log, jobs, job);
    NumbersApart(bridgeId, mintJobId, count + 1, jobs + [job]);
    IndexAdded(jobs, byId, byCall, job);
  }

  lemma MatchAdded(log: seq<Happening>, jobs: seq<BridgeJob>, job: BridgeJob)
    requires JobsMatch(log, jobs) && job.status.Pending? && job.output.None?
    ensures JobsMatch(log + [Created(|jobs|, job.callId)], jobs + [job])
  {
    var e := Created(|jobs|, job.callId);
    forall k ensures CallOf(log + [e], k) == (if k == |jobs| then Some(job.callId) else CallOf(log, k))
                     && Answer(log + [e], k) == Answer(log, k) && Deliveries(log + [e], k) == Deliveries(log, k)
    {
      LogSnoc(log, e, k);
    }
    NoAnswer(log, |jobs|);
  }

  /** Jobs with different numbers have different ids. */
  lemma NumbersApart(bridgeId: string, mintJobId: nat -> string, count: nat, jobs: seq<BridgeJob>)
    requires Numbered(bridgeId, mintJobId, count, jobs) && Distinct(mintJobId)
    ensures forall i, j :: 0 <= i < |jobs| && 0 <= j < |jobs| && i != j ==>
              jobs[i].jobId != jobs[j].jobId && jobs[i].callId != jobs[j].callId
  {
    hide CallIdOf;
    forall i, j | 0 <= i < |jobs| && 0 <= j < |jobs| && i != j
      ensures jobs[i].jobId != jobs[j].jobId && jobs[i].callId != jobs[j].callId
    {
      if jobs[i].callId == jobs[j].callId { CallIdsApart(bridgeId, jobs[i].number, bridgeId, jobs[j].number); }
    }
  }

  lemma IndexAdded(jobs: seq<BridgeJob>, byId: map<string, nat>, byCall: map<string, nat>, job: BridgeJob)
    requires IndexesMatch(jobs, byId, byCall) && job.status.Pending?
    requires var all := jobs + [job];
             forall i, j :: 0 <= i < |all| && 0 <= j < |all| && i != j ==>
               all[i].jobId != all[j].jobId && all[i].callId != all[j].callId
    ensures IndexesMatch(jobs + [job], byId[job.jobId := |jobs|], byCall[job.callId := |jobs|])
    ensures job.jobId !in byId && job.callId !in byCall
  {
    var all := jobs + [job];
    assert all[|jobs|] == job;
    assert forall k :: 0 <= k < |jobs| ==> all[k] == jobs[k];
  }

  lemma {:induction false} NoAnswer(log: seq<Happening>, k: nat)
    requires CallOf(log, k) == None
    ensures Answer(log, k) == None
  {
    if log != [] {
      NoAnswer(log[..|log| - 1], k);
    }
  }

  lemma JobAnswered(log: seq<Happening>, jobs: seq<BridgeJob>, byId: map<string, nat>, byCall: map<string, nat>,
                    bridgeId: string, mintJobId: nat -> string, count: nat, callId: string, output: string)
    requires JobsMatch(log, jobs) && IndexesMatch(jobs, byId, byCall) && Numbered(bridgeId, mintJobId, count, jobs)
             && Sound(log)
    ensures var after := log + [Ingested(callId, output)];
            && Sound(after)
            && (if callId in byCall && jobs[byCall[callId]].status.Pending? then
                  var k := byCall[callId];
                  var answered := jobs[k := jobs[k].(status := Ready, output := Some(output))];
                  && JobsMatch(after, answered) && IndexesMatch(answered, byId, byCall)
                  && Numbered(bridgeId, mintJobId, count, answered)
                else JobsMatch(after, jobs))
  {
    hide Sound, JobsMatch, IndexesMatch, Numbered, CallOf, Answer, Deliveries;
    SoundSnoc(log, Ingested(callId, output));
    if callId in byCall {
      IndexBound(jobs, byId, byCall);
      IndexAnswered(jobs, byId, byCall, bridgeId, mintJobId, count, byCall[callId], output);
    }
    IndexBound(jobs, byId, byCall);
    MatchAnswered(log, jobs, byId, byCall, bridgeId, mintJobId, count, callId, output);
  }

  lemma IndexBound(jobs: seq<BridgeJob>, byId: map<string, nat>, byCall: map<string, nat>)
    requires IndexesMatch(jobs, byId, byCall)
    ensures forall c :: c in byCall ==> byCall[c] < |jobs|
    ensures forall id :: id in byId ==> byId[id] < |jobs|
  {
  }

  lemma IndexAnswered(jobs: seq<BridgeJob>, byId: map<string, nat>, byCall: map<string, nat>, bridgeId: string,
                      mintJobId: nat -> string, count: nat, k: nat, output: string)
    requires IndexesMatch(jobs, byId, byCall) && Numbered(bridgeId, mintJobId, count, jobs) && k < |jobs|
    ensures jobs[k].status.Pending? ==>
              var answered := jobs[k := jobs[k].(status := Ready, output := Some(output))];
              IndexesMatch(answered, byId, byCall) && Numbered(bridgeId, mintJobId, count, answered)
  {
    hide CallIdOf;
  }

  lemma MatchAnswered(log: seq<Happening>, jobs: seq<BridgeJob>, byId: map<string, nat>, byCall: map<string, nat>,
                      bridgeId: string, mintJobId: nat -> string, count: nat, callId: string, output: string)
    requires JobsMatch(log, jobs) && IndexesMatch(jobs, byId, byCall) && Numbered(bridgeId, mintJobId, count, jobs)
             && Sound(log)
    ensures var after := log + [Ingested(callId, output)];
            if callId in byCall && jobs[byCall[callId]].status.Pending? then
              var k := byCall[callId];
              JobsMatch(after, jobs[k := jobs[k].(status := Ready, output := Some(output))])
            else JobsMatch(after, jobs)
  {
    hide Sound, CallOf, Answer, Deliveries;
    var e := Ingested(callId, output);
    forall k ensures CallOf(log + [e], k) == CallOf(log, k) && Deliveries(log + [e], k) == Deliveries(log, k)
                     && Answer(log + [e], k) == (if Answer(log, k).None? && CallOf(log, k) == Some(callId)
                                                 then Some(output) else Answer(log, k))
    {
      LogSnoc(log, e, k);
    }
    forall k | 0 <= k < |jobs| && jobs[k].callId == callId && Answer(log, k).None?
      ensures callId in byCall && byCall[callId] == k
    {
      SoundAnswered(log, k);
    }
  }

  /** What was delivered had been answered. */
  lemma {:induction false} SoundAnswered(log: seq<Happening>, k: nat)
    requires Sound(log) && Answer(log, k).None?
    ensures Deliveries(log, k) == 0
  {
    if log != [] {
      var n := |log| - 1;
      assert log == log[..n] + [log[n]];
      LogSnoc(log[..n], log[n], k);
      SoundPrefix(log, n);
      SoundAnswered(log[..n], k);
    }
  }

  lemma SoundPrefix(log: seq<Happening>, n: nat)
    requires Sound(log) && n <= |log|
    ensures Sound(log[..n])
  {
    forall job ensures Deliveries(log[..n], job) <= 1 {
      DeliveriesCount(log, n, job);
    }
    forall m | 0 <= m < n && log[..n][m].Delivered?
      ensures Answer(log[..n][..m], log[..n][m].job) == Some(log[..n][m].output)
    {
      assert log[..n][..m] == log[..m] && log[..n][m] == log[m];
    }
  }

  lemma JobTaken(log: seq<Happening>, jobs: seq<BridgeJob>, byId: map<string, nat>, byCall: map<string, nat>,
                 bridgeId: string, mintJobId: nat -> string, count: nat, caller: nat, k: nat)
    requires JobsMatch(log, jobs) && IndexesMatch(jobs, byId, byCall) && Numbered(bridgeId, mintJobId, count, jobs)
             && Sound(log)
    requires Distinct(mintJobId)
    requires k < |jobs| && jobs[k].status.Ready?
    ensures jobs[k].output.Some?
    ensures var after := log + [Delivered(caller, k, jobs[k].output.value)];
            var taken := jobs[k := jobs[k].(status := Consumed)];
            && Sound(after) && JobsMatch(after, taken) && Numbered(bridgeId, mintJobId, count, taken)
            && IndexesMatch(taken, byId - {jobs[k].jobId}, byCall - {jobs[k].callId})
  {
    hide IndexesMatch, Sound, CallIdOf, CallOf, Answer, Deliveries;
    MatchTaken(log, jobs, caller, k);
    SoundSnoc(log, Delivered(caller, k, jobs[k].output.value));
    NumbersApart(bridgeId, mintJobId, count, jobs);
    IndexTaken(jobs, byId, byCall, k);
  }

  lemma MatchTaken(log: seq<Happening>, jobs: seq<BridgeJob>, caller: nat, k: nat)
    requires JobsMatch(log, jobs) && k < |jobs| && jobs[k].status.Ready?
    ensures jobs[k].output.Some? && Deliveries(log, k) == 0 && Answer(log, k) == jobs[k].output
    ensures JobsMatch(log + [Delivered(caller, k, jobs[k].output.value)], jobs[k := jobs[k].(status := Consumed)])
  {
    hide CallOf, Answer, Deliveries;
    var e := Delivered(caller, k, jobs[k].output.value);
    forall j ensures CallOf(log + [e], j) == CallOf(log, j) && Answer(log + [e], j) == Answer(log, j)
                     && Deliveries(log + [e], j) == Deliveries(log, j) + (if j == k then 1 else 0)
    {
      LogSnoc(log, e, j);
    }
  }

  lemma IndexTaken(jobs: seq<BridgeJob>, byId: map<string, nat>, byCall: map<string, nat>, k: nat)
    requires IndexesMatch(jobs, byId, byCall) && k < |jobs|
    requires forall i, j :: 0 <= i < |jobs| && 0 <= j < |jobs| && i != j ==>
               jobs[i].jobId != jobs[j].jobId && jobs[i].callId != jobs[j].callId
    ensures IndexesMatch(jobs[k := jobs[k].(status := Consumed)], byId - {jobs[k].jobId}, byCall - {jobs[k].callId})
  {
  }

  /** More jobs, or the same jobs in other states, make no difference to the tasks. */
  lemma TasksKeep(jobs: seq<BridgeJob>, after: seq<BridgeJob>, tasks: seq<Task>, lockHolder: Option<nat>)
    requires TasksMatch(jobs, tasks, lockHolder) && |jobs| <= |after|
    ensures TasksMatch(after, tasks, lockHolder)
  {
  }

  lemma TasksEmit(jobs: seq<BridgeJob>, tasks: seq<Task>, t: nat, k: nat)
    requires TasksMatch(jobs, tasks, None) && t < |tasks| && k < |jobs|
    ensures TasksMatch(jobs, tasks[t := InvokeEmitting(k)], Some(t))
  {
  }

  /** What a poll hands out of the first `n` jobs, oldest first. */
  function ReadyPayloads(jobs: seq<BridgeJob>, n: nat): seq<Payload>
    requires n <= |jobs|
  {
    if n == 0 then []
    else
      var job := jobs[n - 1];
      ReadyPayloads(jobs, n - 1)
      + (if job.status.Ready? then [Payload(job.jobId, job.callId, job.tool, job.output)] else [])
  }

  function ReadyDeliveries(caller: nat, jobs: seq<BridgeJob>, n: nat): seq<Happening>
    requires n <= |jobs|
  {
    if n == 0 then []
    else
      var job := jobs[n - 1];
      ReadyDeliveries(caller, jobs, n - 1)
      + (if job.status.Ready? then [Delivered(caller, n - 1, job.output.GetOr(""))] else [])
  }

  class CursorBridgeSession {
    const bridgeId: string
    /** Where job ids come from. */
    const mintJobId: nat -> string
    var invokeCount: nat
    var lockHolder: Option<nat>
    /** Where tool calls go: to the stream of the current turn, or to its collector. */
    var hasStream: bool
    var hasCollector: bool
    var agentAlive: bool
    var jobs: seq<BridgeJob>
    var jobsById: map<string, nat>
    var jobsByCallId: map<string, nat>
    var turnCompleteRequested: bool
    var turnClosed: bool
    var waiterCount: int
    var tasks: seq<Task>
    var sessionKey: string
    var seenIntent: set<string>
    /** Everything that happened to jobs. */
    var log: seq<Happening>

    ghost predicate JobsOk()
      reads `invokeCount, `jobs, `jobsById, `jobsByCallId, `log
    {
      && Sound(log) && Distinct(mintJobId) && JobsMatch(log, jobs) && IndexesMatch(jobs, jobsById, jobsByCallId)
      && Numbered(bridgeId, mintJobId, invokeCount, jobs)
    }

    ghost predicate TasksOk()
      reads `jobs, `tasks, `lockHolder, `waiterCount
    {
      TasksMatch(jobs, tasks, lockHolder) && waiterCount == Waiters(tasks)
    }

    ghost predicate Valid()
      reads this
    {
      JobsOk() && TasksOk()
    }

    /** Every call in the dictionary is this session's and has a job that has not been consumed. */
    ghost predicate Outstanding()
      reads `jobs, `jobsByCallId
    {
      forall c :: c in jobsByCallId ==>
        var k := jobsByCallId[c];
        k < |jobs| && !jobs[k].status.Consumed? && c == CallIdOf(bridgeId, jobs[k].number)
    }

    lemma NothingOutstanding()
      requires jobsByCallId == map[]
      ensures Outstanding()
    {
    }

    lemma OwnCallsOnly(other: string, m: nat)
      requires Outstanding() && other != bridgeId
      ensures CallIdOf(other, m) !in jobsByCallId
    {
      hide CallIdOf;
      var c := CallIdOf(other, m);
      if c in jobsByCallId {
        CallIdsApart(other, m, bridgeId, jobs[jobsByCallId[c]].number);
      }
    }

    lemma JobsAreOutstanding()
      requires JobsOk()
      ensures Outstanding()
    {
      hide JobsMatch, Sound, Distinct, CallIdOf;
    }

    constructor (bridgeId: string, mintJobId: nat -> string)
      requires Distinct(mintJobId)
      ensures Valid() && this.bridgeId == bridgeId && this.mintJobId == mintJobId
      ensures log == [] && jobs == [] && tasks == [] && !turnClosed && jobsByCallId == map[]
      ensures lockHolder == None && invokeCount == 0 && !hasStream && !hasCollector && !turnCompleteRequested
      ensures sessionKey == "" && seenIntent == {} && !agentAlive
    {
      this.bridgeId, this.mintJobId := bridgeId, mintJobId;
      invokeCount, lockHolder, hasStream, hasCollector, agentAlive := 0, None, false, false, false;
      jobs, jobsById, jobsByCallId := [], map[], map[];
      turnCompleteRequested, turnClosed, waiterCount, tasks := false, false, 0, [];
      sessionKey, seenIntent := "", {};
      log := [];
    }

    /** A call starts. */
    method Begin(task: Task) returns (t: nat)
      requires TasksOk() && !task.InvokeEmitting?
      requires task.WaitRequesting? ==> task.job < |jobs|
      requires !Waits(task)
      modifies `tasks
      ensures TasksOk() && t == |old(tasks)| && tasks == old(tasks) + [task]
    {
      WaitersSnoc(tasks, task);
      t := |tasks|;
      tasks := tasks + [task];
    }

    /** A task moves on; `_waiter_count` follows. */
    method Move(t: nat, task: Task)
      requires TasksOk() && t < |tasks| && !tasks[t].InvokeEmitting? && !task.InvokeEmitting?
      requires task.WaitRequesting? || task.WaitBlocked? || task.WaitLocking? ==> task.job < |jobs|
      requires task.PollBlocked? ==> forall k :: k in task.pending ==> k < |jobs|
      modifies `tasks, `waiterCount
      ensures TasksOk() && tasks == old(tasks)[t := task]
    {
      WaitersUpdate(tasks, t, task);
      if Waits(tasks[t]) && !Waits(task) {
        waiterCount := if waiterCount - 1 < 0 then 0 else waiterCount - 1;
      } else if !Waits(tasks[t]) && Waits(task) {
        waiterCount := waiterCount + 1;
      }
      tasks := tasks[t := task];
    }

    // ---- invoke ----

    method BeginInvoke(tool: string, argumentsAreObject: bool) returns (t: nat)
      requires Valid()
      modifies `tasks
      ensures Valid() && t == |old(tasks)|
      ensures tasks == old(tasks) + [if argumentsAreObject then InvokeLocking(tool)
                                     else Finished(Refused("arguments must be a JSON object"))]
    {
      hide JobsOk;
      t := Begin(if argumentsAreObject then InvokeLocking(tool)
                 else Finished(Refused("arguments must be a JSON object")));
    }

    /** Having the lock, an invocation registers its job and starts to write its tool call. */
    method RunInvoke(t: nat, expired: bool, resolved: Option<string>)
      requires Valid() && t < |tasks| && tasks[t].InvokeLocking? && lockHolder.None?
      modifies `tasks, `waiterCount, `invokeCount, `jobs, `jobsById, `jobsByCallId, `lockHolder, `log
      ensures Valid() && old(log) <= log
      ensures var allowed := !expired && !old(turnClosed) && resolved.Some?;
              && invokeCount == old(invokeCount) + (if allowed then 1 else 0)
              && (allowed && (hasStream || hasCollector) ==>
                    var callId := CallIdOf(bridgeId, invokeCount);
                    && log == old(log) + [Created(|old(jobs)|, callId)]
                    && jobs == old(jobs) + [BridgeJob(mintJobId(invokeCount), callId, invokeCount, resolved.value,
                                                      Pending, None)]
                    && jobsByCallId == old(jobsByCallId)[callId := |old(jobs)|])
              && (!(allowed && (hasStream || hasCollector)) ==>
                    && log == old(log) && jobs == old(jobs)
                    && jobsById == old(jobsById) && jobsByCallId == old(jobsByCallId))
              && |tasks| == |old(tasks)| && tasks == old(tasks)[t := tasks[t]]
              && (if !(allowed && (hasStream || hasCollector)) then
                    tasks[t] == Finished(Refused(RefusalOf(expired, old(turnClosed), resolved))) && lockHolder.None?
                  else if hasStream then tasks[t] == InvokeEmitting(|old(jobs)|) && lockHolder == Some(t)
                  else
                    && tasks[t] == Finished(Accepted(mintJobId(invokeCount), CallIdOf(bridgeId, invokeCount)))
                    && lockHolder.None?)
    {
      hide JobsMatch, IndexesMatch, Numbered, Sound, Distinct, Waiters, CallIdOf;
      if expired {
        Move(t, Finished(Refused("bridge session expired")));
        return;
      }
      if turnClosed {
        Move(t, Finished(Refused("bridge turn already completed for this session")));
        return;
      }
      if resolved.None? {
        Move(t, Finished(Refused("tool not available via Codex bridge")));
        return;
      }
      if hasStream || hasCollector {
        RegisterJob(t, resolved.value);
      } else {
        WithdrawJob(t, resolved.value);
      }
    }

    /** The job of an allowed invocation when there is somewhere to write its tool call. */
    method RegisterJob(t: nat, tool: string)
      requires Valid() && t < |tasks| && tasks[t].InvokeLocking? && lockHolder.None? && (hasStream || hasCollector)
      modifies `tasks, `waiterCount, `invokeCount, `jobs, `jobsById, `jobsByCallId, `lockHolder, `log
      ensures Valid() && invokeCount == old(invokeCount) + 1
      ensures var callId := CallIdOf(bridgeId, invokeCount);
              && log == old(log) + [Created(|old(jobs)|, callId)]
              && jobs == old(jobs) + [BridgeJob(mintJobId(invokeCount), callId, invokeCount, tool, Pending, None)]
              && jobsByCallId == old(jobsByCallId)[callId := |old(jobs)|]
              && (if hasStream then tasks == old(tasks)[t := InvokeEmitting(|old(jobs)|)] && lockHolder == Some(t)
                  else tasks == old(tasks)[t := Finished(Accepted(mintJobId(invokeCount), callId))] && lockHolder.None?)
    {
      hide JobsMatch, IndexesMatch, Numbered, Sound, Distinct, Waiters, CallIdOf, TasksMatch, Waits;
      JobAdded(log, jobs, jobsById, jobsByCallId, bridgeId, mintJobId, invokeCount, tool);
      invokeCount := invokeCount + 1;
      var callId, jobId, k := CallIdOf(bridgeId, invokeCount), mintJobId(invokeCount), |jobs|;
      var job := BridgeJob(jobId, callId, invokeCount, tool, Pending, None);
      TasksKeep(jobs, jobs + [job], tasks, lockHolder);
      jobs := jobs + [job];
      jobsById := jobsById[jobId := k];
      jobsByCallId := jobsByCallId[callId := k];
      log := log + [Created(k, callId)];
      if hasStream {
        StartEmit(t, k);
      } else {
        Move(t, Finished(Accepted(jobId, callId)));
      }
    }

    /** Without a stream and a collector the job is taken back. */
    method WithdrawJob(t: nat, tool: string)
      requires Valid() && t < |tasks| && tasks[t].InvokeLocking? && !hasStream && !hasCollector
      modifies `tasks, `waiterCount, `invokeCount, `jobsById, `jobsByCallId
      ensures Valid() && invokeCount == old(invokeCount) + 1
      ensures jobsById == old(jobsById) && jobsByCallId == old(jobsByCallId)
      ensures tasks == old(tasks)[t := Finished(Refused(NO_SINK))]
    {
      hide JobsMatch, IndexesMatch, Numbered, Sound, Distinct, Waiters, CallIdOf, TasksMatch, Waits;
      JobAdded(log, jobs, jobsById, jobsByCallId, bridgeId, mintJobId, invokeCount, tool);
      AddedAndRemoved(jobsById, mintJobId(invokeCount + 1), |jobs|);
      AddedAndRemoved(jobsByCallId, CallIdOf(bridgeId, invokeCount + 1), |jobs|);
      FewerNumbers(bridgeId, mintJobId, invokeCount, jobs);
      invokeCount := invokeCount + 1;
      var callId, jobId := CallIdOf(bridgeId, invokeCount), mintJobId(invokeCount);
      jobsById := jobsById[jobId := |jobs|];
      jobsByCallId := jobsByCallId[callId := |jobs|];
      jobsById := jobsById - {jobId};
      jobsByCallId := jobsByCallId - {callId};
      Move(t, Finished(Refused(NO_SINK)));
    }

    /** Writing the tool call starts; the lock stays taken meanwhile. */
    method StartEmit(t: nat, k: nat)
      requires TasksOk() && t < |tasks| && tasks[t].InvokeLocking? && lockHolder.None? && k < |jobs|
      modifies `tasks, `lockHolder
      ensures TasksOk() && tasks == old(tasks)[t := InvokeEmitting(k)] && lockHolder == Some(t)
    {
      WaitersUpdate(tasks, t, InvokeEmitting(k));
      TasksEmit(jobs, tasks, t, k);
      tasks := tasks[t := InvokeEmitting(k)];
      lockHolder := Some(t);
    }

    lemma FewerNumbers(bridgeId: string, mintJobId: nat -> string, count: nat, jobs: seq<BridgeJob>)
      requires Numbered(bridgeId, mintJobId, count, jobs)
      ensures Numbered(bridgeId, mintJobId, count + 1, jobs)
    {
    }

    /** The tool call is written, or writing it fails or is cancelled; the job stays registered. */
    method FinishEmit(t: nat, outcome: Option<Reply>)
      requires Valid() && t < |tasks| && tasks[t].InvokeEmitting?
      modifies `tasks, `lockHolder
      ensures Valid() && lockHolder.None?
      ensures var job := jobs[old(tasks)[t].job];
              tasks == old(tasks)[t := Finished(outcome.GetOr(Accepted(job.jobId, job.callId)))]
    {
      hide JobsOk;
      var job := jobs[tasks[t].job];
      var task := Finished(outcome.GetOr(Accepted(job.jobId, job.callId)));
      WaitersUpdate(tasks, t, task);
      tasks := tasks[t := task];
      lockHolder := None;
    }

    // ---- ingest ----

    /** `complete_call`: the first output for a pending job makes it ready. */
    method CompleteCall(callId: string, output: string) returns (completed: bool)
      requires Valid()
      modifies `jobs, `log
      ensures Valid() && log == old(log) + [Ingested(Strip(callId), output)]
      ensures Strip(callId) in jobsByCallId ==> jobsByCallId[Strip(callId)] < |old(jobs)|
      ensures completed <==> Strip(callId) in jobsByCallId && old(jobs)[jobsByCallId[Strip(callId)]].status.Pending?
      ensures jobs == if !completed then old(jobs)
                      else
                        var k := jobsByCallId[Strip(callId)];
                        old(jobs)[k := old(jobs)[k].(status := Ready, output := Some(output))]
    {
      hide JobsMatch, Numbered, Sound, Distinct, Waiters, CallIdOf;
      var clean := Strip(callId);
      JobAnswered(log, jobs, jobsById, jobsByCallId, bridgeId, mintJobId, invokeCount, clean, output);
      log := log + [Ingested(clean, output)];
      if clean !in jobsByCallId || !jobs[jobsByCallId[clean]].status.Pending? {
        return false;
      }
      var k := jobsByCallId[clean];
      jobs := jobs[k := jobs[k].(status := Ready, output := Some(output))];
      return true;
    }

    // ---- wait ----

    /** The start of `_request_turn_complete`: whether this call is the one that closes the turn. */
    method RequestTurnComplete() returns (requester: bool)
      modifies `turnCompleteRequested
      ensures turnCompleteRequested && requester == !old(turnCompleteRequested)
    {
      requester := !turnCompleteRequested;
      turnCompleteRequested := true;
    }

    method BeginWait(jobId: string, patient: bool) returns (t: nat)
      requires Valid()
      modifies `tasks, `turnCompleteRequested
      ensures Valid() && t == |old(tasks)|
      ensures var clean := Strip(jobId);
              var pending := clean != "" && clean in jobsById && jobs[jobsById[clean]].status.Pending?;
              && turnCompleteRequested == (old(turnCompleteRequested) || pending)
              && tasks == old(tasks) + [if clean == "" then Finished(Refused("job_id_required"))
                                        else if clean !in jobsById then Finished(UnknownJob(clean))
                                        else WaitRequesting(jobsById[clean], patient,
                                                            pending && !old(turnCompleteRequested))]
    {
      hide JobsMatch, Numbered, Sound, Distinct, Waiters, CallIdOf;
      var clean := Strip(jobId);
      if clean == "" {
        t := Begin(Finished(Refused("job_id_required")));
        return;
      }
      if clean !in jobsById {
        t := Begin(Finished(UnknownJob(clean)));
        return;
      }
      var requester := false;
      if jobs[jobsById[clean]].status.Pending? {
        requester := RequestTurnComplete();
      }
      t := Begin(WaitRequesting(jobsById[clean], patient, requester));
    }

    /** After the request: block on a pending job, or go for the lock. */
    method ContinueWait(t: nat)
      requires Valid() && t < |tasks| && tasks[t].WaitRequesting?
      modifies `tasks, `waiterCount, `turnClosed
      ensures Valid() && turnClosed == (old(turnClosed) || old(tasks)[t].requester)
      ensures var k := old(tasks)[t].job;
              k < |jobs| &&
              tasks == old(tasks)[t := match jobs[k].status
                                       case Pending => if old(tasks)[t].patient then WaitBlocked(k)
                                                       else Finished(TimedOut(jobs[k].jobId))
                                       case Ready => WaitLocking(k)
                                       case Consumed => Finished(UnknownJob(jobs[k].jobId))]
    {
      hide JobsOk, Waiters;
      if tasks[t].requester { turnClosed := true; }
      var k := tasks[t].job;
      if jobs[k].status.Pending? && !tasks[t].patient {
        Move(t, Finished(TimedOut(jobs[k].jobId)));
      } else if jobs[k].status.Pending? {
        Move(t, WaitBlocked(k));
      } else if jobs[k].status.Ready? {
        Move(t, WaitLocking(k));
      } else {
        Move(t, Finished(UnknownJob(jobs[k].jobId)));
      }
    }

    /** The event is set, or the time is up. */
    method ResumeWait(t: nat, timedOut: bool)
      requires Valid() && t < |tasks| && tasks[t].WaitBlocked? && (timedOut || !jobs[tasks[t].job].status.Pending?)
      modifies `tasks, `waiterCount
      ensures Valid()
      ensures var k := old(tasks)[t].job;
              k < |jobs| &&
              tasks == old(tasks)[t := if timedOut then Finished(TimedOut(jobs[k].jobId))
                                       else if jobs[k].status.Ready? then WaitLocking(k)
                                       else Finished(UnknownJob(jobs[k].jobId))]
    {
      hide JobsOk, Waiters;
      var k := tasks[t].job;
      if timedOut {
        Move(t, Finished(TimedOut(jobs[k].jobId)));
      } else if jobs[k].status.Ready? {
        Move(t, WaitLocking(k));
      } else {
        Move(t, Finished(UnknownJob(jobs[k].jobId)));
      }
    }

    /** `_consume_job`. */
    method ConsumeJob(caller: nat, k: nat) returns (payload: Payload)
      requires Valid() && k < |jobs| && jobs[k].status.Ready?
      modifies `jobs, `jobsById, `jobsByCallId, `log
      ensures Valid() && jobs == old(jobs)[k := old(jobs)[k].(status := Consumed)]
      ensures payload == Payload(jobs[k].jobId, jobs[k].callId, jobs[k].tool, jobs[k].output) && payload.output.Some?
      ensures log == old(log) + [Delivered(caller, k, payload.output.value)]
      ensures jobsByCallId == old(jobsByCallId) - {jobs[k].callId}
    {
      hide IndexesMatch, Numbered, Sound, Distinct, Waiters, CallIdOf, StatusIn;
      JobTaken(log, jobs, jobsById, jobsByCallId, bridgeId, mintJobId, invokeCount, caller, k);
      var job := jobs[k];
      payload := Payload(job.jobId, job.callId, job.tool, job.output);
      log := log + [Delivered(caller, k, job.output.value)];
      jobs := jobs[k := job.(status := Consumed)];
      jobsById := jobsById - {job.jobId};
      jobsByCallId := jobsByCallId - {job.callId};
    }

    /** With the lock: take the result, unless another caller has. */
    method TakeJob(t: nat)
      requires Valid() && t < |tasks| && tasks[t].WaitLocking? && lockHolder.None?
      modifies `tasks, `waiterCount, `jobs, `jobsById, `jobsByCallId, `log
      ensures Valid() && old(log) <= log
      ensures var k := old(tasks)[t].job;
              k < |old(jobs)| &&
              var job := old(jobs)[k];
              if job.status.Ready? then
                && log == old(log) + [Delivered(t, k, job.output.GetOr(""))]
                && jobs == old(jobs)[k := job.(status := Consumed)]
                && tasks == old(tasks)[t := Finished(Taken(Payload(job.jobId, job.callId, job.tool, job.output)))]
              else log == old(log) && jobs == old(jobs) && tasks == old(tasks)[t := Finished(UnknownJob(job.jobId))]
    {
      hide Numbered, Sound, Distinct, Waiters, CallIdOf, IndexesMatch, StatusIn, Answer, CallOf, Deliveries;
      var k := tasks[t].job;
      if jobs[k].status.Ready? {
        var payload := ConsumeJob(t, k);
        Move(t, Finished(Taken(payload)));
      } else {
        Move(t, Finished(UnknownJob(jobs[k].jobId)));
      }
    }

    // ---- poll ----

    method BeginPoll(patient: bool) returns (t: nat)
      requires Valid()
      modifies `tasks, `turnCompleteRequested
      ensures Valid() && t == |old(tasks)|
      ensures turnCompleteRequested == (old(turnCompleteRequested) || HasPendingJobs())
      ensures tasks == old(tasks) + [PollRequesting(patient, HasPendingJobs() && !old(turnCompleteRequested))]
    {
      hide JobsOk, Waiters;
      var requester := false;
      if exists k :: 0 <= k < |jobs| && !jobs[k].status.Consumed? {
        requester := RequestTurnComplete();
      }
      t := Begin(PollRequesting(patient, requester));
    }

    method ContinuePoll(t: nat)
      requires Valid() && t < |tasks| && tasks[t].PollRequesting?
      modifies `tasks, `waiterCount, `turnClosed
      ensures Valid() && turnClosed == (old(turnClosed) || old(tasks)[t].requester)
      ensures var pending := set k | 0 <= k < |jobs| && jobs[k].status.Pending?;
              var anyReady := exists k :: 0 <= k < |jobs| && jobs[k].status.Ready?;
              var blocks := old(tasks)[t].patient && pending != {} && !anyReady;
              tasks == old(tasks)[t := if blocks then PollBlocked(pending) else PollLocking]
    {
      hide JobsOk, Waiters;
      if tasks[t].requester { turnClosed := true; }
      var pending := set k | 0 <= k < |jobs| && jobs[k].status.Pending?;
      if tasks[t].patient && pending != {} && !(exists k :: 0 <= k < |jobs| && jobs[k].status.Ready?) {
        Move(t, PollBlocked(pending));
      } else {
        Move(t, PollLocking);
      }
    }

    method ResumePoll(t: nat, timedOut: bool)
      requires Valid() && t < |tasks| && tasks[t].PollBlocked?
      requires timedOut || exists k :: k in tasks[t].pending && k < |jobs| && !jobs[k].status.Pending?
      modifies `tasks, `waiterCount
      ensures Valid() && tasks == old(tasks)[t := PollLocking]
    {
      hide JobsOk, Waiters;
      Move(t, PollLocking);
    }

    /** With the lock: take every result that is ready. */
    method CollectJobs(t: nat)
      requires Valid() && t < |tasks| && tasks[t].PollLocking? && lockHolder.None?
      modifies `tasks, `waiterCount, `jobs, `jobsById, `jobsByCallId, `log
      ensures Valid() && |jobs| == |old(jobs)|
      ensures log == old(log) + ReadyDeliveries(t, old(jobs), |jobs|)
      ensures forall k :: 0 <= k < |jobs| ==>
                jobs[k] == if old(jobs)[k].status.Ready? then old(jobs)[k].(status := Consumed) else old(jobs)[k]
      ensures tasks == old(tasks)[t := Finished(Collected(ReadyPayloads(old(jobs), |jobs|), PendingCount(jobs)))]
    {
      hide Numbered, Sound, Distinct, Waiters, CallIdOf, IndexesMatch, StatusIn, CallOf, Deliveries, Answer, TasksMatch;
      var payloads: seq<Payload> := [];
      var k := 0;
      var n := |jobs|;
      while k < n
        invariant 0 <= k <= n == |jobs| && Valid() && tasks == old(tasks)
        invariant log == old(log) + ReadyDeliveries(t, old(jobs), k)
        invariant payloads == ReadyPayloads(old(jobs), k)
        invariant forall j :: 0 <= j < n ==>
                    jobs[j] == if j < k && old(jobs)[j].status.Ready? then old(jobs)[j].(status := Consumed)
                               else old(jobs)[j]
      {
        if jobs[k].status.Ready? {
          var payload := ConsumeJob(t, k);
          payloads := payloads + [payload];
        }
        k := k + 1;
      }
      var pending := CountPending(jobs);
      Move(t, Finished(Collected(payloads, pending)));
    }

    // ---- the rest ----

    /** A task is cancelled at its await. */
    method Cancel(t: nat)
      requires Valid() && t < |tasks| && !tasks[t].Finished?
      modifies `tasks, `waiterCount, `lockHolder
      ensures Valid() && tasks == old(tasks)[t := Finished(Reply.Cancelled)]
      ensures lockHolder == if old(tasks)[t].InvokeEmitting? then None else old(lockHolder)
    {
      hide JobsOk, Waiters;
      if tasks[t].InvokeEmitting? {
        FinishEmit(t, Some(Reply.Cancelled));
      } else {
        Move(t, Finished(Reply.Cancelled));
      }
    }

    /** A turn attaches its stream or collector, or detaches. */
    method Attach(stream: bool, collector: bool)
      requires Valid()
      modifies `hasStream, `hasCollector, `turnCompleteRequested
      ensures Valid() && hasStream == stream && hasCollector == collector
      ensures turnCompleteRequested == (old(turnCompleteRequested) && (stream || collector))
    {
      hasStream, hasCollector := stream, collector;
      if !stream && !collector {
        turnCompleteRequested := false;
      }
    }

    method ReopenTurn()
      requires Valid()
      modifies `turnClosed, `turnCompleteRequested
      ensures Valid() && !turnClosed && !turnCompleteRequested
    {
      turnClosed := false;
      turnCompleteRequested := false;
    }

    method MarkTurnClosed()
      requires Valid()
      modifies `turnClosed
      ensures Valid() && turnClosed
    {
      turnClosed := true;
    }

    predicate HasPendingJobs()
      reads `jobs
    {
      exists k :: 0 <= k < |jobs| && !jobs[k].status.Consumed?
    }
  }

  lemma AddedAndRemoved(m: map<string, nat>, key: string, value: nat)
    requires key !in m
    ensures m[key := value] - {key} == m
  {
  }

  function PendingCount(jobs: seq<BridgeJob>): nat {
    |set k | 0 <= k < |jobs| && jobs[k].status.Pending?|
  }

  method CountPending(jobs: seq<BridgeJob>) returns (n: nat)
    ensures n == PendingCount(jobs)
  {
    n := 0;
    ghost var found: set<int> := {};
    for k := 0 to |jobs|
      invariant found == (set j | 0 <= j < k && jobs[j].status.Pending?) && n == |found|
    {
      if jobs[k].status.Pending? {
        n := n + 1;
        found := found + {k};
      }
    }
  }

  // ---- What callers get ----

  function PayloadsOf(task: Task): seq<Payload> {
    if !task.Finished? then []
    else match task.reply
      case Taken(payload) => [payload]
      case Collected(payloads, _) => payloads
      case _ => []
  }

  /** A result that a caller holds was delivered to that caller. */
  ghost predicate HandedOut(log: seq<Happening>, jobs: seq<BridgeJob>, caller: nat, p: Payload) {
    exists k: nat ::
      && k < |jobs| && jobs[k].jobId == p.jobId
      && p.output.Some? && Delivered(caller, k, p.output.value) in log
  }

  ghost predicate RepliesMatch(log: seq<Happening>, jobs: seq<BridgeJob>, tasks: seq<Task>) {
    forall t: nat, p :: t < |tasks| && p in PayloadsOf(tasks[t]) ==> HandedOut(log, jobs, t, p)
  }

  /** Jobs keep their ids. */
  ghost predicate SameIds(jobs: seq<BridgeJob>, after: seq<BridgeJob>) {
    |jobs| <= |after| && forall k :: 0 <= k < |jobs| ==> after[k].jobId == jobs[k].jobId
  }

  lemma RepliesKeep(log: seq<Happening>, more: seq<Happening>, jobs: seq<BridgeJob>, after: seq<BridgeJob>,
                    tasks: seq<Task>, later: seq<Task>)
    requires RepliesMatch(log, jobs, tasks) && log <= more && SameIds(jobs, after)
    requires |tasks| <= |later|
    requires forall t: nat :: t < |later| ==>
               || (t < |tasks| && later[t] == tasks[t])
               || (forall p :: p in PayloadsOf(later[t]) ==> HandedOut(more, after, t, p))
    ensures RepliesMatch(more, after, later)
  {
    forall t: nat, p | t < |later| && p in PayloadsOf(later[t]) ensures HandedOut(more, after, t, p) {
      if t < |tasks| && later[t] == tasks[t] {
        assert HandedOut(log, jobs, t, p);
        var k: nat :| && k < |jobs| && jobs[k].jobId == p.jobId
                      && p.output.Some? && Delivered(t, k, p.output.value) in log;
        assert after[k].jobId == p.jobId && Delivered(t, k, p.output.value) in more;
      }
    }
  }

  lemma TakenHandedOut(log: seq<Happening>, jobs: seq<BridgeJob>, caller: nat, k: nat, job: BridgeJob)
    requires k < |jobs| && jobs[k].jobId == job.jobId && job.output.Some?
             && Delivered(caller, k, job.output.value) in log
    ensures HandedOut(log, jobs, caller, Payload(job.jobId, job.callId, job.tool, job.output))
  {
  }

  /** What a poll hands out is what it delivers. */
  lemma {:induction false} ReadyHandedOut(caller: nat, jobs: seq<BridgeJob>, n: nat, log: seq<Happening>,
                                          after: seq<BridgeJob>)
    requires n <= |jobs| && SameIds(jobs, after)
    requires forall k :: 0 <= k < |jobs| && jobs[k].status.Ready? ==> jobs[k].output.Some?
    ensures forall p :: p in ReadyPayloads(jobs, n) ==> HandedOut(log + ReadyDeliveries(caller, jobs, n), after,
                                                                  caller, p)
  {
    if n > 0 {
      ReadyHandedOut(caller, jobs, n - 1, log, after);
      var before, all := log + ReadyDeliveries(caller, jobs, n - 1), log + ReadyDeliveries(caller, jobs, n);
      var job := jobs[n - 1];
      forall e | e in before ensures e in all {
        assert e in log || e in ReadyDeliveries(caller, jobs, n - 1);
      }
      forall p | p in ReadyPayloads(jobs, n) ensures HandedOut(all, after, caller, p) {
        if p in ReadyPayloads(jobs, n - 1) {
          assert HandedOut(before, after, caller, p);
          var k: nat :| && k < |after| && after[k].jobId == p.jobId
                        && p.output.Some? && Delivered(caller, k, p.output.value) in before;
          assert Delivered(caller, k, p.output.value) in all;
        } else {
          assert p == Payload(job.jobId, job.callId, job.tool, job.output) && after[n - 1].jobId == p.jobId;
          assert Delivered(caller, n - 1, p.output.value) in ReadyDeliveries(caller, jobs, n);
        }
      }
    }
  }

  /** No two callers hold a result of the same job. */
  lemma OneCaller(log: seq<Happening>, jobs: seq<BridgeJob>, tasks: seq<Task>, bridgeId: string,
                  mintJobId: nat -> string, count: nat)
    requires Sound(log) && RepliesMatch(log, jobs, tasks) && Numbered(bridgeId, mintJobId, count, jobs)
             && Distinct(mintJobId)
    ensures forall s, t, p, q :: 0 <= s < |tasks| && 0 <= t < |tasks| && s != t ==>
              p in PayloadsOf(tasks[s]) && q in PayloadsOf(tasks[t]) ==> p.jobId != q.jobId
  {
    hide Sound, Numbered, Distinct;
    NumbersApart(bridgeId, mintJobId, count, jobs);
    forall s: nat, t: nat, p, q | && s < |tasks| && t < |tasks| && s != t
                                  && p in PayloadsOf(tasks[s]) && q in PayloadsOf(tasks[t])
      ensures p.jobId != q.jobId
    {
      assert HandedOut(log, jobs, s, p) && HandedOut(log, jobs, t, q);
      var j: nat :| j < |jobs| && jobs[j].jobId == p.jobId && p.output.Some? && Delivered(s, j, p.output.value) in log;
      var k: nat :| k < |jobs| && jobs[k].jobId == q.jobId && q.output.Some? && Delivered(t, k, q.output.value) in log;
      var m :| 0 <= m < |log| && log[m] == Delivered(s, j, p.output.value);
      var n :| 0 <= n < |log| && log[n] == Delivered(t, k, q.output.value);
      if m < n { DeliveredOnce(log, m, n); } else { DeliveredOnce(log, n, m); }
    }
  }
}
