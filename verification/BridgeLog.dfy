/** What happens to the jobs of a Cursor bridge, as a log, and what the log says of a job
    (codex_shim/cursor_bridge.py, BridgeJob). */
module BridgeLog {
  import opened Common

  /** A job created with a call id, an output ingested for a call id, a result handed to a caller. */
  datatype Happening =
    | Created(job: nat, callId: string)
    | Ingested(callId: string, output: string)
    | Delivered(caller: nat, job: nat, output: string)

  datatype Status = Pending | Ready | Consumed

  function CallOf(log: seq<Happening>, job: nat): Option<string> {
    if log == [] then None
    else
      var before, last := CallOf(log[..|log| - 1], job), log[|log| - 1];
      if before.None? && last.Created? && last.job == job then Some(last.callId) else before
  }

  /** The first output ingested for the job's call id after the job was created. */
  function Answer(log: seq<Happening>, job: nat): Option<string> {
    if log == [] then None
    else
      var before, last := Answer(log[..|log| - 1], job), log[|log| - 1];
      if before.None? && last.Ingested? && CallOf(log[..|log| - 1], job) == Some(last.callId) then Some(last.output)
      else before
  }

  function Deliveries(log: seq<Happening>, job: nat): nat {
    if log == [] then 0
    else Deliveries(log[..|log| - 1], job) + (if log[|log| - 1].Delivered? && log[|log| - 1].job == job then 1 else 0)
  }

  function StatusIn(log: seq<Happening>, job: nat): Status {
    if Deliveries(log, job) > 0 then Consumed else if Answer(log, job).Some? then Ready else Pending
  }

  /** Every delivery hands out the job's answer, and no job is delivered twice. */
  ghost predicate Sound(log: seq<Happening>) {
    && (forall job :: Deliveries(log, job) <= 1)
    && (forall n :: 0 <= n < |log| && log[n].Delivered? ==> Answer(log[..n], log[n].job) == Some(log[n].output))
  }

  lemma LogSnoc(log: seq<Happening>, e: Happening, job: nat)
    ensures CallOf(log + [e], job) == if CallOf(log, job).None? && e.Created? && e.job == job then Some(e.callId)
                                      else CallOf(log, job)
    ensures Answer(log + [e], job) ==
            if Answer(log, job).None? && e.Ingested? && CallOf(log, job) == Some(e.callId) then Some(e.output)
            else Answer(log, job)
    ensures Deliveries(log + [e], job) == Deliveries(log, job) + (if e.Delivered? && e.job == job then 1 else 0)
  {
    assert (log + [e])[..|log|] == log;
  }

  lemma SoundSnoc(log: seq<Happening>, e: Happening)
    requires Sound(log)
    requires e.Delivered? ==> Deliveries(log, e.job) == 0 && Answer(log, e.job) == Some(e.output)
    ensures Sound(log + [e])
  {
    forall job ensures Deliveries(log + [e], job) <= 1 {
      LogSnoc(log, e, job);
    }
    forall n | 0 <= n < |log + [e]| && (log + [e])[n].Delivered?
      ensures Answer((log + [e])[..n], (log + [e])[n].job) == Some((log + [e])[n].output)
    {
      assert (log + [e])[..n] == log[..n];
      assert n == |log| ==> log[..n] == log;
    }
  }

  function Rank(s: Status): nat {
    match s case Pending => 0 case Ready => 1 case Consumed => 2
  }

  /** In a sound log a job moves only from pending to ready to consumed, one step at a time. */
  lemma StatusMovesForward(log: seq<Happening>, e: Happening, job: nat)
    requires Sound(log + [e])
    ensures Rank(StatusIn(log, job)) <= Rank(StatusIn(log + [e], job)) <= Rank(StatusIn(log, job)) + 1
  {
    LogSnoc(log, e, job);
    var all := log + [e];
    if e.Delivered? && e.job == job {
      assert all[|log|] == e && all[..|log|] == log;
    }
  }

  /** An answer, once given, stays. */
  lemma {:induction false} AnswerStays(log: seq<Happening>, n: nat, job: nat)
    requires n <= |log| && Answer(log[..n], job).Some?
    ensures Answer(log, job) == Answer(log[..n], job)
    decreases |log| - n
  {
    if n == |log| {
      assert log[..n] == log;
    } else {
      assert log[..n + 1] == log[..n] + [log[n]];
      LogSnoc(log[..n], log[n], job);
      AnswerStays(log, n + 1, job);
    }
  }

  /** In a sound log two deliveries of the same job are the same delivery. */
  lemma DeliveredOnce(log: seq<Happening>, m: nat, n: nat)
    requires Sound(log) && m < n < |log| && log[m].Delivered? && log[n].Delivered?
    ensures log[m].job != log[n].job
  {
    hide Deliveries, Answer;
    if log[m].job == log[n].job {
      var job := log[m].job;
      DeliveredAt(log, m);
      DeliveredAt(log, n);
      DeliveriesCount(log[..n], m + 1, job);
      assert log[..n][..m + 1] == log[..m + 1];
      DeliveriesCount(log, n + 1, job);
    }
  }

  lemma DeliveredAt(log: seq<Happening>, n: nat)
    requires n < |log| && log[n].Delivered?
    ensures Deliveries(log[..n + 1], log[n].job) == Deliveries(log[..n], log[n].job) + 1
  {
    assert log[..n + 1] == log[..n] + [log[n]];
    LogSnoc(log[..n], log[n], log[n].job);
  }

  lemma {:induction false} DeliveriesCount(log: seq<Happening>, n: nat, job: nat)
    requires n <= |log|
    ensures Deliveries(log[..n], job) <= Deliveries(log, job)
    decreases |log| - n
  {
    if n == |log| {
      assert log[..n] == log;
    } else {
      assert log[..n + 1] == log[..n] + [log[n]];
      LogSnoc(log[..n], log[n], job);
      DeliveriesCount(log, n + 1, job);
    }
  }
}
