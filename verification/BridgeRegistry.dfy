/** The registry of bridge sessions (codex_shim/cursor_bridge.py, CursorBridgeRegistry). */
module BridgeRegistry {
  import opened Common
  import opened BridgeLog
  import opened Bridge
  import opened BridgeRun
  import ToolIds

  /** The registered sessions by id, as far as their calls go: there is no index of calls. */
  type Views = map<string, Picture>

  predicate HasLive(s: Picture, callId: string) {
    LiveByCall(s.jobs, callId).Some?
  }

  /** A session without a job that has not been consumed. */
  predicate IsIdle(s: Picture) {
    forall k :: 0 <= k < |s.jobs| ==> s.jobs[k].status.Consumed?
  }

  /** The session that has a call outstanding, found by looking at all of them. */
  ghost function OwnerIn(views: Views, callId: string): Option<string> {
    if exists b :: b in views && HasLive(views[b], callId) then
      var b :| b in views && HasLive(views[b], callId);
      Some(b)
    else None
  }

  /** A session is handed an output. */
  function AfterHanded(views: Views, to: Option<string>, callId: string, output: string): Views {
    if to.None? || to.value !in views then views else views[to.value := AfterIngest(views[to.value], callId, output)]
  }

  ghost predicate CompletesIn(views: Views, callId: string) {
    var owner := OwnerIn(views, callId);
    owner.Some? && owner.value in views && Completes(views[owner.value], callId)
  }

  /** A function-call output of a turn's input. */
  datatype OutputItem = OutputItem(callId: string, output: string)

  /** The sessions after the outputs that they have been handed; a blank call id is passed over. */
  function AfterOutputs(views: Views, items: seq<OutputItem>, handed: seq<Option<string>>): Views
    requires |handed| == |items|
  {
    if items == [] then views
    else
      var n := |items| - 1;
      AfterHanded(AfterOutputs(views, items[..n], handed[..n]), handed[n], Strip(items[n].callId), items[n].output)
  }

  /** An output goes to the session that has its call outstanding, if there is one. */
  ghost predicate HandedRight(views: Views, items: seq<OutputItem>, handed: seq<Option<string>>)
    requires |handed| == |items|
  {
    forall n :: 0 <= n < |items| ==>
      var owner := OwnerIn(AfterOutputs(views, items[..n], handed[..n]), Strip(items[n].callId));
      if Strip(items[n].callId) == "" then handed[n] == None else owner.Some? ==> handed[n] == owner
  }

  ghost function CompletedBy(views: Views, items: seq<OutputItem>, handed: seq<Option<string>>): nat
    requires |handed| == |items|
  {
    if items == [] then 0
    else
      var n := |items| - 1;
      var before := AfterOutputs(views, items[..n], handed[..n]);
      CompletedBy(views, items[..n], handed[..n])
      + (if Strip(items[n].callId) != "" && CompletesIn(before, Strip(items[n].callId)) then 1 else 0)
  }

  /** What is left of the sessions: only expired ones without outstanding calls may be gone. */
  ghost predicate Remains(views: Views, after: Views, expired: set<string>) {
    && after.Keys <= views.Keys
    && (forall b :: b in views && b !in after ==> b in expired && IsIdle(views[b]))
    && (forall b :: b in after ==> after[b] == views[b])
  }

  ghost predicate OneOwnerEach(views: Views) {
    forall c, a, b :: a in views && b in views && HasLive(views[a], c) && HasLive(views[b], c) ==> a == b
  }

  lemma OwnerMeans(views: Views, callId: string)
    requires OneOwnerEach(views)
    ensures forall b :: b in views && HasLive(views[b], callId) ==> OwnerIn(views, callId) == Some(b)
    ensures OwnerIn(views, callId).Some? ==>
              OwnerIn(views, callId).value in views && HasLive(views[OwnerIn(views, callId).value], callId)
  {
    hide HasLive;
  }

  lemma IdleHasNothing(s: Picture, callId: string)
    ensures IsIdle(s) ==> !HasLive(s, callId)
  {
    LiveMeans(s.jobs, callId);
  }

  /** Idle sessions make no difference to who owns a call. */
  lemma SameOwner(views: Views, after: Views, expired: set<string>, callId: string)
    requires Remains(views, after, expired) && OneOwnerEach(after)
    ensures OneOwnerEach(views) && OwnerIn(views, callId) == OwnerIn(after, callId)
    ensures CompletesIn(views, callId) == CompletesIn(after, callId)
  {
    hide IsIdle, HasLive;
    forall c, b | b in views ensures HasLive(views[b], c) <==> b in after && HasLive(after[b], c) {
      IdleHasNothing(views[b], c);
    }
    OwnerMeans(views, callId);
    OwnerMeans(after, callId);
  }

  lemma HandedRemains(views: Views, now: Views, after: Views, expired: set<string>, to: Option<string>, callId: string,
                      output: string)
    requires Remains(views, now, expired) && (to.Some? ==> to.value in now)
    requires Remains(AfterHanded(now, to, callId, output), after, expired)
    ensures Remains(AfterHanded(views, to, callId, output), after, expired)
  {
    hide IsIdle, AfterIngest;
  }

  class CursorBridgeRegistry {
    var sessions: map<string, CursorBridgeSession>
    var callIndex: map<string, string>

    /** Sessions are listed under their ids, and the index maps calls to the bridges that made them. */
    ghost predicate Valid()
      reads this, sessions.Values
    {
      && (forall b :: b in sessions ==> sessions[b].bridgeId == b && Healthy(sessions[b]))
      && IndexOk()
    }

    ghost predicate IndexOk()
      reads `callIndex
    {
      forall c :: c in callIndex ==> OfBridge(callIndex[c], c)
    }

    function Views(): (views: Views)
      reads this, sessions.Values
      ensures views.Keys == sessions.Keys
    {
      map b | b in sessions :: View(sessions[b])
    }

    /** Where the sessions' job ids come from. */
    ghost predicate Minted(mint: string -> nat -> string)
      reads `sessions
    {
      forall b :: b in sessions ==> sessions[b].mintJobId == mint(b)
    }

    lemma ViewsDeliver()
      requires Valid()
      ensures AllDeliver(Views())
    {
      hide OneOwnerEach, DeliversOnce;
      OwnersSeen();
      forall b | b in Views() ensures DeliversOnce(Views()[b]) {
        SessionDelivers(sessions[b]);
      }
    }

    /** The session has the call outstanding. */
    ghost predicate Owns(b: string, callId: string)
      reads this, sessions.Values
    {
      b in sessions && callId in sessions[b].jobsByCallId
    }

    lemma ListedUnderIds()
      requires Valid()
      ensures forall b :: b in sessions ==> sessions[b].bridgeId == b
      ensures forall a, b :: a in sessions && b in sessions && a != b ==> sessions[a] != sessions[b]
    {
      hide Healthy;
    }

    /** An outstanding call is one of its session's own, and the index knows no other session for it. */
    lemma {:induction false} OwnersMade(b: string, callId: string)
      requires Valid() && Owns(b, callId)
      ensures OfBridge(b, callId) && !IsIdle(View(sessions[b])) && HasLive(View(sessions[b]), callId)
      ensures callId in callIndex ==> callIndex[callId] == b
    {
      hide CallIdOf, Healthy, LiveByCall;
      OutstandingIsOwn(sessions[b], callId);
      if callId in callIndex {
        OneBridge(b, callIndex[callId], callId);
      }
    }

    /** No two sessions own a call. */
    lemma OneOwner(a: string, b: string, callId: string)
      requires Valid() && Owns(a, callId) && Owns(b, callId)
      ensures a == b
    {
      hide Valid, OfBridge;
      OwnersMade(a, callId);
      OwnersMade(b, callId);
      OneBridge(a, b, callId);
    }

    /** The dictionaries own exactly the calls of jobs that have not been consumed. */
    lemma {:induction false} OwnersSeen()
      requires Valid()
      ensures OneOwnerEach(Views())
      ensures forall b, c :: Owns(b, c) <==> b in Views() && HasLive(Views()[b], c)
      ensures forall b, c :: Owns(b, c) ==> OwnerIn(Views(), c) == Some(b)
      ensures forall c :: OwnerIn(Views(), c).Some? ==> Owns(OwnerIn(Views(), c).value, c)
    {
      hide Healthy, LiveByCall, OwnerIn;
      forall b, c ensures Owns(b, c) <==> b in Views() && HasLive(Views()[b], c) {
        if b in sessions { OutstandingIsOwnOrNot(sessions[b], c); }
      }
      forall c, a, b | Owns(a, c) && Owns(b, c) ensures a == b {
        OneOwner(a, b, c);
      }
      forall c ensures forall b :: Owns(b, c) ==> OwnerIn(Views(), c) == Some(b) {
        OwnerMeans(Views(), c);
      }
      forall c | OwnerIn(Views(), c).Some? ensures Owns(OwnerIn(Views(), c).value, c) {
        OwnerMeans(Views(), c);
      }
    }

    constructor ()
      ensures Valid() && sessions == map[] && callIndex == map[]
    {
      sessions, callIndex := map[], map[];
    }

    /** The key and the fingerprints of a session are no part of what is shown of it. */
    twostate lemma SameSession(session: CursorBridgeSession)
      requires old(Healthy(session))
      requires unchanged(session`log, session`jobs, session`tasks, session`lockHolder, session`invokeCount,
                         session`hasStream, session`hasCollector, session`turnCompleteRequested, session`turnClosed,
                         session`jobsById, session`jobsByCallId, session`waiterCount)
      ensures Healthy(session) && View(session) == old(View(session))
    {
      hide CursorBridgeSession.JobsOk, CursorBridgeSession.TasksOk, RepliesMatch, AllHeld;
    }

    /** `register`, without its sweep of expired sessions. */
    method Register(session: CursorBridgeSession, sessionKey: string, intent: set<string>)
      requires Valid() && Healthy(session)
      modifies this, session`sessionKey, session`seenIntent
      ensures Valid() && sessions == old(sessions)[session.bridgeId := session] && callIndex == old(callIndex)
      ensures Views() == old(Views())[session.bridgeId := old(View(session))]
      ensures session.seenIntent == old(session.seenIntent) + intent && session.sessionKey == Strip(sessionKey)
    {
      hide Healthy, View, IndexOk;
      session.sessionKey := Strip(sessionKey);
      session.seenIntent := session.seenIntent + intent;
      SameSession(session);
      forall a | a in sessions ensures Healthy(sessions[a]) {
        assert old(Healthy(sessions[a]));
      }
      sessions := sessions[session.bridgeId := session];
    }

    /** An action of a registered session; the step of `invoke` that makes a job also indexes its call. */
    method ActOn(b: string, action: Action)
      requires Valid() && b in sessions
      modifies `callIndex, sessions[b]
      ensures Valid() && sessions == old(sessions)
      ensures Views() ==
              old(Views())[b := After(b, sessions[b].mintJobId, old(Views())[b], action)]
      ensures |sessions[b].jobs| > old(|sessions[b].jobs|) ==>
                callIndex == old(callIndex)[sessions[b].jobs[old(|sessions[b].jobs|)].callId := b]
      ensures |sessions[b].jobs| <= old(|sessions[b].jobs|) ==> callIndex == old(callIndex)
    {
      hide Healthy, After, OfBridge, View;
      ListedUnderIds();
      var session := sessions[b];
      var n := |session.jobs|;
      Act(session, action);
      if |session.jobs| > n {
        JobIsOwn(session, n);
        callIndex := callIndex[session.jobs[n].callId := b];
      }
      assert forall a :: a in sessions && a != b ==> View(sessions[a]) == old(View(sessions[a]));
      forall a | a in sessions ensures Healthy(sessions[a]) {
        assert a != b ==> old(Healthy(sessions[a]));
      }
    }

    /** `close`: forget the session and its calls, cancel its agent and detach it. */
    method Close(b: string)
      requires Valid()
      modifies this, sessions.Values`agentAlive, sessions.Values`hasStream, sessions.Values`hasCollector,
               sessions.Values`turnCompleteRequested
      ensures Valid() && sessions == old(sessions) - {b} && Views() == old(Views()) - {b}
      ensures callIndex == old(callIndex) - old(if b in sessions then sessions[b].jobsByCallId.Keys else {})
      ensures old(b in sessions) ==> !old(sessions)[b].agentAlive
    {
      hide Healthy, OfBridge, View;
      if b !in sessions {
        assert sessions - {b} == sessions && callIndex - {} == callIndex;
        return;
      }
      ListedUnderIds();
      var session := sessions[b];
      sessions := sessions - {b};
      callIndex := callIndex - session.jobsByCallId.Keys;
      session.agentAlive := false;
      session.hasStream, session.hasCollector, session.turnCompleteRequested := false, false, false;
      forall a | a in sessions ensures Healthy(sessions[a]) && View(sessions[a]) == old(View(sessions[a])) {
        assert old(Healthy(sessions[a]));
      }
    }

    /** `get`: an expired session with nothing outstanding is closed instead of returned. */
    method Get(b: string, expired: set<string>) returns (r: CursorBridgeSession?)
      requires Valid()
      modifies this, sessions.Values`agentAlive, sessions.Values`hasStream, sessions.Values`hasCollector,
               sessions.Values`turnCompleteRequested
      ensures Valid()
      ensures var kept := b in old(Views()) && (b !in expired || !IsIdle(old(Views())[b]));
              && r == (if kept then old(sessions)[b] else null)
              && (kept ==> sessions == old(sessions) && Views() == old(Views()))
              && (!kept ==> sessions == old(sessions) - {b} && Views() == old(Views()) - {b})
    {
      hide Valid;
      if b !in sessions {
        assert sessions - {b} == sessions && Views() - {b} == Views();
        return null;
      }
      if b in expired && !sessions[b].HasPendingJobs() {
        Close(b);
        return null;
      }
      r := sessions[b];
    }

    /** What became of the sessions while one was looked up: an expired and idle one may be gone. */
    twostate predicate OnlyClosed(expired: set<string>)
      reads this, sessions.Values
    {
      && Remains(old(Views()), Views(), expired)
      && (forall b :: b in sessions ==> b in old(sessions) && sessions[b] == old(sessions)[b])
      && (forall b :: b in sessions ==> Views()[b] == old(Views())[b])
    }

    /** The fast path: the index, and then `get`. */
    method ByIndex(callId: string, expired: set<string>) returns (r: CursorBridgeSession?)
      requires Valid()
      modifies this, sessions.Values`agentAlive, sessions.Values`hasStream, sessions.Values`hasCollector,
               sessions.Values`turnCompleteRequested
      ensures Valid() && OnlyClosed(expired)
      ensures forall b :: old(Owns(b, callId)) ==> Owns(b, callId) && (r != null ==> r == sessions[b])
      ensures r != null ==> r.bridgeId in sessions && sessions[r.bridgeId] == r
    {
      hide Valid, LiveByCall, IsIdle;
      ListedUnderIds();
      forall b | Owns(b, callId)
        ensures !IsIdle(View(sessions[b])) && (callId in callIndex ==> callIndex[callId] == b)
      {
        OwnersMade(b, callId);
      }
      r := null;
      if callId in callIndex && callIndex[callId] != "" {
        r := Get(callIndex[callId], expired);
      }
    }

    /** The session of a call: by the index, or else by looking at every session. Whichever way, the owner is
        found that looking at every session finds. */
    method SessionOfCall(callId: string, expired: set<string>) returns (r: CursorBridgeSession?)
      requires Valid()
      modifies this, sessions.Values`agentAlive, sessions.Values`hasStream, sessions.Values`hasCollector,
               sessions.Values`turnCompleteRequested
      ensures Valid() && OnlyClosed(expired)
      ensures match OwnerIn(old(Views()), callId)
              case Some(b) => b in sessions && r == sessions[b] && r.bridgeId == b
              case None => r != null ==> r.bridgeId in sessions && sessions[r.bridgeId] == r
    {
      hide Valid, OwnerIn, HasLive, IsIdle, OneOwnerEach, OnlyClosed, Remains, View;
      OwnersSeen();
      ghost var owner := OwnerIn(Views(), callId);
      r := ByIndex(callId, expired);
      ListedUnderIds();
      if r != null { return; }
      var scanned := Scan(callId);
      if owner.Some? {
        assert Owns(owner.value, callId);
        OneOwner(owner.value, scanned.value, callId);
      }
      r := if scanned.Some? then sessions[scanned.value] else null;
    }

    /** The slow path: look at every session. */
    method Scan(callId: string) returns (owner: Option<string>)
      ensures owner.Some? ==> Owns(owner.value, callId)
      ensures owner.None? ==> forall b :: !Owns(b, callId)
    {
      var todo := sessions.Keys;
      while todo != {}
        invariant todo <= sessions.Keys && forall b :: b in sessions && b !in todo ==> !Owns(b, callId)
      {
        var b :| b in todo;
        if callId in sessions[b].jobsByCallId {
          return Some(b);
        }
        todo := todo - {b};
      }
      owner := None;
    }

    /** One output: it is handed to the session that owns its call, whichever way that session is found, or else
        perhaps to another one, where it completes nothing. */
    method IngestOutput(callId: string, output: string, expired: set<string>)
      returns (completed: bool, to: Option<string>)
      requires Valid() && Strip(callId) == callId != ""
      modifies this, sessions.Values
      ensures Valid() && forall b :: b in sessions ==> b in old(sessions) && sessions[b] == old(sessions)[b]
      ensures OwnerIn(old(Views()), callId).Some? ==> to == OwnerIn(old(Views()), callId)
      ensures Remains(AfterHanded(old(Views()), to, callId, output), Views(), expired)
      ensures to.Some? ==> to.value in Views()
      ensures completed == CompletesIn(old(Views()), callId)
    {
      hide Valid, Owns, HasLive, Remains, OwnerIn, IsIdle, Completes, AfterIngest, OneOwnerEach, CompletesIn, View;
      OwnersSeen();
      ghost var views := Views();
      var session := SessionOfCall(callId, expired);
      ghost var before := Views();
      if session == null {
        NoOwnerNoOutput(views, callId);
        return false, None;
      }
      to := Some(session.bridgeId);
      completed := Hand(session, callId, output);
      IngestedRemains(views, before, session.bridgeId, callId, output, expired);
    }

    /** A registered session takes an output. */
    method Hand(session: CursorBridgeSession, callId: string, output: string) returns (completed: bool)
      requires Valid() && session.bridgeId in sessions && sessions[session.bridgeId] == session
      modifies session`jobs, session`log
      ensures Valid() && Views() == old(Views())[session.bridgeId := AfterIngest(old(View(session)), callId, output)]
      ensures completed == Completes(old(View(session)), callId)
    {
      hide Healthy, AfterIngest, Completes, OfBridge;
      ListedUnderIds();
      completed := IngestOne(session, callId, output);
      forall a | a in sessions ensures Healthy(sessions[a]) {
        assert a != session.bridgeId ==> old(Healthy(sessions[a]));
      }
    }

    /** `ingest_function_call_outputs`: the number of outputs that completed a call, and where each output went. */
    method IngestOutputs(items: seq<OutputItem>, expired: set<string>)
      returns (completed: nat, handed: seq<Option<string>>)
      requires Valid()
      modifies this, sessions.Values
      ensures Valid() && forall b :: b in sessions ==> b in old(sessions) && sessions[b] == old(sessions)[b]
      ensures |handed| == |items| && HandedRight(old(Views()), items, handed)
      ensures Remains(AfterOutputs(old(Views()), items, handed), Views(), expired)
      ensures completed == CompletedBy(old(Views()), items, handed)
    {
      hide Valid, AfterHanded, OwnerIn, CompletesIn, OneOwnerEach, Remains, Views, HandedRight, AfterOutputs,
           CompletedBy;
      completed, handed := 0, [];
      ghost var views := Views();
      RemainsSame(views, expired);
      NothingHanded(views);
      assert items[..0] == [];
      for n := 0 to |items|
        invariant Valid() && forall b :: b in sessions ==> b in old(sessions) && sessions[b] == old(sessions)[b]
        invariant |handed| == n && HandedRight(views, items[..n], handed)
        invariant Remains(AfterOutputs(views, items[..n], handed), Views(), expired)
        invariant completed == CompletedBy(views, items[..n], handed)
      {
        var callId, to := Strip(items[n].callId), None;
        ghost var now := Views();
        OwnersSeen();
        HandedNothing(AfterOutputs(views, items[..n], handed), callId, items[n].output);
        if callId != "" {
          StripTwice(items[n].callId);
          var done: bool;
          done, to := IngestOutput(callId, items[n].output, expired);
          SameOwner(AfterOutputs(views, items[..n], handed), now, expired, callId);
          HandedRemains(AfterOutputs(views, items[..n], handed), now, Views(), expired, to, callId, items[n].output);
          if done { completed := completed + 1; }
        }
        assert items[..n + 1] == items[..n] + [items[n]];
        OutputsSnoc(views, items[..n], items[n], handed, to);
        handed := handed + [to];
      }
      assert items[..|items|] == items;
    }

    /** True when the turn carries an instruction that no session has seen. */
    method IntroducesUserIntent(intent: set<string>) returns (r: bool)
      ensures r <==> exists x :: x in intent && forall b :: b in sessions ==> x !in sessions[b].seenIntent
    {
      var remaining := intent;
      if remaining == {} { return false; }
      var todo := sessions.Keys;
      while todo != {}
        invariant todo <= sessions.Keys
        invariant remaining == set x | && x in intent
                                       && forall b :: b in sessions.Keys - todo ==> x !in sessions[b].seenIntent
        invariant remaining != {}
      {
        var b :| b in todo;
        remaining := remaining * (intent - sessions[b].seenIntent);
        todo := todo - {b};
        if remaining == {} {
          forall x | x in intent ensures exists a :: a in sessions && x in sessions[a].seenIntent {
            assert x !in remaining;
          }
          return false;
        }
      }
      if forall x :: x !in remaining { assert false; }
      var x :| x in remaining;
      return true;
    }

    /** The sessions whose agents a new turn of the key supersedes. */
    ghost function Superseded(key: string, skip: string): set<string>
      reads this, sessions.Values`sessionKey
    {
      set b | b in sessions && key != "" && sessions[b].sessionKey == key && (skip == "" || b != skip)
    }

    ghost function Alive(): set<string>
      reads this, sessions.Values`agentAlive
    {
      set b | b in sessions && sessions[b].agentAlive
    }

    /** `cancel_live_agents_for_session`: no agent of the key stays alive, except the excluded one. */
    method CancelLiveAgents(sessionKey: string, exceptBridge: string) returns (cancelled: nat)
      requires Valid()
      modifies sessions.Values`agentAlive
      ensures Valid() && Views() == old(Views())
      ensures Alive() == old(Alive()) - Superseded(Strip(sessionKey), Strip(exceptBridge))
      ensures cancelled == |old(Alive()) * Superseded(Strip(sessionKey), Strip(exceptBridge))|
    {
      hide Valid, Superseded, Alive, Views, View;
      var key, skip := Strip(sessionKey), Strip(exceptBridge);
      if key == "" {
        SetsMean(key, skip);
        assert Superseded(key, skip) == {} && Alive() - {} == Alive() && Alive() * {} == {};
        return 0;
      }
      cancelled := Sweep(key, skip);
    }

    /** The loop over all sessions. */
    method Sweep(key: string, skip: string) returns (cancelled: nat)
      requires Valid() && key != ""
      modifies sessions.Values`agentAlive
      ensures Valid() && Views() == old(Views())
      ensures Alive() == old(Alive()) - Superseded(key, skip)
      ensures cancelled == |old(Alive()) * Superseded(key, skip)|
    {
      hide Valid, Superseded, Alive, Views, View;
      ListedUnderIds();
      ghost var superseded, was := Superseded(key, skip), Alive();
      SetsMean(key, skip);
      cancelled := 0;
      var todo := sessions.Keys;
      ghost var done: set<string> := {};
      assert superseded - todo == {};
      while todo != {}
        invariant todo <= sessions.Keys && Valid() && done == superseded - todo && Views() == old(Views())
        invariant Alive() == was - done && cancelled == |was * done|
      {
        var b :| b in todo;
        SweepStep(superseded, todo, b);
        todo := todo - {b};
        if sessions[b].sessionKey == key && (skip == "" || b != skip) {
          var stopped := CancelOne(b, was, done);
          cancelled := cancelled + stopped;
          done := done + {b};
        }
      }
      assert superseded - {} == superseded;
    }

    /** The agent of one session is cancelled if it is alive. */
    method CancelOne(b: string, ghost was: set<string>, ghost done: set<string>) returns (stopped: nat)
      requires Valid() && b in sessions && b !in done && Alive() == was - done
      modifies sessions.Values`agentAlive
      ensures Valid() && Views() == old(Views()) && Alive() == was - (done + {b})
      ensures |was * (done + {b})| == |was * done| + stopped
    {
      hide Valid, Alive, Views, View;
      ListedUnderIds();
      OneMoreDone(was, done, b);
      AliveMeans(b);
      stopped := 0;
      if sessions[b].agentAlive {
        DropAgent(sessions[b]);
        stopped := 1;
      }
    }

    lemma AliveMeans(b: string)
      requires b in sessions
      ensures b in Alive() <==> sessions[b].agentAlive
    {
    }

    lemma SetsMean(key: string, skip: string)
      ensures Superseded(key, skip) <= sessions.Keys && (key == "" ==> Superseded(key, skip) == {})
      ensures forall b :: b in sessions ==>
                (b in Superseded(key, skip) <==>
                   key != "" && sessions[b].sessionKey == key && (skip == "" || b != skip))
    {
    }

    lemma SweepStep(superseded: set<string>, todo: set<string>, b: string)
      requires b in todo
      ensures superseded - (todo - {b}) == (superseded - todo) + (if b in superseded then {b} else {})
      ensures superseded - (todo - {b}) == if b in superseded then (superseded - todo) + {b} else superseded - todo
    {
    }

    lemma OneMoreDone(was: set<string>, done: set<string>, b: string)
      ensures b !in done && b in was ==> |was * (done + {b})| == |was * done| + 1
      ensures b !in was ==> was * (done + {b}) == was * done && was - (done + {b}) == was - done
      ensures was - (done + {b}) == was - done - {b}
    {
      if b in was {
        assert was * (done + {b}) == was * done + {b};
      } else {
        assert was * (done + {b}) == was * done;
      }
    }

    /** `cancel_agent`. */
    method DropAgent(session: CursorBridgeSession)
      requires Valid() && session.bridgeId in sessions && sessions[session.bridgeId] == session
      modifies session`agentAlive
      ensures Valid() && Alive() == old(Alive()) - {session.bridgeId} && Views() == old(Views())
    {
      hide CursorBridgeSession.JobsOk, CursorBridgeSession.TasksOk, RepliesMatch, AllHeld, IndexOk;
      assert forall a :: a in sessions && a != session.bridgeId ==> sessions[a] != session by { ListedUnderIds(); }
      session.agentAlive := false;
      forall a | a in sessions ensures Healthy(sessions[a]) {
        assert old(Healthy(sessions[a]));
      }
    }
  }

  // ---- Whole runs ----

  datatype RegistryAction =
    | RegisterNew(bridgeId: string, sessionKey: string, intent: set<string>)
    | OnSession(bridgeId: string, action: Action)
    | IngestItems(items: seq<OutputItem>, expired: set<string>)
    | GetSession(bridgeId: string, expired: set<string>)
    | CloseSession(bridgeId: string)
    | CancelAgents(sessionKey: string, exceptBridge: string)

  /** What an action returns: a number, and for the outputs of a turn the sessions that were handed them. */
  datatype Answer = Answer(count: nat, handed: seq<Option<string>>)

  /** What an action does to the registered sessions, and what it answers. */
  ghost predicate Steps(mint: string -> nat -> string, before: Views, a: RegistryAction, answer: Answer,
                        after: Views) {
    match a
    case RegisterNew(b, _, _) => after == before[b := NEW_SESSION]
    case OnSession(b, action) =>
      after == if b in before then before[b := After(b, mint(b), before[b], action)] else before
    case IngestItems(items, expired) =>
      && |answer.handed| == |items| && HandedRight(before, items, answer.handed)
      && Remains(AfterOutputs(before, items, answer.handed), after, expired)
      && answer.count == CompletedBy(before, items, answer.handed)
    case GetSession(b, expired) =>
      && after == (if b in before && b in expired && IsIdle(before[b]) then before - {b} else before)
      && answer.count == if b in after then 1 else 0
    case CloseSession(b) => after == before - {b}
    case CancelAgents(_, _) => after == before
  }

  /** Every call has one owner, and every session delivers its results once. */
  ghost predicate AllDeliver(views: Views) {
    OneOwnerEach(views) && forall b :: b in views ==> DeliversOnce(views[b])
  }

  /** Registrations, actions of the sessions, turns that bring outputs, lookups and closings, in any order: each
      does what is defined without the index of calls, and in every state a call has one owner and every session
      delivers its results once. */
  method RunRegistry(mint: string -> nat -> string, actions: seq<RegistryAction>)
    returns (states: seq<Views>, answers: seq<Answer>)
    requires forall b :: Distinct(mint(b))
    ensures |states| == |actions| + 1 && |answers| == |actions| && states[0] == map[]
    ensures forall n :: 0 <= n < |actions| ==> Steps(mint, states[n], actions[n], answers[n], states[n + 1])
    ensures forall n :: 0 <= n <= |actions| ==> AllDeliver(states[n])
  {
    hide Steps, AllDeliver, Distinct, CursorBridgeRegistry.Valid, CursorBridgeRegistry.Views, View;
    var registry := new CursorBridgeRegistry();
    states, answers := [registry.Views()], [];
    registry.ViewsDeliver();
    for n := 0 to |actions|
      invariant fresh(registry) && registry.Valid() && registry.Minted(mint)
      invariant forall b :: b in registry.sessions ==> fresh(registry.sessions[b])
      invariant |states| == n + 1 && |answers| == n && states[0] == map[] && states[n] == registry.Views()
      invariant forall m :: 0 <= m < n ==> Steps(mint, states[m], actions[m], answers[m], states[m + 1])
      invariant forall m :: 0 <= m <= n ==> AllDeliver(states[m])
    {
      var answer := RegistryStep(registry, mint, actions[n]);
      registry.ViewsDeliver();
      states := states + [registry.Views()];
      answers := answers + [answer];
    }
  }

  method RegistryStep(registry: CursorBridgeRegistry, mint: string -> nat -> string, a: RegistryAction)
    returns (answer: Answer)
    requires registry.Valid() && registry.Minted(mint) && forall b :: Distinct(mint(b))
    modifies registry, registry.sessions.Values
    ensures registry.Valid() && registry.Minted(mint)
    ensures forall b :: b in registry.sessions ==>
              fresh(registry.sessions[b]) || registry.sessions[b] in old(registry.sessions.Values)
    ensures Steps(mint, old(registry.Views()), a, answer, registry.Views())
  {
    hide CursorBridgeRegistry.Valid, CursorBridgeRegistry.Views, Distinct, After, IsIdle, Remains, AfterOutputs,
         CompletedBy, HandedRight, Healthy, View;
    answer := Answer(0, []);
    match a {
      case RegisterNew(b, sessionKey, intent) =>
        var session := NewSession(b, mint);
        registry.Register(session, sessionKey, intent);
      case OnSession(b, action) => if b in registry.sessions { registry.ActOn(b, action); }
      case IngestItems(items, expired) =>
        var completed, handed := registry.IngestOutputs(items, expired);
        answer := Answer(completed, handed);
      case GetSession(b, expired) =>
        var found := registry.Get(b, expired);
        answer := Answer(if found == null then 0 else 1, []);
      case CloseSession(b) => registry.Close(b);
      case CancelAgents(sessionKey, exceptBridge) =>
        var cancelled := registry.CancelLiveAgents(sessionKey, exceptBridge);
    }
  }

  method NewSession(b: string, mint: string -> nat -> string) returns (session: CursorBridgeSession)
    requires Distinct(mint(b))
    ensures fresh(session) && Healthy(session) && session.bridgeId == b && session.mintJobId == mint(b)
    ensures View(session) == NEW_SESSION
  {
    hide CursorBridgeSession.Valid, Distinct;
    session := new CursorBridgeSession(b, mint(b));
    NoReplies();
  }

  // ---- What a session's own data say of its calls ----

  /** The call id is one that the bridge makes. */
  ghost predicate OfBridge(b: string, callId: string) {
    exists m: nat :: callId == CallIdOf(b, m)
  }

  lemma OneBridge(a: string, b: string, callId: string)
    requires OfBridge(a, callId) && OfBridge(b, callId)
    ensures a == b
  {
    hide CallIdOf;
    var m: nat :| callId == CallIdOf(a, m);
    var n: nat :| callId == CallIdOf(b, n);
    CallIdsApart(a, m, b, n);
  }

  lemma OutstandingIsOwnOrNot(session: CursorBridgeSession, callId: string)
    requires Healthy(session)
    ensures callId in session.jobsByCallId <==> HasLive(View(session), callId)
  {
    hide CursorBridgeSession.Valid, RepliesMatch, LiveById, LiveByCall;
    SessionFinds(session, callId);
  }

  lemma OutstandingIsOwn(session: CursorBridgeSession, callId: string)
    requires Healthy(session) && callId in session.jobsByCallId
    ensures OfBridge(session.bridgeId, callId) && HasLive(View(session), callId) && !IsIdle(View(session))
  {
    OutstandingIsOwnOrNot(session, callId);
    assert session.Outstanding() by {
      hide CursorBridgeSession.TasksOk, RepliesMatch;
      session.JobsAreOutstanding();
    }
    hide Healthy, LiveByCall, CallIdOf;
    var k := session.jobsByCallId[callId];
    assert !View(session).jobs[k].status.Consumed?;
  }

  lemma JobIsOwn(session: CursorBridgeSession, k: nat)
    requires Healthy(session) && k < |session.jobs|
    ensures OfBridge(session.bridgeId, session.jobs[k].callId)
  {
    hide JobsMatch, Sound, Distinct, IndexesMatch, CursorBridgeSession.TasksOk, RepliesMatch, CallIdOf;
  }

  lemma RemainsSame(views: Views, expired: set<string>)
    ensures Remains(views, views, expired)
  {
  }

  lemma StripTwice(s: string)
    ensures Strip(Strip(s)) == Strip(s)
  {
    ToolIds.StripEnds(s);
    ToolIds.StripFixed(Strip(s));
  }

  /** The outputs handed to a session, as its log has them. */
  function IngestedBy(b: string, items: seq<OutputItem>, handed: seq<Option<string>>): seq<Happening>
    requires |handed| == |items|
  {
    if items == [] then []
    else
      var n := |items| - 1;
      IngestedBy(b, items[..n], handed[..n])
      + (if handed[n] == Some(b) then [Ingested(Strip(items[n].callId), items[n].output)] else [])
  }

  /** The outputs of a turn extend the log of each session by exactly those that it is handed, in order, and change
      nothing of a session that is handed none. */
  lemma {:induction false} LogsGrow(views: Views, items: seq<OutputItem>, handed: seq<Option<string>>, b: string)
    requires |handed| == |items| && b in views
    ensures b in AfterOutputs(views, items, handed)
    ensures AfterOutputs(views, items, handed)[b].log == views[b].log + IngestedBy(b, items, handed)
    ensures IngestedBy(b, items, handed) == [] ==> AfterOutputs(views, items, handed)[b] == views[b]
  {
    if items == [] {
      assert views[b].log + [] == views[b].log;
    } else {
      var n := |items| - 1;
      LogsGrow(views, items[..n], handed[..n], b);
      StripTwice(items[n].callId);
      var line := Ingested(Strip(items[n].callId), items[n].output);
      var before := IngestedBy(b, items[..n], handed[..n]);
      assert views[b].log + before + [line] == views[b].log + (before + [line]);
      assert before + [] == before;
    }
  }

  lemma NoOwnerNoOutput(views: Views, callId: string)
    ensures OwnerIn(views, callId).None? ==> !CompletesIn(views, callId)
  {
    hide OwnerIn;
  }

  lemma NothingHanded(views: Views)
    ensures HandedRight(views, [], []) && AfterOutputs(views, [], []) == views && CompletedBy(views, [], []) == 0
  {
  }

  lemma HandedNothing(views: Views, callId: string, output: string)
    ensures AfterHanded(views, None, callId, output) == views
  {
  }

  /** One more output. */
  lemma OutputsSnoc(views: Views, items: seq<OutputItem>, item: OutputItem, handed: seq<Option<string>>,
                    to: Option<string>)
    requires |handed| == |items| && HandedRight(views, items, handed)
    requires var owner := OwnerIn(AfterOutputs(views, items, handed), Strip(item.callId));
             if Strip(item.callId) == "" then to == None else owner.Some? ==> to == owner
    ensures HandedRight(views, items + [item], handed + [to])
    ensures AfterOutputs(views, items + [item], handed + [to])
            == AfterHanded(AfterOutputs(views, items, handed), to, Strip(item.callId), item.output)
    ensures var completes := Strip(item.callId) != ""
                             && CompletesIn(AfterOutputs(views, items, handed), Strip(item.callId));
            CompletedBy(views, items + [item], handed + [to])
            == CompletedBy(views, items, handed) + (if completes then 1 else 0)
  {
    hide OwnerIn, CompletesIn, AfterHanded, HandedRight;
    assert (items + [item])[..|items|] == items && (handed + [to])[..|items|] == handed;
    RightSnoc(views, items, item, handed, to);
  }

  lemma RightSnoc(views: Views, items: seq<OutputItem>, item: OutputItem, handed: seq<Option<string>>,
                  to: Option<string>)
    requires |handed| == |items| && HandedRight(views, items, handed)
    requires var owner := OwnerIn(AfterOutputs(views, items, handed), Strip(item.callId));
             if Strip(item.callId) == "" then to == None else owner.Some? ==> to == owner
    ensures HandedRight(views, items + [item], handed + [to])
  {
    hide OwnerIn, AfterOutputs, Strip;
    var all, sent := items + [item], handed + [to];
    forall n | 0 <= n < |all|
      ensures var owner := OwnerIn(AfterOutputs(views, all[..n], sent[..n]), Strip(all[n].callId));
              if Strip(all[n].callId) == "" then sent[n] == None else owner.Some? ==> sent[n] == owner
    {
      assert all[..n] == items[..n] && sent[..n] == handed[..n];
      assert items[..|items|] == items && handed[..|items|] == handed;
    }
  }

  /** Completing a call in a session that does not own it changes no job. */
  lemma IngestedRemains(views: Views, before: Views, b: string, callId: string, output: string, expired: set<string>)
    requires OneOwnerEach(views) && Remains(views, before, expired) && b in before
    requires OwnerIn(views, callId).Some? ==> b == OwnerIn(views, callId).value
    requires Strip(callId) == callId
    ensures Remains(AfterHanded(views, Some(b), callId, output), before[b := AfterIngest(before[b], callId, output)],
                    expired)
    ensures Completes(views[b], callId) == CompletesIn(views, callId)
  {
    hide OwnerIn, LiveByCall;
    OwnerMeans(views, callId);
  }
}
