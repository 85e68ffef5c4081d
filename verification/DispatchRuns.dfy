/**
 Which calls of a batch run, and what each call is answered with (crates/agent/src/dispatch.rs): stated on
 the fields of the settings, on what a person answered and on what the tools gave, for every batch.
 */
module DispatchRuns {
  import opened Common
  import opened Messages
  import opened Dispatch

  // ------------------------------------------------------------- what the settings grant

  /** A list denies what it leaves out; with no list all is allowed, and the search tool always is. */
  ghost predicate Says(perms: Option<map<string, Permission>>, name: string, p: Permission) {
    if name == "tool_search" || perms.None? then p == Allow
    else if name in perms.value then p == perms.value[name]
    else p == Deny
  }

  /** What was on offer when the turn began can only be narrowed: a denial there stands, anything else is read again. */
  ghost predicate Narrows(offered: Permission, scope: Option<Live>, now: Permission, p: Permission) {
    p == if offered == Deny || scope.None? then offered else now
  }

  /** A registered tool is looked up in the tools' lists, any other name that delegates in the delegations'. */
  ghost predicate Grants(agent: Agent, scope: Option<Live>, name: string, p: Permission) {
    if name in agent.tools || name !in agent.subagents then
      exists offered, now ::
        && Says(agent.offered, name, offered)
        && (scope.Some? ==> Says(Some(scope.value.tools), name, now))
        && Narrows(offered, scope, now, p)
    else
      exists now ::
        && (scope.Some? ==> now == if name in scope.value.subagents then scope.value.subagents[name] else Deny)
        && Narrows(agent.subagents[name], scope, now, p)
  }

  /** A registered tool's own rules, under the rules in force, have the last word over what is granted. */
  ghost predicate Rules(agent: Agent, scope: Option<Live>, call: ToolCall, granted: Permission, p: Permission) {
    if call.name in agent.tools then
      var rules := if scope.Some? then scope.value.rules else agent.rules;
      var verdict := agent.tools[call.name].policy(call, rules, granted);
      p == if verdict.Some? then verdict.value else granted
    else p == granted
  }

  /** The settings come to `p` for a call they do not deny outright. */
  ghost predicate ComesTo(agent: Agent, scope: Option<Live>, call: ToolCall, p: Permission) {
    exists granted ::
      granted != Deny && Grants(agent, scope, call.name, granted) && Rules(agent, scope, call, granted, p)
  }

  /** Tools are on, and the call is allowed, or is to be asked about and is approved, or nobody is there to ask. */
  ghost predicate MayRun(agent: Agent, oracle: Oracle, g: nat, scope: Option<Live>, call: ToolCall) {
    agent.toolsEnabled &&
    (ComesTo(agent, scope, call, Allow) ||
     (ComesTo(agent, scope, call, Ask) && (agent.hasGate ==> oracle.ask(g, call) == Approved)))
  }

  /** Waiting for an answer ended with the turn being stopped. */
  ghost predicate StoppedWhileAsked(agent: Agent, oracle: Oracle, g: nat, scope: Option<Live>, call: ToolCall) {
    agent.toolsEnabled && ComesTo(agent, scope, call, Ask) && agent.hasGate && oracle.ask(g, call) == Stopped
  }

  lemma SaysIs(perms: Option<map<string, Permission>>, name: string, p: Permission)
    ensures Says(perms, name, p) <==> p == PermissionFor(perms, name)
  {}

  lemma GrantsIs(agent: Agent, scope: Option<Live>, call: ToolCall, p: Permission)
    ensures Grants(agent, scope, call.name, p) <==> p == Fallback(agent, scope, call)
  {
    var name := call.name;
    if name in agent.tools || name !in agent.subagents {
      var offered := PermissionFor(agent.offered, name);
      var now := if scope.Some? then PermissionFor(Some(scope.value.tools), name) else Allow;
      assert Says(agent.offered, name, offered) && (scope.Some? ==> Says(Some(scope.value.tools), name, now));
      assert Narrows(offered, scope, now, PermissionOf(agent, scope, name));
      forall o: Permission ensures Says(agent.offered, name, o) <==> o == offered {
        SaysIs(agent.offered, name, o);
      }
      if scope.Some? {
        forall o: Permission ensures Says(Some(scope.value.tools), name, o) <==> o == now {
          SaysIs(Some(scope.value.tools), name, o);
        }
      }
    } else {
      var now :=
        if scope.Some? then if name in scope.value.subagents then scope.value.subagents[name] else Deny else Allow;
      assert Narrows(agent.subagents[name], scope, now, Fallback(agent, scope, call));
    }
  }

  lemma ComesToIs(agent: Agent, scope: Option<Live>, call: ToolCall, p: Permission)
    ensures ComesTo(agent, scope, call, p) <==>
        Fallback(agent, scope, call) != Deny && Effective(agent, scope, call) == p
  {
    var granted := Fallback(agent, scope, call);
    GrantsIs(agent, scope, call, granted);
    forall g: Permission ensures Grants(agent, scope, call.name, g) <==> g == granted {
      GrantsIs(agent, scope, call, g);
    }
    assert Rules(agent, scope, call, granted, Effective(agent, scope, call));
  }

  /** What `authorize` lets through, and what it refuses with. */
  lemma AuthorizeIs(agent: Agent, oracle: Oracle, n: nat, scope: Option<Live>, call: ToolCall)
    ensures var refusal := Authorize(agent, oracle, n, scope, call);
      && (refusal.None? <==> MayRun(agent, oracle, n, scope, call))
      && (refusal.Some? ==> Refuses(agent, oracle, n, scope, call, refusal.value))
  {
    ComesToIs(agent, scope, call, Allow);
    ComesToIs(agent, scope, call, Ask);
  }

  /** How a call that may not run is refused. */
  ghost predicate Refuses(agent: Agent, oracle: Oracle, n: nat, scope: Option<Live>, call: ToolCall,
        refusal: Execution) {
    if !agent.toolsEnabled then refusal.failure == Some(Config)
    else if StoppedWhileAsked(agent, oracle, n, scope, call) then
      refusal == Execution(CANCELLED_TOOL_RESULT, Some(Aborted))
    else refusal.failure == Some(PermissionDenied)
  }

  // ------------------------------------------------------------- which calls run

  /** Nothing ended the turn before group `g`: it was not stopped to begin with, nor since. */
  ghost predicate Free(agent: Agent, oracle: Oracle, stopped: bool, answers: seq<Answer>, g: nat) {
    !stopped && Untroubled(agent, oracle, answers, g)
  }

  /**
   What becomes of the call at `j`: it runs exactly when nothing ended the turn before its group and it may run
   under the settings its group read. Otherwise it is answered by what kept it from running.
   */
  ghost predicate Fated(agent: Agent, oracle: Oracle, initial: Option<Live>, stopped: bool, calls: seq<ToolCall>,
        answers: seq<Answer>, j: nat)
    requires j < |answers| <= |calls|
  {
    var answer, g := answers[j], answers[j].group;
    var scope := if agent.live then oracle.refresh(g) else initial;
    var free := Free(agent, oracle, stopped, answers[..j], g);
    && (answer.ran <==> free && MayRun(agent, oracle, g, scope, calls[j]))
    && (!answer.ran ==>
          if agent.live && oracle.refresh(g).None? then answer.execution == Execution("Stopped", Some(PermissionDenied))
          else if !free then answer.execution == Execution(CANCELLED_TOOL_RESULT, Some(Aborted))
          else Refuses(agent, oracle, g, scope, calls[j], answer.execution))
  }

  ghost predicate AllFated(agent: Agent, oracle: Oracle, initial: Option<Live>, stopped: bool, calls: seq<ToolCall>,
        answers: seq<Answer>) {
    |answers| <= |calls| && forall j :: 0 <= j < |answers| ==> Fated(agent, oracle, initial, stopped, calls, answers, j)
  }

  /** The flag is up exactly when something ended the turn. */
  ghost predicate Flagged(agent: Agent, oracle: Oracle, stopped: bool, n: nat, b: Batch) {
    && Carried(agent, oracle, n, b)
    && (stopped ==> b.cancelled)
    && (b.cancelled ==>
          || stopped
          || (exists i :: 0 <= i < |b.answers| && IsAbort(b.answers[i].execution))
          || (exists h: nat :: h < n && oracle.stopped(h)))
  }

  /** Before group `n` runs, the flag and the stop seen now say whether it is free to. */
  lemma FreeIs(agent: Agent, oracle: Oracle, stopped: bool, n: nat, b: Batch)
    requires Flagged(agent, oracle, stopped, n, b) && Resolves(agent, oracle, n)
    ensures Free(agent, oracle, stopped, b.answers, n) <==> !(b.cancelled || oracle.stopped(n))
  {
    if !b.cancelled && !oracle.stopped(n) {
      forall h: nat | h <= n ensures !oracle.stopped(h) && Resolves(agent, oracle, h) {
        assert h < n || h == n;
      }
    }
  }

  lemma SameFreedom(agent: Agent, oracle: Oracle, stopped: bool, n: nat, before: seq<Answer>, more: seq<Answer>)
    requires before <= more && forall i :: |before| <= i < |more| ==> more[i].group == n
    ensures Free(agent, oracle, stopped, before, n) <==> Free(agent, oracle, stopped, more, n)
  {}

  lemma FateIsKept(agent: Agent, oracle: Oracle, initial: Option<Live>, stopped: bool, calls: seq<ToolCall>,
        before: seq<Answer>, after: seq<Answer>)
    requires AllFated(agent, oracle, initial, stopped, calls, before) && before <= after && |after| <= |calls|
    requires forall j :: |before| <= j < |after| ==> Fated(agent, oracle, initial, stopped, calls, after, j)
    ensures AllFated(agent, oracle, initial, stopped, calls, after)
  {
    forall j | 0 <= j < |before| ensures Fated(agent, oracle, initial, stopped, calls, after, j) {
      assert Fated(agent, oracle, initial, stopped, calls, before, j) && after[..j] == before[..j];
    }
  }

  /** What a group adds, when its calls are all answered alike and none of them runs. */
  lemma {:induction false} AllAnsweredAlike(calls: seq<ToolCall>, n: nat, execution: Execution, b: Batch)
    ensures var r := AnswerAll(calls, n, execution, b);
      && b.answers <= r.answers
      && (forall i :: |b.answers| <= i < |r.answers| ==> r.answers[i] == Answer(execution, false, n))
      && (r.cancelled <==> b.cancelled || (calls != [] && IsAbort(execution)))
      && r.world == b.world
    decreases |calls|
  {
    if calls != [] {
      var next := Settle(b, n, execution, false);
      AllAnsweredAlike(calls[1..], n, execution, next);
      assert next.answers[|b.answers|] == Answer(execution, false, n);
    }
  }

  /** What a group of calls that run together adds: every one of them runs. */
  lemma AllRanTogether(oracle: Oracle, n: nat, group: seq<ToolCall>, b: Batch)
    ensures var r := Parallel(oracle, n, group, b);
      && b.answers <= r.answers
      && (forall i :: |b.answers| <= i < |r.answers| ==> r.answers[i].ran && r.answers[i].group == n)
  {}

  lemma {:induction false} RaceAborts(oracle: Oracle, n: nat, group: seq<ToolCall>, base: nat, f: Flight)
    requires Airborne(f, |group|) && (f.aborted ==> exists x :: x in f.finished && IsAbort(x.1))
    ensures var r := Race(oracle, n, group, base, f); r.aborted ==> exists x :: x in r.finished && IsAbort(x.1)
    decreases |f.inFlight|
  {
    if f.inFlight != [] {
      LandKeepsAirborne(oracle, n, group, base, f);
      var after := Land(oracle, n, group, base, f);
      var last := after.finished[|f.finished|];
      assert last in after.finished;
      if f.aborted {
        var x :| x in f.finished && IsAbort(x.1);
        assert x in after.finished;
      }
      RaceAborts(oracle, n, group, base, after);
    }
  }

  /** A group that ran together raises the flag only for a call of its own that reported an abort. */
  lemma TogetherFlags(oracle: Oracle, n: nat, group: seq<ToolCall>, b: Batch)
    ensures var r := Parallel(oracle, n, group, b);
      r.cancelled && !b.cancelled ==>
        exists i :: |b.answers| <= i < |r.answers| && IsAbort(r.answers[i].execution)
  {
    var takeOff := TakeOff(b, |group|);
    var f := Race(oracle, n, group, |b.answers|, takeOff);
    RaceAborts(oracle, n, group, |b.answers|, takeOff);
    var r := Parallel(oracle, n, group, b);
    var landed := SortByIndex(f.finished);
    if f.aborted {
      var x :| x in f.finished && IsAbort(x.1);
      assert x in landed;
      var k :| 0 <= k < |landed| && landed[k] == x;
      assert r.answers[|b.answers| + k].execution == x.1;
    }
  }

  /** The next group, by its calls: alone, all cancelled, or together. */
  lemma GroupIsFated(agent: Agent, oracle: Oracle, calls: seq<ToolCall>, n: nat, initial: Option<Live>,
        now: Option<Live>, stopped: bool, b: Batch, r: Batch)
    requires SafeHasNoPolicy(agent) && |b.answers| < |calls|
    requires now == (if agent.live then oracle.refresh(n) else initial) && Resolves(agent, oracle, n)
    requires AllFated(agent, oracle, initial, stopped, calls, b.answers) && Flagged(agent, oracle, stopped, n, b)
    requires RunNextGroup(agent, oracle, calls, n, now, b) == Some(r)
    ensures AllFated(agent, oracle, initial, stopped, calls, r.answers)
  {
    var rest := calls[|b.answers|..];
    var group := rest[..NextGroup(agent, now, rest)];
    var asked := b.(cancelled := b.cancelled || oracle.stopped(n));
    FreeIs(agent, oracle, stopped, n, b);
    assert RunGroup(agent, oracle, n, now, group, b) == Some(r);
    if |group| == 1 {
      SoloIsFated(agent, oracle, calls, n, initial, now, stopped, b, r);
    } else if asked.cancelled {
      AllAnsweredAlike(group, n, CancelledExecution(), asked);
    } else {
      AllRanTogether(oracle, n, group, asked);
    }
    forall j | |b.answers| <= j < |r.answers| ensures Fated(agent, oracle, initial, stopped, calls, r.answers, j) {
      assert group[j - |b.answers|] == calls[j];
      assert forall i :: 0 <= i < j ==> r.answers[..j][i] == r.answers[i];
      SameFreedom(agent, oracle, stopped, n, b.answers, r.answers[..j]);
      if |group| > 1 && !asked.cancelled {
        EligibleIsAuthorized(agent, oracle, n, now, calls[j]);
        AuthorizeIs(agent, oracle, n, now, calls[j]);
      }
    }
    FateIsKept(agent, oracle, initial, stopped, calls, b.answers, r.answers);
  }

  lemma SoloIsFated(agent: Agent, oracle: Oracle, calls: seq<ToolCall>, n: nat, initial: Option<Live>,
        now: Option<Live>, stopped: bool, b: Batch, r: Batch)
    requires |b.answers| < |calls| && Resolves(agent, oracle, n)
    requires now == (if agent.live then oracle.refresh(n) else initial)
    requires Free(agent, oracle, stopped, b.answers, n) <==> !(b.cancelled || oracle.stopped(n))
    requires var asked := b.(cancelled := b.cancelled || oracle.stopped(n));
      Solo(agent, oracle, n, now, calls[|b.answers|], asked) == Some(r)
    ensures b.answers <= r.answers && |r.answers| == |b.answers| + 1 && r.answers[|b.answers|].group == n
    ensures Fated(agent, oracle, initial, stopped, calls, r.answers, |b.answers|)
  {
    AuthorizeIs(agent, oracle, n, now, calls[|b.answers|]);
    assert r.answers[..|b.answers|] == b.answers;
  }

  lemma GroupIsFlagged(agent: Agent, oracle: Oracle, calls: seq<ToolCall>, n: nat, initial: Option<Live>,
        now: Option<Live>, stopped: bool, b: Batch, r: Batch)
    requires SafeHasNoPolicy(agent) && |b.answers| < |calls| && Final(agent, oracle, initial, calls, b.answers)
    requires now == ScopeAt(agent, oracle, n, initial) && Resolves(agent, oracle, n)
    requires Flagged(agent, oracle, stopped, n, b) && RunNextGroup(agent, oracle, calls, n, now, b) == Some(r)
    ensures Flagged(agent, oracle, stopped, n + 1, r) && Final(agent, oracle, initial, calls, r.answers)
  {
    NextGroupFinal(agent, oracle, calls, n, initial, now, b, r);
    var rest := calls[|b.answers|..];
    var group := rest[..NextGroup(agent, now, rest)];
    var asked := b.(cancelled := b.cancelled || oracle.stopped(n));
    assert RunGroup(agent, oracle, n, now, group, b) == Some(r);
    GroupFlags(agent, oracle, n, now, group, asked, r);
    if r.cancelled && !asked.cancelled {
      var i :| |b.answers| <= i < |r.answers| && IsAbort(r.answers[i].execution);
    } else if b.cancelled && !stopped && !exists h: nat :: h < n && oracle.stopped(h) {
      var i :| 0 <= i < |b.answers| && IsAbort(b.answers[i].execution);
      assert r.answers[i] == b.answers[i];
    }
  }

  /** A group not cancelled to begin with is cancelled by a call of its own. */
  lemma GroupFlags(agent: Agent, oracle: Oracle, n: nat, now: Option<Live>, group: seq<ToolCall>, asked: Batch,
        r: Batch)
    requires group != []
    requires if |group| == 1 then Solo(agent, oracle, n, now, group[0], asked) == Some(r)
      else if asked.cancelled then r == AnswerAll(group, n, CancelledExecution(), asked)
      else r == Parallel(oracle, n, group, asked)
    ensures asked.cancelled ==> r.cancelled
    ensures r.cancelled && !asked.cancelled ==>
      exists i :: |asked.answers| <= i < |r.answers| && IsAbort(r.answers[i].execution)
  {
    if |group| == 1 {
      assert r.cancelled && !asked.cancelled ==> IsAbort(r.answers[|asked.answers|].execution);
    } else if asked.cancelled {
      AllAnsweredAlike(group, n, CancelledExecution(), asked);
    } else {
      TogetherFlags(oracle, n, group, asked);
    }
  }

  lemma GoneIsFated(agent: Agent, oracle: Oracle, calls: seq<ToolCall>, n: nat, initial: Option<Live>, stopped: bool,
        b: Batch)
    requires AllFated(agent, oracle, initial, stopped, calls, b.answers) && !Resolves(agent, oracle, n)
    ensures AllFated(agent, oracle, initial, stopped, calls,
        AnswerAll(calls[|b.answers|..], n, DeniedExecution(AgentRemoved), b).answers)
  {
    var r := AnswerAll(calls[|b.answers|..], n, DeniedExecution(AgentRemoved), b);
    AllAnsweredAlike(calls[|b.answers|..], n, DeniedExecution(AgentRemoved), b);
    FateIsKept(agent, oracle, initial, stopped, calls, b.answers, r.answers);
  }

  ghost predicate EndsFated(agent: Agent, oracle: Oracle, initial: Option<Live>, stopped: bool, calls: seq<ToolCall>,
        r: Outcome) {
    r.Done? ==> AllFated(agent, oracle, initial, stopped, calls, r.batch.answers)
  }

  lemma DoneIsFated(agent: Agent, oracle: Oracle, calls: seq<ToolCall>, initial: Option<Live>, stopped: bool, b: Batch)
    requires AllFated(agent, oracle, initial, stopped, calls, b.answers)
    ensures EndsFated(agent, oracle, initial, stopped, calls, Done(b, false))
  {}

  lemma GoneEndsFated(agent: Agent, oracle: Oracle, calls: seq<ToolCall>, n: nat, initial: Option<Live>, stopped: bool,
        b: Batch)
    requires AllFated(agent, oracle, initial, stopped, calls, b.answers) && !Resolves(agent, oracle, n)
    ensures EndsFated(agent, oracle, initial, stopped, calls,
        Done(AnswerAll(calls[|b.answers|..], n, DeniedExecution(AgentRemoved), b), true))
  {
    GoneIsFated(agent, oracle, calls, n, initial, stopped, b);
  }

  lemma {:induction false} FatesFrom(agent: Agent, oracle: Oracle, calls: seq<ToolCall>, n: nat, initial: Option<Live>,
        scope: Option<Live>, stopped: bool, b: Batch)
    requires SafeHasNoPolicy(agent) && (agent.live || scope == initial)
    requires AllFated(agent, oracle, initial, stopped, calls, b.answers) && Flagged(agent, oracle, stopped, n, b)
    requires Final(agent, oracle, initial, calls, b.answers)
    ensures EndsFated(agent, oracle, initial, stopped, calls, DispatchFrom(agent, oracle, calls, n, scope, b))
    decreases |calls| - |b.answers|
  {
    if |b.answers| == |calls| {
      DoneIsFated(agent, oracle, calls, initial, stopped, b);
    } else {
      match Refreshed(agent, oracle, n, scope)
      case None => GoneEndsFated(agent, oracle, calls, n, initial, stopped, b);
      case Some(now) =>
        var r := RunNextGroup(agent, oracle, calls, n, now, b);
        if r.Some? {
          GroupIsFated(agent, oracle, calls, n, initial, now, stopped, b, r.value);
          GroupIsFlagged(agent, oracle, calls, n, initial, now, stopped, b, r.value);
          FatesFrom(agent, oracle, calls, n + 1, initial, now, stopped, r.value);
        }
    }
  }

  /**
   A permitted call runs. In every batch, each call runs exactly when the turn had not been stopped, no call of
   an earlier group reported an abort, every refresh so far found the agent, and the settings its group read
   allow it, or ask and a person approved. What does not run is answered by what kept it from running.
   */
  lemma RunsExactlyWhenPermitted(agent: Agent, oracle: Oracle, calls: seq<ToolCall>, scope: Option<Live>, start: World,
        stopped: bool)
    requires SafeHasNoPolicy(agent)
    ensures var r := DispatchFrom(agent, oracle, calls, 0, scope, Start(start, stopped));
      r.Done? ==> |r.batch.answers| == |calls| && AllFated(agent, oracle, scope, stopped, calls, r.batch.answers)
  {
    FatesFrom(agent, oracle, calls, 0, scope, scope, stopped, Start(start, stopped));
  }

  // ------------------------------------------------------------- how a batch ends

  /** A delegation came back with an error of its own. */
  ghost predicate DelegationFails(agent: Agent, oracle: Oracle, calls: seq<ToolCall>) {
    exists j, g, w ::
      && 0 <= j < |calls| && calls[j].name in agent.subagents && calls[j].name !in agent.tools
      && oracle.delegate(g, w, calls[j]).None?
  }

  /** The groups that asked whether the turn was stopped: all of them, but for the one the agent was gone at. */
  ghost predicate Asked(answers: seq<Answer>, gone: bool, n: nat) {
    if answers == [] then n == 0 else n == answers[|answers| - 1].group + if gone then 0 else 1
  }

  /** What a batch reports: a stop exactly when there was one, and the agent gone when its last group missed it. */
  ghost predicate Reports(agent: Agent, oracle: Oracle, stopped: bool, r: Outcome, n: nat)
    requires r.Done?
  {
    var answers := r.batch.answers;
    && Asked(answers, r.agentGone, n)
    && (r.agentGone <==> answers != [] && !Resolves(agent, oracle, answers[|answers| - 1].group))
    && (r.batch.cancelled <==>
          || stopped
          || (exists i :: 0 <= i < |answers| && IsAbort(answers[i].execution))
          || (exists h: nat :: h < n && oracle.stopped(h)))
  }

  lemma SoloFailsByDelegation(agent: Agent, oracle: Oracle, calls: seq<ToolCall>, n: nat, now: Option<Live>, b: Batch)
    requires |b.answers| < |calls| && RunNextGroup(agent, oracle, calls, n, now, b).None?
    ensures DelegationFails(agent, oracle, calls)
  {
    var call := calls[|b.answers|];
    assert oracle.delegate(n, b.world, call).None?;
  }

  lemma GoneReports(agent: Agent, oracle: Oracle, calls: seq<ToolCall>, n: nat, stopped: bool, b: Batch)
    requires Flagged(agent, oracle, stopped, n, b) && !Resolves(agent, oracle, n) && |b.answers| < |calls|
    ensures var r := AnswerAll(calls[|b.answers|..], n, DeniedExecution(AgentRemoved), b);
      Reports(agent, oracle, stopped, Done(r, true), n)
  {
    var r := AnswerAll(calls[|b.answers|..], n, DeniedExecution(AgentRemoved), b);
    AllAnsweredAlike(calls[|b.answers|..], n, DeniedExecution(AgentRemoved), b);
    assert r.answers[|r.answers| - 1] == Answer(DeniedExecution(AgentRemoved), false, n);
    forall i | 0 <= i < |b.answers| ensures r.answers[i] == b.answers[i] {}
  }

  /** The last answer so far came from the group before `n`, which found the agent. */
  ghost predicate UpTo(agent: Agent, oracle: Oracle, answers: seq<Answer>, n: nat) {
    if answers == [] then n == 0
    else n == answers[|answers| - 1].group + 1 && Resolves(agent, oracle, n - 1)
  }

  lemma GroupIsUpTo(agent: Agent, oracle: Oracle, calls: seq<ToolCall>, n: nat, now: Option<Live>, b: Batch, r: Batch)
    requires |b.answers| < |calls| && RunNextGroup(agent, oracle, calls, n, now, b) == Some(r)
    requires Resolves(agent, oracle, n)
    ensures UpTo(agent, oracle, r.answers, n + 1)
  {
    var rest := calls[|b.answers|..];
    var group := rest[..NextGroup(agent, now, rest)];
    var asked := b.(cancelled := b.cancelled || oracle.stopped(n));
    assert RunGroup(agent, oracle, n, now, group, b) == Some(r);
    if |group| > 1 {
      if asked.cancelled {
        AllAnsweredAlike(group, n, CancelledExecution(), asked);
      } else {
        AllRanTogether(oracle, n, group, asked);
      }
    }
  }

  lemma {:induction false} ReportsFrom(agent: Agent, oracle: Oracle, calls: seq<ToolCall>, n: nat,
        initial: Option<Live>, scope: Option<Live>, stopped: bool, b: Batch) returns (last: nat)
    requires SafeHasNoPolicy(agent) && (agent.live || scope == initial)
    requires Final(agent, oracle, initial, calls, b.answers) && Flagged(agent, oracle, stopped, n, b)
    requires UpTo(agent, oracle, b.answers, n)
    ensures var r := DispatchFrom(agent, oracle, calls, n, scope, b);
      if r.Done? then Reports(agent, oracle, stopped, r, last) else DelegationFails(agent, oracle, calls)
    decreases |calls| - |b.answers|
  {
    last := n;
    if |b.answers| < |calls| {
      match Refreshed(agent, oracle, n, scope)
      case None => GoneReports(agent, oracle, calls, n, stopped, b);
      case Some(now) =>
        match RunNextGroup(agent, oracle, calls, n, now, b)
        case None => SoloFailsByDelegation(agent, oracle, calls, n, now, b);
        case Some(r) =>
          GroupIsFlagged(agent, oracle, calls, n, initial, now, stopped, b, r);
          GroupIsUpTo(agent, oracle, calls, n, now, b, r);
          last := ReportsFrom(agent, oracle, calls, n + 1, initial, now, stopped, r);
    }
  }

  /**
   How a batch ends: lost only when a delegation failed. Otherwise it reports a stop exactly when it began
   stopped, a group saw a stop or a call reported an abort, and the agent as gone exactly when its last group
   did not find it.
   */
  lemma HowABatchEnds(agent: Agent, oracle: Oracle, calls: seq<ToolCall>, scope: Option<Live>, start: World,
        stopped: bool) returns (groups: nat)
    requires SafeHasNoPolicy(agent)
    ensures var r := DispatchFrom(agent, oracle, calls, 0, scope, Start(start, stopped));
      if r.Done? then Reports(agent, oracle, stopped, r, groups) else DelegationFails(agent, oracle, calls)
  {
    groups := ReportsFrom(agent, oracle, calls, 0, scope, scope, stopped, Start(start, stopped));
  }

  // ------------------------------------------------------------- what a call that ran did

  /** A call that ran, by its place in the batch and its group. */
  datatype ToolRun = ToolRun(at: nat, group: nat)

  /** What running a call comes to: a subagent for a name that only delegates, the tool for any other. */
  function Effect(agent: Agent, oracle: Oracle, calls: seq<ToolCall>, run: ToolRun,
        w: World): Option<(World, Execution)>
    requires run.at < |calls|
  {
    var call := calls[run.at];
    if call.name in agent.tools || call.name !in agent.subagents then Some(oracle.execute(run.group, w, call))
    else oracle.delegate(run.group, w, call)
  }

  /** A run took the world from `w` to `after`, and its call is answered with what it came to. */
  ghost predicate Shown(agent: Agent, oracle: Oracle, calls: seq<ToolCall>, answers: seq<Answer>, run: ToolRun,
        w: World, after: World)
    requires |answers| <= |calls|
  {
    && run.at < |answers| && answers[run.at].ran && answers[run.at].group == run.group
    && Effect(agent, oracle, calls, run, w) == Some((after, answers[run.at].execution))
  }

  /** Each call once, and group after group. */
  ghost predicate OnceInOrder(runs: seq<ToolRun>) {
    forall k, m :: 0 <= k < m < |runs| ==> runs[k].at != runs[m].at && runs[k].group <= runs[m].group
  }

  /** No call ran that is not among `runs`. */
  ghost predicate NoOthers(answers: seq<Answer>, runs: seq<ToolRun>) {
    forall j :: 0 <= j < |answers| && answers[j].ran ==> exists k :: 0 <= k < |runs| && runs[k].at == j
  }

  ghost predicate AllShown(agent: Agent, oracle: Oracle, calls: seq<ToolCall>, answers: seq<Answer>,
        runs: seq<ToolRun>, worlds: seq<World>)
    requires |answers| <= |calls| && |worlds| == |runs| + 1
  {
    forall k :: 0 <= k < |runs| ==> Shown(agent, oracle, calls, answers, runs[k], worlds[k], worlds[k + 1])
  }

  /** `runs` are the calls that ran, each once, in the order they ended, and `worlds` what each began in. */
  ghost predicate Traced(agent: Agent, oracle: Oracle, calls: seq<ToolCall>, answers: seq<Answer>, runs: seq<ToolRun>,
        worlds: seq<World>, world: World) {
    && |answers| <= |calls| && |worlds| == |runs| + 1 && worlds[|runs|] == world
    && OnceInOrder(runs) && NoOthers(answers, runs)
    && AllShown(agent, oracle, calls, answers, runs, worlds)
  }

  lemma StillShown(agent: Agent, oracle: Oracle, calls: seq<ToolCall>, before: seq<Answer>, after: seq<Answer>,
        runs: seq<ToolRun>, worlds: seq<World>)
    requires before <= after && |after| <= |calls| && |worlds| == |runs| + 1
    requires AllShown(agent, oracle, calls, before, runs, worlds)
    ensures AllShown(agent, oracle, calls, after, runs, worlds)
  {
    forall k | 0 <= k < |runs| ensures Shown(agent, oracle, calls, after, runs[k], worlds[k], worlds[k + 1]) {
      assert Shown(agent, oracle, calls, before, runs[k], worlds[k], worlds[k + 1]);
    }
  }

  /** Calls answered without running leave the world and the runs as they were. */
  lemma NoneMoreRan(agent: Agent, oracle: Oracle, calls: seq<ToolCall>, before: seq<Answer>, after: seq<Answer>,
        runs: seq<ToolRun>, worlds: seq<World>, world: World)
    requires Traced(agent, oracle, calls, before, runs, worlds, world) && before <= after && |after| <= |calls|
    requires forall j :: |before| <= j < |after| ==> !after[j].ran
    ensures Traced(agent, oracle, calls, after, runs, worlds, world)
  {
    StillShown(agent, oracle, calls, before, after, runs, worlds);
    forall j | 0 <= j < |after| && after[j].ran ensures exists k :: 0 <= k < |runs| && runs[k].at == j {
      assert before[j] == after[j];
    }
  }

  /** Every run so far is of a call answered already, in an earlier group than `n`. */
  lemma EarlierRuns(agent: Agent, oracle: Oracle, calls: seq<ToolCall>, answers: seq<Answer>, runs: seq<ToolRun>,
        worlds: seq<World>, n: nat)
    requires |answers| <= |calls| && |worlds| == |runs| + 1 && AllShown(agent, oracle, calls, answers, runs, worlds)
    requires forall i :: 0 <= i < |answers| ==> answers[i].group < n
    ensures forall k :: 0 <= k < |runs| ==> runs[k].at < |answers| && runs[k].group < n
  {
    forall k | 0 <= k < |runs| ensures runs[k].at < |answers| && runs[k].group < n {
      assert Shown(agent, oracle, calls, answers, runs[k], worlds[k], worlds[k + 1]);
    }
  }

  // Calls that end one after the other: alone, or in flight together.

  /** The call at `base + ended.0` ran in group `n`, took the world from `w` to `after` and came to `ended.1`. */
  ghost predicate Ended(agent: Agent, oracle: Oracle, calls: seq<ToolCall>, base: nat, n: nat,
        ended: (nat, Execution), w: World, after: World) {
    base + ended.0 < |calls| && Effect(agent, oracle, calls, ToolRun(base + ended.0, n), w) == Some((after, ended.1))
  }

  /** Some more runs, all of group `n`, from the world `worlds` begins in. */
  ghost predicate EndInTurn(agent: Agent, oracle: Oracle, calls: seq<ToolCall>, base: nat, n: nat,
        ended: seq<(nat, Execution)>, worlds: seq<World>) {
    && |worlds| == |ended| + 1
    && forall k :: 0 <= k < |ended| ==> Ended(agent, oracle, calls, base, n, ended[k], worlds[k], worlds[k + 1])
  }

  lemma LandingInTurn(agent: Agent, oracle: Oracle, calls: seq<ToolCall>, group: seq<ToolCall>, base: nat, n: nat,
        f: Flight, worlds: seq<World>)
    requires Airborne(f, |group|) && f.inFlight != []
    requires base + |group| <= |calls| && group == calls[base..base + |group|]
    requires forall i :: 0 <= i < |group| ==> group[i].name in agent.tools
    requires EndInTurn(agent, oracle, calls, base, n, f.finished, worlds) && worlds[|f.finished|] == f.world
    ensures var after := Land(oracle, n, group, base, f);
      EndInTurn(agent, oracle, calls, base, n, after.finished, worlds + [after.world])
  {
    var k := oracle.pick(n, |f.finished|) % |f.inFlight|;
    var index := f.inFlight[k];
    assert index in f.inFlight;
    assert group[index] == calls[base + index];
    var (world, execution) := oracle.execute(n, f.world, group[index]);
    assert Ended(agent, oracle, calls, base, n, (index, execution), f.world, world);
    OneMoreEnded(agent, oracle, calls, base, n, f.finished, worlds, (index, execution), world);
  }

  lemma OneMoreEnded(agent: Agent, oracle: Oracle, calls: seq<ToolCall>, base: nat, n: nat,
        ended: seq<(nat, Execution)>, worlds: seq<World>, last: (nat, Execution), after: World)
    requires EndInTurn(agent, oracle, calls, base, n, ended, worlds)
    requires Ended(agent, oracle, calls, base, n, last, worlds[|ended|], after)
    ensures EndInTurn(agent, oracle, calls, base, n, ended + [last], worlds + [after])
  {
    var all, through := ended + [last], worlds + [after];
    forall k | 0 <= k < |all| ensures Ended(agent, oracle, calls, base, n, all[k], through[k], through[k + 1]) {
      if k < |ended| {
        assert Ended(agent, oracle, calls, base, n, ended[k], worlds[k], worlds[k + 1]);
      }
    }
  }

  lemma {:induction false} AllLandInTurn(agent: Agent, oracle: Oracle, calls: seq<ToolCall>, group: seq<ToolCall>,
        base: nat, n: nat, f: Flight, worlds: seq<World>) returns (all: seq<World>)
    requires Airborne(f, |group|) && base + |group| <= |calls| && group == calls[base..base + |group|]
    requires forall i :: 0 <= i < |group| ==> group[i].name in agent.tools
    requires EndInTurn(agent, oracle, calls, base, n, f.finished, worlds) && worlds[|f.finished|] == f.world
    ensures var r := Race(oracle, n, group, base, f);
      EndInTurn(agent, oracle, calls, base, n, r.finished, all) && all[0] == worlds[0] && all[|r.finished|] == r.world
    decreases |f.inFlight|
  {
    if f.inFlight == [] {
      all := worlds;
    } else {
      LandKeepsAirborne(oracle, n, group, base, f);
      LandingInTurn(agent, oracle, calls, group, base, n, f, worlds);
      var after := Land(oracle, n, group, base, f);
      all := AllLandInTurn(agent, oracle, calls, group, base, n, after, worlds + [after.world]);
    }
  }

  /** In the rows of a group, in asked order, each has the answer its call ended with. */
  lemma RowOfLanded(f: Flight, size: nat, k: nat)
    requires Airborne(f, size) && f.inFlight == [] && k < |f.finished|
    ensures f.finished[k].0 < size == |SortByIndex(f.finished)|
    ensures SortByIndex(f.finished)[f.finished[k].0] == f.finished[k]
  {
    assert f.finished[k] in f.finished;
    LandedInAskedOrder(f, size, f.finished[k].0);
    var row := SortByIndex(f.finished)[f.finished[k].0];
    var m :| 0 <= m < |f.finished| && f.finished[m] == row;
  }

  /** Every call of a group that ran together ended. */
  lemma EachLanded(f: Flight, size: nat, i: nat) returns (k: nat)
    requires Airborne(f, size) && f.inFlight == [] && i < size
    ensures k < |f.finished| && f.finished[k].0 == i
  {
    LandedInAskedOrder(f, size, i);
    k :| 0 <= k < |f.finished| && f.finished[k] == SortByIndex(f.finished)[i];
  }

  ghost predicate Has(ended: seq<(nat, Execution)>, i: nat) {
    exists k :: 0 <= k < |ended| && ended[k].0 == i
  }

  /** The answers of a group that ran, in asked order, follow those before it; `ended` is the order they came in. */
  ghost predicate FollowedBy(before: seq<Answer>, after: seq<Answer>, ended: seq<(nat, Execution)>, n: nat) {
    && |after| == |before| + |ended| && before <= after
    && (forall k :: 0 <= k < |ended| ==>
          ended[k].0 < |ended| && after[|before| + ended[k].0] == Answer(ended[k].1, true, n))
    && (forall i :: 0 <= i < |ended| ==> Has(ended, i))
    && (forall k, m :: 0 <= k < m < |ended| ==> ended[k].0 != ended[m].0)
  }

  function RunsOf(ended: seq<(nat, Execution)>, base: nat, n: nat): (r: seq<ToolRun>)
    ensures |r| == |ended| && forall k :: 0 <= k < |r| ==> r[k] == ToolRun(base + ended[k].0, n)
  {
    seq(|ended|, i requires 0 <= i < |ended| => ToolRun(base + ended[i].0, n))
  }

  lemma OthersAreAmongTheRuns(runs: seq<ToolRun>, n: nat, before: seq<Answer>, after: seq<Answer>,
        ended: seq<(nat, Execution)>)
    requires NoOthers(before, runs) && FollowedBy(before, after, ended, n)
    ensures NoOthers(after, runs + RunsOf(ended, |before|, n))
  {
    var all := runs + RunsOf(ended, |before|, n);
    forall j | 0 <= j < |after| && after[j].ran ensures exists k :: 0 <= k < |all| && all[k].at == j {
      if j < |before| {
        assert before[j] == after[j];
        var k :| 0 <= k < |runs| && runs[k].at == j;
        assert all[k].at == j;
      } else {
        assert Has(ended, j - |before|);
        var k :| 0 <= k < |ended| && ended[k].0 == j - |before|;
        assert all[|runs| + k].at == j;
      }
    }
  }

  lemma EndedAreShown(agent: Agent, oracle: Oracle, calls: seq<ToolCall>, before: seq<Answer>, after: seq<Answer>,
        ended: seq<(nat, Execution)>, n: nat, worlds: seq<World>)
    requires |after| <= |calls| && FollowedBy(before, after, ended, n)
    requires EndInTurn(agent, oracle, calls, |before|, n, ended, worlds)
    ensures AllShown(agent, oracle, calls, after, RunsOf(ended, |before|, n), worlds)
  {
    var runs := RunsOf(ended, |before|, n);
    forall k | 0 <= k < |runs| ensures Shown(agent, oracle, calls, after, runs[k], worlds[k], worlds[k + 1]) {
      assert Ended(agent, oracle, calls, |before|, n, ended[k], worlds[k], worlds[k + 1]);
      assert after[|before| + ended[k].0] == Answer(ended[k].1, true, n);
    }
  }

  lemma InOrderStill(runs: seq<ToolRun>, ended: seq<(nat, Execution)>, base: nat, n: nat)
    requires OnceInOrder(runs) && forall k :: 0 <= k < |runs| ==> runs[k].at < base && runs[k].group < n
    requires forall k, m :: 0 <= k < m < |ended| ==> ended[k].0 != ended[m].0
    ensures OnceInOrder(runs + RunsOf(ended, base, n))
  {}

  lemma ShownConcat(agent: Agent, oracle: Oracle, calls: seq<ToolCall>, answers: seq<Answer>,
        a: seq<ToolRun>, us: seq<World>, b: seq<ToolRun>, vs: seq<World>)
    requires |answers| <= |calls| && |us| == |a| + 1 && |vs| == |b| + 1 && us[|a|] == vs[0]
    requires AllShown(agent, oracle, calls, answers, a, us) && AllShown(agent, oracle, calls, answers, b, vs)
    ensures AllShown(agent, oracle, calls, answers, a + b, us + vs[1..])
  {
    var runs, worlds := a + b, us + vs[1..];
    forall k | 0 <= k < |runs| ensures Shown(agent, oracle, calls, answers, runs[k], worlds[k], worlds[k + 1]) {
      if k < |a| {
        assert Shown(agent, oracle, calls, answers, a[k], us[k], us[k + 1]);
      } else {
        assert Shown(agent, oracle, calls, answers, b[k - |a|], vs[k - |a|], vs[k - |a| + 1]);
      }
    }
  }

  lemma MoreRan(agent: Agent, oracle: Oracle, calls: seq<ToolCall>, n: nat, before: seq<Answer>, after: seq<Answer>,
        runs: seq<ToolRun>, worlds: seq<World>, world: World, ended: seq<(nat, Execution)>, next: seq<World>)
    requires Traced(agent, oracle, calls, before, runs, worlds, world) && |after| <= |calls|
    requires forall i :: 0 <= i < |before| ==> before[i].group < n
    requires FollowedBy(before, after, ended, n)
    requires EndInTurn(agent, oracle, calls, |before|, n, ended, next) && next[0] == world
    ensures Traced(agent, oracle, calls, after, runs + RunsOf(ended, |before|, n), worlds + next[1..], next[|ended|])
  {
    EarlierRuns(agent, oracle, calls, before, runs, worlds, n);
    StillShown(agent, oracle, calls, before, after, runs, worlds);
    EndedAreShown(agent, oracle, calls, before, after, ended, n, next);
    ShownConcat(agent, oracle, calls, after, runs, worlds, RunsOf(ended, |before|, n), next);
    OthersAreAmongTheRuns(runs, n, before, after, ended);
    InOrderStill(runs, ended, |before|, n);
  }

  /** What is known of a race that is over, by the rows it is sorted into. */
  lemma RowsOfLanded(f: Flight, size: nat)
    requires Airborne(f, size) && f.inFlight == []
    ensures |f.finished| == size == |SortByIndex(f.finished)|
    ensures forall k :: 0 <= k < size ==>
      f.finished[k].0 < size && SortByIndex(f.finished)[f.finished[k].0] == f.finished[k]
    ensures forall i :: 0 <= i < size ==> Has(f.finished, i)
  {
    forall k | 0 <= k < size
      ensures f.finished[k].0 < size && SortByIndex(f.finished)[f.finished[k].0] == f.finished[k]
    {
      RowOfLanded(f, size, k);
    }
    forall i | 0 <= i < size ensures Has(f.finished, i) {
      var k := EachLanded(f, size, i);
    }
  }

  lemma LandedFollow(before: seq<Answer>, after: seq<Answer>, f: Flight, size: nat, n: nat)
    requires Airborne(f, size) && f.inFlight == [] && |after| == |before| + size && before <= after
    requires |SortByIndex(f.finished)| == size
    requires forall i :: 0 <= i < size ==> after[|before| + i] == Answer(SortByIndex(f.finished)[i].1, true, n)
    ensures FollowedBy(before, after, f.finished, n)
  {
    RowsOfLanded(f, size);
  }

  lemma TogetherIsTraced(agent: Agent, oracle: Oracle, calls: seq<ToolCall>, group: seq<ToolCall>, runs: seq<ToolRun>,
        worlds: seq<World>, n: nat, b: Batch) returns (all: seq<ToolRun>, through: seq<World>)
    requires Traced(agent, oracle, calls, b.answers, runs, worlds, b.world)
    requires |b.answers| + |group| <= |calls| && group == calls[|b.answers|..|b.answers| + |group|]
    requires forall i :: 0 <= i < |group| ==> group[i].name in agent.tools
    requires forall i :: 0 <= i < |b.answers| ==> b.answers[i].group < n
    ensures var r := Parallel(oracle, n, group, b); Traced(agent, oracle, calls, r.answers, all, through, r.world)
    ensures through[0] == worlds[0]
  {
    var base, takeOff := |b.answers|, TakeOff(b, |group|);
    var next := AllLandInTurn(agent, oracle, calls, group, base, n, takeOff, [b.world]);
    var f := Race(oracle, n, group, base, takeOff);
    LandedFollow(b.answers, Parallel(oracle, n, group, b).answers, f, |group|, n);
    MoreRan(agent, oracle, calls, n, b.answers, Parallel(oracle, n, group, b).answers, runs, worlds, b.world,
        f.finished, next);
    all, through := runs + RunsOf(f.finished, base, n), worlds + next[1..];
  }

  lemma SoloCameTo(agent: Agent, oracle: Oracle, calls: seq<ToolCall>, n: nat, now: Option<Live>, b: Batch, r: Batch)
    requires |b.answers| < |calls| && Solo(agent, oracle, n, now, calls[|b.answers|], b) == Some(r)
    requires !b.cancelled && Authorize(agent, oracle, n, now, calls[|b.answers|]).None?
    ensures b.answers <= r.answers && |r.answers| == |b.answers| + 1
    ensures var answer := r.answers[|b.answers|];
      && answer.ran && answer.group == n
      && Effect(agent, oracle, calls, ToolRun(|b.answers|, n), b.world) == Some((r.world, answer.execution))
  {
    var call := calls[|b.answers|];
    if IsDelegation(agent, call.name) {
      var (world, execution) := oracle.delegate(n, b.world, call).value;
      assert r == Settle(b.(world := world), n, execution, true);
    } else {
      var (world, execution) := oracle.execute(n, b.world, call);
      assert r == Settle(b.(world := world), n, execution, true);
    }
  }

  lemma SoloIsTraced(agent: Agent, oracle: Oracle, calls: seq<ToolCall>, n: nat, now: Option<Live>,
        runs: seq<ToolRun>, worlds: seq<World>, b: Batch, r: Batch) returns (all: seq<ToolRun>, through: seq<World>)
    requires |b.answers| < |calls| && Solo(agent, oracle, n, now, calls[|b.answers|], b) == Some(r)
    requires Traced(agent, oracle, calls, b.answers, runs, worlds, b.world)
    requires forall i :: 0 <= i < |b.answers| ==> b.answers[i].group < n
    ensures Traced(agent, oracle, calls, r.answers, all, through, r.world) && through[0] == worlds[0]
    ensures b.answers <= r.answers && |r.answers| == |b.answers| + 1 && r.answers[|b.answers|].group == n
  {
    if b.cancelled || Authorize(agent, oracle, n, now, calls[|b.answers|]).Some? {
      NoneMoreRan(agent, oracle, calls, b.answers, r.answers, runs, worlds, b.world);
      all, through := runs, worlds;
    } else {
      var ended, next := [(0, r.answers[|b.answers|].execution)], [b.world, r.world];
      SoloCameTo(agent, oracle, calls, n, now, b, r);
      assert ended[0].0 == 0 && Has(ended, 0);
      assert Ended(agent, oracle, calls, |b.answers|, n, ended[0], b.world, r.world);
      MoreRan(agent, oracle, calls, n, b.answers, r.answers, runs, worlds, b.world, ended, next);
      all, through := runs + RunsOf(ended, |b.answers|, n), worlds + next[1..];
    }
  }

  lemma GroupIsTraced(agent: Agent, oracle: Oracle, n: nat, now: Option<Live>, calls: seq<ToolCall>,
        group: seq<ToolCall>, runs: seq<ToolRun>, worlds: seq<World>, asked: Batch, r: Batch)
    returns (all: seq<ToolRun>, through: seq<World>)
    requires group != [] && |asked.answers| + |group| <= |calls|
    requires group == calls[|asked.answers|..|asked.answers| + |group|]
    requires |group| > 1 ==> forall i :: 0 <= i < |group| ==> group[i].name in agent.tools
    requires if |group| == 1 then Solo(agent, oracle, n, now, group[0], asked) == Some(r)
      else if asked.cancelled then r == AnswerAll(group, n, CancelledExecution(), asked)
      else r == Parallel(oracle, n, group, asked)
    requires Traced(agent, oracle, calls, asked.answers, runs, worlds, asked.world)
    requires forall i :: 0 <= i < |asked.answers| ==> asked.answers[i].group < n
    ensures Traced(agent, oracle, calls, r.answers, all, through, r.world) && through[0] == worlds[0]
    ensures forall i :: 0 <= i < |r.answers| ==> r.answers[i].group < n + 1
  {
    if |group| == 1 {
      all, through := SoloIsTraced(agent, oracle, calls, n, now, runs, worlds, asked, r);
    } else if asked.cancelled {
      AllAnsweredAlike(group, n, CancelledExecution(), asked);
      NoneMoreRan(agent, oracle, calls, asked.answers, r.answers, runs, worlds, asked.world);
      all, through := runs, worlds;
    } else {
      AllRanTogether(oracle, n, group, asked);
      all, through := TogetherIsTraced(agent, oracle, calls, group, runs, worlds, n, asked);
    }
  }

  lemma NextGroupIsTraced(agent: Agent, oracle: Oracle, calls: seq<ToolCall>, n: nat, now: Option<Live>,
        runs: seq<ToolRun>, worlds: seq<World>, b: Batch, r: Batch) returns (all: seq<ToolRun>, through: seq<World>)
    requires |b.answers| < |calls| && RunNextGroup(agent, oracle, calls, n, now, b) == Some(r)
    requires Traced(agent, oracle, calls, b.answers, runs, worlds, b.world)
    requires forall i :: 0 <= i < |b.answers| ==> b.answers[i].group < n
    ensures Traced(agent, oracle, calls, r.answers, all, through, r.world) && through[0] == worlds[0]
    ensures forall i :: 0 <= i < |r.answers| ==> r.answers[i].group < n + 1
  {
    var rest := calls[|b.answers|..];
    var group := rest[..NextGroup(agent, now, rest)];
    assert RunGroup(agent, oracle, n, now, group, b) == Some(r);
    all, through := GroupIsTraced(agent, oracle, n, now, calls, group, runs, worlds,
        b.(cancelled := b.cancelled || oracle.stopped(n)), r);
  }

  lemma RestIsTraced(agent: Agent, oracle: Oracle, calls: seq<ToolCall>, n: nat, runs: seq<ToolRun>,
        worlds: seq<World>, b: Batch)
    requires |b.answers| <= |calls| && Traced(agent, oracle, calls, b.answers, runs, worlds, b.world)
    ensures var r := AnswerAll(calls[|b.answers|..], n, DeniedExecution(AgentRemoved), b);
      Traced(agent, oracle, calls, r.answers, runs, worlds, r.world)
  {
    var rest := calls[|b.answers|..];
    AllAnsweredAlike(rest, n, DeniedExecution(AgentRemoved), b);
    NoneMoreRan(agent, oracle, calls, b.answers, AnswerAll(rest, n, DeniedExecution(AgentRemoved), b).answers, runs,
        worlds, b.world);
  }

  lemma {:induction false} TraceFrom(agent: Agent, oracle: Oracle, calls: seq<ToolCall>, n: nat, scope: Option<Live>,
        runs: seq<ToolRun>, worlds: seq<World>, b: Batch) returns (all: seq<ToolRun>, through: seq<World>)
    requires |b.answers| <= |calls| && Traced(agent, oracle, calls, b.answers, runs, worlds, b.world)
    requires forall i :: 0 <= i < |b.answers| ==> b.answers[i].group < n
    ensures var r := DispatchFrom(agent, oracle, calls, n, scope, b);
      r.Done? ==> Traced(agent, oracle, calls, r.batch.answers, all, through, r.batch.world) && through[0] == worlds[0]
    decreases |calls| - |b.answers|
  {
    all, through := runs, worlds;
    if |b.answers| < |calls| {
      match Refreshed(agent, oracle, n, scope)
      case None => RestIsTraced(agent, oracle, calls, n, runs, worlds, b);
      case Some(now) =>
        var r := RunNextGroup(agent, oracle, calls, n, now, b);
        if r.Some? {
          all, through := NextGroupIsTraced(agent, oracle, calls, n, now, runs, worlds, b, r.value);
          all, through := TraceFrom(agent, oracle, calls, n + 1, now, all, through, r.value);
        }
    }
  }

  /**
   What running does. In every batch there is an order in which the calls that ran ended, each once and group
   after group, such that each was answered with what its tool, or its subagent, gave in the world the ones
   before it left, and the batch leaves the world the last of them left. Calls that did not run did nothing.
   */
  lemma RunsDoWhatTheySay(agent: Agent, oracle: Oracle, calls: seq<ToolCall>, scope: Option<Live>, start: World,
        stopped: bool) returns (runs: seq<ToolRun>, worlds: seq<World>)
    ensures var r := DispatchFrom(agent, oracle, calls, 0, scope, Start(start, stopped));
      r.Done? ==>
        Traced(agent, oracle, calls, r.batch.answers, runs, worlds, r.batch.world) && worlds[0] == start
  {
    runs, worlds := TraceFrom(agent, oracle, calls, 0, scope, [], [start], Start(start, stopped));
  }
}
