/**
 Dispatching tool calls (crates/agent/src/dispatch.rs): a batch is split into groups, permissions are
 read again before each group, and every call is answered.

 What a refresh reads, when the turn is stopped, what a tool does, what a person answers and the
 order in which parallel calls settle all come from an `Oracle`, about which nothing is assumed.
 */
module Dispatch {
  import opened Common
  import opened Messages

  const MAX_PARALLEL_TOOL_CALLS: nat := 8
  const TOOL_SEARCH_NAME := "tool_search"
  const CANCELLED_TOOL_RESULT := "Cancelled: the turn was stopped before this tool finished."

  datatype Permission = Allow | Ask | Deny

  datatype Risk = Safe | Write | Exec | Network

  datatype ErrorKind = Aborted | Config | PermissionDenied | Other

  datatype Execution = Execution(content: string, failure: Option<ErrorKind>)

  datatype DenialReason = Policy | Rule | Declined | Timeout | NoPrompt | AgentRemoved

  /** What waiting for an approval came to. */
  datatype Approval = Approved | Stopped | Denied(reason: DenialReason)

  /** `policy` is what the tool's own rules make of a call, given the agent's rules and permission. */
  datatype RegisteredTool = RegisteredTool(risk: Risk, policy: (ToolCall, string, Permission) -> Option<Permission>)

  /** A reading of the settings: permissions for tools and for subagents, and the rules. */
  datatype Live = Live(tools: map<string, Permission>, subagents: map<string, Permission>, rules: string)

  datatype Agent = Agent(
    toolsEnabled: bool, hasGate: bool, live: bool, rules: string,
    offered: Option<map<string, Permission>>, tools: map<string, RegisteredTool>, subagents: map<string, Permission>)

  /** Everything a tool can read or change, as an opaque value. */
  datatype World = World(state: string)

  /**
   The outside, by group number, so that what a call comes to may depend on the settings its group was
   refreshed to: `pick` chooses which call in flight settles next.
   */
  datatype Oracle = Oracle(
    refresh: nat -> Option<Live>,
    stopped: nat -> bool,
    ask: (nat, ToolCall) -> Approval,
    execute: (nat, World, ToolCall) -> (World, Execution),
    delegate: (nat, World, ToolCall) -> Option<(World, Execution)>,
    pick: (nat, nat) -> nat)

  /** A `tool.call` or a `tool.result`, for the call at a position of the batch. */
  datatype Event = Called(at: nat) | Resulted(at: nat)

  /** How a call was answered, whether anything ran for it, and in which group. */
  datatype Answer = Answer(execution: Execution, ran: bool, group: nat)

  datatype Batch = Batch(world: World, cancelled: bool, answers: seq<Answer>, events: seq<Event>)

  datatype Outcome = Failed | Done(batch: Batch, agentGone: bool)

  // ------------------------------------------------------------- permissions

  function PermissionFor(perms: Option<map<string, Permission>>, name: string): Permission {
    if name == TOOL_SEARCH_NAME then Allow
    else match perms
      case None => Allow
      case Some(perms) => if name in perms then perms[name] else Deny
  }

  function PermissionOf(agent: Agent, scope: Option<Live>, name: string): Permission {
    var offered := PermissionFor(agent.offered, name);
    if scope.Some? && offered != Deny then PermissionFor(Some(scope.value.tools), name) else offered
  }

  predicate IsDelegation(agent: Agent, name: string) {
    name in agent.subagents && name !in agent.tools
  }

  function DelegationPermission(agent: Agent, scope: Option<Live>, name: string): Permission
    requires IsDelegation(agent, name)
  {
    var binding := agent.subagents[name];
    if scope.Some? && binding != Deny then
      if name in scope.value.subagents then scope.value.subagents[name] else Deny
    else binding
  }

  /** The agent's permission for a call, before the tool's own rules. */
  function Fallback(agent: Agent, scope: Option<Live>, call: ToolCall): Permission {
    if IsDelegation(agent, call.name) then DelegationPermission(agent, scope, call.name)
    else PermissionOf(agent, scope, call.name)
  }

  function RulesOf(agent: Agent, scope: Option<Live>): string {
    if scope.Some? then scope.value.rules else agent.rules
  }

  function Effective(agent: Agent, scope: Option<Live>, call: ToolCall): Permission {
    var fallback := Fallback(agent, scope, call);
    if IsDelegation(agent, call.name) || call.name !in agent.tools then fallback
    else match agent.tools[call.name].policy(call, RulesOf(agent, scope), fallback)
      case None => fallback
      case Some(permission) => permission
  }

  function CancelledExecution(): Execution {
    Execution(CANCELLED_TOOL_RESULT, Some(Aborted))
  }

  function DeniedExecution(reason: DenialReason): Execution {
    Execution(match reason case AgentRemoved => "Stopped" case _ => "Denied", Some(PermissionDenied))
  }

  /** `None` means proceed; otherwise the result that says why not. */
  function Authorize(agent: Agent, oracle: Oracle, n: nat, scope: Option<Live>, call: ToolCall): Option<Execution> {
    if !agent.toolsEnabled then Some(Execution("Refused", Some(Config)))
    else if Fallback(agent, scope, call) == Deny then Some(DeniedExecution(Policy))
    else match Effective(agent, scope, call)
      case Allow => None
      case Deny => Some(DeniedExecution(Rule))
      case Ask =>
        if !agent.hasGate then None
        else match oracle.ask(n, call)
          case Approved => None
          case Stopped => Some(CancelledExecution())
          case Denied(reason) => Some(DeniedExecution(reason))
  }

  // ------------------------------------------------------------- groups

  predicate IsParallelEligible(agent: Agent, scope: Option<Live>, call: ToolCall) {
    && agent.toolsEnabled
    && !IsDelegation(agent, call.name)
    && call.name in agent.tools && agent.tools[call.name].risk == Safe
    && PermissionOf(agent, scope, call.name) == Allow
  }

  function EligibleRun(agent: Agent, scope: Option<Live>, calls: seq<ToolCall>, limit: nat): (size: nat)
    ensures size <= |calls| && size <= limit
    ensures forall i :: 0 <= i < size ==> IsParallelEligible(agent, scope, calls[i])
    ensures size < |calls| && size < limit ==> !IsParallelEligible(agent, scope, calls[size])
  {
    if calls == [] || limit == 0 || !IsParallelEligible(agent, scope, calls[0]) then 0
    else 1 + EligibleRun(agent, scope, calls[1..], limit - 1)
  }

  /**
   How many calls go next: those at the front that may share a group, or one. The group is as long as
   it can be: it ends at eight calls, at the end of the batch, or at a call that must run alone.
   */
  function NextGroup(agent: Agent, scope: Option<Live>, calls: seq<ToolCall>): (size: nat)
    requires calls != []
    ensures 1 <= size <= 8 && size <= |calls|
    ensures size > 1 ==> forall i :: 0 <= i < size ==> IsParallelEligible(agent, scope, calls[i])
    ensures size < 8 && size < |calls| && IsParallelEligible(agent, scope, calls[0])
      ==> !IsParallelEligible(agent, scope, calls[size])
  {
    var run := EligibleRun(agent, scope, calls, MAX_PARALLEL_TOOL_CALLS);
    if run == 0 then 1 else run
  }

  // ------------------------------------------------------------- one group

  predicate IsAbort(execution: Execution) {
    execution.failure == Some(Aborted)
  }

  /** Announces and answers the next call of the batch. */
  function Settle(b: Batch, n: nat, execution: Execution, ran: bool): Batch {
    var at := |b.answers|;
    b.(cancelled := b.cancelled || IsAbort(execution),
       answers := b.answers + [Answer(execution, ran, n)],
       events := b.events + [Called(at), Resulted(at)])
  }

  /** One call alone; `None` when a delegation fails the turn. */
  function Solo(agent: Agent, oracle: Oracle, n: nat, scope: Option<Live>, call: ToolCall, b: Batch): (r: Option<Batch>)
    ensures r.Some? ==> |r.value.answers| == |b.answers| + 1
  {
    if b.cancelled then Some(Settle(b, n, CancelledExecution(), false))
    else match Authorize(agent, oracle, n, scope, call)
      case Some(refusal) => Some(Settle(b, n, refusal, false))
      case None =>
        if IsDelegation(agent, call.name) then
          match oracle.delegate(n, b.world, call)
          case None => None
          case Some((world, execution)) => Some(Settle(b.(world := world), n, execution, true))
        else
          var (world, execution) := oracle.execute(n, b.world, call);
          Some(Settle(b.(world := world), n, execution, true))
  }

  /** Every call of `calls` answered with the same execution, none of them run. */
  function AnswerAll(calls: seq<ToolCall>, n: nat, execution: Execution, b: Batch): (r: Batch)
    ensures |r.answers| == |b.answers| + |calls|
    decreases |calls|
  {
    if calls == [] then b else AnswerAll(calls[1..], n, execution, Settle(b, n, execution, false))
  }

  /** A parallel group in progress: which calls are running, and what has settled, in that order. */
  datatype Flight = Flight(
    world: World, inFlight: seq<nat>, finished: seq<(nat, Execution)>, events: seq<Event>, aborted: bool)

  ghost predicate Distinct(s: seq<nat>) {
    forall i, j :: 0 <= i < j < |s| ==> s[i] != s[j]
  }

  ghost predicate DistinctIndices(s: seq<(nat, Execution)>) {
    forall i, j :: 0 <= i < j < |s| ==> s[i].0 != s[j].0
  }

  /** Each index of the group is running or has settled once. */
  ghost predicate Airborne(f: Flight, size: nat) {
    && |f.inFlight| + |f.finished| == size
    && (forall i :: i in f.inFlight ==> i < size)
    && (forall x :: x in f.finished ==> x.0 < size && x.0 !in f.inFlight)
    && Distinct(f.inFlight) && DistinctIndices(f.finished)
  }

  function Land(oracle: Oracle, n: nat, group: seq<ToolCall>, base: nat, f: Flight): Flight
    requires f.inFlight != [] && forall i :: i in f.inFlight ==> i < |group|
  {
    var k := oracle.pick(n, |f.finished|) % |f.inFlight|;
    var index := f.inFlight[k];
    assert index in f.inFlight;
    var (world, execution) := oracle.execute(n, f.world, group[index]);
    Flight(world, RemoveAt(f.inFlight, k), f.finished + [(index, execution)],
           f.events + [Resulted(base + index)], f.aborted || IsAbort(execution))
  }

  lemma RemoveDistinct(s: seq<nat>, k: nat)
    requires k < |s| && Distinct(s)
    ensures Distinct(RemoveAt(s, k)) && forall x :: x in RemoveAt(s, k) <==> x in s && x != s[k]
  {
    var rest := RemoveAt(s, k);
    assert forall i :: 0 <= i < |rest| ==> rest[i] == s[if i < k then i else i + 1];
    forall x | x in s && x != s[k] ensures x in rest {
      var i :| 0 <= i < |s| && s[i] == x;
      assert rest[if i < k then i else i - 1] == x;
    }
  }

  lemma LandKeepsAirborne(oracle: Oracle, n: nat, group: seq<ToolCall>, base: nat, f: Flight)
    requires f.inFlight != [] && Airborne(f, |group|)
    ensures Airborne(Land(oracle, n, group, base, f), |group|)
  {
    var k := oracle.pick(n, |f.finished|) % |f.inFlight|;
    RemoveDistinct(f.inFlight, k);
    var after := Land(oracle, n, group, base, f);
    var last := after.finished[|f.finished|];
    assert last.0 in f.inFlight;
    assert forall x :: x in after.finished <==> x in f.finished || x == last;
  }

  /** The group run to its end. */
  function Race(oracle: Oracle, n: nat, group: seq<ToolCall>, base: nat, f: Flight): (r: Flight)
    requires Airborne(f, |group|)
    ensures Airborne(r, |group|) && r.inFlight == []
    decreases |f.inFlight|
  {
    if f.inFlight == [] then f
    else
      LandKeepsAirborne(oracle, n, group, base, f);
      Race(oracle, n, group, base, Land(oracle, n, group, base, f))
  }

  function Insert(x: (nat, Execution), s: seq<(nat, Execution)>): (r: seq<(nat, Execution)>)
    ensures |r| == |s| + 1
    ensures forall y :: y in r <==> y == x || y in s
  {
    if s == [] || x.0 <= s[0].0 then [x] + s else [s[0]] + Insert(x, s[1..])
  }

  /** `sort_by_key` on the index. */
  function SortByIndex(s: seq<(nat, Execution)>): (r: seq<(nat, Execution)>)
    ensures |r| == |s|
    ensures forall y :: y in r <==> y in s
  {
    if s == [] then [] else Insert(s[0], SortByIndex(s[1..]))
  }

  function Upto(size: nat): (r: seq<nat>)
    ensures |r| == size && forall i :: 0 <= i < size ==> r[i] == i
  {
    seq(size, i => i)
  }

  function CalledFrom(base: nat, size: nat): (r: seq<Event>)
    ensures |r| == size
  {
    seq(size, (i: nat) => Called(base + i))
  }

  function TakeOff(b: Batch, size: nat): (f: Flight)
    ensures Airborne(f, size)
  {
    Flight(b.world, Upto(size), [], b.events + CalledFrom(|b.answers|, size), false)
  }

  function Parallel(oracle: Oracle, n: nat, group: seq<ToolCall>, b: Batch): (r: Batch)
    ensures |r.answers| == |b.answers| + |group|
  {
    var f := Race(oracle, n, group, |b.answers|, TakeOff(b, |group|));
    var landed := SortByIndex(f.finished);
    Batch(f.world, b.cancelled || f.aborted,
          b.answers + seq(|landed|, i requires 0 <= i < |landed| => Answer(landed[i].1, true, n)), f.events)
  }

  function RunGroup(agent: Agent, oracle: Oracle, n: nat, scope: Option<Live>, group: seq<ToolCall>,
        b: Batch): (r: Option<Batch>)
    requires group != []
    ensures r.Some? ==> |r.value.answers| == |b.answers| + |group|
  {
    var b := b.(cancelled := b.cancelled || oracle.stopped(n));
    if |group| == 1 then Solo(agent, oracle, n, scope, group[0], b)
    else if b.cancelled then Some(AnswerAll(group, n, CancelledExecution(), b))
    else Some(Parallel(oracle, n, group, b))
  }

  // ------------------------------------------------------------- the whole batch

  /** The settings group `n` runs under; `None` once the agent is gone. */
  function Refreshed(agent: Agent, oracle: Oracle, n: nat, scope: Option<Live>): Option<Option<Live>> {
    if !agent.live then Some(scope)
    else match oracle.refresh(n)
      case None => None
      case Some(live) => Some(Some(live))
  }

  /** The next group of the calls that are left, run. */
  function RunNextGroup(agent: Agent, oracle: Oracle, calls: seq<ToolCall>, n: nat, scope: Option<Live>,
        b: Batch): (r: Option<Batch>)
    requires |b.answers| < |calls|
    ensures r.Some? ==> |b.answers| < |r.value.answers| <= |calls|
  {
    var rest := calls[|b.answers|..];
    RunGroup(agent, oracle, n, scope, rest[..NextGroup(agent, scope, rest)], b)
  }

  function DispatchFrom(agent: Agent, oracle: Oracle, calls: seq<ToolCall>, n: nat, scope: Option<Live>,
        b: Batch): (r: Outcome)
    requires |b.answers| <= |calls|
    ensures r.Done? ==> |r.batch.answers| == |calls|
    decreases |calls| - |b.answers|
  {
    var rest := calls[|b.answers|..];
    if rest == [] then Done(b, false)
    else match Refreshed(agent, oracle, n, scope)
      case None => Done(AnswerAll(rest, n, DeniedExecution(AgentRemoved), b), true)
      case Some(now) =>
        match RunNextGroup(agent, oracle, calls, n, now, b)
        case None => Failed
        case Some(after) => DispatchFrom(agent, oracle, calls, n + 1, now, after)
  }

  function Start(world: World, cancelled: bool): Batch {
    Batch(world, cancelled, [], [])
  }

  /** The `tool` message that answers a call. */
  function Finish(call: ToolCall, execution: Execution): ChatMessage {
    Tool(call.id, call.name, execution.content, execution.failure.Some?)
  }

  /** One `tool` message per call answered from `start` on, in asked order. */
  function Rows(calls: seq<ToolCall>, answers: seq<Answer>, start: nat): (r: seq<ChatMessage>)
    requires start <= |answers| <= |calls|
    ensures |r| == |answers| - start
  {
    seq(|answers| - start, i requires 0 <= i < |answers| - start =>
      Finish(calls[start + i], answers[start + i].execution))
  }

  /** The assistant message, then one tool message per call with that call's id, in asked order. */
  lemma RowsAnswerTheirCalls(calls: seq<ToolCall>, answers: seq<Answer>, i: nat)
    requires |answers| == |calls| && i < |calls|
    ensures var row := Rows(calls, answers, 0)[i];
      row.Tool? && row.callId == calls[i].id && row.name == calls[i].name
      && row.result == answers[i].execution.content && row.isError == answers[i].execution.failure.Some?
  {}

  // ------------------------------------------------------------- asked order, whatever settles first

  ghost predicate StrictlySorted(s: seq<(nat, Execution)>) {
    forall i, j :: 0 <= i < j < |s| ==> s[i].0 < s[j].0
  }

  lemma FrontSorts(first: (nat, Execution), tail: seq<(nat, Execution)>)
    requires StrictlySorted(tail) && forall y :: y in tail ==> first.0 < y.0
    ensures StrictlySorted([first] + tail)
  {
    forall j | 0 <= j < |tail| ensures first.0 < tail[j].0 {
      assert tail[j] in tail;
    }
  }

  lemma {:induction false} InsertSorts(x: (nat, Execution), s: seq<(nat, Execution)>)
    requires StrictlySorted(s) && forall y :: y in s ==> y.0 != x.0
    ensures StrictlySorted(Insert(x, s))
  {
    if s != [] {
      assert s == [s[0]] + s[1..];
      if s[0].0 < x.0 {
        InsertSorts(x, s[1..]);
        FrontSorts(s[0], Insert(x, s[1..]));
      } else {
        FrontSorts(x, s);
      }
    }
  }

  lemma {:induction false} SortSorts(s: seq<(nat, Execution)>)
    requires DistinctIndices(s)
    ensures StrictlySorted(SortByIndex(s))
  {
    if s != [] {
      SortSorts(s[1..]);
      InsertSorts(s[0], SortByIndex(s[1..]));
    }
  }

  lemma {:induction false} SortedIsIdentity(s: seq<(nat, Execution)>, k: nat)
    requires StrictlySorted(s) && k < |s| && forall x :: x in s ==> x.0 < |s|
    ensures s[k].0 == k
  {
    AtLeastPosition(s, k);
    AtMostPosition(s, k);
  }

  lemma {:induction false} AtLeastPosition(s: seq<(nat, Execution)>, k: nat)
    requires StrictlySorted(s) && k < |s|
    ensures s[k].0 >= k
  {
    if k > 0 {
      AtLeastPosition(s, k - 1);
    }
  }

  lemma {:induction false} AtMostPosition(s: seq<(nat, Execution)>, k: nat)
    requires StrictlySorted(s) && k < |s| && forall x :: x in s ==> x.0 < |s|
    ensures s[k].0 <= k
    decreases |s| - k
  {
    if k + 1 < |s| {
      AtMostPosition(s, k + 1);
    } else {
      assert s[k] in s;
    }
  }

  /** Whatever order a group settled in, sorting by index gives the k-th call the k-th place. */
  lemma LandedInAskedOrder(f: Flight, size: nat, k: nat)
    requires Airborne(f, size) && f.inFlight == [] && k < size
    ensures SortByIndex(f.finished)[k] in f.finished && SortByIndex(f.finished)[k].0 == k
  {
    var landed := SortByIndex(f.finished);
    SortSorts(f.finished);
    assert forall x :: x in landed ==> x in f.finished;
    assert landed[k] in landed;
    SortedIsIdentity(landed, k);
  }

  // ------------------------------------------------------------- parallel is sequential

  /** The call reads only, under any settings, and a turn is never stopped from inside it. */
  ghost predicate Quiet(oracle: Oracle, call: ToolCall) {
    forall n: nat, w: World :: oracle.execute(n, w, call).0 == w && !IsAbort(oracle.execute(n, w, call).1)
  }

  ghost predicate SafeHasNoPolicy(agent: Agent) {
    forall name, call, rules, permission :: name in agent.tools && agent.tools[name].risk == Safe ==>
      agent.tools[name].policy(call, rules, permission).None?
  }

  /** `execution` is what the call at `x.0` answers in world `w`, under the settings of group `n`. */
  ghost predicate From(oracle: Oracle, n: nat, group: seq<ToolCall>, w: World, x: (nat, Execution)) {
    x.0 < |group| && x.1 == oracle.execute(n, w, group[x.0]).1
  }

  lemma {:induction false} QuietRace(oracle: Oracle, n: nat, group: seq<ToolCall>, base: nat, f: Flight)
    requires Airborne(f, |group|) && !f.aborted
    requires forall i :: 0 <= i < |group| ==> Quiet(oracle, group[i])
    requires forall x :: x in f.finished ==> From(oracle, n, group, f.world, x)
    ensures var r := Race(oracle, n, group, base, f);
      r.world == f.world && !r.aborted && forall x :: x in r.finished ==> From(oracle, n, group, f.world, x)
    decreases |f.inFlight|
  {
    if f.inFlight != [] {
      LandKeepsAirborne(oracle, n, group, base, f);
      var after := Land(oracle, n, group, base, f);
      var last := after.finished[|f.finished|];
      assert last.0 in f.inFlight && Quiet(oracle, group[last.0]);
      assert From(oracle, n, group, f.world, last);
      assert forall x :: x in after.finished <==> x in f.finished || x == last;
      QuietRace(oracle, n, group, base, after);
    }
  }

  /** The group's calls one at a time, in asked order, under the same settings. */
  function SoloEach(agent: Agent, oracle: Oracle, n: nat, scope: Option<Live>, group: seq<ToolCall>,
        b: Batch): (r: Option<Batch>)
    ensures r.Some? ==> |r.value.answers| == |b.answers| + |group|
    decreases |group|
  {
    if group == [] then Some(b)
    else match Solo(agent, oracle, n, scope, group[0], b)
      case None => None
      case Some(after) => SoloEach(agent, oracle, n, scope, group[1..], after)
  }

  ghost predicate SameResults(a: Batch, b: Batch) {
    a.world == b.world && a.cancelled == b.cancelled && a.answers == b.answers
  }

  function QuietAnswers(oracle: Oracle, n: nat, group: seq<ToolCall>, w: World): (r: seq<Answer>)
    ensures |r| == |group|
  {
    seq(|group|, i requires 0 <= i < |group| => Answer(oracle.execute(n, w, group[i]).1, true, n))
  }

  lemma QuietParallel(oracle: Oracle, n: nat, group: seq<ToolCall>, b: Batch)
    requires !b.cancelled && forall i :: 0 <= i < |group| ==> Quiet(oracle, group[i])
    ensures var r := Parallel(oracle, n, group, b);
      r.world == b.world && !r.cancelled && r.answers == b.answers + QuietAnswers(oracle, n, group, b.world)
  {
    var f := TakeOff(b, |group|);
    QuietRace(oracle, n, group, |b.answers|, f);
    var landing := Race(oracle, n, group, |b.answers|, f);
    var landed := SortByIndex(landing.finished);
    forall k | 0 <= k < |group|
      ensures landed[k].1 == oracle.execute(n, b.world, group[k]).1
    {
      LandedInAskedOrder(landing, |group|, k);
      assert From(oracle, n, group, b.world, landed[k]);
    }
    assert Parallel(oracle, n, group, b).answers == b.answers + QuietAnswers(oracle, n, group, b.world);
  }

  /** What `authorize` would say of a call the group path runs without asking it. */
  lemma EligibleIsAuthorized(agent: Agent, oracle: Oracle, n: nat, scope: Option<Live>, call: ToolCall)
    requires SafeHasNoPolicy(agent) && IsParallelEligible(agent, scope, call)
    ensures Authorize(agent, oracle, n, scope, call).None? && Effective(agent, scope, call) == Allow
  {
    assert agent.tools[call.name].policy(call, RulesOf(agent, scope), Fallback(agent, scope, call)).None?;
  }

  lemma {:induction false} QuietSolo(agent: Agent, oracle: Oracle, n: nat, scope: Option<Live>, group: seq<ToolCall>,
        b: Batch)
    requires SafeHasNoPolicy(agent) && !b.cancelled
    requires forall i :: 0 <= i < |group| ==> Quiet(oracle, group[i]) && IsParallelEligible(agent, scope, group[i])
    ensures var r := SoloEach(agent, oracle, n, scope, group, b);
      r.Some? && r.value.world == b.world && !r.value.cancelled
      && r.value.answers == b.answers + QuietAnswers(oracle, n, group, b.world)
    decreases |group|
  {
    if group != [] {
      EligibleIsAuthorized(agent, oracle, n, scope, group[0]);
      var after := Solo(agent, oracle, n, scope, group[0], b).value;
      assert Quiet(oracle, group[0]);
      QuietSolo(agent, oracle, n, scope, group[1..], after);
      assert QuietAnswers(oracle, n, group, b.world)
          == [Answer(oracle.execute(n, b.world, group[0]).1, true, n)] + QuietAnswers(oracle, n, group[1..], b.world);
    }
  }

  lemma {:induction false} CancelledAlike(agent: Agent, oracle: Oracle, n: nat, scope: Option<Live>,
        group: seq<ToolCall>, a: Batch, b: Batch)
    requires SameResults(a, b) && a.cancelled
    ensures var r := SoloEach(agent, oracle, n, scope, group, b);
      r.Some? && SameResults(AnswerAll(group, n, CancelledExecution(), a), r.value)
    decreases |group|
  {
    if group != [] {
      CancelledAlike(agent, oracle, n, scope, group[1..],
        Settle(a, n, CancelledExecution(), false), Settle(b, n, CancelledExecution(), false));
    }
  }

  /** `dispatch` with every group run one call at a time, under the settings that group had. */
  function SequentialFrom(agent: Agent, oracle: Oracle, calls: seq<ToolCall>, n: nat, scope: Option<Live>,
        b: Batch): Outcome
    requires |b.answers| <= |calls|
    decreases |calls| - |b.answers|
  {
    var rest := calls[|b.answers|..];
    if rest == [] then Done(b, false)
    else match Refreshed(agent, oracle, n, scope)
      case None => Done(AnswerAll(rest, n, DeniedExecution(AgentRemoved), b), true)
      case Some(now) =>
        var size := NextGroup(agent, now, rest);
        match SoloEach(agent, oracle, n, now, rest[..size], b.(cancelled := b.cancelled || oracle.stopped(n)))
        case None => Failed
        case Some(after) => SequentialFrom(agent, oracle, calls, n + 1, now, after)
  }

  lemma {:induction false} AnswerAllAlike(calls: seq<ToolCall>, n: nat, execution: Execution, a: Batch, b: Batch)
    requires SameResults(a, b)
    ensures SameResults(AnswerAll(calls, n, execution, a), AnswerAll(calls, n, execution, b))
    decreases |calls|
  {
    if calls != [] {
      AnswerAllAlike(calls[1..], n, execution, Settle(a, n, execution, false), Settle(b, n, execution, false));
    }
  }

  lemma GroupAlike(agent: Agent, oracle: Oracle, n: nat, scope: Option<Live>, group: seq<ToolCall>, a: Batch, b: Batch)
    requires SafeHasNoPolicy(agent) && group != [] && SameResults(a, b)
    requires |group| > 1 ==>
      forall i :: 0 <= i < |group| ==> Quiet(oracle, group[i]) && IsParallelEligible(agent, scope, group[i])
    ensures var r := RunGroup(agent, oracle, n, scope, group, a);
      var q := SoloEach(agent, oracle, n, scope, group, b.(cancelled := b.cancelled || oracle.stopped(n)));
      r.Some? == q.Some? && (r.Some? ==> SameResults(r.value, q.value))
  {
    var a' := a.(cancelled := a.cancelled || oracle.stopped(n));
    var b' := b.(cancelled := b.cancelled || oracle.stopped(n));
    if |group| == 1 {
      assert group[1..] == [];
    } else if a'.cancelled {
      CancelledAlike(agent, oracle, n, scope, group, a', b');
    } else {
      QuietParallel(oracle, n, group, a');
      QuietSolo(agent, oracle, n, scope, group, b');
    }
  }

  /** The calls that go next, in whichever order they settle, against one call at a time. */
  lemma NextGroupAlike(agent: Agent, oracle: Oracle, n: nat, scope: Option<Live>, rest: seq<ToolCall>,
        a: Batch, b: Batch)
    requires SafeHasNoPolicy(agent) && rest != [] && SameResults(a, b)
    requires forall call :: call in rest && call.name in agent.tools && agent.tools[call.name].risk == Safe ==>
      Quiet(oracle, call)
    ensures var group := rest[..NextGroup(agent, scope, rest)];
      var r := RunGroup(agent, oracle, n, scope, group, a);
      var q := SoloEach(agent, oracle, n, scope, group, b.(cancelled := b.cancelled || oracle.stopped(n)));
      r.Some? == q.Some? && (r.Some? ==> SameResults(r.value, q.value))
  {
    var group := rest[..NextGroup(agent, scope, rest)];
    forall i | 0 <= i < |group| && |group| > 1 ensures Quiet(oracle, group[i]) {
      assert group[i] in rest;
    }
    GroupAlike(agent, oracle, n, scope, group, a, b);
  }

  /**
   Parallel dispatch preserves meaning. When safe tools read only, carry no policy and never report
   an abort, then for every order in which the calls of a group settle, the answers, the final world
   and both flags are those of running the batch one call at a time in asked order.
   */
  lemma {:induction false} ParallelEqualsSequential(agent: Agent, oracle: Oracle, calls: seq<ToolCall>, n: nat,
        scope: Option<Live>, a: Batch, b: Batch)
    requires SafeHasNoPolicy(agent)
    requires forall call :: call in calls && call.name in agent.tools && agent.tools[call.name].risk == Safe ==>
               Quiet(oracle, call)
    requires |a.answers| <= |calls| && SameResults(a, b)
    ensures var r := DispatchFrom(agent, oracle, calls, n, scope, a);
      var q := SequentialFrom(agent, oracle, calls, n, scope, b);
      && r.Done? == q.Done?
      && (r.Done? ==> r.agentGone == q.agentGone && SameResults(r.batch, q.batch))
    decreases |calls| - |a.answers|
  {
    var rest := calls[|a.answers|..];
    if rest != [] {
      match Refreshed(agent, oracle, n, scope)
      case None => AnswerAllAlike(rest, n, DeniedExecution(AgentRemoved), a, b);
      case Some(now) =>
        var group := rest[..NextGroup(agent, now, rest)];
        assert forall call :: call in rest ==> call in calls;
        NextGroupAlike(agent, oracle, n, now, rest, a, b);
        var r := RunGroup(agent, oracle, n, now, group, a);
        if r.Some? {
          var q := SoloEach(agent, oracle, n, now, group, b.(cancelled := b.cancelled || oracle.stopped(n)));
          ParallelEqualsSequential(agent, oracle, calls, n + 1, now, r.value, q.value);
        }
    }
  }

  // ------------------------------------------------------------- one call event before one result

  function Times(events: seq<Event>, e: Event): nat {
    if events == [] then 0
    else Times(events[..|events| - 1], e) + (if events[|events| - 1] == e then 1 else 0)
  }

  lemma TimesGrows(events: seq<Event>, last: Event)
    ensures forall e :: Times(events + [last], e) == Times(events, e) + (if last == e then 1 else 0)
  {
    assert (events + [last])[..|events|] == events;
  }

  lemma {:induction false} TimesOccurs(events: seq<Event>, e: Event)
    requires Times(events, e) > 0
    ensures e in events
  {
    if events[|events| - 1] != e {
      TimesOccurs(events[..|events| - 1], e);
    }
  }

  /** The first `called` calls have been announced once each, the first `answered` answered once each. */
  ghost predicate Counts(events: seq<Event>, called: nat, answered: nat) {
    && (forall at: nat :: Times(events, Called(at)) == (if at < called then 1 else 0))
    && (forall at: nat :: Times(events, Resulted(at)) == (if at < answered then 1 else 0))
    && CalledFirst(events)
  }

  ghost predicate EachOnce(events: seq<Event>, k: nat) {
    Counts(events, k, k)
  }

  ghost predicate CalledFirst(events: seq<Event>) {
    forall j :: 0 <= j < |events| && events[j].Resulted? ==> Called(events[j].at) in events[..j]
  }

  /** Mid-group: the group is announced, and exactly the calls that have settled are answered. */
  ghost predicate Halfway(events: seq<Event>, base: nat, f: Flight, size: nat) {
    && (forall at: nat :: Times(events, Called(at)) == (if at < base + size then 1 else 0))
    && (forall at: nat :: Times(events, Resulted(at)) == (if at < base || Landed(f, at - base) then 1 else 0))
    && CalledFirst(events)
  }

  ghost predicate Landed(f: Flight, index: int) {
    exists x :: x in f.finished && x.0 == index
  }

  lemma AppendCalledFirst(events: seq<Event>, e: Event)
    requires CalledFirst(events) && (e.Resulted? ==> Called(e.at) in events)
    ensures CalledFirst(events + [e])
  {
    var more := events + [e];
    forall j | 0 <= j < |more| && more[j].Resulted? ensures Called(more[j].at) in more[..j] {
      assert more[..j] == events[..j];
    }
  }

  lemma AppendCalled(events: seq<Event>, k: nat, answered: nat)
    requires Counts(events, k, answered)
    ensures Counts(events + [Called(k)], k + 1, answered)
  {
    TimesGrows(events, Called(k));
    AppendCalledFirst(events, Called(k));
  }

  lemma AppendResulted(events: seq<Event>, called: nat, k: nat)
    requires Counts(events, called, k) && k < called
    ensures Counts(events + [Resulted(k)], called, k + 1)
  {
    TimesGrows(events, Resulted(k));
    TimesOccurs(events, Called(k));
    AppendCalledFirst(events, Resulted(k));
  }

  lemma SettleOnce(b: Batch, n: nat, execution: Execution, ran: bool)
    requires EachOnce(b.events, |b.answers|)
    ensures var r := Settle(b, n, execution, ran); EachOnce(r.events, |r.answers|)
  {
    var at := |b.answers|;
    AppendCalled(b.events, at, at);
    AppendResulted(b.events + [Called(at)], at + 1, at);
    assert b.events + [Called(at), Resulted(at)] == b.events + [Called(at)] + [Resulted(at)];
  }

  lemma {:induction false} AnswerAllOnce(calls: seq<ToolCall>, n: nat, execution: Execution, b: Batch)
    requires EachOnce(b.events, |b.answers|)
    ensures var r := AnswerAll(calls, n, execution, b); EachOnce(r.events, |r.answers|)
    decreases |calls|
  {
    if calls != [] {
      SettleOnce(b, n, execution, false);
      AnswerAllOnce(calls[1..], n, execution, Settle(b, n, execution, false));
    }
  }

  lemma {:induction false} AnnounceOnce(events: seq<Event>, base: nat, size: nat)
    requires EachOnce(events, base)
    ensures Counts(events + CalledFrom(base, size), base + size, base)
  {
    if size == 0 {
      assert events + CalledFrom(base, 0) == events;
    } else {
      AnnounceOnce(events, base, size - 1);
      AppendCalled(events + CalledFrom(base, size - 1), base + size - 1, base);
      CalledFromGrows(events, base, size);
    }
  }

  lemma CalledFromGrows(events: seq<Event>, base: nat, size: nat)
    requires size > 0
    ensures events + CalledFrom(base, size) == events + CalledFrom(base, size - 1) + [Called(base + size - 1)]
  {}

  lemma LandOnce(oracle: Oracle, n: nat, group: seq<ToolCall>, base: nat, f: Flight)
    requires f.inFlight != [] && Airborne(f, |group|) && Halfway(f.events, base, f, |group|)
    ensures var r := Land(oracle, n, group, base, f); Halfway(r.events, base, r, |group|)
  {
    var r := Land(oracle, n, group, base, f);
    var last := r.finished[|f.finished|];
    assert last.0 in f.inFlight;
    TimesGrows(f.events, Resulted(base + last.0));
    TimesOccurs(f.events, Called(base + last.0));
    AppendCalledFirst(f.events, Resulted(base + last.0));
    LandedAfter(f, r, last);
  }

  lemma LandedAfter(f: Flight, r: Flight, last: (nat, Execution))
    requires r.finished == f.finished + [last]
    ensures forall index :: Landed(r, index) <==> Landed(f, index) || index == last.0
  {
    assert last in r.finished;
    assert forall x :: x in r.finished <==> x in f.finished || x == last;
  }

  lemma {:induction false} RaceOnce(oracle: Oracle, n: nat, group: seq<ToolCall>, base: nat, f: Flight)
    requires Airborne(f, |group|) && Halfway(f.events, base, f, |group|)
    ensures EachOnce(Race(oracle, n, group, base, f).events, base + |group|)
    decreases |f.inFlight|
  {
    if f.inFlight == [] {
      forall index | 0 <= index < |group| ensures Landed(f, index) {
        LandedInAskedOrder(f, |group|, index);
      }
    } else {
      LandKeepsAirborne(oracle, n, group, base, f);
      LandOnce(oracle, n, group, base, f);
      RaceOnce(oracle, n, group, base, Land(oracle, n, group, base, f));
    }
  }

  lemma RunGroupOnce(agent: Agent, oracle: Oracle, n: nat, scope: Option<Live>, group: seq<ToolCall>, b: Batch)
    requires group != [] && EachOnce(b.events, |b.answers|)
    ensures var r := RunGroup(agent, oracle, n, scope, group, b);
      r.Some? ==> EachOnce(r.value.events, |r.value.answers|)
  {
    var stopped := b.(cancelled := b.cancelled || oracle.stopped(n));
    if |group| == 1 {
      SoloOnce(agent, oracle, n, scope, group[0], stopped);
    } else if stopped.cancelled {
      AnswerAllOnce(group, n, CancelledExecution(), stopped);
    } else {
      AnnounceOnce(b.events, |b.answers|, |group|);
      var f := TakeOff(stopped, |group|);
      assert forall index :: !Landed(f, index);
      RaceOnce(oracle, n, group, |b.answers|, f);
    }
  }

  lemma SoloOnce(agent: Agent, oracle: Oracle, n: nat, scope: Option<Live>, call: ToolCall, b: Batch)
    requires EachOnce(b.events, |b.answers|)
    ensures var r := Solo(agent, oracle, n, scope, call, b);
      r.Some? ==> EachOnce(r.value.events, |r.value.answers|)
  {
    var r := Solo(agent, oracle, n, scope, call, b);
    if r.Some? {
      var last := r.value.answers[|b.answers|];
      SettleOnce(b, n, last.execution, last.ran);
    }
  }

  /** Every call of a batch that did not fail is announced once, and answered once after that. */
  lemma {:induction false} EveryCallIsAnswered(agent: Agent, oracle: Oracle, calls: seq<ToolCall>, n: nat,
        scope: Option<Live>, b: Batch)
    requires |b.answers| <= |calls| && EachOnce(b.events, |b.answers|)
    ensures var r := DispatchFrom(agent, oracle, calls, n, scope, b);
      r.Done? ==> |r.batch.answers| == |calls| && EachOnce(r.batch.events, |calls|)
    decreases |calls| - |b.answers|
  {
    var rest := calls[|b.answers|..];
    if rest != [] {
      match Refreshed(agent, oracle, n, scope)
      case None => AnswerAllOnce(rest, n, DeniedExecution(AgentRemoved), b);
      case Some(now) =>
        var group := rest[..NextGroup(agent, now, rest)];
        RunGroupOnce(agent, oracle, n, now, group, b);
        var r := RunGroup(agent, oracle, n, now, group, b);
        if r.Some? {
          EveryCallIsAnswered(agent, oracle, calls, n + 1, now, r.value);
        }
    }
  }

  // ------------------------------------------------------------- cancellation and denial are final

  /** The settings group `g` ran under: what its refresh read, or the loop's own. */
  function ScopeAt(agent: Agent, oracle: Oracle, g: nat, initial: Option<Live>): Option<Live> {
    if agent.live then oracle.refresh(g) else initial
  }

  /** Nothing that runs was denied: not by the offer, not by the settings of the moment, not by a rule. */
  ghost predicate Permitted(agent: Agent, oracle: Oracle, g: nat, initial: Option<Live>, call: ToolCall) {
    var scope := ScopeAt(agent, oracle, g, initial);
    && agent.toolsEnabled
    && Fallback(agent, scope, call) != Deny
    && (!IsDelegation(agent, call.name) ==> PermissionFor(agent.offered, call.name) != Deny)
    && (IsDelegation(agent, call.name) ==> agent.subagents[call.name] != Deny)
    && Effective(agent, scope, call) != Deny
    && (Effective(agent, scope, call) == Ask && agent.hasGate ==> oracle.ask(g, call).Approved?)
  }

  /** The refresh before group `g` still found the agent; a loop without one has nothing to lose. */
  predicate Resolves(agent: Agent, oracle: Oracle, g: nat) {
    agent.live ==> oracle.refresh(g).Some?
  }

  /** Up to group `g` nothing has ended the turn: no abort in `answers`, no stop, and no loss of the agent. */
  ghost predicate Untroubled(agent: Agent, oracle: Oracle, answers: seq<Answer>, g: nat) {
    && (forall i :: 0 <= i < |answers| && answers[i].group < g ==> !IsAbort(answers[i].execution))
    && (forall h: nat :: h <= g ==> !oracle.stopped(h) && Resolves(agent, oracle, h))
  }

  /** Each call that ran was permitted, and came before any stop, abort or loss of the agent. */
  ghost predicate Final(agent: Agent, oracle: Oracle, initial: Option<Live>, calls: seq<ToolCall>,
        answers: seq<Answer>) {
    |answers| <= |calls| &&
    forall j :: 0 <= j < |answers| && answers[j].ran ==>
      && Untroubled(agent, oracle, answers[..j], answers[j].group)
      && Permitted(agent, oracle, answers[j].group, initial, calls[j])
  }

  /** What holds between groups: the agent is still there, and an abort or a stop seen so far has set the flag. */
  ghost predicate Carried(agent: Agent, oracle: Oracle, n: nat, b: Batch) {
    && (forall h: nat :: h < n ==> Resolves(agent, oracle, h))
    && (forall i :: 0 <= i < |b.answers| ==> b.answers[i].group < n)
    && (!b.cancelled ==>
          && (forall i :: 0 <= i < |b.answers| ==> !IsAbort(b.answers[i].execution))
          && (forall h: nat :: h < n ==> !oracle.stopped(h)))
  }

  /** `r` answers some more calls, all in group `n`. */
  ghost predicate Extends(b: Batch, r: Batch, n: nat) {
    && b.answers <= r.answers
    && (forall i :: |b.answers| <= i < |r.answers| ==> r.answers[i].group == n)
    && (b.cancelled ==> r.cancelled)
    && (!r.cancelled ==> forall i :: |b.answers| <= i < |r.answers| ==> !IsAbort(r.answers[i].execution))
  }

  ghost predicate NoneRan(b: Batch, r: Batch) {
    forall i :: |b.answers| <= i < |r.answers| ==> !r.answers[i].ran
  }

  lemma {:induction false} AnswerAllExtends(calls: seq<ToolCall>, n: nat, execution: Execution, b: Batch)
    ensures var r := AnswerAll(calls, n, execution, b); Extends(b, r, n) && NoneRan(b, r)
    decreases |calls|
  {
    if calls != [] {
      var next := Settle(b, n, execution, false);
      AnswerAllExtends(calls[1..], n, execution, next);
      assert next.answers[|b.answers|] == Answer(execution, false, n);
    }
  }

  ghost predicate AbortNoted(f: Flight) {
    forall x :: x in f.finished && IsAbort(x.1) ==> f.aborted
  }

  lemma {:induction false} RaceNotesAborts(oracle: Oracle, n: nat, group: seq<ToolCall>, base: nat, f: Flight)
    requires Airborne(f, |group|) && AbortNoted(f)
    ensures AbortNoted(Race(oracle, n, group, base, f))
    decreases |f.inFlight|
  {
    if f.inFlight != [] {
      LandKeepsAirborne(oracle, n, group, base, f);
      RaceNotesAborts(oracle, n, group, base, Land(oracle, n, group, base, f));
    }
  }

  lemma ParallelExtends(oracle: Oracle, n: nat, group: seq<ToolCall>, b: Batch)
    ensures Extends(b, Parallel(oracle, n, group, b), n)
  {
    RaceNotesAborts(oracle, n, group, |b.answers|, TakeOff(b, |group|));
    var f := Race(oracle, n, group, |b.answers|, TakeOff(b, |group|));
    var landed := SortByIndex(f.finished);
    assert forall i :: 0 <= i < |landed| ==> landed[i] in landed;
  }

  /** A group adds answers of its own, and runs a call only where that call is permitted. */
  lemma RunGroupFinal(agent: Agent, oracle: Oracle, n: nat, initial: Option<Live>, scope: Option<Live>,
        group: seq<ToolCall>, b: Batch)
    requires SafeHasNoPolicy(agent) && group != [] && scope == ScopeAt(agent, oracle, n, initial)
    requires |group| > 1 ==> forall i :: 0 <= i < |group| ==> IsParallelEligible(agent, scope, group[i])
    ensures var r := RunGroup(agent, oracle, n, scope, group, b);
      r.Some? ==>
        && Extends(b.(cancelled := b.cancelled || oracle.stopped(n)), r.value, n)
        && (b.cancelled || oracle.stopped(n) ==> NoneRan(b, r.value))
        && (forall i :: 0 <= i < |group| && r.value.answers[|b.answers| + i].ran ==>
              Permitted(agent, oracle, n, initial, group[i]))
  {
    var now := b.(cancelled := b.cancelled || oracle.stopped(n));
    if |group| == 1 {
    } else if now.cancelled {
      AnswerAllExtends(group, n, CancelledExecution(), now);
    } else {
      ParallelExtends(oracle, n, group, now);
      forall i | 0 <= i < |group| ensures Permitted(agent, oracle, n, initial, group[i]) {
        EligibleIsAuthorized(agent, oracle, n, scope, group[i]);
      }
    }
  }

  lemma StepFinal(agent: Agent, oracle: Oracle, n: nat, initial: Option<Live>, calls: seq<ToolCall>, b: Batch, r: Batch)
    requires Final(agent, oracle, initial, calls, b.answers) && Carried(agent, oracle, n, b) && |r.answers| <= |calls|
    requires Extends(b.(cancelled := b.cancelled || oracle.stopped(n)), r, n)
    requires Resolves(agent, oracle, n) && (b.cancelled || oracle.stopped(n) ==> NoneRan(b, r))
    requires forall j :: |b.answers| <= j < |r.answers| && r.answers[j].ran ==>
               Permitted(agent, oracle, n, initial, calls[j])
    ensures Final(agent, oracle, initial, calls, r.answers) && Carried(agent, oracle, n + 1, r)
  {
    forall j | 0 <= j < |r.answers| && r.answers[j].ran
      ensures Untroubled(agent, oracle, r.answers[..j], r.answers[j].group)
      ensures Permitted(agent, oracle, r.answers[j].group, initial, calls[j])
    {
      if j < |b.answers| {
        assert r.answers[j] == b.answers[j] && r.answers[..j] == b.answers[..j];
      }
    }
  }

  lemma GoneFinal(agent: Agent, oracle: Oracle, calls: seq<ToolCall>, n: nat, initial: Option<Live>, b: Batch)
    requires Final(agent, oracle, initial, calls, b.answers)
    ensures var r := AnswerAll(calls[|b.answers|..], n, DeniedExecution(AgentRemoved), b);
      Final(agent, oracle, initial, calls, r.answers) && Extends(b, r, n) && NoneRan(b, r)
  {
    var r := AnswerAll(calls[|b.answers|..], n, DeniedExecution(AgentRemoved), b);
    AnswerAllExtends(calls[|b.answers|..], n, DeniedExecution(AgentRemoved), b);
    forall j | 0 <= j < |r.answers| && r.answers[j].ran
      ensures j < |b.answers| && r.answers[j] == b.answers[j] && r.answers[..j] == b.answers[..j]
    {}
  }

  lemma NextGroupFinal(agent: Agent, oracle: Oracle, calls: seq<ToolCall>, n: nat, initial: Option<Live>,
        now: Option<Live>, b: Batch, r: Batch)
    requires SafeHasNoPolicy(agent) && |b.answers| < |calls|
    requires now == ScopeAt(agent, oracle, n, initial) && Resolves(agent, oracle, n)
    requires Final(agent, oracle, initial, calls, b.answers) && Carried(agent, oracle, n, b)
    requires RunNextGroup(agent, oracle, calls, n, now, b) == Some(r)
    ensures Final(agent, oracle, initial, calls, r.answers) && Carried(agent, oracle, n + 1, r)
    ensures Follows(b, r)
  {
    var rest := calls[|b.answers|..];
    var group := rest[..NextGroup(agent, now, rest)];
    RunGroupFinal(agent, oracle, n, initial, now, group, b);
    forall j | |b.answers| <= j < |r.answers| && r.answers[j].ran
      ensures Permitted(agent, oracle, n, initial, calls[j])
    {
      assert group[j - |b.answers|] == calls[j];
      assert r.answers[|b.answers| + (j - |b.answers|)].ran;
    }
    StepFinal(agent, oracle, n, initial, calls, b, r);
  }

  /** `r` carries on from `b`, and runs nothing more once `b` was cancelled. */
  ghost predicate Follows(b: Batch, r: Batch) {
    b.answers <= r.answers && (b.cancelled ==> r.cancelled && NoneRan(b, r))
  }

  lemma FollowsOn(b: Batch, mid: Batch, r: Batch)
    requires Follows(b, mid) && Follows(mid, r)
    ensures Follows(b, r)
  {
    if b.cancelled {
      forall i | |b.answers| <= i < |r.answers| ensures !r.answers[i].ran {
        assert i < |mid.answers| ==> r.answers[i] == mid.answers[i];
      }
    }
  }

  /** How a batch ends from `b`: with finality in all its answers, and carried on from `b`. */
  ghost predicate EndsFinal(agent: Agent, oracle: Oracle, initial: Option<Live>, calls: seq<ToolCall>, b: Batch,
        r: Outcome) {
    r.Done? ==> Final(agent, oracle, initial, calls, r.batch.answers) && Follows(b, r.batch)
  }

  lemma EndsFinalSooner(agent: Agent, oracle: Oracle, initial: Option<Live>, calls: seq<ToolCall>, b: Batch,
        mid: Batch, r: Outcome)
    requires Follows(b, mid) && EndsFinal(agent, oracle, initial, calls, mid, r)
    ensures EndsFinal(agent, oracle, initial, calls, b, r)
  {
    if r.Done? {
      FollowsOn(b, mid, r.batch);
    }
  }

  lemma DoneFinal(agent: Agent, oracle: Oracle, initial: Option<Live>, calls: seq<ToolCall>, b: Batch)
    requires Final(agent, oracle, initial, calls, b.answers)
    ensures EndsFinal(agent, oracle, initial, calls, b, Done(b, false))
  {}

  lemma GoneEndsFinal(agent: Agent, oracle: Oracle, calls: seq<ToolCall>, n: nat, initial: Option<Live>, b: Batch)
    requires Final(agent, oracle, initial, calls, b.answers)
    ensures EndsFinal(agent, oracle, initial, calls, b,
        Done(AnswerAll(calls[|b.answers|..], n, DeniedExecution(AgentRemoved), b), true))
  {
    GoneFinal(agent, oracle, calls, n, initial, b);
  }

  /**
   Cancellation and denial are final, over every refresh, stop and approval: a call runs only while
   its current permission allows it and the turn offered it, and only when no call of an earlier
   group reported an abort, no stop had been seen, and every refresh so far had found the agent.
   */
  lemma {:induction false} CancellationAndDenialAreFinal(agent: Agent, oracle: Oracle, calls: seq<ToolCall>, n: nat,
        initial: Option<Live>, scope: Option<Live>, b: Batch)
    requires SafeHasNoPolicy(agent) && (agent.live || scope == initial)
    requires Final(agent, oracle, initial, calls, b.answers) && Carried(agent, oracle, n, b)
    ensures EndsFinal(agent, oracle, initial, calls, b, DispatchFrom(agent, oracle, calls, n, scope, b))
    decreases |calls| - |b.answers|
  {
    if |b.answers| == |calls| {
      DoneFinal(agent, oracle, initial, calls, b);
    } else {
      match Refreshed(agent, oracle, n, scope)
      case None => GoneEndsFinal(agent, oracle, calls, n, initial, b);
      case Some(now) =>
        var r := RunNextGroup(agent, oracle, calls, n, now, b);
        if r.Some? {
          NextGroupFinal(agent, oracle, calls, n, initial, now, b, r.value);
          CancellationAndDenialAreFinal(agent, oracle, calls, n + 1, initial, now, r.value);
          EndsFinalSooner(agent, oracle, initial, calls, b, r.value,
              DispatchFrom(agent, oracle, calls, n + 1, now, r.value));
        }
    }
  }

  // ------------------------------------------------------------- groups partition the batch

  /** The call at `k` may share its group, under the settings that group ran with. */
  ghost predicate MayShare(agent: Agent, oracle: Oracle, initial: Option<Live>, calls: seq<ToolCall>,
        answers: seq<Answer>, k: nat)
    requires k < |answers| <= |calls|
  {
    IsParallelEligible(agent, ScopeAt(agent, oracle, answers[k].group, initial), calls[k])
  }

  /** Two calls of one group, which the agent was still there to run. */
  ghost predicate RunTogether(agent: Agent, oracle: Oracle, answers: seq<Answer>, i: nat, j: nat)
    requires i < |answers| && j < |answers|
  {
    answers[i].group == answers[j].group && Resolves(agent, oracle, answers[i].group)
  }

  /**
   Groups are consecutive runs of the batch, in order. Two calls share one only when both may, and no
   more than eight do; the calls left when the agent is gone are answered together and run nowhere.
   */
  ghost predicate Grouped(agent: Agent, oracle: Oracle, initial: Option<Live>, calls: seq<ToolCall>,
        answers: seq<Answer>) {
    && |answers| <= |calls|
    && (forall i, j :: 0 <= i < j < |answers| ==> answers[i].group <= answers[j].group)
    && (forall i, j :: 0 <= i < j < |answers| && RunTogether(agent, oracle, answers, i, j) ==>
          && j - i < 8
          && MayShare(agent, oracle, initial, calls, answers, i) && MayShare(agent, oracle, initial, calls, answers, j))
  }

  /** The call announced at `i` is answered next, and every call announced before it was answered before it. */
  ghost predicate Alone(events: seq<Event>, i: nat)
    requires i < |events|
  {
    && i + 1 < |events| && events[i + 1] == Resulted(events[i].at)
    && forall m: nat :: Called(m) in events[..i] ==> Resulted(m) in events[..i]
  }

  /** A call that may not share its group never overlaps another. */
  ghost predicate Apart(agent: Agent, oracle: Oracle, initial: Option<Live>, calls: seq<ToolCall>, b: Batch) {
    && |b.answers| <= |calls|
    && forall i :: 0 <= i < |b.events| && b.events[i].Called? ==>
      && b.events[i].at < |b.answers|
      && (MayShare(agent, oracle, initial, calls, b.answers, b.events[i].at) || Alone(b.events, i))
  }

  lemma {:induction false} OccursTimes(events: seq<Event>, e: Event)
    requires e in events
    ensures Times(events, e) > 0
  {
    if events[|events| - 1] != e {
      OccursTimes(events[..|events| - 1], e);
    }
  }

  /** A batch whose events are in keeps each announced call among its answers, and answered. */
  lemma AnnouncedIsAnswered(events: seq<Event>, k: nat, m: nat)
    requires EachOnce(events, k) && Called(m) in events
    ensures m < k && Resulted(m) in events
  {
    OccursTimes(events, Called(m));
    TimesOccurs(events, Resulted(m));
  }

  /** What was apart stays apart when answers and events are added behind it. */
  lemma StaysApart(agent: Agent, oracle: Oracle, initial: Option<Live>, calls: seq<ToolCall>, b: Batch, r: Batch,
        i: nat)
    requires Apart(agent, oracle, initial, calls, b) && |r.answers| <= |calls|
    requires b.answers <= r.answers && b.events <= r.events && i < |b.events| && b.events[i].Called?
    ensures r.events[i].at < |r.answers|
    ensures MayShare(agent, oracle, initial, calls, r.answers, r.events[i].at) || Alone(r.events, i)
  {
    assert r.events[..i] == b.events[..i];
  }

  lemma SettledAlone(events: seq<Event>, k: nat)
    requires EachOnce(events, k)
    ensures Alone(events + [Called(k), Resulted(k)], |events|)
  {
    var more := events + [Called(k), Resulted(k)];
    assert more[..|events|] == events;
    forall m: nat | Called(m) in events ensures Resulted(m) in events {
      AnnouncedIsAnswered(events, k, m);
    }
  }

  lemma SettleApart(agent: Agent, oracle: Oracle, initial: Option<Live>, calls: seq<ToolCall>, b: Batch, n: nat,
        execution: Execution, ran: bool)
    requires Apart(agent, oracle, initial, calls, b) && EachOnce(b.events, |b.answers|) && |b.answers| < |calls|
    ensures Apart(agent, oracle, initial, calls, Settle(b, n, execution, ran))
  {
    var r := Settle(b, n, execution, ran);
    forall i | 0 <= i < |r.events| && r.events[i].Called?
      ensures r.events[i].at < |r.answers|
      ensures MayShare(agent, oracle, initial, calls, r.answers, r.events[i].at) || Alone(r.events, i)
    {
      if i < |b.events| {
        StaysApart(agent, oracle, initial, calls, b, r, i);
      } else {
        SettledAlone(b.events, |b.answers|);
        assert i == |b.events| && r.events[i].at == |b.answers|;
      }
    }
  }

  lemma {:induction false} AnswerAllApart(agent: Agent, oracle: Oracle, initial: Option<Live>, calls: seq<ToolCall>,
        group: seq<ToolCall>, n: nat, execution: Execution, b: Batch)
    requires Apart(agent, oracle, initial, calls, b) && EachOnce(b.events, |b.answers|)
    requires |b.answers| + |group| <= |calls|
    ensures Apart(agent, oracle, initial, calls, AnswerAll(group, n, execution, b))
    decreases |group|
  {
    if group != [] {
      SettleApart(agent, oracle, initial, calls, b, n, execution, false);
      SettleOnce(b, n, execution, false);
      AnswerAllApart(agent, oracle, initial, calls, group[1..], n, execution, Settle(b, n, execution, false));
    }
  }

  lemma {:induction false} RaceOnlyAnswers(oracle: Oracle, n: nat, group: seq<ToolCall>, base: nat, f: Flight)
    requires Airborne(f, |group|)
    ensures var r := Race(oracle, n, group, base, f);
      f.events <= r.events && forall i :: |f.events| <= i < |r.events| ==> r.events[i].Resulted?
    decreases |f.inFlight|
  {
    if f.inFlight != [] {
      LandKeepsAirborne(oracle, n, group, base, f);
      RaceOnlyAnswers(oracle, n, group, base, Land(oracle, n, group, base, f));
    }
  }

  lemma ParallelApart(agent: Agent, oracle: Oracle, initial: Option<Live>, calls: seq<ToolCall>, group: seq<ToolCall>,
        n: nat, b: Batch)
    requires Apart(agent, oracle, initial, calls, b) && group <= calls[|b.answers|..]
    requires forall k :: 0 <= k < |group| ==> IsParallelEligible(agent, ScopeAt(agent, oracle, n, initial), group[k])
    ensures Apart(agent, oracle, initial, calls, Parallel(oracle, n, group, b))
  {
    var base := |b.answers|;
    var r := Parallel(oracle, n, group, b);
    RaceOnlyAnswers(oracle, n, group, base, TakeOff(b, |group|));
    forall i | 0 <= i < |r.events| && r.events[i].Called?
      ensures r.events[i].at < |r.answers|
      ensures MayShare(agent, oracle, initial, calls, r.answers, r.events[i].at) || Alone(r.events, i)
    {
      if i < |b.events| {
        StaysApart(agent, oracle, initial, calls, b, r, i);
      } else {
        var k := i - |b.events|;
        assert r.events[i] == CalledFrom(base, |group|)[k] == Called(base + k);
        assert calls[base..][k] == group[k] && r.answers[base + k].group == n;
      }
    }
  }

  lemma RunGroupExtends(agent: Agent, oracle: Oracle, n: nat, scope: Option<Live>, group: seq<ToolCall>, b: Batch)
    requires group != []
    ensures var r := RunGroup(agent, oracle, n, scope, group, b);
      r.Some? ==> Extends(b.(cancelled := b.cancelled || oracle.stopped(n)), r.value, n)
  {
    var now := b.(cancelled := b.cancelled || oracle.stopped(n));
    if |group| > 1 {
      if now.cancelled {
        AnswerAllExtends(group, n, CancelledExecution(), now);
      } else {
        ParallelExtends(oracle, n, group, now);
      }
    }
  }

  lemma RunGroupApart(agent: Agent, oracle: Oracle, initial: Option<Live>, calls: seq<ToolCall>, n: nat,
        scope: Option<Live>, group: seq<ToolCall>, b: Batch)
    requires Apart(agent, oracle, initial, calls, b) && EachOnce(b.events, |b.answers|)
    requires group != [] && group <= calls[|b.answers|..] && scope == ScopeAt(agent, oracle, n, initial)
    requires |group| > 1 ==> forall i :: 0 <= i < |group| ==> IsParallelEligible(agent, scope, group[i])
    ensures var r := RunGroup(agent, oracle, n, scope, group, b);
      r.Some? ==> Apart(agent, oracle, initial, calls, r.value)
  {
    var now := b.(cancelled := b.cancelled || oracle.stopped(n));
    var r := RunGroup(agent, oracle, n, scope, group, b);
    if |group| == 1 {
      if r.Some? {
        var last := r.value.answers[|b.answers|];
        SettleApart(agent, oracle, initial, calls, b, n, last.execution, last.ran);
      }
    } else if now.cancelled {
      AnswerAllApart(agent, oracle, initial, calls, group, n, CancelledExecution(), now);
    } else {
      ParallelApart(agent, oracle, initial, calls, group, n, now);
    }
  }

  ghost predicate Earlier(answers: seq<Answer>, n: nat) {
    forall i :: 0 <= i < |answers| ==> answers[i].group < n
  }

  lemma GroupAdded(agent: Agent, oracle: Oracle, initial: Option<Live>, calls: seq<ToolCall>, n: nat,
        before: seq<Answer>, after: seq<Answer>)
    requires Grouped(agent, oracle, initial, calls, before) && Earlier(before, n) && before <= after &&
        |after| <= |calls|
    requires forall i :: |before| <= i < |after| ==> after[i].group == n
    requires Resolves(agent, oracle, n) ==> |after| - |before| <= MAX_PARALLEL_TOOL_CALLS
    requires Resolves(agent, oracle, n) && |after| - |before| > 1 ==>
      forall i :: |before| <= i < |after| ==> MayShare(agent, oracle, initial, calls, after, i)
    ensures Grouped(agent, oracle, initial, calls, after) && Earlier(after, n + 1)
  {
    forall i, j | 0 <= i < j < |after| && RunTogether(agent, oracle, after, i, j)
      ensures j - i < MAX_PARALLEL_TOOL_CALLS
      ensures MayShare(agent, oracle, initial, calls, after, i) && MayShare(agent, oracle, initial, calls, after, j)
    {
      if j < |before| {
        assert after[i] == before[i] && after[j] == before[j];
        assert RunTogether(agent, oracle, before, i, j);
        assert MayShare(agent, oracle, initial, calls, before, i) && MayShare(agent, oracle, initial, calls, before, j);
      }
    }
  }

  lemma NextGroupGrouped(agent: Agent, oracle: Oracle, calls: seq<ToolCall>, n: nat, initial: Option<Live>,
        now: Option<Live>, b: Batch, r: Batch)
    requires |b.answers| < |calls| && now == ScopeAt(agent, oracle, n, initial)
    requires Grouped(agent, oracle, initial, calls, b.answers) && Earlier(b.answers, n)
    requires RunNextGroup(agent, oracle, calls, n, now, b) == Some(r)
    ensures Grouped(agent, oracle, initial, calls, r.answers) && Earlier(r.answers, n + 1)
  {
    var rest := calls[|b.answers|..];
    var group := rest[..NextGroup(agent, now, rest)];
    RunGroupExtends(agent, oracle, n, now, group, b);
    if |group| > 1 {
      forall i | |b.answers| <= i < |r.answers| ensures MayShare(agent, oracle, initial, calls, r.answers, i) {
        assert rest[i - |b.answers|] == calls[i];
      }
    }
    GroupAdded(agent, oracle, initial, calls, n, b.answers, r.answers);
  }

  /** Groups partition the batch, whatever is refreshed, stopped or denied. */
  lemma {:induction false} GroupsAreConsecutive(agent: Agent, oracle: Oracle, calls: seq<ToolCall>, n: nat,
        initial: Option<Live>, scope: Option<Live>, b: Batch)
    requires agent.live || scope == initial
    requires Grouped(agent, oracle, initial, calls, b.answers) && Earlier(b.answers, n)
    ensures var r := DispatchFrom(agent, oracle, calls, n, scope, b);
      r.Done? ==> Grouped(agent, oracle, initial, calls, r.batch.answers)
    decreases |calls| - |b.answers|
  {
    var rest := calls[|b.answers|..];
    if rest != [] {
      match Refreshed(agent, oracle, n, scope)
      case None =>
        AnswerAllExtends(rest, n, DeniedExecution(AgentRemoved), b);
        GroupAdded(agent, oracle, initial, calls, n, b.answers,
            AnswerAll(rest, n, DeniedExecution(AgentRemoved), b).answers);
      case Some(now) =>
        var r := RunNextGroup(agent, oracle, calls, n, now, b);
        if r.Some? {
          NextGroupGrouped(agent, oracle, calls, n, initial, now, b, r.value);
          GroupsAreConsecutive(agent, oracle, calls, n + 1, initial, now, r.value);
        }
    }
  }

  /** A call that may not run beside others never does, in whatever order the calls of a group settle. */
  lemma {:induction false} NothingOverlapsIt(agent: Agent, oracle: Oracle, calls: seq<ToolCall>, n: nat,
        initial: Option<Live>, scope: Option<Live>, b: Batch)
    requires agent.live || scope == initial
    requires Apart(agent, oracle, initial, calls, b) && EachOnce(b.events, |b.answers|)
    ensures var r := DispatchFrom(agent, oracle, calls, n, scope, b);
      r.Done? ==> Apart(agent, oracle, initial, calls, r.batch)
    decreases |calls| - |b.answers|
  {
    var rest := calls[|b.answers|..];
    if rest != [] {
      match Refreshed(agent, oracle, n, scope)
      case None => AnswerAllApart(agent, oracle, initial, calls, rest, n, DeniedExecution(AgentRemoved), b);
      case Some(now) =>
        var group := rest[..NextGroup(agent, now, rest)];
        var r := RunGroup(agent, oracle, n, now, group, b);
        if r.Some? {
          RunGroupApart(agent, oracle, initial, calls, n, now, group, b);
          RunGroupOnce(agent, oracle, n, now, group, b);
          NothingOverlapsIt(agent, oracle, calls, n + 1, initial, now, r.value);
        }
    }
  }

  /** All of it together, for a whole batch: `start` is the world the batch begins in. */
  lemma WholeBatch(agent: Agent, oracle: Oracle, calls: seq<ToolCall>, scope: Option<Live>, start: World, stopped: bool)
    requires SafeHasNoPolicy(agent)
    ensures var r := DispatchFrom(agent, oracle, calls, 0, scope, Start(start, stopped));
      r.Done? ==>
        && |r.batch.answers| == |calls| && EachOnce(r.batch.events, |calls|)
        && Final(agent, oracle, scope, calls, r.batch.answers)
        && Grouped(agent, oracle, scope, calls, r.batch.answers) && Apart(agent, oracle, scope, calls, r.batch)
        && (stopped ==> forall i :: 0 <= i < |calls| ==> !r.batch.answers[i].ran)
  {
    EveryCallIsAnswered(agent, oracle, calls, 0, scope, Start(start, stopped));
    CancellationAndDenialAreFinal(agent, oracle, calls, 0, scope, scope, Start(start, stopped));
    GroupsAreConsecutive(agent, oracle, calls, 0, scope, scope, Start(start, stopped));
    NothingOverlapsIt(agent, oracle, calls, 0, scope, scope, Start(start, stopped));
  }

  // ------------------------------------------------------------- the loops themselves

  /** The part of a turn's scope that a refresh writes. */
  class TurnScope {
    var permissions: Option<Live>

    constructor (initial: Option<Live>)
      ensures permissions == initial
    {
      permissions := initial;
    }

    method Refresh(agent: Agent, oracle: Oracle, n: nat) returns (resolves: bool)
      modifies this
      ensures resolves <==> Refreshed(agent, oracle, n, old(permissions)).Some?
      ensures permissions ==
        (if resolves then Refreshed(agent, oracle, n, old(permissions)).value else old(permissions))
    {
      if !agent.live {
        return true;
      }
      var current := oracle.refresh(n);
      if current.None? {
        return false;
      }
      permissions := current;
      return true;
    }
  }

  /** What `dispatch` returns: `Lost` when a delegation failed the turn. */
  datatype ToolCallOutcome =
    | Lost
    | Ran(cancelled: bool, agentGone: bool, pending: seq<ChatMessage>, world: World, events: seq<Event>)

  function Reported(message: ChatMessage, outcome: Outcome): ToolCallOutcome
    requires message.Assistant? && (outcome.Done? ==> |outcome.batch.answers| == |message.toolCalls|)
  {
    match outcome
    case Failed => Lost
    case Done(b, gone) =>
      Ran(b.cancelled, gone, [message] + Rows(message.toolCalls, b.answers, 0), b.world, b.events)
  }

  lemma MoreRows(message: ChatMessage, calls: seq<ToolCall>, before: seq<Answer>, after: seq<Answer>)
    requires before <= after && |after| <= |calls|
    ensures [message] + Rows(calls, before, 0) + Rows(calls, after, |before|)
         == [message] + Rows(calls, after, 0)
  {}

  /** Takes the next result of a group in flight, whichever call it is. */
  method TakeNext(oracle: Oracle, n: nat, group: seq<ToolCall>, base: nat, ghost f: Flight, world: World,
                  inFlight: seq<nat>, landed: nat)
    returns (after: World, left: seq<nat>, index: nat, execution: Execution)
    requires inFlight != [] && (forall i :: i in inFlight ==> i < |group|)
    requires f.inFlight == inFlight && |f.finished| == landed && f.world == world
    ensures Land(oracle, n, group, base, f) ==
      Flight(after, left, f.finished + [(index, execution)], f.events + [Resulted(base + index)],
          f.aborted || IsAbort(execution))
  {
    var k := oracle.pick(n, landed) % |inFlight|;
    index := inFlight[k];
    assert index in inFlight;
    left := RemoveAt(inFlight, k);
    var (w, e) := oracle.execute(n, world, group[index]);
    after, execution := w, e;
  }

  /** One group in flight together. Results are taken as they settle and put back in asked order. */
  method RunParallel(oracle: Oracle, n: nat, group: seq<ToolCall>, ghost calls: seq<ToolCall>, ghost b: Batch,
                     world: World, base: nat, events: seq<Event>)
    returns (cancelled: bool, messages: seq<ChatMessage>, after: World, reported: seq<Event>)
    requires b.world == world && |b.answers| == base <= |calls| && b.events == events && group <= calls[base..]
    ensures var r := Parallel(oracle, n, group, b);
      && r.cancelled == (b.cancelled || cancelled) && r.world == after && r.events == reported
      && messages == Rows(calls, r.answers, base)
  {
    reported := events + CalledFrom(base, |group|);
    var inFlight := Upto(|group|);
    var finished: seq<(nat, Execution)> := [];
    after, cancelled := world, false;
    ghost var f := TakeOff(b, |group|);
    while inFlight != []
      invariant f == Flight(after, inFlight, finished, reported, cancelled)
      invariant Airborne(f, |group|)
      invariant Race(oracle, n, group, base, f) == Race(oracle, n, group, base, TakeOff(b, |group|))
      decreases |inFlight|
    {
      LandKeepsAirborne(oracle, n, group, base, f);
      var index, execution;
      after, inFlight, index, execution := TakeNext(oracle, n, group, base, f, after, inFlight, |finished|);
      f := Land(oracle, n, group, base, f);
      cancelled := cancelled || IsAbort(execution);
      finished := finished + [(index, execution)];
      reported := reported + [Resulted(base + index)];
    }
    messages := LandedRows(group, calls, base, SortByIndex(finished), n, b);
  }

  method LandedRows(group: seq<ToolCall>, ghost calls: seq<ToolCall>, base: nat, landed: seq<(nat, Execution)>,
        ghost n: nat,
                    ghost b: Batch)
    returns (messages: seq<ChatMessage>)
    requires |landed| == |group| && |b.answers| == base <= |calls| && group <= calls[base..]
    ensures var answers := b.answers + seq(|landed|, i requires 0 <= i < |landed| => Answer(landed[i].1, true, n));
      messages == Rows(calls, answers, base)
  {
    messages := seq(|group|, i requires 0 <= i < |group| => Finish(group[i], landed[i].1));
  }

  /** Announces every call in `calls` and answers each with the same execution. */
  method Refuse(group: seq<ToolCall>, n: nat, execution: Execution, ghost calls: seq<ToolCall>, ghost b: Batch,
                base: nat, events: seq<Event>)
    returns (messages: seq<ChatMessage>, reported: seq<Event>)
    requires |b.answers| == base <= |calls| && b.events == events && group <= calls[base..]
    ensures var r := AnswerAll(group, n, execution, b);
      b.answers <= r.answers && messages == Rows(calls, r.answers, base) && reported == r.events
  {
    messages, reported := [], events;
    ghost var now := b;
    for i := 0 to |group|
      invariant |now.answers| == base + i && b.answers <= now.answers && now.events == reported
      invariant AnswerAll(group, n, execution, b) == AnswerAll(group[i..], n, execution, now)
      invariant messages == Rows(calls, now.answers, base)
    {
      assert group[i..][1..] == group[i + 1..];
      messages := messages + [Finish(group[i], execution)];
      reported := reported + [Called(base + i), Resulted(base + i)];
      now := Settle(now, n, execution, false);
    }
  }

  /** One call alone: refused, delegated or run. `None` when the delegation failed the turn. */
  method RunSolo(agent: Agent, oracle: Oracle, n: nat, scope: Option<Live>, call: ToolCall, ghost b: Batch,
        world: World, cancelled: bool)
    returns (answer: Option<(World, Execution, bool)>)
    requires b.world == world && b.cancelled == cancelled
    ensures Solo(agent, oracle, n, scope, call, b) ==
      if answer.None? then None
      else Some(Settle(b.(world := answer.value.0), n, answer.value.1, answer.value.2))
  {
    if cancelled {
      return Some((world, CancelledExecution(), false));
    }
    var refusal := Authorize(agent, oracle, n, scope, call);
    if refusal.Some? {
      return Some((world, refusal.value, false));
    }
    if IsDelegation(agent, call.name) {
      var delegated := oracle.delegate(n, world, call);
      if delegated.None? {
        return None;
      }
      return Some((delegated.value.0, delegated.value.1, true));
    }
    var (w, execution) := oracle.execute(n, world, call);
    return Some((w, execution, true));
  }

  /** One group: its only call alone, all of its calls cancelled, or all of them together. */
  method RunNext(agent: Agent, oracle: Oracle, n: nat, scope: Option<Live>, group: seq<ToolCall>,
        ghost calls: seq<ToolCall>,
                 ghost b: Batch, world: World, stopped: bool, base: nat, events: seq<Event>)
    returns (lost: bool, cancelled: bool, messages: seq<ChatMessage>, after: World, reported: seq<Event>)
    requires group != [] && b == Batch(world, stopped, b.answers, events) && |b.answers| == base <= |calls|
    requires group <= calls[base..]
    ensures var r := RunGroup(agent, oracle, n, scope, group, b);
      && lost == r.None?
      && (r.Some? ==>
            && r.value == Batch(after, cancelled, r.value.answers, reported)
            && b.answers <= r.value.answers
            && messages == Rows(calls, r.value.answers, base))
  {
    ghost var stop := b.(cancelled := b.cancelled || oracle.stopped(n));
    cancelled, after, messages, lost := stopped || oracle.stopped(n), world, [], false;
    if |group| == 1 {
      var answer := RunSolo(agent, oracle, n, scope, group[0], stop, world, cancelled);
      reported := events + [Called(base), Resulted(base)];
      if answer.None? {
        lost := true;
        return;
      }
      after := answer.value.0;
      cancelled := cancelled || IsAbort(answer.value.1);
      messages := [Finish(group[0], answer.value.1)];
    } else if cancelled {
      AnswerAllFlags(group, n, CancelledExecution(), stop);
      messages, reported := Refuse(group, n, CancelledExecution(), calls, stop, base, events);
    } else {
      var aborted;
      aborted, messages, after, reported := RunParallel(oracle, n, group, calls, stop, world, base, events);
      cancelled := cancelled || aborted;
    }
  }

  /** Denies the calls from `next` on, in order, and runs none of them. */
  method RefuseRest(message: ChatMessage, calls: seq<ToolCall>, n: nat, ghost b: Batch, cancelled: bool,
        world: World, next: nat,
                    pending: seq<ChatMessage>, events: seq<Event>)
    returns (outcome: ToolCallOutcome)
    requires message.Assistant? && message.toolCalls == calls
    requires next == |b.answers| <= |calls| && b == Batch(world, cancelled, b.answers, events)
    requires pending == [message] + Rows(calls, b.answers, 0)
    ensures outcome ==
      Reported(message, Done(AnswerAll(calls[next..], n, DeniedExecution(AgentRemoved), b), true))
  {
    var rest := calls[next..];
    var messages, reported := Refuse(rest, n, DeniedExecution(AgentRemoved), calls, b, next, events);
    AnswerAllFlags(rest, n, DeniedExecution(AgentRemoved), b);
    MoreRows(message, calls, b.answers, AnswerAll(rest, n, DeniedExecution(AgentRemoved), b).answers);
    outcome := Ran(cancelled, true, pending + messages, world, reported);
  }

  /** Group after group until the batch is answered: the assistant row and one row for each call. */
  method Dispatch(agent: Agent, oracle: Oracle, message: ChatMessage, turn: TurnScope, start: World, stopped: bool)
    returns (outcome: ToolCallOutcome)
    requires message.Assistant?
    modifies turn
    ensures outcome ==
      Reported(message, DispatchFrom(agent, oracle, message.toolCalls, 0, old(turn.permissions), Start(start, stopped)))
    ensures agent.live || turn.permissions == old(turn.permissions)
  {
    var calls := message.toolCalls;
    var pending: seq<ChatMessage> := [message];
    var cancelled, world, next, n := stopped, start, 0, 0;
    var events: seq<Event> := [];
    ghost var b := Start(start, stopped);
    ghost var whole := DispatchFrom(agent, oracle, calls, 0, turn.permissions, b);
    while next < |calls|
      invariant next == |b.answers| <= |calls| && b == Batch(world, cancelled, b.answers, events)
      invariant pending == [message] + Rows(calls, b.answers, 0)
      invariant agent.live || turn.permissions == old(turn.permissions)
      invariant whole == DispatchFrom(agent, oracle, calls, n, turn.permissions, b)
      decreases |calls| - next
    {
      var resolves := turn.Refresh(agent, oracle, n);
      var rest := calls[next..];
      if !resolves {
        outcome := RefuseRest(message, calls, n, b, cancelled, world, next, pending, events);
        return;
      }
      var group := rest[..NextGroup(agent, turn.permissions, rest)];
      ghost var after := RunGroup(agent, oracle, n, turn.permissions, group, b);
      var lost, messages;
      lost, cancelled, messages, world, events :=
        RunNext(agent, oracle, n, turn.permissions, group, calls, b, world, cancelled, next, events);
      if lost {
        return Lost;
      }
      MoreRows(message, calls, b.answers, after.value.answers);
      pending := pending + messages;
      next, n, b := next + |group|, n + 1, after.value;
    }
    return Ran(cancelled, false, pending, world, events);
  }

  lemma {:induction false} AnswerAllFlags(calls: seq<ToolCall>, n: nat, execution: Execution, b: Batch)
    ensures var r := AnswerAll(calls, n, execution, b);
      && r.world == b.world
      && b.answers <= r.answers
      && r.cancelled == (b.cancelled || (calls != [] && IsAbort(execution)))
    decreases |calls|
  {
    if calls != [] {
      AnswerAllFlags(calls[1..], n, execution, Settle(b, n, execution, false));
    }
  }
}
