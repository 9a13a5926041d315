/** The session inbox and the idle gate (loopal-session/src/inbox.rs,
    agent_lifecycle.rs, agent_handler.rs, event_handler.rs, controller.rs,
    agent_ops.rs). */
module Session {
  import opened Prelude

  const ROOT_AGENT := "main"

  datatype AgentStatus = Starting | Running | WaitingForInput | Finished | Failed

  datatype UserContent = UserContent(text: string, images: seq<string>, skill: Option<string>)

  datatype AgentView = AgentView(idle: bool, status: AgentStatus, turns: nat, parent: Option<string>,
                                 children: seq<string>)

  const DefaultView := AgentView(false, Starting, 0, None, [])

  datatype State = State(agents: map<string, AgentView>, activeView: string, inbox: seq<UserContent>)

  const Init := State(map[ROOT_AGENT := DefaultView], ROOT_AGENT, [])

  /** Events, without the parts that only change what is displayed. */
  datatype Payload =
    | Stream | ThinkingStream | ThinkingComplete
    | ToolCall | ToolResult | ToolBatchStart | ToolProgress | ToolPermissionRequest | UserQuestionRequest
    | Error | RetryError | RetryCleared
    | AwaitingInput | FinishedEvent | Interrupted
    | MaxTurnsReached | AutoContinuation | TokenUsage | ModeChanged | Rewound | Compacted | Started
    | ServerToolUse | ServerToolResult
    | SubAgentSpawned(name: string, parent: Option<string>)
    | MessageRouted | TurnDiffSummary | AutoModeDecision

  /** The status an event sets, if any. */
  function StatusSet(p: Payload): Option<AgentStatus> {
    match p
    case Stream => Some(Running)
    case ThinkingStream => Some(Running)
    case ToolCall => Some(Running)
    case ToolResult => Some(Running)
    case RetryError => Some(Running)
    case Started => Some(Running)
    case ServerToolUse => Some(Running)
    case ServerToolResult => Some(Running)
    case Error => Some(Failed)
    case AwaitingInput => Some(WaitingForInput)
    case Interrupted => Some(WaitingForInput)
    case FinishedEvent => Some(Finished)
    case _ => None
  }

  /** The events after which an agent takes input again. */
  predicate MakesIdle(p: Payload) {
    p.AwaitingInput? || p.FinishedEvent? || p.Interrupted?
  }

  // ---- operations on values ---------------------------------------------

  datatype Outcome = Outcome(state: State, forwarded: Option<UserContent>)

  /** The oldest queued message goes to the viewed agent if that is idle. */
  function Forward(s: State): Outcome {
    if s.activeView !in s.agents || !s.agents[s.activeView].idle || s.inbox == [] then Outcome(s, None)
    else
      Outcome(s.(agents := s.agents[s.activeView := s.agents[s.activeView].(idle := false)], inbox := s.inbox[1..]),
              Some(s.inbox[0]))
  }

  function WithDefault(s: State, name: string): State {
    if name in s.agents then s else s.(agents := s.agents[name := DefaultView])
  }

  /** The agent takes input again; the view leaves an agent that finished. */
  function MadeIdle(s: State, name: string, status: AgentStatus): State
    requires name in s.agents
  {
    var a := s.agents[name];
    var a' := a.(idle := true, status := status, turns := if status == Finished then a.turns else a.turns + 1);
    s.(agents := s.agents[name := a'],
       activeView := if status == Finished && s.activeView == name then ROOT_AGENT else s.activeView)
  }

  function BecomesIdle(s: State, name: string, status: AgentStatus): Outcome
    requires name in s.agents
  {
    var s' := MadeIdle(s, name, status);
    if s'.activeView == name then Forward(s') else Outcome(s', None)
  }

  function Spawned(s: State, name: string, parent: Option<string>): State {
    var s1 := WithDefault(s, name);
    var s2 := s1.(agents := s1.agents[name := s1.agents[name].(parent := parent)]);
    if parent.Some? && parent.value in s2.agents && name !in s2.agents[parent.value].children
    then
      var p := s2.agents[parent.value];
      s2.(agents := s2.agents[parent.value := p.(children := p.children + [name])])
    else s2
  }

  /** A failed agent is left by the view. */
  function AutoReturn(s: State, name: string): State {
    if s.activeView == name && name in s.agents && s.agents[name].status == Failed
    then s.(activeView := ROOT_AGENT) else s
  }

  function AgentEvent(s: State, name: string, p: Payload): Outcome {
    var s1 := WithDefault(s, name);
    if MakesIdle(p) then BecomesIdle(s1, name, StatusSet(p).value)
    else
      var s2 := if StatusSet(p).Some?
                then s1.(agents := s1.agents[name := s1.agents[name].(status := StatusSet(p).value)]) else s1;
      Outcome(AutoReturn(s2, name), None)
  }

  function Event(s: State, agent: Option<string>, p: Payload): Outcome {
    var s1 := if p.SubAgentSpawned? then Spawned(s, p.name, p.parent) else s;
    AgentEvent(s1, if agent.Some? then agent.value else ROOT_AGENT, p)
  }

  function Entered(s: State, name: string): State {
    if name in s.agents && s.agents[name].status != Finished && s.agents[name].status != Failed
       && name != s.activeView
    then s.(activeView := name) else s
  }

  /** The view of an agent, a new one's if it is not known. */
  function ViewOf(s: State, name: string): AgentView {
    if name in s.agents then s.agents[name] else AgentView(false, Starting, 0, None, [])
  }

  /** Spawning sets the agent's parent and lists it once below a known one;
      everything else is as before, `n` being any agent. */
  lemma SpawnedExactly(s: State, name: string, parent: Option<string>, n: string)
    ensures var t, was := Spawned(s, name, parent), ViewOf(s, n);
            && t.agents.Keys == s.agents.Keys + {name} && t.activeView == s.activeView && t.inbox == s.inbox
            && (n in t.agents ==>
                  t.agents[n] == AgentView(was.idle, was.status, was.turns, if n == name then parent else was.parent,
                                           if parent == Some(n) && name !in was.children
                                           then was.children + [name] else was.children))
  {
  }

  lemma IdleExactly(s: State, name: string, status: AgentStatus)
    requires name in s.agents
    ensures var o, was := BecomesIdle(s, name, status), s.agents[name];
            && o.state.activeView == (if s.activeView == name && status == Finished then "main" else s.activeView)
            && (o.forwarded.Some? <==> o.state.activeView == name && s.inbox != [])
            && s.inbox == (if o.forwarded.Some? then [o.forwarded.value] + o.state.inbox else o.state.inbox)
            && o.state.agents ==
                 s.agents[name := was.(idle := o.forwarded.None?, status := status,
                                       turns := if status == Finished then was.turns else was.turns + 1)]
  {
  }

  /** An agent that waits, finishes or is interrupted is idle, unless it is
      viewed and takes the oldest message; each but finishing ends a turn, and
      finishing ends the view. */
  lemma RestsExactly(s: State, name: string, p: Payload)
    requires p.AwaitingInput? || p.Interrupted? || p.FinishedEvent?
    ensures var o, was := AgentEvent(s, name, p), ViewOf(s, name);
            && o.state.activeView == (if s.activeView == name && p.FinishedEvent? then "main" else s.activeView)
            && (o.forwarded.Some? <==> o.state.activeView == name && s.inbox != [])
            && s.inbox == (if o.forwarded.Some? then [o.forwarded.value] + o.state.inbox else o.state.inbox)
            && o.state.agents ==
                 s.agents[name := was.(idle := o.forwarded.None?,
                                       status := if p.FinishedEvent? then Finished else WaitingForInput,
                                       turns := if p.FinishedEvent? then was.turns else was.turns + 1)]
  {
    var known, status := WithDefault(s, name), StatusSet(p).value;
    assert AgentEvent(s, name, p) == BecomesIdle(known, name, status);
    IdleExactly(known, name, status);
  }

  function NewStatus(p: Payload, before: AgentStatus): AgentStatus {
    match p
    case Error => Failed
    case Stream | ThinkingStream | ToolCall | ToolResult => Running
    case RetryError | Started | ServerToolUse | ServerToolResult => Running
    case _ => before
  }

  /** Any other event sets the status only, and the view leaves an agent that
      has failed. */
  lemma GoesOnExactly(s: State, name: string, p: Payload)
    requires !p.AwaitingInput? && !p.Interrupted? && !p.FinishedEvent?
    ensures var o, was := AgentEvent(s, name, p), ViewOf(s, name);
            var status := NewStatus(p, was.status);
            && o == Outcome(o.state, None) && o.state.inbox == s.inbox
            && o.state.activeView == (if s.activeView == name && status == Failed then "main" else s.activeView)
            && o.state.agents == s.agents[name := was.(status := status)]
  {
    var known := WithDefault(s, name);
    var updated := known.agents[name := known.agents[name].(status := NewStatus(p, known.agents[name].status))];
    assert AgentEvent(s, name, p) == Outcome(AutoReturn(known.(agents := updated), name), None);
  }

  // ---- the controller ---------------------------------------------------

  class SessionController {
    var agents: map<string, AgentView>
    var activeView: string
    var inbox: seq<UserContent>

    function Value(): State
      reads this
    {
      State(agents, activeView, inbox)
    }

    constructor ()
      ensures Value() == Init
    {
      agents, activeView, inbox := map[ROOT_AGENT := DefaultView], ROOT_AGENT, [];
    }

    method TryForwardInbox() returns (r: Option<UserContent>)
      modifies this`agents, this`inbox
      ensures Outcome(Value(), r) == Forward(old(Value()))
      ensures r.Some? <==> activeView in old(agents) && old(agents)[activeView].idle && old(inbox) != []
      ensures r.Some? ==>
                && r.value == old(inbox)[0] && inbox == old(inbox)[1..]
                && agents == old(agents)[activeView := old(agents)[activeView].(idle := false)]
      ensures r.None? ==> Value() == old(Value())
    {
      if activeView !in agents {
        return None;
      }
      var agent := agents[activeView];
      if !agent.idle {
        return None;
      }
      if inbox == [] {
        return None;
      }
      r := Some(inbox[0]);
      inbox := inbox[1..];
      agents := agents[activeView := agent.(idle := false)];
    }

    method EnqueueMessage(content: UserContent) returns (r: Option<UserContent>)
      modifies this`agents, this`inbox
      ensures var s := old(Value());
              Outcome(Value(), r) == Forward(s.(inbox := s.inbox + [content]))
      ensures r.Some? <==> activeView in old(agents) && old(agents)[activeView].idle
      ensures old(inbox) + [content] == if r.Some? then [r.value] + inbox else inbox
    {
      inbox := inbox + [content];
      r := TryForwardInbox();
    }

    method HandleIdle(name: string, status: AgentStatus) returns (r: Option<UserContent>)
      modifies this
      ensures name !in old(agents) ==> Outcome(Value(), r) == Outcome(old(Value()), None)
      ensures name in old(agents) ==> Outcome(Value(), r) == BecomesIdle(old(Value()), name, status)
      ensures name in old(agents) ==>
                var was := old(agents)[name];
                var turns := if status == Finished then was.turns else was.turns + 1;
                && agents == old(agents)[name := AgentView(r.None?, status, turns, was.parent, was.children)]
                && activeView == (if status == Finished && old(activeView) == name then "main" else old(activeView))
                && (r.Some? <==> activeView == name && old(inbox) != [])
                && old(inbox) == if r.Some? then [r.value] + inbox else inbox
    {
      if name !in agents {
        return None;
      }
      var agent := agents[name];
      if status != Finished {
        agent := agent.(turns := agent.turns + 1);
      }
      agents := agents[name := agent.(idle := true, status := status)];
      if status == Finished && activeView == name {
        activeView := ROOT_AGENT;
      }
      if activeView == name {
        r := TryForwardInbox();
      } else {
        r := None;
      }
    }

    method RegisterSpawnedAgent(name: string, parent: Option<string>)
      modifies this`agents
      ensures Value() == Spawned(old(Value()), name, parent)
    {
      var agent := if name in agents then agents[name] else DefaultView;
      agents := agents[name := agent.(parent := parent)];
      if parent.Some? && parent.value in agents {
        var p := agents[parent.value];
        if name !in p.children {
          agents := agents[parent.value := p.(children := p.children + [name])];
        }
      }
    }

    method ApplyAgentEvent(name: string, payload: Payload) returns (r: Option<UserContent>)
      modifies this
      ensures Outcome(Value(), r) == AgentEvent(old(Value()), name, payload)
    {
      if name !in agents {
        agents := agents[name := DefaultView];
      }
      var status := StatusSet(payload);
      if MakesIdle(payload) {
        r := HandleIdle(name, status.value);
        return;
      }
      if status.Some? {
        agents := agents[name := agents[name].(status := status.value)];
      }
      if activeView == name && agents[name].status == Failed {
        activeView := ROOT_AGENT;
      }
      r := None;
    }

    method HandleEvent(agent: Option<string>, payload: Payload) returns (r: Option<UserContent>)
      modifies this
      ensures Outcome(Value(), r) == Event(old(Value()), agent, payload)
      ensures var s, name := old(Value()), if agent.Some? then agent.value else "main";
              Outcome(Value(), r) == match payload
                                     case SubAgentSpawned(n, p) => AgentEvent(Spawned(s, n, p), name, payload)
                                     case _ => AgentEvent(s, name, payload)
    {
      if payload.SubAgentSpawned? {
        RegisterSpawnedAgent(payload.name, payload.parent);
      }
      r := ApplyAgentEvent(if agent.Some? then agent.value else ROOT_AGENT, payload);
    }

    method EnterAgentView(name: string) returns (entered: bool)
      modifies this`activeView
      ensures Value() == Entered(old(Value()), name)
      ensures entered <==>
                && name in agents && agents[name].status != Finished && agents[name].status != Failed
                && name != old(activeView)
      ensures activeView == if entered then name else old(activeView)
    {
      if name in agents {
        var isLive := agents[name].status != Finished && agents[name].status != Failed;
        if isLive && name != activeView {
          activeView := name;
          return true;
        }
      }
      return false;
    }

    method ExitAgentView()
      modifies this`activeView
      ensures activeView == ROOT_AGENT == "main"
    {
      if activeView != ROOT_AGENT {
        activeView := ROOT_AGENT;
      }
    }

    method PopInboxToEdit() returns (r: Option<UserContent>)
      modifies this`inbox
      ensures Value() == Popped(old(Value()))
      ensures old(inbox) == if r.Some? then inbox + [r.value] else []
      ensures r.None? ==> old(inbox) == inbox == []
    {
      if inbox == [] {
        return None;
      }
      r := Some(inbox[|inbox| - 1]);
      inbox := inbox[..|inbox| - 1];
    }
  }

  function Popped(s: State): State {
    if s.inbox == [] then s else s.(inbox := s.inbox[..|s.inbox| - 1])
  }

  // ---- runs and what they leave behind ----------------------------------

  datatype Op =
    | Enqueue(content: UserContent)
    | Handle(agent: Option<string>, payload: Payload)
    | EnterView(name: string)
    | ExitView
    | EditPop
    | ClearInbox

  /** The record of a run: messages accepted, agents becoming idle, messages
      handed to an agent. */
  datatype Mark = Accepted(content: UserContent) | Idle(agent: string) | Given(agent: string, content: UserContent)

  datatype System = System(state: State, trace: seq<Mark>)

  /** A forward goes to the agent that is viewed after the operation. */
  function GivenBy(o: Outcome): seq<Mark> {
    if o.forwarded.Some? then [Given(o.state.activeView, o.forwarded.value)] else []
  }

  function Record(sys: System, before: seq<Mark>, o: Outcome): System {
    System(o.state, sys.trace + before + GivenBy(o))
  }

  function Target(agent: Option<string>): string {
    if agent.Some? then agent.value else ROOT_AGENT
  }

  function Next(sys: System, op: Op): System {
    var s := sys.state;
    match op
    case Enqueue(c) => Record(sys, [Accepted(c)], Forward(s.(inbox := s.inbox + [c])))
    case Handle(a, p) => Record(sys, if MakesIdle(p) then [Idle(Target(a))] else [], Event(s, a, p))
    case EnterView(n) => sys.(state := Entered(s, n))
    case ExitView => sys.(state := s.(activeView := ROOT_AGENT))
    case EditPop => sys.(state := Popped(s))
    case ClearInbox => sys.(state := s.(inbox := []))
  }

  function Run(ops: seq<Op>): System {
    if ops == [] then System(Init, []) else Next(Run(ops[..|ops| - 1]), ops[|ops| - 1])
  }

  function AcceptedIn(m: Mark): seq<UserContent> {
    if m.Accepted? then [m.content] else []
  }

  function GivenIn(m: Mark): seq<UserContent> {
    if m.Given? then [m.content] else []
  }

  /** Whether the last thing that happened to an agent was becoming idle. */
  predicate LastIdle(trace: seq<Mark>, agent: string) {
    trace != [] &&
    match trace[|trace| - 1]
    case Idle(a) => a == agent || LastIdle(trace[..|trace| - 1], agent)
    case Given(a, _) => a != agent && LastIdle(trace[..|trace| - 1], agent)
    case Accepted(_) => LastIdle(trace[..|trace| - 1], agent)
  }

  /** Every forward went to an agent that was idle since its last forward. */
  predicate Gated(trace: seq<Mark>) {
    forall j :: 0 <= j < |trace| && trace[j].Given? ==> LastIdle(trace[..j], trace[j].agent)
  }

  predicate IsIdle(s: State, a: string) {
    a in s.agents && s.agents[a].idle
  }

  ghost predicate Inv(sys: System) {
    && ROOT_AGENT in sys.state.agents && sys.state.activeView in sys.state.agents
    && (forall a :: IsIdle(sys.state, a) <==> LastIdle(sys.trace, a))
    && Gated(sys.trace)
  }

  lemma LastIdleStep(trace: seq<Mark>, m: Mark, a: string)
    ensures LastIdle(trace + [m], a) <==>
              match m
              case Idle(b) => b == a || LastIdle(trace, a)
              case Given(b, _) => b != a && LastIdle(trace, a)
              case Accepted(_) => LastIdle(trace, a)
  {
    assert (trace + [m])[..|trace|] == trace;
  }

  lemma GatedStep(trace: seq<Mark>, m: Mark)
    requires Gated(trace) && (m.Given? ==> LastIdle(trace, m.agent))
    ensures Gated(trace + [m])
  {
    var t := trace + [m];
    forall j | 0 <= j < |t| && t[j].Given? ensures LastIdle(t[..j], t[j].agent) {
      assert t[..j] == trace[..j];
      if j == |trace| {
        assert trace[..j] == trace;
      }
    }
  }

  /** Forwarding from a good state: the forward, if any, passes the gate. */
  lemma ForwardKeepsInv(s: State, trace: seq<Mark>)
    requires Inv(System(s, trace))
    ensures var o := Forward(s);
            Inv(System(o.state, trace + GivenBy(o)))
  {
    var o := Forward(s);
    if o.forwarded.Some? {
      var m := Given(s.activeView, o.forwarded.value);
      assert IsIdle(s, s.activeView);
      GatedStep(trace, m);
      forall a ensures IsIdle(o.state, a) <==> LastIdle(trace + [m], a) {
        LastIdleStep(trace, m, a);
        assert IsIdle(s, a) <==> LastIdle(trace, a);
      }
    } else {
      assert trace + [] == trace;
    }
  }

  lemma EnqueueKeepsInv(sys: System, c: UserContent)
    requires Inv(sys)
    ensures Inv(Next(sys, Enqueue(c)))
  {
    var s := sys.state.(inbox := sys.state.inbox + [c]);
    var t := sys.trace + [Accepted(c)];
    GatedStep(sys.trace, Accepted(c));
    forall a ensures IsIdle(s, a) <==> LastIdle(t, a) {
      LastIdleStep(sys.trace, Accepted(c), a);
      assert IsIdle(sys.state, a) <==> LastIdle(sys.trace, a);
    }
    ForwardKeepsInv(s, t);
  }

  /** Changes that touch neither idle flags nor the trace. */
  lemma SameIdle(sys: System, s: State)
    requires Inv(sys) && ROOT_AGENT in s.agents && s.activeView in s.agents
    requires forall a :: IsIdle(s, a) <==> IsIdle(sys.state, a)
    ensures Inv(System(s, sys.trace))
  {
  }

  lemma IdleKeepsInv(sys: System, name: string, status: AgentStatus)
    requires Inv(sys) && name in sys.state.agents
    ensures Inv(Record(sys, [Idle(name)], BecomesIdle(sys.state, name, status)))
  {
    var s, s' := sys.state, MadeIdle(sys.state, name, status);
    var t := sys.trace + [Idle(name)];
    GatedStep(sys.trace, Idle(name));
    forall b ensures IsIdle(s', b) <==> LastIdle(t, b) {
      LastIdleStep(sys.trace, Idle(name), b);
      assert IsIdle(s, b) <==> LastIdle(sys.trace, b);
    }
    ForwardKeepsInv(s', t);
    assert t + [] == t;
  }

  lemma SpawnKeepsInv(sys: System, name: string, parent: Option<string>)
    requires Inv(sys)
    ensures Inv(System(Spawned(sys.state, name, parent), sys.trace))
  {
    SameIdle(sys, Spawned(sys.state, name, parent));
  }

  lemma AgentEventKeepsInv(sys: System, name: string, p: Payload)
    requires Inv(sys)
    ensures Inv(Record(sys, if MakesIdle(p) then [Idle(name)] else [], AgentEvent(sys.state, name, p)))
  {
    var s1 := WithDefault(sys.state, name);
    SameIdle(sys, s1);
    if MakesIdle(p) {
      IdleKeepsInv(System(s1, sys.trace), name, StatusSet(p).value);
    } else {
      SameIdle(sys, AgentEvent(sys.state, name, p).state);
      assert sys.trace + [] + [] == sys.trace;
    }
  }

  lemma NextKeepsInv(sys: System, op: Op)
    requires Inv(sys)
    ensures Inv(Next(sys, op))
  {
    match op
    case Enqueue(c) => EnqueueKeepsInv(sys, c);
    case Handle(a, p) =>
      if p.SubAgentSpawned? {
        SpawnKeepsInv(sys, p.name, p.parent);
        AgentEventKeepsInv(System(Spawned(sys.state, p.name, p.parent), sys.trace), Target(a), p);
      } else {
        AgentEventKeepsInv(sys, Target(a), p);
      }
    case EnterView(n) => SameIdle(sys, Entered(sys.state, n));
    case ExitView => SameIdle(sys, sys.state.(activeView := ROOT_AGENT));
    case EditPop => SameIdle(sys, Popped(sys.state));
    case ClearInbox => SameIdle(sys, sys.state.(inbox := []));
  }

  /** The active view is always a known agent, an agent's idle flag says what
      last happened to it, and every forward passed the gate. */
  lemma {:induction false} ReachableInv(ops: seq<Op>)
    ensures Inv(Run(ops)) && Run(ops).state.activeView in Run(ops).state.agents
  {
    if ops != [] {
      ReachableInv(ops[..|ops| - 1]);
      NextKeepsInv(Run(ops[..|ops| - 1]), ops[|ops| - 1]);
    }
  }

  lemma {:induction false} LastIdleHasAnIdle(trace: seq<Mark>, agent: string, after: nat)
    requires LastIdle(trace, agent) && after <= |trace|
    requires after > 0 ==> trace[after - 1].Given? && trace[after - 1].agent == agent
    ensures exists k :: after <= k < |trace| && trace[k] == Idle(agent)
  {
    var n := |trace| - 1;
    if trace[n] != Idle(agent) {
      assert after <= n;
      LastIdleHasAnIdle(trace[..n], agent, after);
      var k :| after <= k < n && trace[..n][k] == Idle(agent);
      assert trace[k] == Idle(agent);
    } else {
      assert after <= n;
    }
  }

  /** Between two forwards to an agent, and before the first, it became idle. */
  lemma IdleBetweenForwards(ops: seq<Op>, i: nat, j: nat)
    requires i <= j < |Run(ops).trace| && Run(ops).trace[j].Given?
    requires i > 0 ==> Run(ops).trace[i - 1].Given? && Run(ops).trace[i - 1].agent == Run(ops).trace[j].agent
    ensures exists k :: i <= k < j && Run(ops).trace[k] == Idle(Run(ops).trace[j].agent)
  {
    ReachableInv(ops);
    var t := Run(ops).trace;
    LastIdleHasAnIdle(t[..j], t[j].agent, i);
    var k :| i <= k < j && t[..j][k] == Idle(t[j].agent);
    assert t[k] == Idle(t[j].agent);
  }

  // ---- no message is lost or reordered ----------------------------------

  predicate Keeping(op: Op) {
    !op.EditPop? && !op.ClearInbox?
  }

  predicate Conserves(trace: seq<Mark>, inbox: seq<UserContent>) {
    FlatMap(AcceptedIn, trace) == FlatMap(GivenIn, trace) + inbox
  }

  /** A mark that is an acceptance lengthens the queue, a forward takes its
      head, and becoming idle does neither. */
  lemma AcceptConserves(trace: seq<Mark>, inbox: seq<UserContent>, c: UserContent)
    requires Conserves(trace, inbox)
    ensures Conserves(trace + [Accepted(c)], inbox + [c])
  {
    FlatMapLast(AcceptedIn, trace, Accepted(c));
    FlatMapLast(GivenIn, trace, Accepted(c));
  }

  lemma IdleConserves(trace: seq<Mark>, inbox: seq<UserContent>, name: string)
    requires Conserves(trace, inbox)
    ensures Conserves(trace + [Idle(name)], inbox)
  {
    FlatMapLast(AcceptedIn, trace, Idle(name));
    FlatMapLast(GivenIn, trace, Idle(name));
  }

  lemma GiveConserves(trace: seq<Mark>, inbox: seq<UserContent>, name: string)
    requires Conserves(trace, inbox) && inbox != []
    ensures Conserves(trace + [Given(name, inbox[0])], inbox[1..])
  {
    FlatMapLast(AcceptedIn, trace, Given(name, inbox[0]));
    FlatMapLast(GivenIn, trace, Given(name, inbox[0]));
    assert inbox == [inbox[0]] + inbox[1..];
  }

  /** An outcome takes at most the head of the queue. */
  predicate TakesHead(inbox: seq<UserContent>, o: Outcome) {
    if o.forwarded.Some? then inbox != [] && o.forwarded.value == inbox[0] && o.state.inbox == inbox[1..]
    else o.state.inbox == inbox
  }

  lemma RecordConserves(sys: System, before: seq<Mark>, inbox: seq<UserContent>, o: Outcome)
    requires Conserves(sys.trace + before, inbox) && TakesHead(inbox, o)
    ensures Conserves(Record(sys, before, o).trace, Record(sys, before, o).state.inbox)
  {
    if o.forwarded.Some? {
      GiveConserves(sys.trace + before, inbox, o.state.activeView);
    } else {
      assert sys.trace + before + [] == sys.trace + before;
    }
  }

  lemma EventTakesHead(s: State, a: Option<string>, p: Payload)
    ensures TakesHead(s.inbox, Event(s, a, p))
    ensures Event(s, a, p).forwarded.Some? ==> MakesIdle(p)
  {
  }

  lemma NextConserves(sys: System, op: Op)
    requires Conserves(sys.trace, sys.state.inbox) && Keeping(op)
    ensures Conserves(Next(sys, op).trace, Next(sys, op).state.inbox)
  {
    var s := sys.state;
    match op
    case Enqueue(c) =>
      AcceptConserves(sys.trace, s.inbox, c);
      RecordConserves(sys, [Accepted(c)], s.inbox + [c], Forward(s.(inbox := s.inbox + [c])));
    case Handle(a, p) =>
      var before := if MakesIdle(p) then [Idle(Target(a))] else [];
      if MakesIdle(p) {
        IdleConserves(sys.trace, s.inbox, Target(a));
      } else {
        assert sys.trace + [] == sys.trace;
      }
      EventTakesHead(s, a, p);
      RecordConserves(sys, before, s.inbox, Event(s, a, p));
    case EnterView(_) =>
    case ExitView =>
  }

  /** Without edits and clears, what was enqueued is what was forwarded, in the
      same order, followed by what is still queued. */
  lemma {:induction false} NothingLost(ops: seq<Op>)
    requires forall op :: op in ops ==> Keeping(op)
    ensures FlatMap(AcceptedIn, Run(ops).trace) == FlatMap(GivenIn, Run(ops).trace) + Run(ops).state.inbox
  {
    if ops != [] {
      var before, op := ops[..|ops| - 1], ops[|ops| - 1];
      assert Keeping(op) && forall o :: o in before ==> o in ops;
      NothingLost(before);
      NextConserves(Run(before), op);
    }
  }

  // ---- messages that wait for an idle agent -----------------------------

  /** The viewed agent is idle and a message is queued nevertheless. */
  predicate Stalled(s: State) {
    IsIdle(s, s.activeView) && s.inbox != []
  }

  /** The status an agent has after an event that is no idle event. */
  function StatusAfter(s: State, name: string, p: Payload): AgentStatus {
    if StatusSet(p).Some? then StatusSet(p).value
    else if name in s.agents then s.agents[name].status
    else Starting
  }

  /** The agent viewed after an operation. */
  function ViewAfter(s: State, op: Op): string {
    match op
    case EnterView(n) => Entered(s, n).activeView
    case ExitView => ROOT_AGENT
    case Handle(a, p) =>
      if s.activeView == Target(a)
         && (p.FinishedEvent? || (!MakesIdle(p) && StatusAfter(s, Target(a), p) == Failed))
      then ROOT_AGENT else s.activeView
    case _ => s.activeView
  }

  /** When an operation leaves a message waiting for an idle agent. An enqueue
      never does, nor does an idle event of the agent that is viewed then. */
  predicate StallsAfter(s: State, op: Op) {
    match op
    case Enqueue(_) => false
    case ClearInbox => false
    case EditPop => IsIdle(s, s.activeView) && |s.inbox| > 1
    case Handle(a, p) =>
      !(MakesIdle(p) && Target(a) == ViewAfter(s, op)) && IsIdle(s, ViewAfter(s, op)) && s.inbox != []
    case _ => IsIdle(s, ViewAfter(s, op)) && s.inbox != []
  }

  lemma ForwardDoesNotStall(s: State)
    requires s.activeView in s.agents
    ensures Forward(s).state.activeView == s.activeView && !Stalled(Forward(s).state)
  {
  }

  lemma IdleStallsExactly(s: State, name: string, status: AgentStatus)
    requires name in s.agents && ROOT_AGENT in s.agents && s.activeView in s.agents
    ensures var view := if status == Finished && s.activeView == name then ROOT_AGENT else s.activeView;
            && BecomesIdle(s, name, status).state.activeView == view
            && (Stalled(BecomesIdle(s, name, status).state) <==> name != view && IsIdle(s, view) && s.inbox != [])
  {
    var s' := MadeIdle(s, name, status);
    if s'.activeView == name {
      ForwardDoesNotStall(s');
    }
  }

  function Prepared(s: State, a: Option<string>, p: Payload): State {
    WithDefault(if p.SubAgentSpawned? then Spawned(s, p.name, p.parent) else s, Target(a))
  }

  /** More agents are known, and nobody's idle flag or status is different. */
  predicate Grown(t: State, s: State) {
    && t.activeView == s.activeView && t.inbox == s.inbox && s.agents.Keys <= t.agents.Keys
    && (forall n :: n in s.agents ==> t.agents[n].idle == s.agents[n].idle && t.agents[n].status == s.agents[n].status)
    && (forall n :: n in t.agents && n !in s.agents ==> !t.agents[n].idle && t.agents[n].status == Starting)
  }

  lemma SpawnedGrown(s: State, name: string, parent: Option<string>)
    ensures Grown(Spawned(s, name, parent), s)
  {
  }

  lemma PreparedGrown(s: State, a: Option<string>, p: Payload)
    ensures Grown(Prepared(s, a, p), s) && Target(a) in Prepared(s, a, p).agents
  {
    if p.SubAgentSpawned? {
      SpawnedGrown(s, p.name, p.parent);
    }
  }

  /** An event of a known agent that is no idle event. */
  lemma OtherEventStalls(s: State, name: string, p: Payload)
    requires name in s.agents && s.activeView in s.agents && !MakesIdle(p)
    ensures var view := if s.activeView == name && StatusAfter(s, name, p) == Failed then ROOT_AGENT else s.activeView;
            && AgentEvent(s, name, p).state.activeView == view
            && (Stalled(AgentEvent(s, name, p).state) <==> IsIdle(s, view) && s.inbox != [])
  {
  }

  lemma EventStallsExactly(s: State, a: Option<string>, p: Payload)
    requires ROOT_AGENT in s.agents && s.activeView in s.agents
    ensures Event(s, a, p).state.activeView == ViewAfter(s, Handle(a, p))
    ensures Stalled(Event(s, a, p).state) <==> StallsAfter(s, Handle(a, p))
  {
    var name, s1 := Target(a), Prepared(s, a, p);
    PreparedGrown(s, a, p);
    assert Event(s, a, p) == AgentEvent(s1, name, p);
    if MakesIdle(p) {
      IdleStallsExactly(s1, name, StatusSet(p).value);
    } else {
      OtherEventStalls(s1, name, p);
    }
  }

  /** The exact condition, operation by operation. */
  lemma StallsExactly(sys: System, op: Op)
    requires Inv(sys)
    ensures Next(sys, op).state.activeView == ViewAfter(sys.state, op)
    ensures Stalled(Next(sys, op).state) <==> StallsAfter(sys.state, op)
  {
    match op
    case Enqueue(c) => ForwardDoesNotStall(sys.state.(inbox := sys.state.inbox + [c]));
    case Handle(a, p) => EventStallsExactly(sys.state, a, p);
    case _ =>
  }

  /** A message starts to wait for an idle agent only by a change of view. */
  lemma StallsByViewChange(sys: System, op: Op)
    requires Inv(sys) && !Stalled(sys.state) && Stalled(Next(sys, op).state)
    ensures Next(sys, op).state.activeView != sys.state.activeView
    ensures op.EnterView? || op.ExitView? || (op.Handle? && Target(op.agent) == sys.state.activeView)
  {
    StallsExactly(sys, op);
  }

  /** Until the next message is enqueued or some agent becomes idle nothing is
      forwarded. */
  lemma NothingElseForwards(sys: System, op: Op)
    requires !op.Enqueue? && !(op.Handle? && MakesIdle(op.payload))
    ensures Next(sys, op).trace == sys.trace
  {
  }

  lemma OneMore(ops: seq<Op>, op: Op)
    ensures Run(ops + [op]) == Next(Run(ops), op)
  {
    assert (ops + [op])[..|ops|] == ops;
  }

  /** Another agent becomes idle, a message is queued for the busy root, and
      the view changes to the idle agent: the message stays queued. */
  lemma EnteringStalls(a: string, c: UserContent)
    requires a != ROOT_AGENT
    ensures var s := Run([] + [Handle(Some(a), AwaitingInput)] + [Enqueue(c)] + [EnterView(a)]).state;
            s.activeView == a && IsIdle(s, a) && s.inbox == [c]
  {
    var none: seq<Op> := [];
    OneMore(none, Handle(Some(a), AwaitingInput));
    OneMore(none + [Handle(Some(a), AwaitingInput)], Enqueue(c));
    OneMore(none + [Handle(Some(a), AwaitingInput)] + [Enqueue(c)], EnterView(a));
  }
}
