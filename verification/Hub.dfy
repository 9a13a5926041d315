/** The registry object with its completion channels
    (loopal-agent-hub/src/agent_registry/mod.rs and completion.rs). */
module Hub {
  import opened Prelude
  import opened Registry

  /** A `watch` channel as the receiver sees it: the value last sent, and
      whether the sender is gone. */
  datatype Channel = Channel(value: Option<string>, closed: bool)

  datatype State = State(agents: Agents, completions: map<string, nat>, finished: map<string, string>,
                         channels: seq<Channel>)

  const NO_OUTPUT := "(no output)"

  function Close(channels: seq<Channel>, id: nat): seq<Channel> {
    if id < |channels| then channels[id := channels[id].(closed := true)] else channels
  }

  function Send(channels: seq<Channel>, id: nat, text: string): seq<Channel> {
    if id < |channels| then channels[id := Channel(Some(text), true)] else channels
  }

  /** Dropping the sender of a name, if there is one, closes its channel. */
  function DropSender(s: State, name: string): State {
    if name in s.completions
    then s.(completions := s.completions - {name}, channels := Close(s.channels, s.completions[name]))
    else s
  }

  function Leave(s: State, name: string): State {
    DropSender(s.(agents := Unregistered(s.agents, name)), name)
  }

  /** Finishing stores the output, hands it to the watcher and drops it. */
  function Finish(s: State, name: string, output: Option<string>): State {
    var text := if output.Some? then output.value else NO_OUTPUT;
    var s1 := s.(agents := WithLifecycle(s.agents, name, Finished), finished := s.finished[name := text]);
    if name in s1.completions
    then s1.(completions := s1.completions - {name}, channels := Send(s1.channels, s1.completions[name], text))
    else s1
  }

  /** A new channel takes the name's place; the one before it is closed. */
  function Watch(s: State, name: string): State {
    var s1 := DropSender(s, name);
    s1.(completions := s1.completions[name := |s1.channels|], channels := s1.channels + [Channel(None, false)])
  }

  predicate IsRunning(agents: Agents, c: string) {
    c in agents && agents[c].lifecycle == Running
  }

  function RunningIn(agents: Agents): string -> bool {
    (c: string) => IsRunning(agents, c)
  }

  function Orphans(agents: Agents, parent: string): seq<string> {
    if parent in agents then Filter(RunningIn(agents), agents[parent].children) else []
  }

  class AgentRegistry {
    var agents: Agents
    var completions: map<string, nat>
    var finishedOutputs: map<string, string>
    var channels: seq<Channel>
    var interrupted: seq<string>  // agents sent an interrupt, in order

    function Value(): State
      reads this
    {
      State(agents, completions, finishedOutputs, channels)
    }

    ghost predicate Valid()
      reads this
    {
      Forest(agents)
    }

    constructor ()
      ensures Valid() && Value() == State(map[], map[], map[], []) && interrupted == []
    {
      agents, completions, finishedOutputs, channels, interrupted := map[], map[], map[], [], [];
      EmptyIsForest();
    }

    method RegisterConnectionWithParent(name: string, parent: Option<string>, model: Option<string>)
      returns (r: Result<(), string>)
      requires Valid()
      modifies this`agents
      ensures Valid()
      ensures r.Ok? <==> name !in old(agents)
      ensures agents == Registered(old(agents), name, parent, model)
      ensures r.Err? ==> agents == old(agents)
      ensures r.Ok? ==>
                && agents.Keys == old(agents).Keys + {name}
                && agents[name] == AgentInfo(name, parent, [], Spawning, model)
      ensures r.Ok? ==> forall a <- old(agents) ::
                agents[a] == if parent == Some(a)
                             then old(agents)[a].(children := old(agents)[a].children + [name]) else old(agents)[a]
    {
      RegisterKeepsForest(agents, name, parent, model);
      if name in agents {
        return Err("agent '" + name + "' already registered");
      }
      if parent.Some? && parent.value in agents {
        var pa := agents[parent.value];
        agents := agents[parent.value := pa.(children := pa.children + [name])];
      }
      agents := agents[name := NewInfo(name, parent, model)];
      r := Ok(());
    }

    method UnregisterConnection(name: string)
      requires Valid()
      modifies this`agents, this`completions, this`channels
      ensures Valid()
      ensures Value() == Leave(old(Value()), name)
      ensures agents.Keys == old(agents).Keys - {name}
      ensures forall a <- agents ::
                agents[a] == if name in old(agents) && old(agents)[name].parent == Some(a)
                             then old(agents)[a].(children := Filter(OtherThan(name), old(agents)[a].children))
                             else old(agents)[a]
      ensures completions == old(completions) - {name} && |channels| == |old(channels)|
      ensures forall i :: 0 <= i < |channels| ==>
                channels[i] == if name in old(completions) && old(completions)[name] == i
                               then old(channels)[i].(closed := true) else old(channels)[i]
    {
      UnregisterKeepsForest(agents, name);
      var parent := if name in agents then agents[name].parent else None;
      if parent.Some? && parent.value in agents {
        var pa := agents[parent.value];
        agents := agents[parent.value := pa.(children := Filter(OtherThan(name), pa.children))];
      }
      assert name !in agents ==> agents - {name} == agents;
      agents := agents - {name};
      if name in completions {
        channels := Close(channels, completions[name]);
        completions := completions - {name};
      }
    }

    method SetLifecycle(name: string, lifecycle: Lifecycle)
      requires Valid()
      modifies this`agents
      ensures Valid() && agents == WithLifecycle(old(agents), name, lifecycle)
      ensures agents.Keys == old(agents).Keys
      ensures forall a <- agents ::
                agents[a] == if a == name then old(agents)[a].(lifecycle := lifecycle) else old(agents)[a]
    {
      LifecycleKeepsForest(agents, name, lifecycle);
      if name in agents {
        agents := agents[name := agents[name].(lifecycle := lifecycle)];
      }
    }

    /** Every agent below `name`, each once; nobody else. */
    method Descendants(name: string) returns (result: seq<string>)
      requires Valid()
      ensures NoDup(result)
      ensures name !in agents ==> result == []
      ensures name in agents ==> forall x :: x in result <==> Reaches(agents, name, x)
    {
      if name !in agents {
        return [];
      }
      ghost var born: map<string, nat> :| Older(agents, born);
      ghost var t := After(born, agents.Keys);
      result := Walk(agents, name, born, t);
      ListingIsTheDescendants(agents, born, t, name);
    }

    method EmitAgentFinished(name: string, output: Option<string>)
      requires Valid()
      modifies this
      ensures Valid()
      ensures Value() == Finish(old(Value()), name, output)
      ensures finishedOutputs == old(finishedOutputs)[name := if output.Some? then output.value else "(no output)"]
      ensures agents.Keys == old(agents).Keys
      ensures forall a <- agents ::
                agents[a] == if a == name then old(agents)[a].(lifecycle := Finished) else old(agents)[a]
      ensures completions == old(completions) - {name} && |channels| == |old(channels)|
      ensures forall i :: 0 <= i < |channels| ==>
                channels[i] == if name in old(completions) && old(completions)[name] == i
                               then Channel(Some(finishedOutputs[name]), true) else old(channels)[i]
      ensures interrupted == old(interrupted) + Orphans(WithLifecycle(old(agents), name, Finished), name)
    {
      SetLifecycle(name, Finished);
      var text := if output.Some? then output.value else NO_OUTPUT;
      finishedOutputs := finishedOutputs[name := text];
      if name in completions {
        channels := Send(channels, completions[name], text);
        completions := completions - {name};
      }
      interrupted := interrupted + CollectOrphanedChildren(name);
    }

    method WatchCompletion(name: string) returns (rx: nat)
      modifies this`completions, this`channels
      ensures Value() == Watch(old(Value()), name)
      ensures completions == old(completions)[name := rx]
      ensures rx == |old(channels)| && |channels| == rx + 1 && channels[rx] == Channel(None, false)
      ensures forall i :: 0 <= i < rx ==>
                channels[i] == if name in old(completions) && old(completions)[name] == i
                               then old(channels)[i].(closed := true) else old(channels)[i]
    {
      if name in completions {
        channels := Close(channels, completions[name]);
      }
      rx := |channels|;
      channels := channels + [Channel(None, false)];
      completions := completions[name := rx];
      assert completions == (old(completions) - {name})[name := rx];
    }

    function CollectOrphanedChildren(parent: string): (r: seq<string>)
      reads this
      ensures forall c :: c in r <==> IsChild(agents, parent, c) && IsRunning(agents, c)
    {
      if parent in agents then
        FilterIn(RunningIn(agents), agents[parent].children);
        Filter(RunningIn(agents), agents[parent].children)
      else []
    }
  }
}
