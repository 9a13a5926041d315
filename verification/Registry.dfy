/** The hub's agent registry (loopal-agent-hub/src/agent_registry/mod.rs,
    agent_registry/completion.rs, topology.rs). */
module Registry {
  import opened Prelude

  datatype Lifecycle = Spawning | Running | Finished | Failed(reason: string)

  datatype AgentInfo = AgentInfo(name: string, parent: Option<string>, children: seq<string>,
                                 lifecycle: Lifecycle, model: Option<string>)

  type Agents = map<string, AgentInfo>

  function NewInfo(name: string, parent: Option<string>, model: Option<string>): AgentInfo {
    AgentInfo(name, parent, [], Spawning, model)
  }

  // ---- operations on values ---------------------------------------------

  function OtherThan(name: string): string -> bool {
    (c: string) => c != name
  }

  /** The registry after a name that was free is registered: a registered
      parent lists it last. */
  function Registered(agents: Agents, name: string, parent: Option<string>, model: Option<string>): Agents {
    if name in agents then agents
    else
      var listed :=
        if parent.Some? && parent.value in agents
        then var p := agents[parent.value]; agents[parent.value := p.(children := p.children + [name])]
        else agents;
      listed[name := NewInfo(name, parent, model)]
  }

  /** The registry without a name; its recorded parent no longer lists it. */
  function Unregistered(agents: Agents, name: string): Agents {
    if name !in agents then agents
    else
      var parent := agents[name].parent;
      var unlisted :=
        if parent.Some? && parent.value in agents
        then var p := agents[parent.value]; agents[parent.value := p.(children := Filter(OtherThan(name), p.children))]
        else agents;
      unlisted - {name}
  }

  lemma RegisteredKeys(agents: Agents, name: string, parent: Option<string>, model: Option<string>)
    ensures Registered(agents, name, parent, model).Keys == agents.Keys + {name}
  {
  }

  lemma UnregisteredKeys(agents: Agents, name: string)
    ensures Unregistered(agents, name).Keys == agents.Keys - {name}
  {
  }

  function WithLifecycle(agents: Agents, name: string, lifecycle: Lifecycle): Agents {
    if name in agents then agents[name := agents[name].(lifecycle := lifecycle)] else agents
  }

  datatype Op =
    | Register(name: string, parent: Option<string>, model: Option<string>)
    | Unregister(name: string)
    | SetLifecycle(name: string, lifecycle: Lifecycle)

  function Apply(agents: Agents, op: Op): Agents {
    match op
    case Register(n, p, m) => Registered(agents, n, p, m)
    case Unregister(n) => Unregistered(agents, n)
    case SetLifecycle(n, l) => WithLifecycle(agents, n, l)
  }

  function Run(ops: seq<Op>): Agents {
    if ops == [] then map[] else Apply(Run(ops[..|ops| - 1]), ops[|ops| - 1])
  }

  // ---- the children lists form a forest ---------------------------------

  predicate IsChild(agents: Agents, p: string, c: string) {
    p in agents && c in agents[p].children
  }

  /** Each listed child is registered, names its lister as parent and is
      listed once. */
  ghost predicate ListsAgree(agents: Agents) {
    && (forall p, c :: IsChild(agents, p, c) ==> c in agents && agents[c].parent == Some(p))
    && (forall p :: p in agents ==> NoDup(agents[p].children))
  }

  /** `born` puts every parent before the children it lists. */
  ghost predicate Older(agents: Agents, born: map<string, nat>) {
    && (forall n :: n in agents ==> n in born)
    && (forall p, c :: IsChild(agents, p, c) ==> c in born && born[p] < born[c])
  }

  ghost predicate Forest(agents: Agents) {
    ListsAgree(agents) && exists born: map<string, nat> :: Older(agents, born)
  }

  ghost function Pick(names: set<string>): (n: string)
    requires names != {}
    ensures n in names
  {
    var n :| n in names; n
  }

  /** A time after the birth of every name. */
  ghost function After(born: map<string, nat>, names: set<string>): (t: nat)
    requires names <= born.Keys
    ensures forall n :: n in names ==> born[n] < t
  {
    if names == {} then 0
    else
      var n := Pick(names);
      Max(After(born, names - {n}), born[n] + 1)
  }

  lemma {:induction false} FilterNoDup(keep: string -> bool, s: seq<string>)
    requires NoDup(s)
    ensures NoDup(Filter(keep, s))
  {
    if s != [] {
      var t := s[..|s| - 1];
      FilterNoDup(keep, t);
      FilterIn(keep, t);
      assert forall x :: x in t ==> x != s[|s| - 1];
      assert forall i :: 0 <= i < |Filter(keep, t)| ==> Filter(keep, t)[i] in Filter(keep, t);
    }
  }

  /** Registering adds one edge, from a registered parent to the new name. */
  lemma RegisteredChildren(agents: Agents, name: string, parent: Option<string>, model: Option<string>,
                           p: string, c: string)
    requires ListsAgree(agents) && name !in agents
    ensures IsChild(Registered(agents, name, parent, model), p, c) <==>
              IsChild(agents, p, c) || (c == name && parent == Some(p) && p in agents)
    ensures IsChild(agents, p, c) ==> p != name && c != name
  {
  }

  lemma RegisterKeepsForest(agents: Agents, name: string, parent: Option<string>, model: Option<string>)
    requires Forest(agents)
    ensures Forest(Registered(agents, name, parent, model))
  {
    if name !in agents {
      var born: map<string, nat> :| Older(agents, born);
      var born' := born[name := After(born, agents.Keys)];
      var after := Registered(agents, name, parent, model);
      forall p, c | IsChild(after, p, c)
        ensures c in after && after[c].parent == Some(p)
        ensures c in born' && born'[p] < born'[c]
      {
        RegisteredChildren(agents, name, parent, model, p, c);
      }
      assert Older(after, born');
      forall p | p in after ensures NoDup(after[p].children) {
        if p != name {
          RegisteredChildren(agents, name, parent, model, p, name);
          assert name in agents[p].children ==> IsChild(agents, p, name);
        }
      }
    }
  }

  /** Unregistering removes every edge at the name and no other. */
  lemma UnregisteredChildren(agents: Agents, name: string, p: string, c: string)
    requires ListsAgree(agents) && name in agents
    ensures IsChild(Unregistered(agents, name), p, c) <==> IsChild(agents, p, c) && p != name && c != name
  {
    var parent := agents[name].parent;
    if IsChild(agents, p, name) {
      assert parent == Some(p);
    }
    if p in agents {
      FilterIn(OtherThan(name), agents[p].children);
    }
  }

  lemma UnregisterKeepsForest(agents: Agents, name: string)
    requires Forest(agents)
    ensures Forest(Unregistered(agents, name))
  {
    if name in agents {
      var born: map<string, nat> :| Older(agents, born);
      var after := Unregistered(agents, name);
      forall p, c | IsChild(after, p, c)
        ensures c in after && after[c].parent == Some(p)
        ensures c in born && born[p] < born[c]
      {
        UnregisteredChildren(agents, name, p, c);
      }
      assert Older(after, born);
      forall p | p in after ensures NoDup(after[p].children) {
        FilterNoDup(OtherThan(name), agents[p].children);
      }
    }
  }

  lemma LifecycleKeepsForest(agents: Agents, name: string, lifecycle: Lifecycle)
    requires Forest(agents)
    ensures Forest(WithLifecycle(agents, name, lifecycle))
  {
    if name in agents {
      var born: map<string, nat> :| Older(agents, born);
      var after := WithLifecycle(agents, name, lifecycle);
      assert forall p, c :: IsChild(after, p, c) <==> IsChild(agents, p, c);
      assert Older(after, born);
    }
  }

  lemma ApplyKeepsForest(agents: Agents, op: Op)
    requires Forest(agents)
    ensures Forest(Apply(agents, op))
  {
    match op
    case Register(n, p, m) => RegisterKeepsForest(agents, n, p, m);
    case Unregister(n) => UnregisterKeepsForest(agents, n);
    case SetLifecycle(n, l) => LifecycleKeepsForest(agents, n, l);
  }

  lemma EmptyIsForest()
    ensures Forest(map[])
  {
    assert Older(map[], map[]);
  }

  lemma {:induction false} ReachableIsForest(ops: seq<Op>)
    ensures Forest(Run(ops))
  {
    if ops == [] {
      EmptyIsForest();
    } else {
      ReachableIsForest(ops[..|ops| - 1]);
      ApplyKeepsForest(Run(ops[..|ops| - 1]), ops[|ops| - 1]);
    }
  }

  // ---- reachability -----------------------------------------------------

  ghost predicate Path(agents: Agents, p: seq<string>) {
    |p| >= 1 && forall i :: 0 <= i < |p| - 1 ==> IsChild(agents, p[i], p[i + 1])
  }

  /** `b` is a proper descendant of `a`. */
  ghost predicate Reaches(agents: Agents, a: string, b: string) {
    exists p :: |p| >= 2 && Path(agents, p) && p[0] == a && p[|p| - 1] == b
  }

  ghost predicate ReachesOrIs(agents: Agents, a: string, b: string) {
    a == b || Reaches(agents, a, b)
  }

  lemma {:induction false} PathRises(agents: Agents, born: map<string, nat>, p: seq<string>)
    requires Older(agents, born) && Path(agents, p) && |p| >= 2
    ensures p[0] in born && p[|p| - 1] in born && born[p[0]] < born[p[|p| - 1]]
  {
    var q := p[..|p| - 1];
    assert IsChild(agents, p[|p| - 2], p[|p| - 1]);
    if |p| > 2 {
      PathRises(agents, born, q);
    }
  }

  /** No agent is its own descendant. */
  lemma NoCycle(agents: Agents, n: string)
    requires Forest(agents)
    ensures !Reaches(agents, n, n)
  {
    var born: map<string, nat> :| Older(agents, born);
    forall p | |p| >= 2 && Path(agents, p) ensures p[0] != p[|p| - 1] {
      PathRises(agents, born, p);
    }
  }

  lemma ChildThen(agents: Agents, a: string, c: string, x: string)
    requires IsChild(agents, a, c) && ReachesOrIs(agents, c, x)
    ensures Reaches(agents, a, x)
  {
    if c == x {
      assert Path(agents, [a, c]);
    } else {
      var p :| |p| >= 2 && Path(agents, p) && p[0] == c && p[|p| - 1] == x;
      var q := [a] + p;
      assert forall i :: 0 <= i < |q| - 1 ==> IsChild(agents, q[i], q[i + 1]);
      assert Path(agents, q);
    }
  }

  lemma FirstChild(agents: Agents, a: string, x: string) returns (c: string)
    requires Reaches(agents, a, x)
    ensures IsChild(agents, a, c) && ReachesOrIs(agents, c, x)
  {
    var p :| |p| >= 2 && Path(agents, p) && p[0] == a && p[|p| - 1] == x;
    c := p[1];
    assert IsChild(agents, p[0], p[1]);
    if |p| > 2 {
      assert Path(agents, p[1..]);
    }
  }

  lemma LastParent(agents: Agents, a: string, x: string)
    requires ListsAgree(agents) && Reaches(agents, a, x)
    ensures x in agents && agents[x].parent.Some? && ReachesOrIs(agents, a, agents[x].parent.value)
  {
    var p :| |p| >= 2 && Path(agents, p) && p[0] == a && p[|p| - 1] == x;
    assert IsChild(agents, p[|p| - 2], p[|p| - 1]);
    if |p| > 2 {
      assert Path(agents, p[..|p| - 1]);
    }
  }

  /** Two agents above the same agent are above one another. */
  lemma {:induction false} SharedDescendant(agents: Agents, born: map<string, nat>, a: string, b: string, x: string)
    requires ListsAgree(agents) && Older(agents, born)
    requires ReachesOrIs(agents, a, x) && ReachesOrIs(agents, b, x) && x in agents
    ensures ReachesOrIs(agents, a, b) || Reaches(agents, b, a)
    decreases born[x]
  {
    if a != x && b != x {
      LastParent(agents, a, x);
      LastParent(agents, b, x);
      var p := agents[x].parent.value;
      var q :| |q| >= 2 && Path(agents, q) && q[0] == a && q[|q| - 1] == x;
      assert IsChild(agents, q[|q| - 2], q[|q| - 1]);
      SharedDescendant(agents, born, a, b, p);
    }
  }

  /** Different children of one agent have no descendant in common. */
  lemma SiblingsApart(agents: Agents, born: map<string, nat>, p: string, c: string, d: string, x: string)
    requires ListsAgree(agents) && Older(agents, born)
    requires IsChild(agents, p, c) && IsChild(agents, p, d)
    requires ReachesOrIs(agents, c, x) && ReachesOrIs(agents, d, x)
    ensures c == d
  {
    if c != x {
      LastParent(agents, c, x);
    }
    SharedDescendant(agents, born, c, d, x);
    NoCycle(agents, p);
    if Reaches(agents, c, d) {
      LastParent(agents, c, d);
      ChildThen(agents, p, c, p);
    } else if Reaches(agents, d, c) {
      LastParent(agents, d, c);
      ChildThen(agents, p, d, p);
    }
  }

  // ---- the depth-first listing ------------------------------------------

  ghost predicate Ranked(agents: Agents, born: map<string, nat>, t: nat) {
    && ListsAgree(agents) && Older(agents, born)
    && (forall n :: n in agents ==> born[n] < t)
  }

  /** How much deeper the trees below `cs` can go. */
  ghost function Room(agents: Agents, born: map<string, nat>, t: nat, cs: seq<string>): (r: nat)
    requires Ranked(agents, born, t) && forall c :: c in cs ==> c in agents
    ensures forall c :: c in cs ==> t - born[c] <= r
    ensures r == 0 || exists c :: c in cs && r == t - born[c]
  {
    if cs == [] then 0
    else
      assert cs == cs[..|cs| - 1] + [cs[|cs| - 1]];
      Max(Room(agents, born, t, cs[..|cs| - 1]), t - born[cs[|cs| - 1]])
  }

  lemma ChildrenHaveLessRoom(agents: Agents, born: map<string, nat>, t: nat, n: string)
    requires Ranked(agents, born, t) && n in agents
    ensures forall c :: c in agents[n].children ==> c in agents
    ensures Room(agents, born, t, agents[n].children) < t - born[n]
  {
    assert forall c :: c in agents[n].children ==> IsChild(agents, n, c);
  }

  /** The trees rooted at `cs`, each root before its descendants, the last
      tree first. */
  ghost function Trees(agents: Agents, born: map<string, nat>, t: nat, cs: seq<string>): seq<string>
    requires Ranked(agents, born, t) && forall c :: c in cs ==> c in agents
    decreases Room(agents, born, t, cs), |cs|
  {
    if cs == [] then []
    else
      var n, rest := cs[|cs| - 1], cs[..|cs| - 1];
      ChildrenHaveLessRoom(agents, born, t, n);
      RoomOfPrefix(agents, born, t, cs);
      [n] + (Trees(agents, born, t, agents[n].children) + Trees(agents, born, t, rest))
  }

  lemma RoomOfPrefix(agents: Agents, born: map<string, nat>, t: nat, cs: seq<string>)
    requires Ranked(agents, born, t) && (forall c :: c in cs ==> c in agents) && cs != []
    ensures Room(agents, born, t, cs[..|cs| - 1]) <= Room(agents, born, t, cs)
  {
  }

  lemma Reassociate(n: string, a: seq<string>, b: seq<string>, c: seq<string>)
    ensures [n] + (a + (b + c)) == [n] + (a + b) + c
  {
  }

  lemma {:induction false} TreesConcat(agents: Agents, born: map<string, nat>, t: nat, a: seq<string>, b: seq<string>)
    requires Ranked(agents, born, t)
    requires (forall c :: c in a ==> c in agents) && forall c :: c in b ==> c in agents
    ensures Trees(agents, born, t, a + b) == Trees(agents, born, t, b) + Trees(agents, born, t, a)
    decreases |b|
  {
    if b == [] {
      assert a + b == a;
    } else {
      var n, rest := b[|b| - 1], b[..|b| - 1];
      assert (a + b)[..|a + b| - 1] == a + rest && (a + b)[|a + b| - 1] == n;
      TreesConcat(agents, born, t, a, rest);
      ChildrenHaveLessRoom(agents, born, t, n);
      Reassociate(n, Trees(agents, born, t, agents[n].children), Trees(agents, born, t, rest),
                  Trees(agents, born, t, a));
    }
  }

  /** The listing holds the roots and their descendants, nothing else. */
  lemma {:induction false} TreesMembers(agents: Agents, born: map<string, nat>, t: nat, cs: seq<string>, x: string)
    requires Ranked(agents, born, t) && forall c :: c in cs ==> c in agents
    ensures x in Trees(agents, born, t, cs) <==> exists c :: c in cs && ReachesOrIs(agents, c, x)
    decreases Room(agents, born, t, cs), |cs|
  {
    if cs != [] {
      var n, rest := cs[|cs| - 1], cs[..|cs| - 1];
      assert cs == rest + [n];
      ChildrenHaveLessRoom(agents, born, t, n);
      RoomOfPrefix(agents, born, t, cs);
      TreesMembers(agents, born, t, agents[n].children, x);
      TreesMembers(agents, born, t, rest, x);
      if Reaches(agents, n, x) {
        var c := FirstChild(agents, n, x);
      }
      forall c | c in agents[n].children && ReachesOrIs(agents, c, x) ensures Reaches(agents, n, x) {
        ChildThen(agents, n, c, x);
      }
    }
  }

  ghost predicate Siblings(agents: Agents, p: string, cs: seq<string>) {
    NoDup(cs) && forall c :: c in cs ==> c in agents && IsChild(agents, p, c)
  }

  lemma {:induction false} TreesNoDup(agents: Agents, born: map<string, nat>, t: nat, p: string, cs: seq<string>)
    requires Ranked(agents, born, t) && Siblings(agents, p, cs)
    ensures NoDup(Trees(agents, born, t, cs))
    decreases Room(agents, born, t, cs), |cs|
  {
    if cs != [] {
      var n, rest := cs[|cs| - 1], cs[..|cs| - 1];
      ChildrenHaveLessRoom(agents, born, t, n);
      RoomOfPrefix(agents, born, t, cs);
      assert Siblings(agents, n, agents[n].children);
      assert Siblings(agents, p, rest);
      var below, others := Trees(agents, born, t, agents[n].children), Trees(agents, born, t, rest);
      TreesNoDup(agents, born, t, n, agents[n].children);
      TreesNoDup(agents, born, t, p, rest);
      forall x | x == n || x in below ensures x !in others && (x in below ==> x != n) {
        TreesApart(agents, born, t, p, n, rest, x);
      }
      NoDupAppend(below, others);
      NoDupAppend([n], below + others);
    }
  }

  lemma NoDupAppend(a: seq<string>, b: seq<string>)
    requires NoDup(a) && NoDup(b) && forall x :: x in a ==> x !in b
    ensures NoDup(a + b)
  {
    forall i, j | 0 <= i < j < |a + b| ensures (a + b)[i] != (a + b)[j] {
      if i < |a| <= j {
        assert a[i] in a && b[j - |a|] in b;
      }
    }
  }

  /** An agent, or one below it, is not below a sibling, nor below itself. */
  lemma TreesApart(agents: Agents, born: map<string, nat>, t: nat, p: string, n: string, rest: seq<string>, x: string)
    requires Ranked(agents, born, t) && Siblings(agents, p, rest)
    requires IsChild(agents, p, n) && n in agents && n !in rest
    requires forall c :: c in agents[n].children ==> c in agents
    requires x == n || x in Trees(agents, born, t, agents[n].children)
    ensures x !in Trees(agents, born, t, rest)
    ensures x in Trees(agents, born, t, agents[n].children) ==> x != n
  {
    TreesMembers(agents, born, t, agents[n].children, x);
    TreesMembers(agents, born, t, rest, x);
    if x in Trees(agents, born, t, agents[n].children) {
      var c :| c in agents[n].children && ReachesOrIs(agents, c, x);
      ChildThen(agents, n, c, x);
      NoCycle(agents, n);
    }
    if x in Trees(agents, born, t, rest) {
      var d :| d in rest && ReachesOrIs(agents, d, x);
      SiblingsApart(agents, born, p, n, d, x);
    }
  }

  lemma TreesPop(agents: Agents, born: map<string, nat>, t: nat, stack: seq<string>)
    requires Ranked(agents, born, t) && (forall c :: c in stack ==> c in agents) && stack != []
    ensures var top, rest := stack[|stack| - 1], stack[..|stack| - 1];
            && (forall c :: c in rest + agents[top].children ==> c in agents)
            && Trees(agents, born, t, stack) == [top] + Trees(agents, born, t, rest + agents[top].children)
  {
    var top, rest := stack[|stack| - 1], stack[..|stack| - 1];
    ChildrenHaveLessRoom(agents, born, t, top);
    TreesConcat(agents, born, t, rest, agents[top].children);
  }

  /** The stack walk: pop, list, push the children. In a forest it ends and
      lists the trees below the agent, depth first. */
  method Walk(agents: Agents, name: string, ghost born: map<string, nat>, ghost t: nat)
    returns (result: seq<string>)
    requires Ranked(agents, born, t) && name in agents
    ensures forall c :: c in agents[name].children ==> c in agents
    ensures result == Trees(agents, born, t, agents[name].children)
  {
    ChildrenHaveLessRoom(agents, born, t, name);
    ghost var all := Trees(agents, born, t, agents[name].children);
    result := [];
    var stack := agents[name].children;
    while stack != []
      invariant forall c :: c in stack ==> c in agents
      invariant result + Trees(agents, born, t, stack) == all
      decreases |Trees(agents, born, t, stack)|
    {
      TreesPop(agents, born, t, stack);
      ghost var before := Trees(agents, born, t, stack);
      var top := stack[|stack| - 1];
      stack := stack[..|stack| - 1];
      result := result + [top];
      if top in agents {
        stack := stack + agents[top].children;
      }
      assert before == [top] + Trees(agents, born, t, stack);
    }
  }

  /** What the listing means. */
  lemma ListingIsTheDescendants(agents: Agents, born: map<string, nat>, t: nat, name: string)
    requires Ranked(agents, born, t) && name in agents
    ensures forall c :: c in agents[name].children ==> c in agents
    ensures var listing := Trees(agents, born, t, agents[name].children);
            && NoDup(listing)
            && forall x :: x in listing <==> Reaches(agents, name, x)
  {
    ChildrenHaveLessRoom(agents, born, t, name);
    var cs := agents[name].children;
    assert forall c :: c in cs ==> IsChild(agents, name, c);
    TreesNoDup(agents, born, t, name, cs);
    forall x ensures x in Trees(agents, born, t, cs) <==> Reaches(agents, name, x) {
      TreesMembers(agents, born, t, cs, x);
      if Reaches(agents, name, x) {
        var c := FirstChild(agents, name, x);
      }
      forall c | c in cs && ReachesOrIs(agents, c, x) ensures Reaches(agents, name, x) {
        ChildThen(agents, name, c, x);
      }
    }
  }
}
