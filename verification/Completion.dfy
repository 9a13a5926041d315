/** Agent IO loops, finishing and waiting, as one state machine whose steps
    are the critical sections under the hub lock
    (loopal-agent-hub/src/agent_io.rs, dispatch/wait_handler.rs). */
module Completion {
  import opened Prelude
  import Registry
  import Hub

  // ---- what an agent reports --------------------------------------------

  /** A message taken from the agent's connection, as far as it matters here. */
  datatype Note =
    | Stream(text: string)
    | ToolResult(result: string, isCompletion: bool)
    | Completed      // the `agent/completed` notification
    | Other          // any other event, notification or request

  /** The result of the last completing tool call. */
  function LastCompletion(notes: seq<Note>): Option<string> {
    if notes == [] then None
    else
      var n := notes[|notes| - 1];
      if n.ToolResult? && n.isCompletion then Some(n.result) else LastCompletion(notes[..|notes| - 1])
  }

  function Streamed(notes: seq<Note>): string {
    if notes == [] then ""
    else
      var n := notes[|notes| - 1];
      Streamed(notes[..|notes| - 1]) + (if n.Stream? then n.text else "")
  }

  /** The specified output of a run: the last completion, else everything
      streamed, else nothing. */
  function RunOutput(notes: seq<Note>): Option<string> {
    if LastCompletion(notes).Some? then LastCompletion(notes)
    else if Streamed(notes) == "" then None
    else Some(Streamed(notes))
  }

  function Reported(notes: seq<Note>): string {
    if RunOutput(notes).Some? then RunOutput(notes).value else Hub.NO_OUTPUT
  }

  /** What the loop reads: everything before `agent/completed` or the end. */
  function UpToCompleted(rx: seq<Note>): seq<Note> {
    if rx == [] || rx[0] == Completed then [] else [rx[0]] + UpToCompleted(rx[1..])
  }

  datatype Loop = Loop(lastStream: string, completion: Option<string>, ended: bool)

  const FreshLoop := Loop("", None, false)

  function Track(l: Loop, n: Note): Loop {
    match n
    case Completed => l.(ended := true)
    case ToolResult(r, true) => l.(completion := Some(r))
    case Stream(t) => l.(lastStream := l.lastStream + t)
    case _ => l
  }

  function LoopOutput(l: Loop): Option<string> {
    if l.completion.Some? then l.completion
    else if l.lastStream == "" then None
    else Some(l.lastStream)
  }

  /** The variables of the loop summarise the notes it has read. */
  predicate Summarises(l: Loop, notes: seq<Note>) {
    l.lastStream == Streamed(notes) && l.completion == LastCompletion(notes)
  }

  lemma TrackSummarises(l: Loop, notes: seq<Note>, n: Note)
    requires Summarises(l, notes) && n != Completed
    ensures Summarises(Track(l, n), notes + [n])
    ensures LoopOutput(Track(l, n)) == RunOutput(notes + [n])
  {
    assert (notes + [n])[..|notes|] == notes;
  }

  lemma {:induction false} UpToIsPrefix(rx: seq<Note>, i: nat)
    requires i <= |rx| && forall j :: 0 <= j < i ==> rx[j] != Completed
    ensures i == |rx| || rx[i] == Completed ==> UpToCompleted(rx) == rx[..i]
  {
    if i > 0 {
      UpToIsPrefix(rx[1..], i - 1);
      assert rx[..i] == [rx[0]] + rx[1..][..i - 1];
    }
  }

  method AgentIoLoop(rx: seq<Note>) returns (output: Option<string>)
    ensures output == RunOutput(UpToCompleted(rx))
  {
    var lastStream := "";
    var completionOutput: Option<string> := None;
    var i := 0;
    while i < |rx|
      invariant 0 <= i <= |rx|
      invariant forall j :: 0 <= j < i ==> rx[j] != Completed
      invariant Summarises(Loop(lastStream, completionOutput, false), rx[..i])
      decreases |rx| - i
    {
      match rx[i] {
        case Completed => break;
        case ToolResult(result, isCompletion) =>
          if isCompletion {
            completionOutput := Some(result);
          }
        case Stream(text) => lastStream := lastStream + text;
        case Other =>
      }
      assert rx[..i + 1] == rx[..i] + [rx[i]];
      i := i + 1;
    }
    UpToIsPrefix(rx, i);
    output := if completionOutput.Some? then completionOutput
              else if lastStream == "" then None else Some(lastStream);
  }

  predicate IsCompletion(n: Note) {
    n.ToolResult? && n.isCompletion
  }

  function StreamedBy(n: Note): string {
    if n.Stream? then n.text else ""
  }

  /** A run that completes reports the result of its last completion. */
  lemma {:induction false} ReportsTheLastCompletion(notes: seq<Note>, i: nat)
    requires i < |notes| && IsCompletion(notes[i])
    requires forall j :: i < j < |notes| ==> !IsCompletion(notes[j])
    ensures LastCompletion(notes) == RunOutput(notes) == Some(notes[i].result)
  {
    if i < |notes| - 1 {
      ReportsTheLastCompletion(notes[..|notes| - 1], i);
      assert !IsCompletion(notes[|notes| - 1]) && LastCompletion(notes) == LastCompletion(notes[..|notes| - 1]);
    } else {
      assert IsCompletion(notes[|notes| - 1]);
    }
  }

  /** Any other run reports all it streamed, unless that is nothing. */
  lemma {:induction false} ReportsTheStream(notes: seq<Note>)
    requires forall j :: 0 <= j < |notes| ==> !IsCompletion(notes[j])
    ensures LastCompletion(notes) == None && Streamed(notes) == FlatMap(StreamedBy, notes)
    ensures RunOutput(notes) == if FlatMap(StreamedBy, notes) == "" then None else Some(FlatMap(StreamedBy, notes))
  {
    if notes != [] {
      ReportsTheStream(notes[..|notes| - 1]);
      assert !IsCompletion(notes[|notes| - 1]);
    }
  }

  // ---- the state machine ------------------------------------------------

  datatype Outcome = Output(text: string) | NotFound | Terminated | TimedOut

  datatype Status = Blocked | Done(outcome: Outcome)

  /** A call of `hub/wait_agent`. `run` says which run of the name it is for
      (runs are counted from 0), `rx` its channel if it had to wait, and
      `displaced` whether a later wait took the channel's place. */
  datatype Wait = Wait(name: string, run: nat, rx: Option<nat>, displaced: bool, status: Status)

  /** A finished run: what the agent had sent and the output handed on. */
  datatype Ran = Ran(notes: seq<Note>, report: string)

  /** `past` records the finished runs of each name, `notes` what each live
      run has sent so far. */
  datatype System = System(hub: Hub.State, loops: map<string, Loop>, notes: map<string, seq<Note>>,
                           past: map<string, seq<Ran>>, waits: seq<Wait>)

  const Init := System(Hub.State(map[], map[], map[], []), map[], map[], map[], [])

  datatype Step =
    | Start(name: string, parent: Option<string>, model: Option<string>)
    | SetLifecycle(name: string, lifecycle: Registry.Lifecycle)
    | Read(name: string, note: Note)
    | Eof(name: string)
    | FinishRun(name: string)
    | BeginWait(name: string)
    | Receive(w: nat)
    | TimeOut(w: nat)

  function Past(s: System, name: string): seq<Ran> {
    if name in s.past then s.past[name] else []
  }

  function Displace(waits: seq<Wait>, rx: nat): seq<Wait> {
    seq(|waits|, i requires 0 <= i < |waits| =>
      if waits[i].rx == Some(rx) then waits[i].(displaced := true) else waits[i])
  }

  predicate Watches(s: System, name: string) {
    name !in s.hub.finished && name in s.hub.agents
  }

  /** A wait answered at once, from the cache or with "not found". */
  function Answer(s: System, name: string): Wait {
    if name in s.hub.finished
    then Wait(name, SaturatingSub(|Past(s, name)|, 1), None, false, Done(Output(s.hub.finished[name])))
    else Wait(name, |Past(s, name)|, None, false, Done(NotFound))
  }

  /** The cache first, then the registry, then a new watcher. */
  function Begun(s: System, name: string): System {
    if name in s.hub.finished || name !in s.hub.agents then s.(waits := s.waits + [Answer(s, name)])
    else
      var waits := if name in s.hub.completions then Displace(s.waits, s.hub.completions[name]) else s.waits;
      s.(hub := Hub.Watch(s.hub, name),
         waits := waits + [Wait(name, |Past(s, name)|, Some(|s.hub.channels|), false, Blocked)])
  }

  /** `changed` succeeds on an unseen value even if the sender is gone; it
      fails only when the sender is gone without one. */
  function Received(s: System, w: Wait): Wait {
    if w.status.Done? || w.rx.None? || w.rx.value >= |s.hub.channels| then w
    else
      match s.hub.channels[w.rx.value]
      case Channel(Some(text), _) => w.(status := Done(Output(text)))
      case Channel(None, true) => w.(status := Done(Terminated))
      case Channel(None, false) => w
  }

  function Finished(s: System, name: string): System {
    if name in s.loops && s.loops[name].ended && name in s.notes then
      var hub1 := Hub.Finish(s.hub, name, LoopOutput(s.loops[name]));
      s.(hub := Hub.Leave(hub1, name), loops := s.loops - {name}, notes := s.notes - {name},
         past := s.past[name := Past(s, name) + [Ran(s.notes[name], hub1.finished[name])]])
    else s
  }

  function Next(s: System, step: Step): System {
    match step
    case Start(n, p, m) =>
      if n in s.hub.agents then s
      else s.(hub := s.hub.(agents := Registry.Registered(s.hub.agents, n, p, m)),
              loops := s.loops[n := FreshLoop], notes := s.notes[n := []])
    case SetLifecycle(n, l) => s.(hub := s.hub.(agents := Registry.WithLifecycle(s.hub.agents, n, l)))
    case Read(n, note) =>
      if n in s.loops && !s.loops[n].ended && n in s.notes
      then s.(loops := s.loops[n := Track(s.loops[n], note)],
              notes := if note == Completed then s.notes else s.notes[n := s.notes[n] + [note]])
      else s
    case Eof(n) => if n in s.loops then s.(loops := s.loops[n := s.loops[n].(ended := true)]) else s
    case FinishRun(n) => Finished(s, n)
    case BeginWait(n) => Begun(s, n)
    case Receive(w) => if w < |s.waits| then s.(waits := s.waits[w := Received(s, s.waits[w])]) else s
    case TimeOut(w) =>
      if w < |s.waits| && s.waits[w].status.Blocked?
      then s.(waits := s.waits[w := s.waits[w].(status := Done(TimedOut))]) else s
  }

  function Run(steps: seq<Step>): System {
    if steps == [] then Init else Next(Run(steps[..|steps| - 1]), steps[|steps| - 1])
  }

  // ---- invariant --------------------------------------------------------

  /** Live agents, loops and notes belong together. */
  predicate LoopsAgree(loops: map<string, Loop>, notes: map<string, seq<Note>>, live: set<string>) {
    && loops.Keys == live && notes.Keys == live
    && (forall n :: n in live ==> Summarises(loops[n], notes[n]))
  }

  /** The cache holds the report of the last finished run of each name. */
  predicate CacheAgrees(finished: map<string, string>, past: map<string, seq<Ran>>) {
    && finished.Keys == past.Keys
    && (forall n :: n in past ==> |past[n]| > 0 && finished[n] == past[n][|past[n]| - 1].report)
  }

  predicate RunsReported(runs: seq<Ran>) {
    forall i :: 0 <= i < |runs| ==> runs[i].report == Reported(runs[i].notes)
  }

  /** Every finished run handed on what its notes specify. */
  predicate PastOk(s: System) {
    forall n :: n in s.past ==> RunsReported(s.past[n])
  }

  /** Registered senders are of live agents and have sent nothing. */
  predicate SendersAgree(completions: map<string, nat>, channels: seq<Hub.Channel>, live: set<string>) {
    && completions.Keys <= live
    && (forall n :: n in completions ==> completions[n] < |channels|)
    && (forall n :: n in completions ==> channels[completions[n]] == Hub.Channel(None, false))
    && (forall n, m :: (n in completions && m in completions && completions[n] == completions[m]) ==> n == m)
  }

  predicate LoopsOk(s: System) {
    LoopsAgree(s.loops, s.notes, s.hub.agents.Keys)
  }

  predicate CacheOk(s: System) {
    CacheAgrees(s.hub.finished, s.past)
  }

  predicate SendersOk(s: System) {
    SendersAgree(s.hub.completions, s.hub.channels, s.hub.agents.Keys)
  }

  /** The state of a wait's channel: its run is live and it is the watcher, or
      its run finished and the report was sent, or it was displaced. */
  predicate ChannelOk(s: System, w: Wait)
    requires w.rx.Some?
  {
    && w.rx.value < |s.hub.channels|
    && var ch := s.hub.channels[w.rx.value];
      if w.displaced then
        ch == Hub.Channel(None, true) && (forall n :: n in s.hub.completions ==> s.hub.completions[n] != w.rx.value)
      else if w.run < |Past(s, w.name)| then
        && ch == Hub.Channel(Some(Past(s, w.name)[w.run].report), true)
        && (forall n :: n in s.hub.completions ==> s.hub.completions[n] != w.rx.value)
      else
        w.name in s.hub.completions && s.hub.completions[w.name] == w.rx.value && w.run == |Past(s, w.name)|
  }

  predicate WaitOk(s: System, w: Wait) {
    && (w.rx.Some? ==> ChannelOk(s, w))
    && (w.rx.None? ==> w.status.Done? && !w.displaced)
    && (w.status.Done? ==>
          match w.status.outcome
          case Output(text) =>
            !w.displaced && w.run < |Past(s, w.name)| && text == Past(s, w.name)[w.run].report
          case NotFound => w.rx.None?
          case Terminated => w.displaced
          case TimedOut => w.rx.Some?)
  }

  /** No two waits share a channel. */
  predicate ChannelsApart(s: System) {
    forall i, j :: 0 <= i < j < |s.waits| && s.waits[i].rx.Some? ==> s.waits[i].rx != s.waits[j].rx
  }

  predicate WaitsOk(s: System) {
    forall i :: 0 <= i < |s.waits| ==> WaitOk(s, s.waits[i])
  }

  predicate Inv(s: System) {
    LoopsOk(s) && CacheOk(s) && PastOk(s) && SendersOk(s) && ChannelsApart(s) && WaitsOk(s)
  }

  /** Waits depend only on the channels, the senders and what is past. */
  lemma SameWait(s: System, t: System, w: Wait)
    requires WaitOk(s, w) && t.past == s.past
    requires t.hub.channels == s.hub.channels && t.hub.completions == s.hub.completions
    ensures WaitOk(t, w)
  {
  }

  lemma WaitsUntouched(s: System, t: System)
    requires ChannelsApart(s) && WaitsOk(s) && t.waits == s.waits && t.past == s.past
    requires t.hub.channels == s.hub.channels && t.hub.completions == s.hub.completions
    ensures ChannelsApart(t) && WaitsOk(t)
  {
    forall i | 0 <= i < |t.waits| ensures WaitOk(t, t.waits[i]) {
      SameWait(s, t, s.waits[i]);
    }
  }

  /** A loop that starts or reads on, together with its notes. */
  lemma LoopUpdated(loops: map<string, Loop>, notes: map<string, seq<Note>>, live: set<string>,
                    n: string, l: Loop, ns: seq<Note>)
    requires LoopsAgree(loops, notes, live) && Summarises(l, ns)
    ensures LoopsAgree(loops[n := l], notes[n := ns], live + {n})
  {
  }

  lemma StartKeepsInv(s: System, n: string, p: Option<string>, m: Option<string>)
    requires Inv(s)
    ensures Inv(Next(s, Start(n, p, m)))
  {
    if n !in s.hub.agents {
      var t := Next(s, Start(n, p, m));
      WaitsUntouched(s, t);
      LoopUpdated(s.loops, s.notes, s.hub.agents.Keys, n, FreshLoop, []);
      Registry.RegisteredKeys(s.hub.agents, n, p, m);
      assert CacheOk(t);
      assert SendersOk(t);
    }
  }

  lemma ReadKeepsInv(s: System, n: string, note: Note)
    requires Inv(s)
    ensures Inv(Next(s, Read(n, note)))
  {
    if n in s.loops && !s.loops[n].ended {
      var t := Next(s, Read(n, note));
      WaitsUntouched(s, t);
      if note == Completed {
        assert s.notes[n := s.notes[n]] == s.notes;
        LoopUpdated(s.loops, s.notes, s.hub.agents.Keys, n, Track(s.loops[n], note), s.notes[n]);
      } else {
        TrackSummarises(s.loops[n], s.notes[n], note);
        LoopUpdated(s.loops, s.notes, s.hub.agents.Keys, n, Track(s.loops[n], note), s.notes[n] + [note]);
      }
      assert s.hub.agents.Keys + {n} == s.hub.agents.Keys;
    }
  }

  /** What finishing a run does to the parts of the state. */
  lemma FinishedHub(s: System, name: string)
    requires LoopsOk(s) && name in s.loops && s.loops[name].ended
    ensures var t, ran := Finished(s, name), Ran(s.notes[name], Reported(s.notes[name]));
            && t.hub.agents.Keys == s.hub.agents.Keys - {name}
            && t.hub.completions == s.hub.completions - {name}
            && t.hub.finished == s.hub.finished[name := ran.report]
            && t.past == s.past[name := Past(s, name) + [ran]]
            && t.hub.channels ==
                 if name in s.hub.completions
                 then Hub.Send(s.hub.channels, s.hub.completions[name], ran.report)
                 else s.hub.channels
  {
    var hub1 := Hub.Finish(s.hub, name, LoopOutput(s.loops[name]));
    assert LoopOutput(s.loops[name]) == RunOutput(s.notes[name]);
    Registry.UnregisteredKeys(hub1.agents, name);
    assert name !in hub1.completions;
    assert hub1.completions == s.hub.completions - {name};
  }

  lemma RunCached(finished: map<string, string>, past: map<string, seq<Ran>>, n: string, before: seq<Ran>, ran: Ran)
    requires CacheAgrees(finished, past)
    ensures CacheAgrees(finished[n := ran.report], past[n := before + [ran]])
  {
  }

  lemma FinishKeepsRegistry(s: System, name: string)
    requires Inv(s) && name in s.loops && s.loops[name].ended
    ensures LoopsOk(Finished(s, name)) && CacheOk(Finished(s, name)) && PastOk(Finished(s, name))
  {
    var ran := Ran(s.notes[name], Reported(s.notes[name]));
    FinishedHub(s, name);
    RunCached(s.hub.finished, s.past, name, Past(s, name), ran);
    assert LoopsAgree(s.loops - {name}, s.notes - {name}, s.hub.agents.Keys - {name});
    assert RunsReported(Past(s, name) + [ran]);
  }

  lemma FinishKeepsSenders(s: System, name: string)
    requires Inv(s) && name in s.loops && s.loops[name].ended
    ensures SendersOk(Finished(s, name))
  {
    FinishedHub(s, name);
  }

  lemma FinishKeepsWait(s: System, name: string, w: Wait)
    requires SendersOk(s) && LoopsOk(s) && name in s.loops && s.loops[name].ended && WaitOk(s, w)
    ensures WaitOk(Finished(s, name), w)
  {
    var t := Finished(s, name);
    FinishedHub(s, name);
    var ran := Ran(s.notes[name], Reported(s.notes[name]));
    assert Past(t, w.name) == if w.name == name then Past(s, name) + [ran] else Past(s, w.name);
  }

  lemma FinishKeepsInv(s: System, name: string)
    requires Inv(s)
    ensures Inv(Finished(s, name))
  {
    if name in s.loops && s.loops[name].ended {
      var t := Finished(s, name);
      FinishKeepsRegistry(s, name);
      FinishKeepsSenders(s, name);
      assert t.waits == s.waits;
      forall i | 0 <= i < |t.waits| ensures WaitOk(t, t.waits[i]) {
        FinishKeepsWait(s, name, s.waits[i]);
      }
    }
  }

  /** What a new watcher does to the channels. */
  lemma WatchHub(s: System, name: string)
    requires SendersOk(s) && Watches(s, name)
    ensures var t := Begun(s, name);
            && t.hub.completions == s.hub.completions[name := |s.hub.channels|]
            && |t.hub.channels| == |s.hub.channels| + 1
            && t.hub.channels[|s.hub.channels|] == Hub.Channel(None, false)
            && forall c :: 0 <= c < |s.hub.channels| ==>
                 t.hub.channels[c] ==
                   if name in s.hub.completions && s.hub.completions[name] == c then Hub.Channel(None, true)
                   else s.hub.channels[c]
  {
    assert (s.hub.completions - {name})[name := |s.hub.channels|] == s.hub.completions[name := |s.hub.channels|];
  }

  lemma WatchKeepsSenders(s: System, name: string)
    requires SendersOk(s) && Watches(s, name)
    ensures SendersOk(Begun(s, name))
  {
    WatchHub(s, name);
  }

  /** The wait whose channel is taken over becomes a displaced one. */
  lemma WatchDisplaces(s: System, name: string, w: Wait)
    requires SendersOk(s) && Watches(s, name) && WaitOk(s, w)
    requires name in s.hub.completions && w.rx == Some(s.hub.completions[name])
    ensures WaitOk(Begun(s, name), w.(displaced := true))
  {
    WatchHub(s, name);
    assert !w.displaced && w.name == name && w.run == |Past(s, name)|;
  }

  lemma WatchKeepsOthers(s: System, name: string, w: Wait)
    requires SendersOk(s) && Watches(s, name) && WaitOk(s, w)
    requires name in s.hub.completions ==> w.rx != Some(s.hub.completions[name])
    ensures WaitOk(Begun(s, name), w)
  {
    WatchHub(s, name);
    assert Past(Begun(s, name), w.name) == Past(s, w.name);
  }

  lemma WatchKeepsWait(s: System, name: string, i: nat)
    requires SendersOk(s) && Watches(s, name) && i < |s.waits| && WaitOk(s, s.waits[i])
    ensures WaitOk(Begun(s, name), Begun(s, name).waits[i])
  {
    if name in s.hub.completions && s.waits[i].rx == Some(s.hub.completions[name]) {
      WatchDisplaces(s, name, s.waits[i]);
    } else {
      WatchKeepsOthers(s, name, s.waits[i]);
    }
  }

  lemma WatchKeepsWaits(s: System, name: string)
    requires Inv(s) && Watches(s, name)
    ensures WaitsOk(Begun(s, name)) && ChannelsApart(Begun(s, name))
  {
    var t := Begun(s, name);
    var last := t.waits[|s.waits|];
    WatchHub(s, name);
    assert Past(t, name) == Past(s, name);
    assert WaitOk(t, last);
    forall i | 0 <= i < |s.waits|
      ensures WaitOk(t, t.waits[i]) && t.waits[i].rx == s.waits[i].rx && t.waits[i].rx != last.rx
    {
      assert WaitOk(s, s.waits[i]);
      WatchKeepsWait(s, name, i);
    }
  }

  lemma AnswerIsSound(s: System, name: string)
    requires CacheOk(s) && !Watches(s, name)
    ensures WaitOk(s, Answer(s, name))
  {
    if name in s.hub.finished {
      assert Past(s, name) == s.past[name];
    }
  }

  lemma AnswerKeepsWaits(s: System, name: string)
    requires Inv(s) && !Watches(s, name)
    ensures WaitsOk(Begun(s, name)) && ChannelsApart(Begun(s, name))
  {
    var t := Begun(s, name);
    AnswerIsSound(s, name);
    assert t.waits == s.waits + [Answer(s, name)];
    forall i | 0 <= i < |t.waits| ensures WaitOk(t, t.waits[i]) {
      SameWait(s, t, t.waits[i]);
    }
  }

  lemma BeginKeepsInv(s: System, name: string)
    requires Inv(s)
    ensures Inv(Begun(s, name))
  {
    if Watches(s, name) {
      WatchKeepsSenders(s, name);
      WatchKeepsWaits(s, name);
    } else {
      AnswerKeepsWaits(s, name);
    }
  }

  /** A step that changes one wait, and nothing the waits depend on. */
  lemma OneWaitChanged(s: System, t: System, k: nat, w: Wait)
    requires Inv(s) && k < |s.waits| && t == s.(waits := s.waits[k := w])
    requires w.rx == s.waits[k].rx && WaitOk(s, w)
    ensures Inv(t)
  {
    forall i | 0 <= i < |t.waits| ensures WaitOk(t, t.waits[i]) {
      assert WaitOk(s, s.waits[i]);
      SameWait(s, t, t.waits[i]);
    }
  }

  lemma ReceiveKeepsInv(s: System, k: nat)
    requires Inv(s)
    ensures Inv(Next(s, Receive(k)))
  {
    if k < |s.waits| {
      assert WaitOk(s, s.waits[k]);
      assert WaitOk(s, Received(s, s.waits[k]));
      OneWaitChanged(s, Next(s, Receive(k)), k, Received(s, s.waits[k]));
    }
  }

  lemma TimeOutKeepsInv(s: System, k: nat)
    requires Inv(s)
    ensures Inv(Next(s, TimeOut(k)))
  {
    if k < |s.waits| && s.waits[k].status.Blocked? {
      assert WaitOk(s, s.waits[k]);
      OneWaitChanged(s, Next(s, TimeOut(k)), k, s.waits[k].(status := Done(TimedOut)));
    }
  }

  lemma LifecycleKeepsInv(s: System, n: string, l: Registry.Lifecycle)
    requires Inv(s)
    ensures Inv(Next(s, SetLifecycle(n, l)))
  {
    var t := Next(s, SetLifecycle(n, l));
    assert t.hub.agents.Keys == s.hub.agents.Keys;
    WaitsUntouched(s, t);
  }

  lemma EofKeepsInv(s: System, n: string)
    requires Inv(s)
    ensures Inv(Next(s, Eof(n)))
  {
    if n in s.loops {
      var l := s.loops[n].(ended := true);
      LoopUpdated(s.loops, s.notes, s.hub.agents.Keys, n, l, s.notes[n]);
      assert s.notes[n := s.notes[n]] == s.notes && s.hub.agents.Keys + {n} == s.hub.agents.Keys;
      WaitsUntouched(s, Next(s, Eof(n)));
    }
  }

  lemma NextKeepsInv(s: System, step: Step)
    requires Inv(s)
    ensures Inv(Next(s, step))
  {
    match step
    case Start(n, p, m) => StartKeepsInv(s, n, p, m);
    case SetLifecycle(n, l) => LifecycleKeepsInv(s, n, l);
    case Read(n, note) => ReadKeepsInv(s, n, note);
    case Eof(n) => EofKeepsInv(s, n);
    case FinishRun(n) => FinishKeepsInv(s, n);
    case BeginWait(n) => BeginKeepsInv(s, n);
    case Receive(w) => ReceiveKeepsInv(s, w);
    case TimeOut(w) => TimeOutKeepsInv(s, w);
  }

  lemma {:induction false} ReachableInv(steps: seq<Step>)
    ensures Inv(Run(steps))
  {
    if steps != [] {
      ReachableInv(steps[..|steps| - 1]);
      NextKeepsInv(Run(steps[..|steps| - 1]), steps[|steps| - 1]);
    }
  }

  // ---- no completion is lost --------------------------------------------

  /** The output a run must hand on: the last completion, else everything
      streamed, else "(no output)". */
  predicate IsReportOf(s: System, name: string, run: nat, text: string) {
    run < |Past(s, name)| && text == Reported(Past(s, name)[run].notes)
  }

  lemma ReportIsSpecified(s: System, name: string, run: nat)
    requires PastOk(s) && run < |Past(s, name)|
    ensures IsReportOf(s, name, run, Past(s, name)[run].report)
  {
    assert RunsReported(s.past[name]);
  }

  /** Whatever the interleaving, a wait that has returned, without timing out,
      for a name that was found: it returned the specified output of its run,
      unless it was displaced, and then, and only then, "terminated". */
  lemma WaitReturnsTheReport(steps: seq<Step>, i: nat)
    requires i < |Run(steps).waits| && Run(steps).waits[i].status.Done?
    requires !Run(steps).waits[i].status.outcome.TimedOut? && !Run(steps).waits[i].status.outcome.NotFound?
    ensures var w := Run(steps).waits[i];
            if w.displaced then w.status.outcome == Terminated
            else w.status.outcome.Output? && IsReportOf(Run(steps), w.name, w.run, w.status.outcome.text)
  {
    var s := Run(steps);
    ReachableInv(steps);
    assert WaitOk(s, s.waits[i]);
    if s.waits[i].status.outcome.Output? {
      ReportIsSpecified(s, s.waits[i].name, s.waits[i].run);
    }
  }

  /** A blocked wait that is not displaced is not stuck: once its run has
      finished, the next receive returns the run's report. */
  lemma FinishedRunIsDelivered(steps: seq<Step>, i: nat)
    requires i < |Run(steps).waits| && Run(steps).waits[i].status.Blocked? && !Run(steps).waits[i].displaced
    requires Run(steps).waits[i].run < |Past(Run(steps), Run(steps).waits[i].name)|
    ensures var s := Run(steps);
            var after := Next(s, Receive(i)).waits[i].status;
            after.Done? && after.outcome.Output?
            && IsReportOf(s, s.waits[i].name, s.waits[i].run, after.outcome.text)
  {
    var s := Run(steps);
    ReachableInv(steps);
    assert WaitOk(s, s.waits[i]);
    ReportIsSpecified(s, s.waits[i].name, s.waits[i].run);
  }

  /** While the run is live an undisplaced wait stays blocked: it cannot
      return early. */
  lemma LiveRunBlocks(steps: seq<Step>, i: nat)
    requires i < |Run(steps).waits| && Run(steps).waits[i].status.Blocked? && !Run(steps).waits[i].displaced
    requires Run(steps).waits[i].run == |Past(Run(steps), Run(steps).waits[i].name)|
    ensures Run(steps).waits[i].name in Run(steps).hub.agents
    ensures Next(Run(steps), Receive(i)).waits[i] == Run(steps).waits[i]
  {
    var s := Run(steps);
    ReachableInv(steps);
    assert WaitOk(s, s.waits[i]);
  }

  /** A name is reused once it has, or had, more than one run. */
  predicate Reused(s: System, name: string) {
    |Past(s, name)| + (if name in s.hub.agents then 1 else 0) > 1
  }

  /** For a name that is not reused the answer is the report of its only run,
      and that run is over. */
  lemma SingleRun(steps: seq<Step>, i: nat)
    requires i < |Run(steps).waits| && Run(steps).waits[i].status.Done?
    requires Run(steps).waits[i].status.outcome.Output? && !Reused(Run(steps), Run(steps).waits[i].name)
    ensures var s := Run(steps);
            var w := s.waits[i];
            |Past(s, w.name)| == 1 && w.name !in s.hub.agents && IsReportOf(s, w.name, 0, w.status.outcome.text)
  {
    ReachableInv(steps);
    OnlyRun(Run(steps), Run(steps).waits[i]);
  }

  lemma OnlyRun(s: System, w: Wait)
    requires PastOk(s) && WaitOk(s, w) && w.status.Done? && w.status.outcome.Output? && !Reused(s, w.name)
    ensures |Past(s, w.name)| == 1 && w.name !in s.hub.agents && IsReportOf(s, w.name, 0, w.status.outcome.text)
  {
    ReportIsSpecified(s, w.name, 0);
  }

  /** A wait for a live agent answers from the cache exactly when the name had
      finished before: the cache is never cleared, so on a reused name the
      answer is the report of an earlier run. */
  lemma StaleAnswer(steps: seq<Step>, name: string)
    requires name in Run(steps).hub.agents
    ensures var s := Run(steps);
            var w := Next(s, BeginWait(name)).waits[|s.waits|];
            && (w.status.Done? <==> Past(s, name) != [])
            && (w.status.Done? ==> w.status.outcome.Output? && IsReportOf(s, name, w.run, w.status.outcome.text))
  {
    var s := Run(steps);
    ReachableInv(steps);
    if name in s.hub.finished {
      AnswerIsSound(s, name);
      ReportIsSpecified(s, name, Answer(s, name).run);
    }
  }

  lemma OneMore(steps: seq<Step>, step: Step)
    ensures Run(steps + [step]) == Next(Run(steps), step)
  {
    assert (steps + [step])[..|steps|] == steps;
  }

  /** An agent is started, says `text` and ends. */
  function OneRun(n: string, text: string): seq<Step> {
    [] + [Start(n, None, None)] + [Read(n, Stream(text))] + [Eof(n)] + [FinishRun(n)]
  }

  lemma AfterOneRun(n: string, text: string)
    requires text != ""
    ensures var s := Run(OneRun(n, text));
            && n !in s.hub.agents && s.waits == [] && |Past(s, n)| == 1
            && n in s.hub.finished && s.hub.finished[n] == text
  {
    var s1 := Next(Init, Start(n, None, None));
    var s2 := Next(s1, Read(n, Stream(text)));
    var s3 := Next(s2, Eof(n));
    assert s3.loops[n].lastStream == "" + text == text;
    Unrolled(n, text);
  }

  lemma Unrolled(n: string, text: string)
    ensures Run(OneRun(n, text)) ==
              Next(Next(Next(Next(Init, Start(n, None, None)), Read(n, Stream(text))), Eof(n)), FinishRun(n))
  {
    var none: seq<Step> := [];
    OneMore(none, Start(n, None, None));
    OneMore(none + [Start(n, None, None)], Read(n, Stream(text)));
    OneMore(none + [Start(n, None, None)] + [Read(n, Stream(text))], Eof(n));
    OneMore(none + [Start(n, None, None)] + [Read(n, Stream(text))] + [Eof(n)], FinishRun(n));
  }

  /** Started again, the agent is live, and a wait on it returns at once with
      what it said the first time. */
  lemma SecondRunAnswersWithFirst(n: string, text: string)
    requires text != ""
    ensures var s := Run(OneRun(n, text) + [Start(n, None, None)]);
            && n in s.hub.agents && n in s.loops && s.loops[n] == FreshLoop
            && Next(s, BeginWait(n)).waits == [Wait(n, 0, None, false, Done(Output(text)))]
  {
    AfterOneRun(n, text);
    OneMore(OneRun(n, text), Start(n, None, None));
  }

  /** A wait says "not found" exactly when the name was never registered. */
  lemma NotFoundExactly(steps: seq<Step>, name: string)
    ensures var s := Run(steps);
            var w := Next(s, BeginWait(name)).waits[|s.waits|];
            w.status == Done(NotFound) <==> name !in s.hub.agents && Past(s, name) == []
  {
    ReachableInv(steps);
  }
}
