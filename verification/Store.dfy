/** The budgeted message buffer (loopal-context/src/store.rs). */
module Store {
  import opened Prelude
  import opened Messages
  import opened Ingestion
  import opened Degradation
  import opened Sanitize

  const MAX_ROUNDS: nat := 10

  // ---- enforcing the budget ---------------------------------------------

  predicate Over(count: Counter, limit: nat, ms: seq<Message>) {
    TotalTokens(count, ms) > limit
  }

  function MustDrop(count: Counter, limit: nat): seq<Message> -> bool {
    (ms: seq<Message>) => Over(count, limit, ms) && NonSystem(ms) > 4
  }

  function DropStep(ms: seq<Message>): seq<Message> {
    if NonSystem(ms) > 4 then GroupDropped(ms) else ms
  }

  function DropLoop(count: Counter, limit: nat, ms: seq<Message>): Iterated<seq<Message>> {
    Iterate(MustDrop(count, limit), DropStep, MAX_ROUNDS, ms)
  }

  function Enforced(count: Counter, budget: ContextBudget, ms: seq<Message>): seq<Message> {
    var d := DropLoop(count, budget.Limit(), Degraded(count, budget, ms));
    if d.rounds > 0 then Sanitized(d.final) else d.final
  }

  /** The drop loop of `enforce_budget`. */
  method DropWhileOver(count: Counter, limit: nat, messages: seq<Message>)
    returns (out: seq<Message>, droppedAny: bool)
    ensures out == DropLoop(count, limit, messages).final
    ensures droppedAny <==> DropLoop(count, limit, messages).rounds > 0
  {
    out := messages;
    var iterations := 0;
    droppedAny := false;
    ghost var more := MustDrop(count, limit);
    ghost var all := DropLoop(count, limit, messages);
    ghost var rest := all;
    while Over(count, limit, out) && iterations < MAX_ROUNDS
      invariant 0 <= iterations <= MAX_ROUNDS
      invariant droppedAny <==> iterations > 0
      invariant rest == Iterate(more, DropStep, MAX_ROUNDS - iterations, out)
      invariant rest.final == all.final && rest.rounds + iterations == all.rounds
      decreases MAX_ROUNDS - iterations
    {
      var shorter, removed := DropOldestGroup(out);
      if removed == 0 {
        break;
      }
      assert more(out) && DropStep(out) == shorter;
      IterateOnce(more, DropStep, MAX_ROUNDS - iterations, out);
      rest := Iterate(more, DropStep, MAX_ROUNDS - iterations - 1, shorter);
      out := shorter;
      droppedAny := true;
      iterations := iterations + 1;
    }
    assert iterations == MAX_ROUNDS || !more(out);
  }

  method EnforceBudget(count: Counter, budget: ContextBudget, messages: seq<Message>) returns (out: seq<Message>)
    ensures out == Enforced(count, budget, messages)
  {
    out := RunSyncDegradation(count, messages, budget);
    var droppedAny;
    out, droppedAny := DropWhileOver(count, budget.messageBudget * 90 / 100, out);
    if droppedAny {
      out := SanitizeToolPairs(out);
    }
  }

  /** One round: all system messages stay, nothing is new, tokens do not grow
      and at most two messages go. */
  predicate Trimmed(count: Counter, out: seq<Message>, ms: seq<Message>, rounds: nat) {
    && Systems(out) == Systems(ms)
    && TotalTokens(count, out) <= TotalTokens(count, ms)
    && |ms| - 2 * rounds <= |out|
    && forall m :: m in out ==> m in ms
  }

  lemma DropLoopTrims(count: Counter, limit: nat, ms: seq<Message>)
    ensures Trimmed(count, DropLoop(count, limit, ms).final, ms, DropLoop(count, limit, ms).rounds)
  {
    var more := MustDrop(count, limit);
    var kept: (seq<Message>, seq<Message>, nat) -> bool := (a, b, n: nat) => Trimmed(count, a, b, n);
    forall a, b, n: nat | more(a) && kept(b, DropStep(a), n) ensures kept(b, a, n + 1) {
      OneRoundTrims(count, b, a, n);
    }
    IterateKeeps(more, DropStep, MAX_ROUNDS, ms, kept);
  }

  lemma OneRoundTrims(count: Counter, out: seq<Message>, ms: seq<Message>, n: nat)
    requires NonSystem(ms) > 4 && Trimmed(count, out, GroupDropped(ms), n)
    ensures Trimmed(count, out, ms, n + 1)
  {
    GroupDroppedKeepsSystems(ms);
    GroupDroppedCostsLess(count, ms);
    assert forall m :: m in GroupDropped(ms) ==> m in ms;
  }

  /** Leading system messages do not count towards the tail. */
  lemma {:induction false} TailAfterSystems(p: seq<Message>, t: seq<Message>)
    requires forall i :: 0 <= i < |p| ==> p[i].role == System
    ensures NonSystem(p + t) <= |t|
  {
    if p == [] {
      assert p + t == t;
    } else {
      assert (p + t)[1..] == p[1..] + t;
      TailAfterSystems(p[1..], t);
    }
  }

  /** Removing empty messages keeps a prefix of system messages. */
  lemma FilterKeepsTail(c: seq<Message>, s: nat)
    requires s <= |c| && forall i :: 0 <= i < s ==> c[i].role == System
    ensures NonSystem(Filter(SystemOrNonEmpty, c)) <= |c| - s
  {
    var p, t := c[..s], c[s..];
    assert c == p + t;
    FilterConcat(SystemOrNonEmpty, p, t);
    FilterAll(SystemOrNonEmpty, p);
    FilterIn(SystemOrNonEmpty, t);
    TailAfterSystems(p, Filter(SystemOrNonEmpty, t));
  }

  /** Sanitising never leaves more messages after the system prefix. */
  lemma SanitizeKeepsTail(ms: seq<Message>)
    ensures NonSystem(Sanitized(ms)) <= NonSystem(ms)
  {
    var c, s := Cleaned(ms), SystemPrefix(ms);
    forall i | 0 <= i < s ensures c[i].role == System {
      CleanedContent(ms, i);
    }
    FilterKeepsTail(c, s);
  }

  /** What enforcing the budget achieves. The token bound, or one of the two
      reasons for stopping short of it, holds of the result after the final
      sanitising; dropping and sanitising never add tokens; and every system
      message is still there, in order. */
  lemma EnforcedBound(count: Counter, budget: ContextBudget, ms: seq<Message>)
    ensures var out, d := Enforced(count, budget, ms), DropLoop(count, budget.Limit(), Degraded(count, budget, ms));
            && d.rounds <= MAX_ROUNDS
            && (TotalTokens(count, out) <= budget.Limit() || NonSystem(out) <= 4 || d.rounds == MAX_ROUNDS)
            && TotalTokens(count, out) <= TotalTokens(count, Degraded(count, budget, ms))
            && SystemTexts(out) == SystemTexts(ms)
  {
    var g := Degraded(count, budget, ms);
    var d := DropLoop(count, budget.Limit(), g);
    IterateStops(MustDrop(count, budget.Limit()), DropStep, MAX_ROUNDS, g);
    DropLoopTrims(count, budget.Limit(), g);
    SanitizeCostsLess(count, d.final);
    SanitizeKeepsTail(d.final);
    SanitizeKeepsSystems(d.final);
    DegradedKeepsSystems(count, budget, ms);
  }

  // ---- when the budget is met -------------------------------------------

  predicate Met(count: Counter, limit: nat, ms: seq<Message>) {
    TotalTokens(count, ms) <= limit
  }

  /** Ten rounds of dropping, whatever the tokens. */
  function Forced(ms: seq<Message>): seq<Message> {
    Repeat(DropStep, MAX_ROUNDS, ms)
  }

  /** The loop gets within its limit exactly if dropping as many groups as it
      may would; if it does not, it has dropped them all. */
  lemma DropLoopMeetsLimit(count: Counter, limit: nat, ms: seq<Message>)
    ensures var final := DropLoop(count, limit, ms).final;
            && (Met(count, limit, final) <==> Met(count, limit, Forced(ms)))
            && (!Met(count, limit, final) ==> final == Forced(ms))
  {
    var done := (a: seq<Message>) => Met(count, limit, a);
    forall a | done(a) ensures done(DropStep(a)) {
      if NonSystem(a) > 4 {
        GroupDroppedCostsLess(count, a);
      }
    }
    IterateIsDone(MustDrop(count, limit), DropStep, done, MAX_ROUNDS, ms);
  }

  /** Enforcing the budget meets it exactly if ten groups less of the degraded
      conversation would, or would after sanitising (which comes only after a
      drop). */
  lemma EnforcedMeetsLimit(count: Counter, budget: ContextBudget, ms: seq<Message>)
    ensures var limit, g := budget.Limit(), Degraded(count, budget, ms);
            Met(count, limit, Enforced(count, budget, ms)) <==>
              || Met(count, limit, Forced(g))
              || (NonSystem(g) > 4 && Met(count, limit, Sanitized(Forced(g))))
  {
    var limit, g := budget.Limit(), Degraded(count, budget, ms);
    var d := DropLoop(count, limit, g);
    DropLoopMeetsLimit(count, limit, g);
    DropLoopTrims(count, limit, g);
    IterateStops(MustDrop(count, limit), DropStep, MAX_ROUNDS, g);
    SanitizeCostsLess(count, d.final);
    DropsAtOnce(count, limit, g);
  }

  /** The loop drops something exactly if it is over its limit at the start
      and more than four messages follow the system prefix. */
  lemma DropsAtOnce(count: Counter, limit: nat, ms: seq<Message>)
    ensures DropLoop(count, limit, ms).rounds > 0 <==> Over(count, limit, ms) && NonSystem(ms) > 4
  {
    if MustDrop(count, limit)(ms) {
      IterateOnce(MustDrop(count, limit), DropStep, MAX_ROUNDS, ms);
    }
  }

  /** A long conversation ends the loop over its limit whatever the tokenizer:
      each round takes at most two messages, and each costs at least four
      tokens. */
  lemma DropLoopCanStopOverLimit(count: Counter, limit: nat, ms: seq<Message>)
    requires 4 * (|ms| - 2 * MAX_ROUNDS) > limit
    ensures Over(count, limit, DropLoop(count, limit, ms).final)
  {
    IterateStops(MustDrop(count, limit), DropStep, MAX_ROUNDS, ms);
    DropLoopTrims(count, limit, ms);
    FourPerMessage(count, DropLoop(count, limit, ms).final);
  }

  /** The loop drops one group after another and no more than it has to: before
      each drop it is over its limit with more than four messages after the
      system prefix. */
  lemma DropsNoMoreThanNeeded(count: Counter, limit: nat, ms: seq<Message>)
    ensures var d := DropLoop(count, limit, ms);
            && d.final == Repeat(DropStep, d.rounds, ms) && d.rounds <= MAX_ROUNDS
            && (forall k: nat :: k < d.rounds ==>
                  var before := Repeat(DropStep, k, ms);
                  TotalTokens(count, before) > limit && |before| - SystemPrefix(before) > 4)
            && (d.rounds < MAX_ROUNDS ==>
                  TotalTokens(count, d.final) <= limit || |d.final| - SystemPrefix(d.final) <= 4)
  {
    DropsUpTo(count, limit, ms, MAX_ROUNDS, DropLoop(count, limit, ms));
  }

  lemma DropsUpTo(count: Counter, limit: nat, ms: seq<Message>, max: nat, d: Iterated<seq<Message>>)
    requires d == Iterate(MustDrop(count, limit), DropStep, max, ms)
    ensures d.final == Repeat(DropStep, d.rounds, ms) && d.rounds <= max
    ensures forall k: nat :: k < d.rounds ==>
              var before := Repeat(DropStep, k, ms);
              TotalTokens(count, before) > limit && |before| - SystemPrefix(before) > 4
    ensures d.rounds < max ==>
              TotalTokens(count, d.final) <= limit || |d.final| - SystemPrefix(d.final) <= 4
  {
    IterateIsRepeat(MustDrop(count, limit), DropStep, max, ms);
    IterateStops(MustDrop(count, limit), DropStep, max, ms);
  }

  /** After a drop the conversation is pair-closed. */
  lemma DropsEndClosed(count: Counter, budget: ContextBudget, ms: seq<Message>)
    requires DropLoop(count, budget.Limit(), Degraded(count, budget, ms)).rounds > 0
    ensures PairClosed(Enforced(count, budget, ms))
  {
    SanitizedIsClosed(DropLoop(count, budget.Limit(), Degraded(count, budget, ms)).final);
  }

  // ---- operations on values ---------------------------------------------

  datatype State = State(messages: seq<Message>, budget: ContextBudget)

  /** `exact` is the tokenizer, `rough` the character heuristic. */
  datatype Counters = Counters(exact: Counter, rough: Counter)

  datatype Op =
    | UpdateBudget(budget: ContextBudget)
    | PushUser(msg: Message)
    | PushAssistant(msg: Message)
    | PushToolResults(msg: Message)
    | AppendWarnings(warnings: seq<string>)
    | Clear
    | TruncateTo(at: nat)
    | ApplySummary(newMessages: seq<Message>)
    | EmergencyCompact(keepLast: nat)
    | CondenseServer

  function Enforce(c: Counters, s: State): State {
    s.(messages := Enforced(c.exact, s.budget, s.messages))
  }

  function AsText(w: string): Block {
    Text(w)
  }

  function Warned(ms: seq<Message>, warnings: seq<string>): seq<Message> {
    if ms == [] then ms
    else
      var m := ms[|ms| - 1];
      ms[|ms| - 1 := m.(content := m.content + Map(AsText, warnings))]
  }

  /** The summary is kept unless it is itself over the emergency level. */
  predicate SummaryAccepted(c: Counters, s: State, newMessages: seq<Message>) {
    !s.budget.NeedsEmergency(TotalTokens(c.exact, Sanitized(newMessages)))
  }

  function Apply(c: Counters, s: State, op: Op): State {
    match op
    case UpdateBudget(b) => Enforce(c, s.(budget := b))
    case PushUser(m) => Enforce(c, s.(messages := s.messages + [m]))
    case PushAssistant(m) =>
      Enforce(c, s.(messages := s.messages + [ServerCapped(c.rough, s.budget.messageBudget / 4, m)]))
    case PushToolResults(m) =>
      Enforce(c, s.(messages := s.messages + [ResultsCapped(c.exact, s.budget.messageBudget / 8, m)]))
    case AppendWarnings(ws) => s.(messages := Warned(s.messages, ws))
    case Clear => s.(messages := [])
    case TruncateTo(at) => s.(messages := if at < |s.messages| then s.messages[..at] else s.messages)
    case ApplySummary(ms) =>
      if SummaryAccepted(c, s, ms) then Enforce(c, s.(messages := Sanitized(ms))) else s
    case EmergencyCompact(keep) => Enforce(c, s.(messages := Sanitized(Compacted(s.messages, keep))))
    case CondenseServer => s.(messages := Map(Condenser, s.messages))
  }

  function IngestionCap(c: Counters, budget: ContextBudget): Message -> Message {
    (m: Message) =>
      match m.role
      case Assistant => ServerCapped(c.rough, budget.messageBudget / 4, m)
      case User => ResultsCapped(c.exact, budget.messageBudget / 8, m)
      case System => m
  }

  function Restored(c: Counters, ms: seq<Message>, budget: ContextBudget): State {
    State(Degraded(c.exact, budget, Map(IngestionCap(c, budget), ms)), budget)
  }

  // ---- every run --------------------------------------------------------

  /** A store restored from `initial` (empty for a new one) after `ops`. */
  function Run(c: Counters, initial: seq<Message>, budget: ContextBudget, ops: seq<Op>): State {
    if ops == [] then Restored(c, initial, budget)
    else Apply(c, Run(c, initial, budget, ops[..|ops| - 1]), ops[|ops| - 1])
  }

  function SuppliedBy(op: Op): seq<Block> {
    match op
    case PushUser(m) => m.content
    case PushAssistant(m) => m.content
    case PushToolResults(m) => m.content
    case AppendWarnings(ws) => Map(AsText, ws)
    case ApplySummary(ms) => AllBlocks(ms)
    case _ => []
  }

  /** Every block handed to the store so far. */
  function Supplied(initial: seq<Message>, ops: seq<Op>): seq<Block> {
    if ops == [] then AllBlocks(initial)
    else Supplied(initial, ops[..|ops| - 1]) + SuppliedBy(ops[|ops| - 1])
  }

  /** Every stored block derives from a supplied one. */
  ghost predicate Derives(s: State, supplied: seq<Block>) {
    AllDerived(AllBlocks(s.messages), supplied)
  }

  // ---- what is stored comes from what was supplied ----------------------

  lemma EditDerives(s: State, supplied: seq<Block>, out: seq<Message>)
    requires Derives(s, supplied) && SoundEdit(out, s.messages)
    ensures Derives(s.(messages := out), supplied)
  {
    DerivedTransitive(AllBlocks(out), AllBlocks(s.messages), supplied);
  }

  lemma SanitizedBlocks(ms: seq<Message>, b: Block)
    requires b in AllBlocks(Sanitized(ms))
    ensures b in AllBlocks(ms)
  {
    InAllBlocks(ms);
    InAllBlocks(Sanitized(ms));
    FilterIn(SystemOrNonEmpty, Cleaned(ms));
    var m :| m in Sanitized(ms) && b in m.content;
    var i :| 0 <= i < |ms| && Cleaned(ms)[i] == m;
    CleanedContent(ms, i);
    assert ms[i] in ms;
  }

  lemma SanitizedSound(ms: seq<Message>)
    ensures SoundEdit(Sanitized(ms), ms)
  {
    SanitizedIsClosed(ms);
    forall b | b in AllBlocks(Sanitized(ms)) ensures exists s :: s in AllBlocks(ms) && Derived(b, s) {
      SanitizedBlocks(ms, b);
      DerivedSelf();
    }
  }

  lemma EnforcedSound(count: Counter, budget: ContextBudget, ms: seq<Message>)
    ensures SoundEdit(Enforced(count, budget, ms), ms)
  {
    var g := Degraded(count, budget, ms);
    var d := DropLoop(count, budget.Limit(), g);
    DegradedSound(count, budget, ms);
    DropLoopTrims(count, budget.Limit(), g);
    SubsetSound(d.final, g);
    SoundEditTrans(d.final, g, ms);
    SanitizedSound(d.final);
    SoundEditTrans(Sanitized(d.final), d.final, ms);
  }

  lemma EnforceDerives(c: Counters, s: State, supplied: seq<Block>)
    requires Derives(s, supplied)
    ensures Derives(Enforce(c, s), supplied)
  {
    EnforcedSound(c.exact, s.budget, s.messages);
    EditDerives(s, supplied, Enforced(c.exact, s.budget, s.messages));
  }

  lemma MoreSupplied(bs: seq<Block>, supplied: seq<Block>, more: seq<Block>)
    ensures AllDerived(bs, supplied) ==> AllDerived(bs, supplied + more)
    ensures AllDerived(bs, more) ==> AllDerived(bs, supplied + more)
  {
    assert forall x :: x in supplied || x in more ==> x in supplied + more;
  }

  lemma PushDerives(s: State, supplied: seq<Block>, m: Message, given: seq<Block>)
    requires Derives(s, supplied) && AllDerived(m.content, given)
    ensures Derives(s.(messages := s.messages + [m]), supplied + given)
  {
    var ms := s.messages + [m];
    assert ms[..|ms| - 1] == s.messages;
    MoreSupplied(AllBlocks(s.messages), supplied, given);
    MoreSupplied(m.content, supplied, given);
  }

  lemma WarnedBlocks(ms: seq<Message>, warnings: seq<string>)
    requires ms != []
    ensures AllBlocks(Warned(ms, warnings)) == AllBlocks(ms) + Map(AsText, warnings)
  {
    assert Warned(ms, warnings)[..|ms| - 1] == ms[..|ms| - 1];
  }

  lemma AppendDerived(a: seq<Block>, b: seq<Block>, supplied: seq<Block>)
    requires AllDerived(a, supplied)
    ensures AllDerived(a + b, supplied + b)
  {
    MoreSupplied(a, supplied, b);
    DerivedSelf();
    MoreSupplied(b, supplied, b);
  }

  lemma WarnDerives(s: State, supplied: seq<Block>, warnings: seq<string>)
    requires Derives(s, supplied)
    ensures Derives(s.(messages := Warned(s.messages, warnings)), supplied + Map(AsText, warnings))
  {
    var ms, ws := s.messages, Map(AsText, warnings);
    if ms == [] {
      MoreSupplied(AllBlocks(ms), supplied, ws);
    } else {
      WarnedBlocks(ms, warnings);
      AppendDerived(AllBlocks(ms), ws, supplied);
    }
  }

  lemma CompactedSound(ms: seq<Message>, keepLast: nat)
    ensures SoundEdit(Compacted(ms, keepLast), ms)
  {
    var s := SystemPrefix(ms);
    SubsetSound(ms, ms);
    if !(|ms| <= keepLast + 1 || |ms| - s <= keepLast) {
      var kept := ms[..s] + ms[|ms| - keepLast..];
      SubsetSound(kept, ms);
      SanitizedSound(kept);
      SoundEditTrans(Sanitized(kept), kept, ms);
    }
  }

  lemma CondenseAllSound(ms: seq<Message>)
    ensures SoundEdit(Map(Condenser, ms), ms)
  {
    forall i | 0 <= i < |ms|
      ensures ServerPaired(ms[i]) ==> ServerPaired(Condenser(ms[i]))
      ensures AllDerived(Condenser(ms[i]).content, ms[i].content)
    {
      CondensedIsPaired(ms[i]);
      CondensedBlocks(ms[i].content);
      DerivedSelf();
    }
    PointwiseSound(Map(Condenser, ms), ms);
  }

  lemma SummaryTaken(c: Counters, s: State, supplied: seq<Block>, ms: seq<Message>)
    ensures Derives(Enforce(c, s.(messages := Sanitized(ms))), supplied + AllBlocks(ms))
  {
    SanitizedSound(ms);
    MoreSupplied(AllBlocks(Sanitized(ms)), supplied, AllBlocks(ms));
    EnforceDerives(c, s.(messages := Sanitized(ms)), supplied + AllBlocks(ms));
  }

  lemma SummaryDerives(c: Counters, s: State, supplied: seq<Block>, ms: seq<Message>)
    requires Derives(s, supplied)
    ensures Derives(Apply(c, s, ApplySummary(ms)), supplied + AllBlocks(ms))
  {
    if SummaryAccepted(c, s, ms) {
      SummaryTaken(c, s, supplied, ms);
    } else {
      MoreSupplied(AllBlocks(s.messages), supplied, AllBlocks(ms));
    }
  }

  lemma EmergencySound(ms: seq<Message>, keepLast: nat)
    ensures SoundEdit(Sanitized(Compacted(ms, keepLast)), ms)
  {
    CompactedSound(ms, keepLast);
    SanitizedSound(Compacted(ms, keepLast));
    SoundEditTrans(Sanitized(Compacted(ms, keepLast)), Compacted(ms, keepLast), ms);
  }

  lemma PushedDerives(c: Counters, s: State, supplied: seq<Block>, m: Message, given: seq<Block>)
    requires Derives(s, supplied) && AllDerived(m.content, given)
    ensures Derives(Enforce(c, s.(messages := s.messages + [m])), supplied + given)
  {
    PushDerives(s, supplied, m, given);
    EnforceDerives(c, s.(messages := s.messages + [m]), supplied + given);
  }

  lemma PushUserDerives(c: Counters, s: State, supplied: seq<Block>, m: Message)
    requires Derives(s, supplied)
    ensures Derives(Apply(c, s, PushUser(m)), supplied + m.content)
  {
    DerivedSelf();
    PushedDerives(c, s, supplied, m, m.content);
  }

  lemma PushAssistantDerives(c: Counters, s: State, supplied: seq<Block>, m: Message)
    requires Derives(s, supplied)
    ensures Derives(Apply(c, s, PushAssistant(m)), supplied + m.content)
  {
    var capped := ServerCapped(c.rough, s.budget.messageBudget / 4, m);
    assert AllDerived(capped.content, m.content) by {
      ServerCappedSound(c.rough, s.budget.messageBudget / 4, m);
    }
    PushedDerives(c, s, supplied, capped, m.content);
  }

  lemma PushResultsDerive(c: Counters, s: State, supplied: seq<Block>, m: Message)
    requires Derives(s, supplied)
    ensures Derives(Apply(c, s, PushToolResults(m)), supplied + m.content)
  {
    var capped := ResultsCapped(c.exact, s.budget.messageBudget / 8, m);
    assert Apply(c, s, PushToolResults(m)) == Enforce(c, s.(messages := s.messages + [capped]));
    ResultsCappedDerived(c.exact, s.budget.messageBudget / 8, m);
    PushedDerives(c, s, supplied, capped, m.content);
  }

  lemma EnforcedEditDerives(c: Counters, s: State, supplied: seq<Block>, out: seq<Message>)
    requires Derives(s, supplied) && SoundEdit(out, s.messages)
    ensures Derives(Enforce(c, s.(messages := out)), supplied)
  {
    EditDerives(s, supplied, out);
    EnforceDerives(c, s.(messages := out), supplied);
  }

  lemma EmergencyDerives(c: Counters, s: State, supplied: seq<Block>, keepLast: nat)
    requires Derives(s, supplied)
    ensures Derives(Apply(c, s, EmergencyCompact(keepLast)), supplied)
  {
    EmergencySound(s.messages, keepLast);
    EnforcedEditDerives(c, s, supplied, Sanitized(Compacted(s.messages, keepLast)));
  }

  lemma EditsDerive(c: Counters, s: State, supplied: seq<Block>, at: nat)
    requires Derives(s, supplied)
    ensures Derives(Apply(c, s, TruncateTo(at)), supplied) && Derives(Apply(c, s, CondenseServer), supplied)
  {
    SubsetSound(Apply(c, s, TruncateTo(at)).messages, s.messages);
    EditDerives(s, supplied, Apply(c, s, TruncateTo(at)).messages);
    CondenseAllSound(s.messages);
    EditDerives(s, supplied, Map(Condenser, s.messages));
  }

  /** Every operation, whatever it is given. */
  lemma ApplyDerives(c: Counters, s: State, supplied: seq<Block>, op: Op)
    requires Derives(s, supplied)
    ensures Derives(Apply(c, s, op), supplied + SuppliedBy(op))
  {
    assert SuppliedBy(op) == [] ==> supplied + SuppliedBy(op) == supplied;
    match op
    case UpdateBudget(b) => EnforceDerives(c, s.(budget := b), supplied);
    case PushUser(m) => PushUserDerives(c, s, supplied, m);
    case PushAssistant(m) => PushAssistantDerives(c, s, supplied, m);
    case PushToolResults(m) => PushResultsDerive(c, s, supplied, m);
    case AppendWarnings(ws) => WarnDerives(s, supplied, ws);
    case Clear => assert AllBlocks([]) == [];
    case TruncateTo(at) => EditsDerive(c, s, supplied, at);
    case ApplySummary(ms) => SummaryDerives(c, s, supplied, ms);
    case EmergencyCompact(keep) => EmergencyDerives(c, s, supplied, keep);
    case CondenseServer => EditsDerive(c, s, supplied, 0);
  }

  lemma IngestionCapSound(c: Counters, budget: ContextBudget, m: Message)
    ensures var m' := IngestionCap(c, budget)(m);
            ServerPaired(m') && AllDerived(m'.content, m.content)
  {
    ServerCappedSound(c.rough, budget.messageBudget / 4, m);
    ResultsCappedSound(c.exact, budget.messageBudget / 8, m);
    DerivedSelf();
  }

  lemma RestoredSound(c: Counters, ms: seq<Message>, budget: ContextBudget)
    ensures Derives(Restored(c, ms, budget), AllBlocks(ms))
    ensures AllServerPaired(Restored(c, ms, budget).messages)
  {
    var capped := Map(IngestionCap(c, budget), ms);
    forall i | 0 <= i < |ms|
      ensures ServerPaired(capped[i]) && AllDerived(capped[i].content, ms[i].content)
    {
      IngestionCapSound(c, budget, ms[i]);
    }
    PointwiseSound(capped, ms);
    DegradedSound(c.exact, budget, capped);
    SoundEditTrans(Degraded(c.exact, budget, capped), capped, ms);
  }

  /** In every reachable store every block derives from one that was supplied,
      whatever was pushed and how. */
  lemma {:induction false} ReachableIsDerived(c: Counters, initial: seq<Message>, budget: ContextBudget, ops: seq<Op>)
    ensures Derives(Run(c, initial, budget, ops), Supplied(initial, ops))
  {
    if ops == [] {
      RestoredSound(c, initial, budget);
    } else {
      var before := ops[..|ops| - 1];
      ReachableIsDerived(c, initial, budget, before);
      ApplyDerives(c, Run(c, initial, budget, before), Supplied(initial, before), ops[|ops| - 1]);
    }
  }

  // ---- server pairs -----------------------------------------------------

  /** Enforcing the budget drops something, and so sanitises. */
  predicate Drops(c: Counters, s: State, m: Message) {
    var g := Degraded(c.exact, s.budget, s.messages + [m]);
    Over(c.exact, s.budget.Limit(), g) && NonSystem(g) > 4
  }

  /** What pushing a message as it is does to the pairs: an assistant message
      is paired, or it makes the store drop and sanitise. The roles that debug
      builds assert imply it, and the other operations are always harmless. */
  predicate Harmless(c: Counters, s: State, op: Op) {
    match op
    case PushUser(m) => ServerPaired(m) || Drops(c, s, m)
    case PushToolResults(m) => ServerPaired(m) || Drops(c, s, m)
    case _ => true
  }

  lemma LastAssistantIsNotStripped(ms: seq<Message>, m: Message)
    requires m.role == Assistant && m.content != []
    ensures m in EphemeralStripped(ms + [m])
  {
    var all := ms + [m];
    var each := StripEach(all);
    assert LastAssistant(all) == |ms|;
    assert each[|ms|] == StripOld(m, true, true) == m;
    FilterIn(SystemOrNonEmpty, each);
    assert m in each;
  }

  /** An assistant message at the end survives degrading as it is. */
  lemma LastAssistantStays(count: Counter, budget: ContextBudget, ms: seq<Message>, m: Message)
    requires m.role == Assistant && m.content != []
    ensures m in Degraded(count, budget, ms + [m])
  {
    var a := EphemeralStripped(ms + [m]);
    var b := Layer1(count, budget, a);
    LastAssistantIsNotStripped(ms, m);
    NonUserStays(Shortener(count, budget.messageBudget / 8), a, m);
    NonUserStays(EmergencyBlock, b, m);
  }

  lemma NonUserStays(f: Block -> Block, ms: seq<Message>, m: Message)
    requires m in ms && m.role != User
    ensures m in OldUserBlocks(f, ms)
  {
    var i :| 0 <= i < |ms| && ms[i] == m;
    assert OldUserBlocks(f, ms)[i] == m;
  }

  lemma PushPairs(c: Counters, s: State, m: Message)
    requires AllServerPaired(s.messages)
    ensures AllServerPaired(Enforce(c, s.(messages := s.messages + [m])).messages) <==>
              ServerPaired(m) || Drops(c, s, m)
  {
    var ms := s.messages + [m];
    var g := Degraded(c.exact, s.budget, ms);
    var d := DropLoop(c.exact, s.budget.Limit(), g);
    DropsAtOnce(c.exact, s.budget.Limit(), g);
    if ServerPaired(m) {
      EnforcedSound(c.exact, s.budget, ms);
    } else if Drops(c, s, m) {
      SanitizedIsClosed(d.final);
    } else {
      assert m.content != [] by {
        assert m.content == [] ==> ServerUseIds(m) == {} && ServerResultIds(m) == {};
      }
      LastAssistantStays(c.exact, s.budget, s.messages, m);
      IterateStops(MustDrop(c.exact, s.budget.Limit()), DropStep, MAX_ROUNDS, g);
      assert m in Enforced(c.exact, s.budget, ms);
    }
  }

  lemma WarnPairs(ms: seq<Message>, warnings: seq<string>)
    requires AllServerPaired(ms)
    ensures AllServerPaired(Warned(ms, warnings))
  {
    if ms != [] {
      var m, ws := ms[|ms| - 1], Map(AsText, warnings);
      var m' := m.(content := m.content + ws);
      assert forall b :: b in ws ==> b.Text?;
      assert m in ms && ServerUseIds(m') == ServerUseIds(m) && ServerResultIds(m') == ServerResultIds(m);
    }
  }

  lemma EnforcePairs(c: Counters, s: State)
    requires AllServerPaired(s.messages)
    ensures AllServerPaired(Enforce(c, s).messages)
  {
    EnforcedSound(c.exact, s.budget, s.messages);
  }

  /** An operation on a paired store leaves it paired exactly if it is
      harmless. */
  lemma ApplyPairs(c: Counters, s: State, op: Op)
    requires AllServerPaired(s.messages)
    ensures AllServerPaired(Apply(c, s, op).messages) <==> Harmless(c, s, op)
  {
    match op
    case UpdateBudget(b) => EnforcePairs(c, s.(budget := b));
    case PushUser(m) => PushPairs(c, s, m);
    case PushAssistant(m) =>
      ServerCappedSound(c.rough, s.budget.messageBudget / 4, m);
      PushPairs(c, s, ServerCapped(c.rough, s.budget.messageBudget / 4, m));
    case PushToolResults(m) =>
      ResultsCappedSound(c.exact, s.budget.messageBudget / 8, m);
      PushPairs(c, s, ResultsCapped(c.exact, s.budget.messageBudget / 8, m));
    case AppendWarnings(ws) => WarnPairs(s.messages, ws);
    case Clear =>
    case TruncateTo(at) => SubsetSound(Apply(c, s, op).messages, s.messages);
    case ApplySummary(ms) =>
      SanitizedIsClosed(ms);
      EnforcePairs(c, s.(messages := Sanitized(ms)));
    case EmergencyCompact(keep) =>
      SanitizedIsClosed(Compacted(s.messages, keep));
      EnforcePairs(c, s.(messages := Sanitized(Compacted(s.messages, keep))));
    case CondenseServer => CondenseAllSound(s.messages);
  }

  /** The state after the first `k` operations. */
  function At(c: Counters, initial: seq<Message>, budget: ContextBudget, ops: seq<Op>, k: nat): State
    requires k <= |ops|
  {
    Run(c, initial, budget, ops[..k])
  }

  lemma NextAt(c: Counters, initial: seq<Message>, budget: ContextBudget, ops: seq<Op>, k: nat)
    requires k < |ops|
    ensures At(c, initial, budget, ops, k + 1) == Apply(c, At(c, initial, budget, ops, k), ops[k])
  {
    assert ops[..k + 1][..k] == ops[..k];
  }

  lemma {:induction false} PairedUpTo(c: Counters, initial: seq<Message>, budget: ContextBudget, ops: seq<Op>, k: nat)
    requires k <= |ops|
    requires forall j :: 0 <= j < k ==> Harmless(c, At(c, initial, budget, ops, j), ops[j])
    ensures AllServerPaired(At(c, initial, budget, ops, k).messages)
  {
    if k == 0 {
      RestoredSound(c, initial, budget);
    } else {
      PairedUpTo(c, initial, budget, ops, k - 1);
      NextAt(c, initial, budget, ops, k - 1);
      ApplyPairs(c, At(c, initial, budget, ops, k - 1), ops[k - 1]);
    }
  }

  lemma HarmfulUnpairs(c: Counters, initial: seq<Message>, budget: ContextBudget, ops: seq<Op>, k: nat)
    requires k < |ops| && !Harmless(c, At(c, initial, budget, ops, k), ops[k])
    ensures !AllServerPaired(At(c, initial, budget, ops, k).messages)
            || !AllServerPaired(At(c, initial, budget, ops, k + 1).messages)
  {
    NextAt(c, initial, budget, ops, k);
    if AllServerPaired(At(c, initial, budget, ops, k).messages) {
      ApplyPairs(c, At(c, initial, budget, ops, k), ops[k]);
    }
  }

  /** In every store of a run the server calls of each assistant message are
      exactly its server results, if and only if every operation of the run is
      harmless where it is applied. */
  lemma PairedThroughout(c: Counters, initial: seq<Message>, budget: ContextBudget, ops: seq<Op>)
    ensures (forall k :: 0 <= k <= |ops| ==> AllServerPaired(At(c, initial, budget, ops, k).messages)) <==>
            (forall k :: 0 <= k < |ops| ==> Harmless(c, At(c, initial, budget, ops, k), ops[k]))
  {
    if k :| 0 <= k < |ops| && !Harmless(c, At(c, initial, budget, ops, k), ops[k]) {
      HarmfulUnpairs(c, initial, budget, ops, k);
    } else {
      forall k | 0 <= k <= |ops| ensures AllServerPaired(At(c, initial, budget, ops, k).messages) {
        PairedUpTo(c, initial, budget, ops, k);
      }
    }
  }

  /** The roles that the operations assert of what they are given, as far as
      they matter. */
  predicate Expected(op: Op) {
    match op
    case PushUser(m) => m.role == Assistant ==> ServerPaired(m)
    case PushToolResults(m) => m.role == Assistant ==> ServerPaired(m)
    case _ => true
  }

  /** So in every store reached by operations with the asserted roles pairs
      match; and in every store at all blocks derive from supplied ones. */
  lemma ReachableIsSound(c: Counters, initial: seq<Message>, budget: ContextBudget, ops: seq<Op>)
    ensures Derives(Run(c, initial, budget, ops), Supplied(initial, ops))
    ensures (forall op :: op in ops ==> Expected(op)) ==> AllServerPaired(Run(c, initial, budget, ops).messages)
  {
    ReachableIsDerived(c, initial, budget, ops);
    if forall op :: op in ops ==> Expected(op) {
      assert ops[..|ops|] == ops;
      assert forall j :: 0 <= j < |ops| ==> Expected(ops[j]);
      PairedUpTo(c, initial, budget, ops, |ops|);
    }
  }

  /** Everything but texts and successful tool results. */
  predicate IsVerbatim(b: Block) {
    !b.Text? && !(b.ToolResult? && !b.isError)
  }

  /** Server results, failed tool results, calls, images and thinking are
      stored exactly as supplied or not at all, in every store. */
  lemma NeverTruncated(c: Counters, initial: seq<Message>, budget: ContextBudget, ops: seq<Op>)
    ensures forall m, b :: m in Run(c, initial, budget, ops).messages && b in m.content && IsVerbatim(b) ==>
              b in Supplied(initial, ops)
  {
    var ms := Run(c, initial, budget, ops).messages;
    ReachableIsDerived(c, initial, budget, ops);
    InAllBlocks(ms);
    forall m, b | m in ms && b in m.content && IsVerbatim(b) ensures b in Supplied(initial, ops) {
      assert b in AllBlocks(ms);
      var s :| s in Supplied(initial, ops) && Derived(b, s);
      if TruncatedFrom(b, s) {
        TruncatedShape(b, s);
      }
    }
  }

  // ---- stores in which a promise fails ----------------------------------

  /** Only user and system messages of plain text. */
  predicate AllTexts(ms: seq<Message>) {
    forall m :: m in ms ==> m.role != Assistant && m.content != [] && forall b :: b in m.content ==> b.Text?
  }

  lemma TextIsNotStripped(m: Message, lastAssistant: bool, recent: bool)
    requires m.role != Assistant && forall b :: b in m.content ==> b.Text?
    ensures StripOld(m, lastAssistant, recent) == m
  {
    FilterAll(NotImage, m.content);
  }

  lemma TextsAreNotStripped(ms: seq<Message>)
    requires AllTexts(ms)
    ensures EphemeralStripped(ms) == ms
  {
    var each := StripEach(ms);
    forall i | 0 <= i < |ms| ensures each[i] == ms[i] {
      assert ms[i] in ms && OldCondensed(ms, i) == ms[i];
      TextIsNotStripped(ms[i], i == LastAssistant(ms), i >= SaturatingSub(|ms|, 2));
    }
    assert each == ms;
    FilterAll(SystemOrNonEmpty, ms);
  }

  lemma TextsDegradeToThemselves(count: Counter, budget: ContextBudget, ms: seq<Message>)
    requires AllTexts(ms)
    ensures Degraded(count, budget, ms) == ms
  {
    TextsAreNotStripped(ms);
    TextsStay(Shortener(count, budget.messageBudget / 8), ms);
    TextsStay(EmergencyBlock, ms);
  }

  lemma TextsAreNotSanitised(ms: seq<Message>)
    requires AllTexts(ms)
    ensures Sanitized(ms) == ms
  {
    assert UseIds(ms) == {} && ResultIds(ms) == {};
    ClosedIsFixed(ms);
  }

  lemma TextsAreNotCapped(c: Counters, budget: ContextBudget, ms: seq<Message>)
    requires AllTexts(ms)
    ensures Restored(c, ms, budget) == State(ms, budget)
  {
    var capped, capper := Map(IngestionCap(c, budget), ms), Capper(c.exact, budget.messageBudget / 8);
    forall i | 0 <= i < |ms| ensures capped[i] == ms[i] {
      assert ms[i] in ms;
      assert forall b :: b in ms[i].content ==> capper(b) == b;
      assert Map(capper, ms[i].content) == ms[i].content;
    }
    assert capped == ms;
    TextsDegradeToThemselves(c.exact, budget, ms);
  }

  lemma TextsStay(f: Block -> Block, ms: seq<Message>)
    requires AllTexts(ms) && forall b: Block :: b.Text? ==> f(b) == b
    ensures OldUserBlocks(f, ms) == ms
  {
    forall i | 0 <= i < |ms| ensures OldUserBlocks(f, ms)[i] == ms[i] {
      assert ms[i] in ms;
      assert Map(f, ms[i].content) == ms[i].content;
    }
  }

  lemma TextsStayOver(count: Counter, budget: ContextBudget, ms: seq<Message>)
    requires AllTexts(ms) && 4 * (|ms| - 2 * MAX_ROUNDS) > budget.Limit()
    ensures Over(count, budget.Limit(), Enforced(count, budget, ms))
  {
    TextsDegradeToThemselves(count, budget, ms);
    var d := DropLoop(count, budget.Limit(), ms);
    DropLoopTrims(count, budget.Limit(), ms);
    DropLoopCanStopOverLimit(count, budget.Limit(), ms);
    TextsAreNotSanitised(d.final);
  }

  const Hello := Message(None, User, [Text("hello")])

  lemma OneOperation(c: Counters, initial: seq<Message>, budget: ContextBudget, op: Op)
    ensures Run(c, initial, budget, [op]) == Apply(c, Restored(c, initial, budget), op)
  {
    assert [op][..0] == [];
  }

  /** A store of many short messages stays over its limit when one more is
      pushed, whatever the tokenizer. */
  lemma PushEndsOverLimit(c: Counters, budget: ContextBudget, ms: seq<Message>, m: Message)
    requires AllTexts(ms + [m]) && 4 * (|ms| + 1 - 2 * MAX_ROUNDS) > budget.Limit()
    ensures var s := Run(c, ms, budget, [PushUser(m)]);
            s.budget == budget && Over(c.exact, budget.Limit(), s.messages)
  {
    assert forall x :: x in ms ==> x in ms + [m];
    OneOperation(c, ms, budget, PushUser(m));
    TextsAreNotCapped(c, budget, ms);
    TextsStayOver(c.exact, budget, ms + [m]);
  }

  /** For instance 25 greetings under a budget of 20 tokens. */
  lemma GreetingsEndOverLimit(c: Counters)
    ensures var budget := ContextBudget(20, 0, 0, 0, 0, 20);
            var s := Run(c, seq(24, i => Hello), budget, [PushUser(Hello)]);
            TotalTokens(c.exact, s.messages) > 18 == s.budget.Limit()
  {
    var budget := ContextBudget(20, 0, 0, 0, 0, 20);
    PushEndsOverLimit(c, budget, seq(24, i => Hello), Hello);
  }

  /** A new store is paired after one push exactly if what was pushed is: there
      is nothing to drop. */
  lemma UnpairedStays(c: Counters, budget: ContextBudget, m: Message)
    ensures AllServerPaired(Run(c, [], budget, [PushUser(m)]).messages) <==> ServerPaired(m)
    ensures AllServerPaired(Run(c, [], budget, [PushToolResults(m)]).messages) <==> ServerPaired(m)
  {
    OneOperation(c, [], budget, PushUser(m));
    OneOperation(c, [], budget, PushToolResults(m));
    TextsAreNotCapped(c, budget, []);
    var s := State([], budget);
    ApplyPairs(c, s, PushUser(m));
    ApplyPairs(c, s, PushToolResults(m));
    DegradedIsNoLonger(c.exact, budget, [] + [m]);
  }

  lemma DegradedIsNoLonger(count: Counter, budget: ContextBudget, ms: seq<Message>)
    ensures |Degraded(count, budget, ms)| <= |ms|
  {
    FilterIn(SystemOrNonEmpty, StripEach(ms));
  }

  // ---- system messages in an emergency ----------------------------------

  /** Emergency compaction keeps the system messages, up to images, exactly if
      none lies in the stretch that compaction removes. */
  lemma EmergencyKeepsSystems(c: Counters, s: State, keepLast: nat)
    ensures SystemTexts(Apply(c, s, EmergencyCompact(keepLast)).messages) == SystemTexts(s.messages) <==>
              forall m :: m in CutOut(s.messages, keepLast) ==> m.role != System
  {
    EmergencySystems(c, s, keepLast);
    CompactedSystems(s.messages, keepLast);
    NoSystems(CutOut(s.messages, keepLast));
  }

  lemma EmergencySystems(c: Counters, s: State, keepLast: nat)
    ensures SystemTexts(Apply(c, s, EmergencyCompact(keepLast)).messages)
         == SystemTexts(Compacted(s.messages, keepLast))
  {
    EnforcedSystems(c, s, Compacted(s.messages, keepLast));
  }

  lemma EnforcedSystems(c: Counters, s: State, ms: seq<Message>)
    ensures SystemTexts(Enforce(c, s.(messages := Sanitized(ms))).messages) == SystemTexts(ms)
  {
    EnforcedBound(c.exact, s.budget, Sanitized(ms));
    SanitizeKeepsSystems(ms);
  }

  const Note := Message(None, System, [Text("note")])

  /** For instance a note after a greeting, under any budget. */
  lemma EmergencyLosesANote(c: Counters, budget: ContextBudget)
    ensures var ms := [Hello, Note, Hello, Hello];
            && Run(c, ms, budget, []).messages == ms
            && SystemTexts(Run(c, ms, budget, [EmergencyCompact(1)]).messages) != SystemTexts(ms)
  {
    var ms := [Hello, Note, Hello, Hello];
    TextsAreNotCapped(c, budget, ms);
    OneOperation(c, ms, budget, EmergencyCompact(1));
    EmergencyKeepsSystems(c, State(ms, budget), 1);
    assert CutOut(ms, 1)[1] == Note && Note in CutOut(ms, 1);
  }

  /** Tokens of the last `k` messages. */
  function Newest(count: Counter, ms: seq<Message>, k: nat): nat
    requires k <= |ms|
  {
    if k == 0 then 0 else Newest(count, ms, k - 1) + MessageTokens(count, ms[|ms| - k])
  }

  lemma {:induction false} NewestIs(count: Counter, ms: seq<Message>, k: nat)
    requires k <= |ms|
    ensures Newest(count, ms, k) == TotalTokens(count, ms[|ms| - k..])
  {
    if k > 0 {
      NewestIs(count, ms, k - 1);
      var rest := ms[|ms| - (k - 1)..];
      assert ms[|ms| - k..] == [ms[|ms| - k]] + rest;
      TotalTokensConcat(count, [ms[|ms| - k]], rest);
    }
  }

  // ---- the store --------------------------------------------------------

  class ContextStore {
    var messages: seq<Message>
    var budget: ContextBudget
    const counters: Counters

    function Value(): State
      reads this
    {
      State(messages, budget)
    }

    constructor (counters: Counters, budget: ContextBudget)
      ensures Value() == State([], budget) == Restored(counters, [], budget) && this.counters == counters
    {
      this.counters := counters;
      this.messages, this.budget := [], budget;
      new;
      assert Map(IngestionCap(counters, budget), []) == [];
      assert StripEach([]) == [];
    }

    constructor FromMessages(counters: Counters, messages: seq<Message>, budget: ContextBudget)
      ensures Value() == Restored(counters, messages, budget) && this.counters == counters
      ensures this.budget == budget
      ensures this.messages == Degraded(counters.exact, budget, Map(IngestionCap(counters, budget), messages))
    {
      this.counters := counters;
      this.messages, this.budget := messages, budget;
      new;
      ApplyIngestionCaps();
      this.messages := RunSyncDegradation(counters.exact, this.messages, this.budget);
    }

    method ApplyIngestionCaps()
      modifies this
      ensures budget == old(budget) && messages == Map(IngestionCap(counters, budget), old(messages))
      ensures forall i :: 0 <= i < |messages| ==>
                var was := old(messages)[i];
                messages[i] ==
                  if was.role == Assistant then ServerCapped(counters.rough, budget.messageBudget / 4, was)
                  else if was.role == User then ResultsCapped(counters.exact, budget.messageBudget / 8, was)
                  else was
    {
      var maxServer, maxResult := budget.messageBudget / 4, budget.messageBudget / 8;
      for i := 0 to |messages|
        invariant budget == old(budget) && |messages| == |old(messages)|
        invariant forall j :: i <= j < |messages| ==> messages[j] == old(messages)[j]
        invariant forall j :: 0 <= j < i ==> messages[j] == IngestionCap(counters, budget)(old(messages)[j])
      {
        var msg := messages[i];
        if msg.role == Assistant {
          msg := CapAssistantServerBlocks(counters.rough, msg, maxServer);
        } else if msg.role == User {
          msg := CapToolResults(counters.exact, msg, maxResult);
        }
        messages := messages[i := msg];
      }
    }

    method EnforceInPlace()
      modifies this`messages
      ensures Value() == Enforce(counters, old(Value()))
    {
      messages := EnforceBudget(counters.exact, budget, messages);
    }

    method UpdateBudget(budget: ContextBudget)
      modifies this
      ensures Value() == Apply(counters, old(Value()), Op.UpdateBudget(budget))
      ensures this.budget == budget && messages == Enforced(counters.exact, budget, old(messages))
    {
      this.budget := budget;
      EnforceInPlace();
    }

    method PushUser(msg: Message)
      modifies this
      ensures Value() == Apply(counters, old(Value()), Op.PushUser(msg))
      ensures budget == old(budget) && messages == Enforced(counters.exact, budget, old(messages) + [msg])
    {
      messages := messages + [msg];
      EnforceInPlace();
    }

    method PushAssistant(msg: Message)
      modifies this
      ensures Value() == Apply(counters, old(Value()), Op.PushAssistant(msg))
      ensures budget == old(budget)
      ensures var capped := ServerCapped(counters.rough, budget.messageBudget / 4, msg);
              messages == Enforced(counters.exact, budget, old(messages) + [capped])
    {
      var capped := CapAssistantServerBlocks(counters.rough, msg, budget.messageBudget / 4);
      messages := messages + [capped];
      EnforceInPlace();
    }

    method PushToolResults(msg: Message)
      modifies this
      ensures Value() == Apply(counters, old(Value()), Op.PushToolResults(msg))
      ensures budget == old(budget)
      ensures var capped := ResultsCapped(counters.exact, budget.messageBudget / 8, msg);
              messages == Enforced(counters.exact, budget, old(messages) + [capped])
    {
      var capped := CapToolResults(counters.exact, msg, budget.messageBudget / 8);
      messages := messages + [capped];
      EnforceInPlace();
    }

    method AppendWarningsToLastUser(warnings: seq<string>)
      modifies this
      ensures Value() == Apply(counters, old(Value()), AppendWarnings(warnings))
      ensures budget == old(budget) && |messages| == |old(messages)|
      ensures forall i :: 0 <= i < |messages| - 1 ==> messages[i] == old(messages)[i]
      ensures messages != [] ==>
                var m, was := messages[|messages| - 1], old(messages)[|messages| - 1];
                && m.id == was.id && m.role == was.role && |m.content| == |was.content| + |warnings|
                && m.content[..|was.content|] == was.content
                && forall i :: 0 <= i < |warnings| ==> m.content[|was.content| + i] == Text(warnings[i])
    {
      if warnings == [] || messages == [] {
        if messages != [] {
          var m := messages[|messages| - 1];
          assert m.content + Map(AsText, warnings) == m.content;
          assert m.(content := m.content + Map(AsText, warnings)) == m;
          assert Warned(messages, warnings) == messages;
        }
        return;
      }
      var msg := messages[|messages| - 1];
      var content := msg.content;
      for i := 0 to |warnings|
        invariant content == msg.content + Map(AsText, warnings)[..i]
      {
        content := content + [Text(warnings[i])];
      }
      assert Map(AsText, warnings)[..|warnings|] == Map(AsText, warnings);
      messages := messages[|messages| - 1 := msg.(content := content)];
    }

    method Clear()
      modifies this
      ensures Value() == Apply(counters, old(Value()), Op.Clear) == State([], old(budget))
    {
      messages := [];
    }

    method Truncate(at: nat)
      modifies this
      ensures Value() == Apply(counters, old(Value()), TruncateTo(at))
      ensures budget == old(budget) && |messages| == Min(at, |old(messages)|) && messages <= old(messages)
    {
      if at < |messages| {
        messages := messages[..at];
      }
    }

    /** The conversation for one model call: pair-closed, the store untouched. */
    method PrepareForLlm() returns (msgs: seq<Message>)
      ensures msgs == Sanitized(messages)
      ensures PairClosed(msgs) && forall m :: m in msgs ==> SystemOrNonEmpty(m)
    {
      msgs := SanitizeToolPairs(messages);
      SanitizedIsClosed(messages);
    }

    method ApplySummary(newMessages: seq<Message>) returns (kept: bool)
      modifies this
      ensures Value() == Apply(counters, old(Value()), Op.ApplySummary(newMessages))
      ensures kept <==> SummaryAccepted(counters, old(Value()), newMessages)
      ensures kept <==> TotalTokens(counters.exact, Sanitized(newMessages)) <= budget.messageBudget * 19 / 20
      ensures budget == old(budget)
      ensures messages == if kept then Enforced(counters.exact, budget, Sanitized(newMessages)) else old(messages)
    {
      var snapshot := messages;
      messages := newMessages;
      messages := SanitizeToolPairs(messages);
      if budget.NeedsEmergency(TotalTokens(counters.exact, messages)) {
        messages := snapshot;
        return false;
      }
      EnforceInPlace();
      return true;
    }

    method EmergencyCompact(keepLast: nat)
      modifies this
      ensures Value() == Apply(counters, old(Value()), Op.EmergencyCompact(keepLast))
      ensures budget == old(budget)
      ensures messages == Enforced(counters.exact, budget, Sanitized(Compacted(old(messages), keepLast)))
    {
      var compacted := CompactMessages(messages, keepLast);
      var closed := SanitizeToolPairs(compacted);
      messages := closed;
      EnforceInPlace();
    }

    method CondenseServerBlocks()
      modifies this
      ensures Value() == Apply(counters, old(Value()), CondenseServer)
      ensures budget == old(budget) && |messages| == |old(messages)|
      ensures forall i :: 0 <= i < |messages| ==>
                var was := old(messages)[i];
                messages[i] ==
                  if was.role == Assistant then was.(content := FlatMap(WithoutServer, was.content)) else was
    {
      forall i | 0 <= i < |messages| {
        CondensedExactly(messages[i].content);
      }
      messages := CondenseAllServerBlocks(messages);
    }

    /** How many of the last messages fit in half the budget: always at least
        two, and otherwise the most that fit. */
    method TokenAwareKeepCount() returns (k: nat)
      ensures k >= 2
      ensures k > 2 ==> k <= |messages|
      ensures k > 2 ==> Newest(counters.exact, messages, k) <= budget.messageBudget / 2
      ensures k < |messages| ==> Newest(counters.exact, messages, k + 1) > budget.messageBudget / 2
    {
      var half := budget.messageBudget / 2;
      var tokens, count := 0, 0;
      while count < |messages|
        invariant count <= |messages|
        invariant tokens == Newest(counters.exact, messages, count)
        invariant count > 1 ==> tokens <= half
      {
        var mt := MessageTokens(counters.exact, messages[|messages| - 1 - count]);
        assert Newest(counters.exact, messages, count + 1) == tokens + mt;
        if tokens + mt > half && count > 0 {
          break;
        }
        tokens := tokens + mt;
        count := count + 1;
      }
      assert 0 < count < |messages| ==> Newest(counters.exact, messages, count + 1) > half;
      assert count == 1 && |messages| > 2 ==>
          Newest(counters.exact, messages, 3) >= Newest(counters.exact, messages, 2);
      k := if count > 2 then count else 2;
    }
  }
}
