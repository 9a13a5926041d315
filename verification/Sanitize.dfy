/** Orphan removal and compaction (loopal-context/src/compaction.rs). */
module Sanitize {
  import opened Prelude
  import opened JsonValues
  import opened Messages

  const CODE_EXECUTION := "code_execution"

  predicate IsEmptyJson(v: Json) {
    v.Null? || (v.Obj? && v.fields == map[])
  }

  /** A parser artefact: code execution called with no input. */
  predicate EmptyCodeExecution(b: Block) {
    b.ServerToolUse? && b.name == CODE_EXECUTION && IsEmptyJson(b.input)
  }

  function LiveServerUseIds(m: Message): set<string> {
    set b | b in m.content && b.ServerToolUse? && !EmptyCodeExecution(b) :: b.id
  }

  // ---- one-pass meaning -------------------------------------------------

  /** Which blocks survive, decided on the conversation as it was given. */
  predicate Survives(uses: set<string>, results: set<string>, m: Message, b: Block) {
    match m.role
    case System => true
    case User => b.ToolResult? ==> b.toolUseId in uses
    case Assistant =>
      match b
      case ToolUse(id, _, _) => id in results
      case ServerToolUse(id, _, _) => !EmptyCodeExecution(b) && id in ServerResultIds(m)
      case ServerToolResult(_, id, _) => id in LiveServerUseIds(m)
      case _ => true
  }

  function Surviving(uses: set<string>, results: set<string>, m: Message): Block -> bool {
    (b: Block) => Survives(uses, results, m, b)
  }

  function Cleaner(uses: set<string>, results: set<string>): Message -> Message {
    (m: Message) => m.(content := Filter(Surviving(uses, results, m), m.content))
  }

  function Cleaned(ms: seq<Message>): seq<Message> {
    Map(Cleaner(UseIds(ms), ResultIds(ms)), ms)
  }

  function Sanitized(ms: seq<Message>): seq<Message> {
    Filter(SystemOrNonEmpty, Cleaned(ms))
  }

  // ---- the passes -------------------------------------------------------

  function AnsweredCall(results: set<string>): Block -> bool {
    (b: Block) => b.ToolUse? ==> b.id in results
  }

  function CalledResult(uses: set<string>): Block -> bool {
    (b: Block) => b.ToolResult? ==> b.toolUseId in uses
  }

  predicate NotEmptyCodeExecution(b: Block) {
    !EmptyCodeExecution(b)
  }

  function ServerMatched(uses: set<string>, results: set<string>): Block -> bool {
    (b: Block) => (b.ServerToolUse? ==> b.id in results) && (b.ServerToolResult? ==> b.toolUseId in uses)
  }

  /** Passes 2 and 4: `retain` in every message of one role. */
  method RetainIn(ms: seq<Message>, role: Role, keep: Block -> bool) returns (out: seq<Message>)
    ensures |out| == |ms|
    ensures forall i :: 0 <= i < |ms| ==>
              out[i] == if ms[i].role == role then ms[i].(content := Filter(keep, ms[i].content)) else ms[i]
  {
    out := ms;
    for i := 0 to |ms|
      invariant |out| == |ms|
      invariant forall j :: i <= j < |ms| ==> out[j] == ms[j]
      invariant forall j :: 0 <= j < i ==>
                  out[j] == if ms[j].role == role then ms[j].(content := Filter(keep, ms[j].content)) else ms[j]
    {
      if out[i].role == role {
        out := out[i := out[i].(content := Filter(keep, out[i].content))];
      }
    }
  }

  function ServerClean(m: Message): Message {
    if m.role != Assistant then m
    else
      var m1 := m.(content := Filter(NotEmptyCodeExecution, m.content));
      m1.(content := Filter(ServerMatched(ServerUseIds(m1), ServerResultIds(m1)), m1.content))
  }

  /** Pass 5. */
  method SanitizeServerToolPairs(ms: seq<Message>) returns (out: seq<Message>)
    ensures |out| == |ms|
    ensures forall i :: 0 <= i < |ms| ==> out[i] == ServerClean(ms[i])
  {
    out := ms;
    for i := 0 to |ms|
      invariant |out| == |ms|
      invariant forall j :: i <= j < |ms| ==> out[j] == ms[j]
      invariant forall j :: 0 <= j < i ==> out[j] == ServerClean(ms[j])
    {
      var m := out[i];
      if m.role == Assistant {
        m := m.(content := Filter(NotEmptyCodeExecution, m.content));
        var useIds, resultIds := {}, {};
        for k := 0 to |m.content|
          invariant useIds == set b | b in m.content[..k] && b.ServerToolUse? :: b.id
          invariant resultIds == set b | b in m.content[..k] && b.ServerToolResult? :: b.toolUseId
        {
          assert m.content[..k + 1] == m.content[..k] + [m.content[k]];
          match m.content[k]
          case ServerToolResult(_, id, _) => resultIds := resultIds + {id};
          case ServerToolUse(id, _, _) => useIds := useIds + {id};
          case _ =>
        }
        assert m.content[..|m.content|] == m.content;
        m := m.(content := Filter(ServerMatched(useIds, resultIds), m.content));
        out := out[i := m];
      }
    }
  }

  /** The six passes in place compute the one-pass meaning. */
  method SanitizeToolPairs(messages: seq<Message>) returns (out: seq<Message>)
    ensures out == Sanitized(messages)
  {
    var toolUseIds := UseIds(messages);
    var ms2 := RetainIn(messages, User, CalledResult(toolUseIds));
    var toolResultIds := ResultIds(ms2);
    var ms4 := RetainIn(ms2, Assistant, AnsweredCall(toolResultIds));
    var ms5 := SanitizeServerToolPairs(ms4);
    RemainingResults(messages, ms2, toolUseIds);
    forall i | 0 <= i < |messages|
      ensures ms5[i] == Cleaned(messages)[i]
    {
      PassesCompose(messages, messages[i], toolResultIds);
    }
    assert ms5 == Cleaned(messages);
    out := Filter(SystemOrNonEmpty, ms5);
  }

  /** Pass 2 on one message leaves the results that have a call. */
  function WithCalledResults(uses: set<string>, m: Message): Message {
    if m.role == User then m.(content := Filter(CalledResult(uses), m.content)) else m
  }

  /** After pass 2 the answered ids are those both called and answered. */
  lemma RemainingResults(ms: seq<Message>, ms2: seq<Message>, uses: set<string>)
    requires |ms2| == |ms|
    requires forall i :: 0 <= i < |ms| ==> ms2[i] == WithCalledResults(uses, ms[i])
    ensures ResultIds(ms2) == ResultIds(ms) * uses
  {
    forall i | 0 <= i < |ms| {
      FilterIn(CalledResult(uses), ms[i].content);
    }
    forall id | id in ResultIds(ms) * uses ensures id in ResultIds(ms2) {
      var m, b :| m in ms && m.role == User && b in m.content && b.ToolResult? && b.toolUseId == id;
      var i :| 0 <= i < |ms| && ms[i] == m;
      assert b in ms2[i].content && ms2[i] in ms2;
    }
    forall id | id in ResultIds(ms2) ensures id in ResultIds(ms) * uses {
      var m, b :| m in ms2 && m.role == User && b in m.content && b.ToolResult? && b.toolUseId == id;
      var i :| 0 <= i < |ms2| && ms2[i] == m;
      assert b in ms[i].content && ms[i] in ms;
    }
  }

  /** What the passes do to one message is what `Cleaner` does. */
  lemma PassesCompose(ms: seq<Message>, m: Message, results: set<string>)
    requires m in ms && results == ResultIds(ms) * UseIds(ms)
    ensures m.role == User ==>
              m.(content := Filter(CalledResult(UseIds(ms)), m.content)) == Cleaner(UseIds(ms), ResultIds(ms))(m)
    ensures m.role == Assistant ==>
              ServerClean(m.(content := Filter(AnsweredCall(results), m.content)))
              == Cleaner(UseIds(ms), ResultIds(ms))(m)
    ensures m.role == System ==> m == Cleaner(UseIds(ms), ResultIds(ms))(m)
  {
    var keep := Surviving(UseIds(ms), ResultIds(ms), m);
    match m.role
    case System => FilterAll(keep, m.content);
    case User => FilterAgree(CalledResult(UseIds(ms)), keep, m.content);
    case Assistant =>
      assert forall b :: b in m.content && b.ToolUse? ==> b.id in UseIds(ms);
      AssistantPassesCompose(UseIds(ms), ResultIds(ms), m, results);
  }

  lemma AssistantPassesCompose(uses: set<string>, results: set<string>, m: Message, answered: set<string>)
    requires m.role == Assistant && answered == results * uses
    requires forall b :: b in m.content && b.ToolUse? ==> b.id in uses
    ensures ServerClean(m.(content := Filter(AnsweredCall(answered), m.content))) == Cleaner(uses, results)(m)
  {
    var c1 := Filter(AnsweredCall(answered), m.content);
    var m2 := m.(content := Filter(NotEmptyCodeExecution, c1));
    ServerIdsAfterStripping(m, answered, m2);
    var both := NonEmptyAnswered(answered);
    FilterFilter(NotEmptyCodeExecution, AnsweredCall(answered), both, m.content);
    FilterFilter(ServerMatched(ServerUseIds(m2), ServerResultIds(m2)), both, Surviving(uses, results, m), m.content);
  }

  function NonEmptyAnswered(answered: set<string>): Block -> bool {
    (b: Block) => AnsweredCall(answered)(b) && NotEmptyCodeExecution(b)
  }

  lemma ServerIdsAfterStripping(m: Message, answered: set<string>, m2: Message)
    requires m2 == m.(content := Filter(NotEmptyCodeExecution, Filter(AnsweredCall(answered), m.content)))
    ensures ServerUseIds(m2) == LiveServerUseIds(m) && ServerResultIds(m2) == ServerResultIds(m)
  {
    FilterIn(AnsweredCall(answered), m.content);
    FilterIn(NotEmptyCodeExecution, Filter(AnsweredCall(answered), m.content));
    assert forall b :: b in m2.content <==> b in m.content && NonEmptyAnswered(answered)(b);
  }

  // ---- what sanitising guarantees ---------------------------------------

  lemma CleanedContent(ms: seq<Message>, i: nat)
    requires i < |ms|
    ensures var m := Cleaned(ms)[i];
            && m.role == ms[i].role && m.id == ms[i].id
            && |m.content| <= |ms[i].content|
            && forall b :: b in m.content <==> b in ms[i].content && Survives(UseIds(ms), ResultIds(ms), ms[i], b)
  {
    FilterIn(Surviving(UseIds(ms), ResultIds(ms), ms[i]), ms[i].content);
  }

  /** No assistant message is left with a code execution without input. */
  lemma NoEmptyExecution(ms: seq<Message>, m: Message, b: Block)
    requires m in Sanitized(ms) && m.role == Assistant && b in m.content
    ensures b.ServerToolUse? && b.name == "code_execution" ==> b.input != Null && b.input != Obj(map[])
  {
    FilterIn(SystemOrNonEmpty, Cleaned(ms));
    var i :| 0 <= i < |ms| && Cleaned(ms)[i] == m;
    CleanedContent(ms, i);
  }

  predicate HasBlock(ms: seq<Message>, role: Role, b: Block) {
    exists m :: m in ms && m.role == role && b in m.content
  }

  predicate ClientSurvives(ms: seq<Message>, role: Role, b: Block) {
    || (role == Assistant && b.ToolUse? && b.id in ResultIds(ms))
    || (role == User && b.ToolResult? && b.toolUseId in UseIds(ms))
  }

  lemma LeftBlockSurvives(ms: seq<Message>, role: Role, b: Block)
    requires (role == Assistant && b.ToolUse?) || (role == User && b.ToolResult?)
    requires HasBlock(Sanitized(ms), role, b)
    ensures HasBlock(ms, role, b) && ClientSurvives(ms, role, b)
  {
    var m :| m in Sanitized(ms) && m.role == role && b in m.content;
    FilterIn(SystemOrNonEmpty, Cleaned(ms));
    var i :| 0 <= i < |ms| && Cleaned(ms)[i] == m;
    CleanedContent(ms, i);
    assert ms[i] in ms && b in ms[i].content;
  }

  lemma SurvivingBlockLeft(ms: seq<Message>, role: Role, b: Block)
    requires HasBlock(ms, role, b) && ClientSurvives(ms, role, b)
    ensures HasBlock(Sanitized(ms), role, b)
  {
    var m :| m in ms && m.role == role && b in m.content;
    var i :| 0 <= i < |ms| && ms[i] == m;
    CleanedContent(ms, i);
    var c := Cleaned(ms)[i];
    assert c in Cleaned(ms) && b in c.content;
    FilterIn(SystemOrNonEmpty, Cleaned(ms));
  }

  /** A client block is left in the conversation iff it was there and survives. */
  lemma ClientBlocksLeft(ms: seq<Message>, role: Role, b: Block)
    requires (role == Assistant && b.ToolUse?) || (role == User && b.ToolResult?)
    ensures HasBlock(Sanitized(ms), role, b) <==> HasBlock(ms, role, b) && ClientSurvives(ms, role, b)
  {
    if HasBlock(Sanitized(ms), role, b) {
      LeftBlockSurvives(ms, role, b);
    }
    if HasBlock(ms, role, b) && ClientSurvives(ms, role, b) {
      SurvivingBlockLeft(ms, role, b);
    }
  }

  lemma UseIdsByBlock(ms: seq<Message>, id: string)
    ensures id in UseIds(ms) <==> exists b: Block :: b.ToolUse? && b.id == id && HasBlock(ms, Assistant, b)
  {
    if id in UseIds(ms) {
      var m, b :| m in ms && m.role == Assistant && b in m.content && b.ToolUse? && b.id == id;
      assert HasBlock(ms, Assistant, b);
    }
  }

  lemma ResultIdsByBlock(ms: seq<Message>, id: string)
    ensures id in ResultIds(ms) <==> exists b: Block :: b.ToolResult? && b.toolUseId == id && HasBlock(ms, User, b)
  {
    if id in ResultIds(ms) {
      var m, b :| m in ms && m.role == User && b in m.content && b.ToolResult? && b.toolUseId == id;
      assert HasBlock(ms, User, b);
    }
  }

  /** The ids left in calls are those called and answered; likewise for results. */
  lemma SanitizedIds(ms: seq<Message>)
    ensures UseIds(Sanitized(ms)) == UseIds(ms) * ResultIds(ms) == ResultIds(Sanitized(ms))
  {
    forall id ensures id in UseIds(Sanitized(ms)) <==> id in UseIds(ms) * ResultIds(ms) {
      UseIdsByBlock(ms, id);
      UseIdsByBlock(Sanitized(ms), id);
      forall b: Block | b.ToolUse? { ClientBlocksLeft(ms, Assistant, b); }
    }
    forall id ensures id in ResultIds(Sanitized(ms)) <==> id in UseIds(ms) * ResultIds(ms) {
      ResultIdsByBlock(ms, id);
      ResultIdsByBlock(Sanitized(ms), id);
      forall b: Block | b.ToolResult? { ClientBlocksLeft(ms, User, b); }
    }
  }

  lemma CleanedServerPaired(ms: seq<Message>, i: nat)
    requires i < |ms|
    ensures ServerPaired(Cleaned(ms)[i])
    ensures forall b :: b in Cleaned(ms)[i].content && ms[i].role == Assistant ==> !EmptyCodeExecution(b)
  {
    CleanedContent(ms, i);
    var m, c := ms[i], Cleaned(ms)[i];
    if m.role == Assistant {
      forall id | id in ServerUseIds(c) ensures id in ServerResultIds(c) {
        var u :| u in c.content && u.ServerToolUse? && u.id == id;
        var r :| r in m.content && r.ServerToolResult? && r.toolUseId == id;
        assert r in c.content;
      }
      forall id | id in ServerResultIds(c) ensures id in ServerUseIds(c) {
        var r :| r in c.content && r.ServerToolResult? && r.toolUseId == id;
        var u :| u in m.content && u.ServerToolUse? && !EmptyCodeExecution(u) && u.id == id;
        assert u in c.content;
      }
    }
  }

  /** One call closes every pair and leaves no empty message. */
  lemma SanitizedIsClosed(ms: seq<Message>)
    ensures PairClosed(Sanitized(ms))
    ensures forall m :: m in Sanitized(ms) ==> SystemOrNonEmpty(m)
    ensures forall m, b :: m in Sanitized(ms) && m.role == Assistant && b in m.content ==> !EmptyCodeExecution(b)
  {
    var c := Cleaned(ms);
    SanitizedIds(ms);
    FilterIn(SystemOrNonEmpty, c);
    forall m | m in Sanitized(ms)
      ensures ServerPaired(m)
      ensures forall b :: b in m.content && m.role == Assistant ==> !EmptyCodeExecution(b)
    {
      var i :| 0 <= i < |c| && c[i] == m;
      CleanedServerPaired(ms, i);
    }
  }

  /** A closed conversation without empties or artefacts is left alone. */
  lemma ClosedIsFixed(ms: seq<Message>)
    requires PairClosed(ms)
    requires forall m :: m in ms ==> SystemOrNonEmpty(m)
    requires forall m, b :: m in ms && m.role == Assistant && b in m.content ==> !EmptyCodeExecution(b)
    ensures Sanitized(ms) == ms
  {
    forall i | 0 <= i < |ms| ensures Cleaned(ms)[i] == ms[i] {
      var m := ms[i];
      assert m in ms && ServerPaired(m);
      forall b | b in m.content ensures Survives(UseIds(ms), ResultIds(ms), m, b) {
        if m.role == Assistant && b.ToolUse? {
          assert b.id in UseIds(ms);
        } else if m.role == User && b.ToolResult? {
          assert b.toolUseId in ResultIds(ms);
        } else if m.role == Assistant && b.ServerToolUse? {
          assert b.id in ServerUseIds(m);
        } else if m.role == Assistant && b.ServerToolResult? {
          assert b.toolUseId in ServerUseIds(m);
          assert ServerUseIds(m) == LiveServerUseIds(m);
        }
      }
      FilterAll(Surviving(UseIds(ms), ResultIds(ms), m), m.content);
    }
    assert Cleaned(ms) == ms;
    FilterAll(SystemOrNonEmpty, ms);
  }

  lemma SanitizeTwice(ms: seq<Message>)
    ensures Sanitized(Sanitized(ms)) == Sanitized(ms)
  {
    SanitizedIsClosed(ms);
    ClosedIsFixed(Sanitized(ms));
  }

  /** The partner a block cannot stay without: same message for server
      blocks, any message of the other role for client blocks. */
  predicate Partner(m: Message, b: Block, m': Message, b': Block) {
    match m.role
    case System => true
    case User => b.ToolResult? ==> m'.role == Assistant && b'.ToolUse? && b'.id == b.toolUseId
    case Assistant =>
      match b
      case ToolUse(id, _, _) => m'.role == User && b'.ToolResult? && b'.toolUseId == id
      case ServerToolUse(id, _, _) => m' == m && b'.ServerToolResult? && b'.toolUseId == id
      case ServerToolResult(_, id, _) => m' == m && b'.ServerToolUse? && b'.id == id
      case _ => true
  }

  /** A choice of blocks of the conversation in which every chosen block has a
      chosen partner and no assistant artefact is chosen. */
  ghost predicate ClosedChoice(ms: seq<Message>, chosen: (Message, Block) -> bool) {
    forall m, b :: m in ms && b in m.content && chosen(m, b) ==>
      && HasChosenPartner(ms, chosen, m, b)
      && (m.role == Assistant && b.ServerToolUse? && b.name == "code_execution" ==>
            b.input != Null && b.input != Obj(map[]))
  }

  ghost predicate HasChosenPartner(ms: seq<Message>, chosen: (Message, Block) -> bool, m: Message, b: Block) {
    exists m', b' :: m' in ms && b' in m'.content && chosen(m', b') && Partner(m, b, m', b')
  }

  /** Nothing that could stay with its partner is removed: every closed choice
      of blocks is within the survivors. */
  lemma SurvivorsAreTheLargestClosedChoice(ms: seq<Message>, chosen: (Message, Block) -> bool, m: Message, b: Block)
    requires ClosedChoice(ms, chosen)
    requires m in ms && b in m.content && chosen(m, b)
    ensures Survives(UseIds(ms), ResultIds(ms), m, b)
  {
    assert HasChosenPartner(ms, chosen, m, b) && !(m.role == Assistant && EmptyCodeExecution(b));
    var m', b' :| m' in ms && b' in m'.content && chosen(m', b') && Partner(m, b, m', b');
    assert !(m'.role == Assistant && EmptyCodeExecution(b'));
    PartnerKeeps(ms, m, b, m', b');
  }

  lemma PartnerKeeps(ms: seq<Message>, m: Message, b: Block, m': Message, b': Block)
    requires m' in ms && b' in m'.content && Partner(m, b, m', b')
    requires !(m.role == Assistant && EmptyCodeExecution(b)) && !(m'.role == Assistant && EmptyCodeExecution(b'))
    ensures Survives(UseIds(ms), ResultIds(ms), m, b)
  {
    if m.role == User && b.ToolResult? {
      assert b'.id in UseIds(ms);
    } else if m.role == Assistant && b.ToolUse? {
      assert b'.toolUseId in ResultIds(ms);
    }
  }

  // ---- cost, system messages --------------------------------------------

  lemma SanitizeCostsLess(count: Counter, ms: seq<Message>)
    ensures TotalTokens(count, Sanitized(ms)) <= TotalTokens(count, ms)
  {
    var c := Cleaned(ms);
    forall i | 0 <= i < |ms| ensures MessageTokens(count, c[i]) <= MessageTokens(count, ms[i]) {
      FilterCostsLess(count, Surviving(UseIds(ms), ResultIds(ms), ms[i]), ms[i].content);
    }
    PointwiseCostsLess(count, c, ms);
    FilterMessagesCostsLess(count, SystemOrNonEmpty, c);
  }

  /** System messages pass through unchanged, in order. */
  lemma SanitizeKeepsSystems(ms: seq<Message>)
    ensures Systems(Sanitized(ms)) == Systems(ms)
  {
    CleanedSystems(ms, UseIds(ms), ResultIds(ms));
    FilterFilter(IsSystem, SystemOrNonEmpty, IsSystem, Cleaned(ms));
  }

  lemma {:induction false} CleanedSystems(ms: seq<Message>, uses: set<string>, results: set<string>)
    ensures Systems(Map(Cleaner(uses, results), ms)) == Systems(ms)
  {
    if ms != [] {
      var t, m := ms[..|ms| - 1], ms[|ms| - 1];
      CleanedSystems(t, uses, results);
      assert Map(Cleaner(uses, results), ms)[..|t|] == Map(Cleaner(uses, results), t);
      if m.role == System {
        FilterAll(Surviving(uses, results, m), m.content);
      }
    }
  }

  // ---- compaction -------------------------------------------------------

  /** Nothing lies between the system prefix and the messages to keep. */
  predicate TooShort(ms: seq<Message>, keepLast: nat) {
    |ms| <= keepLast + 1 || |ms| - SystemPrefix(ms) <= keepLast
  }

  function Compacted(ms: seq<Message>, keepLast: nat): seq<Message> {
    if TooShort(ms, keepLast) then ms
    else Sanitized(ms[..SystemPrefix(ms)] + ms[|ms| - keepLast..])
  }

  method CompactMessages(messages: seq<Message>, keepLast: nat) returns (out: seq<Message>)
    ensures out == Compacted(messages, keepLast)
  {
    out := messages;
    if |messages| <= keepLast + 1 {
      return;
    }
    var systemCount := SystemPrefix(messages);
    var nonSystemLen := |messages| - systemCount;
    if nonSystemLen <= keepLast {
      return;
    }
    var removeCount := nonSystemLen - keepLast;
    assert systemCount + removeCount == |messages| - keepLast;
    var kept := messages[..systemCount] + messages[systemCount + removeCount..];
    out := SanitizeToolPairs(kept);
  }

  /** The messages that compaction removes. */
  function CutOut(ms: seq<Message>, keepLast: nat): seq<Message> {
    if TooShort(ms, keepLast) then [] else ms[SystemPrefix(ms)..|ms| - keepLast]
  }

  lemma CutSystems(a: seq<Message>, b: seq<Message>, c: seq<Message>)
    ensures |Systems(a + c)| + |Systems(b)| == |Systems(a + b + c)|
    ensures Systems(b) == [] ==> Systems(a + c) == Systems(a + b + c)
  {
    FilterConcat(IsSystem, a + b, c);
    FilterConcat(IsSystem, a, b);
    FilterConcat(IsSystem, a, c);
  }

  lemma ShortStays(ms: seq<Message>, keepLast: nat)
    requires |ms| <= keepLast + 1 || |ms| <= SystemPrefix(ms) + keepLast
    ensures Compacted(ms, keepLast) == ms
  {
  }

  lemma CompactedIs(ms: seq<Message>, keepLast: nat, a: seq<Message>, c: seq<Message>)
    requires |ms| > keepLast + 1 && |ms| > SystemPrefix(ms) + keepLast
    requires a == ms[..SystemPrefix(ms)] && c == ms[|ms| - keepLast..]
    ensures Compacted(ms, keepLast) == Sanitized(a + c)
  {
  }

  lemma Thirds(s: seq<Message>, i: nat, j: nat)
    requires i <= j <= |s|
    ensures s == s[..i] + s[i..j] + s[j..]
  {
  }

  lemma CutOutIs(ms: seq<Message>, keepLast: nat, a: seq<Message>, c: seq<Message>)
    requires !TooShort(ms, keepLast) && a == ms[..SystemPrefix(ms)] && c == ms[|ms| - keepLast..]
    ensures ms == a + CutOut(ms, keepLast) + c
  {
    Thirds(ms, SystemPrefix(ms), |ms| - keepLast);
  }

  lemma CutSystemsSanitized(a: seq<Message>, b: seq<Message>, c: seq<Message>)
    ensures |Systems(Sanitized(a + c))| + |Systems(b)| == |Systems(a + b + c)|
    ensures Systems(b) == [] ==> Systems(Sanitized(a + c)) == Systems(a + b + c)
  {
    CutSystems(a, b, c);
    SanitizeKeepsSystems(a + c);
  }

  lemma CompactedSystems(ms: seq<Message>, keepLast: nat)
    ensures |Systems(Compacted(ms, keepLast))| + |Systems(CutOut(ms, keepLast))| == |Systems(ms)|
    ensures Systems(CutOut(ms, keepLast)) == [] ==> Systems(Compacted(ms, keepLast)) == Systems(ms)
  {
    if TooShort(ms, keepLast) {
      ShortStays(ms, keepLast);
      assert Systems([]) == [];
    } else {
      var a, c := ms[..SystemPrefix(ms)], ms[|ms| - keepLast..];
      CompactedIs(ms, keepLast, a, c);
      CutOutIs(ms, keepLast, a, c);
      CutSystemsSanitized(a, CutOut(ms, keepLast), c);
    }
  }

  /** Compaction keeps the system messages exactly if none lies in the stretch
      it removes; only the leading ones are safe. */
  lemma CompactionKeepsSystems(ms: seq<Message>, keepLast: nat)
    ensures Systems(Compacted(ms, keepLast)) == Systems(ms) <==>
              forall m :: m in CutOut(ms, keepLast) ==> m.role != System
  {
    CompactedSystems(ms, keepLast);
    NoSystems(CutOut(ms, keepLast));
  }

  lemma NoSystems(ms: seq<Message>)
    ensures Systems(ms) == [] <==> forall m :: m in ms ==> m.role != System
  {
    FilterIn(IsSystem, ms);
    if Systems(ms) != [] {
      assert Systems(ms)[0] in Systems(ms);
    }
  }
}
