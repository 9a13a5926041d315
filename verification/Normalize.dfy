/** Alternating, API-ready conversations (loopal-message/src/normalize.rs). */
module Normalize {
  import opened Prelude
  import opened Messages

  // ---- merging runs -----------------------------------------------------

  /** One more message: skipped, merged into the last one, or new. */
  function Absorb(result: seq<Message>, m: Message): seq<Message> {
    if m.role == System then result
    else if result != [] && result[|result| - 1].role == m.role then
      var last := result[|result| - 1];
      result[..|result| - 1] + [last.(content := last.content + m.content)]
    else result + [m]
  }

  function Runs(ms: seq<Message>): seq<Message> {
    if ms == [] then [] else Absorb(Runs(ms[..|ms| - 1]), ms[|ms| - 1])
  }

  // ---- block order ------------------------------------------------------

  predicate IsToolResult(b: Block) {
    b.ToolResult?
  }

  predicate NotToolResult(b: Block) {
    !b.ToolResult?
  }

  /** Index of the first tool result, or the length. */
  function FirstResult(bs: seq<Block>): (n: nat)
    ensures n <= |bs| && (n < |bs| ==> bs[n].ToolResult?)
    ensures forall k :: 0 <= k < n ==> !bs[k].ToolResult?
  {
    if bs == [] || bs[0].ToolResult? then 0 else 1 + FirstResult(bs[1..])
  }

  /** There is a tool result, and a text stands before the first one. */
  predicate TextFirst(bs: seq<Block>) {
    FirstResult(bs) < |bs| && exists i :: 0 <= i < FirstResult(bs) && bs[i].Text?
  }

  function Partitioned(bs: seq<Block>): seq<Block> {
    Filter(IsToolResult, bs) + Filter(NotToolResult, bs)
  }

  function Stabilized(bs: seq<Block>): seq<Block> {
    if TextFirst(bs) then Partitioned(bs) else bs
  }

  method StabilizeUserBlockOrder(blocks: seq<Block>) returns (out: seq<Block>)
    ensures out == Stabilized(blocks)
  {
    if |blocks| < 2 {
      return blocks;
    }
    var hasToolResult := exists b :: b in blocks && b.ToolResult?;
    var before := blocks[..FirstResult(blocks)];
    var hasTextBefore := exists b :: b in before && b.Text?;
    GuardsMeanTextFirst(blocks);
    if !hasToolResult || !hasTextBefore {
      return blocks;
    }
    var toolResults, rest := [], [];
    for i := 0 to |blocks|
      invariant toolResults == Filter(IsToolResult, blocks[..i])
      invariant rest == Filter(NotToolResult, blocks[..i])
    {
      assert blocks[..i + 1][..i] == blocks[..i];
      if blocks[i].ToolResult? {
        toolResults := toolResults + [blocks[i]];
      } else {
        rest := rest + [blocks[i]];
      }
    }
    assert blocks[..|blocks|] == blocks;
    out := toolResults + rest;
  }

  lemma GuardsMeanTextFirst(bs: seq<Block>)
    ensures TextFirst(bs) <==>
              (exists b :: b in bs && b.ToolResult?) && (exists b :: b in bs[..FirstResult(bs)] && b.Text?)
  {
    var n := FirstResult(bs);
    assert n < |bs| ==> bs[n] in bs;
    if b :| b in bs && b.ToolResult? {
      var j :| 0 <= j < |bs| && bs[j] == b;
      assert n <= j;
    }
    if t :| t in bs[..n] && t.Text? {
      var i :| 0 <= i < n && bs[i] == t;
    } else {
      assert forall i :: 0 <= i < n ==> bs[i] in bs[..n];
    }
  }

  function Tidy(m: Message): Message {
    if m.role == User then m.(content := Stabilized(m.content)) else m
  }

  function Normalized(ms: seq<Message>): seq<Message> {
    Map(Tidy, Runs(ms))
  }

  method NormalizeMessages(messages: seq<Message>) returns (result: seq<Message>)
    ensures result == Normalized(messages)
  {
    result := [];
    for i := 0 to |messages|
      invariant result == Runs(messages[..i])
    {
      assert messages[..i + 1][..i] == messages[..i];
      var msg := messages[i];
      if msg.role == System {
        continue;
      }
      if result != [] {
        var last := result[|result| - 1];
        if last.role == msg.role {
          result := result[..|result| - 1] + [last.(content := last.content + msg.content)];
          continue;
        }
      }
      result := result + [msg];
    }
    assert messages[..|messages|] == messages;
    ghost var runs := result;
    for i := 0 to |result|
      invariant |result| == |runs|
      invariant forall j :: i <= j < |runs| ==> result[j] == runs[j]
      invariant forall j :: 0 <= j < i ==> result[j] == Tidy(runs[j])
    {
      if result[i].role == User {
        var content := StabilizeUserBlockOrder(result[i].content);
        result := result[i := result[i].(content := content)];
      }
    }
  }

  // ---- what a normalised conversation looks like ------------------------

  /** No system message, and neighbours never share a role. */
  predicate Alternating(ms: seq<Message>) {
    && (forall i :: 0 <= i < |ms| ==> ms[i].role != System)
    && (forall i :: 0 < i < |ms| ==> ms[i - 1].role != ms[i].role)
  }

  lemma AbsorbAlternates(result: seq<Message>, m: Message)
    requires Alternating(result)
    ensures Alternating(Absorb(result, m))
  {
  }

  lemma {:induction false} RunsAlternate(ms: seq<Message>)
    ensures Alternating(Runs(ms))
  {
    if ms != [] {
      RunsAlternate(ms[..|ms| - 1]);
      AbsorbAlternates(Runs(ms[..|ms| - 1]), ms[|ms| - 1]);
    }
  }

  datatype Spoken = Spoken(role: Role, block: Block)

  function By(role: Role): Block -> Spoken {
    (b: Block) => Spoken(role, b)
  }

  /** What is said, block by block, with who says it; system text aside. */
  function Said(m: Message): seq<Spoken> {
    if m.role == System then [] else Map(By(m.role), m.content)
  }

  lemma SaidAbsorbed(result: seq<Message>, m: Message)
    ensures FlatMap(Said, Absorb(result, m)) == FlatMap(Said, result) + Said(m)
  {
    if m.role == System {
    } else if result != [] && result[|result| - 1].role == m.role {
      var last, front := result[|result| - 1], result[..|result| - 1];
      FlatMapLast(Said, front, last);
      FlatMapLast(Said, front, last.(content := last.content + m.content));
      assert front + [last] == result;
      assert Map(By(m.role), last.content + m.content) == Map(By(m.role), last.content) + Map(By(m.role), m.content);
    } else {
      FlatMapLast(Said, result, m);
    }
  }

  /** Merging loses nothing, adds nothing and moves nothing. */
  lemma {:induction false} RunsSayTheSame(ms: seq<Message>)
    ensures FlatMap(Said, Runs(ms)) == FlatMap(Said, ms)
  {
    if ms != [] {
      RunsSayTheSame(ms[..|ms| - 1]);
      SaidAbsorbed(Runs(ms[..|ms| - 1]), ms[|ms| - 1]);
    }
  }

  /** Whoever spoke last, system messages aside. */
  function LastSpeaker(ms: seq<Message>): Option<Role> {
    if ms == [] then None
    else
      var last := ms[|ms| - 1];
      if last.role == System then LastSpeaker(ms[..|ms| - 1]) else Some(last.role)
  }

  /** The messages that begin a run: neither a system message nor by whoever
      spoke before. */
  function Openers(ms: seq<Message>): seq<Message> {
    if ms == [] then []
    else
      var t, last := ms[..|ms| - 1], ms[|ms| - 1];
      Openers(t) + if last.role != System && LastSpeaker(t) != Some(last.role) then [last] else []
  }

  /** Each run has the id and the role of the message that begins it. */
  lemma {:induction false} RunsOpen(ms: seq<Message>)
    ensures var runs, openers := Runs(ms), Openers(ms);
            && |runs| == |openers|
            && forall i :: 0 <= i < |runs| ==> runs[i].id == openers[i].id && runs[i].role == openers[i].role
    ensures LastSpeaker(ms) == if Runs(ms) == [] then None else Some(Runs(ms)[|Runs(ms)| - 1].role)
  {
    if ms != [] {
      RunsOpen(ms[..|ms| - 1]);
    }
  }

  lemma PartitionedClasses(bs: seq<Block>)
    ensures Filter(IsToolResult, Partitioned(bs)) == Filter(IsToolResult, bs)
    ensures Filter(NotToolResult, Partitioned(bs)) == Filter(NotToolResult, bs)
    ensures !TextFirst(Partitioned(bs))
  {
    var t, r := Filter(IsToolResult, bs), Filter(NotToolResult, bs);
    FilterIn(IsToolResult, bs);
    FilterIn(NotToolResult, bs);
    FilterConcat(IsToolResult, t, r);
    FilterConcat(NotToolResult, t, r);
    FilterAll(IsToolResult, t);
    FilterNone(NotToolResult, t);
    FilterNone(IsToolResult, r);
    FilterAll(NotToolResult, r);
    forall j | 0 <= j < |t| ensures IsToolResult((t + r)[j]) {
      assert t[j] in t;
    }
    forall j | |t| <= j < |t + r| ensures NotToolResult((t + r)[j]) {
      assert r[j - |t|] in r;
    }
  }

  lemma {:induction false} ClassesMakeTheMultiset(bs: seq<Block>)
    ensures multiset(Filter(IsToolResult, bs)) + multiset(Filter(NotToolResult, bs)) == multiset(bs)
  {
    if bs != [] {
      var t, b := bs[..|bs| - 1], bs[|bs| - 1];
      ClassesMakeTheMultiset(t);
      assert bs == t + [b];
    }
  }

  /** The order is disturbed by a text with a tool result after it and none
      before it. */
  lemma TextFirstExactly(bs: seq<Block>)
    ensures TextFirst(bs) <==>
              exists i, j :: 0 <= i < j < |bs| && bs[i].Text? && bs[j].ToolResult? &&
                             forall k :: 0 <= k < i ==> !bs[k].ToolResult?
  {
    var n := FirstResult(bs);
    if i, j :| 0 <= i < j < |bs| && bs[i].Text? && bs[j].ToolResult? && forall k :: 0 <= k < i ==> !bs[k].ToolResult? {
      assert n <= j && i < n;
    }
  }

  /** Each message is a rearrangement of its run that keeps the order of the
      tool results and of everything else, and in user messages no text stands
      before the first tool result. */
  lemma NormalizedMessages(ms: seq<Message>, i: nat)
    requires i < |Normalized(ms)|
    ensures var out, run := Normalized(ms)[i], Runs(ms)[i];
            && out.role == run.role && out.id == run.id
            && Filter(IsToolResult, out.content) == Filter(IsToolResult, run.content)
            && Filter(NotToolResult, out.content) == Filter(NotToolResult, run.content)
            && multiset(out.content) == multiset(run.content)
            && (out.role == User ==> !TextFirst(out.content))
            && (out.role != User || !TextFirst(run.content) ==> out == run)
            && (out.role == User && TextFirst(run.content) ==>
                  out.content == Filter(IsToolResult, out.content) + Filter(NotToolResult, out.content))
  {
    var run := Runs(ms)[i];
    PartitionedClasses(run.content);
    ClassesMakeTheMultiset(run.content);
    ClassesMakeTheMultiset(Normalized(ms)[i].content);
  }

  lemma NormalizedAlternates(ms: seq<Message>)
    ensures Alternating(Normalized(ms))
  {
    RunsAlternate(ms);
    assert forall i :: 0 <= i < |Runs(ms)| ==> Normalized(ms)[i].role == Runs(ms)[i].role;
  }

  lemma {:induction false} AlternatingIsItsOwnRuns(ms: seq<Message>)
    requires Alternating(ms)
    ensures Runs(ms) == ms
  {
    if ms != [] {
      var t := ms[..|ms| - 1];
      AlternatingIsItsOwnRuns(t);
      assert ms == t + [ms[|ms| - 1]];
    }
  }

  /** Normalising twice is normalising once. */
  lemma NormalizeTwice(ms: seq<Message>)
    ensures Normalized(Normalized(ms)) == Normalized(ms)
  {
    var n := Normalized(ms);
    NormalizedAlternates(ms);
    AlternatingIsItsOwnRuns(n);
    forall i | 0 <= i < |n| ensures Tidy(n[i]) == n[i] {
      NormalizedMessages(ms, i);
    }
  }
}
