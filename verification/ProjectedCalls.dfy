/** What the projection of a conversation shows of its tool calls
    (loopal-protocol/src/projection.rs). */
module ProjectedCalls {
  import opened Prelude
  import opened JsonValues
  import opened Messages
  import opened Projection

  // ---- whose results a call gets ----------------------------------------

  /** The id is used again, or a completion is promoted, among these blocks. */
  predicate Lost(known: set<string>, bs: seq<Block>, id: string)
    decreases bs
  {
    bs != [] && (Takes(known, bs[0], id) || Lost(Knowing(known, bs[0]), bs[1..], id))
  }

  lemma {:induction false} LostExactly(known: set<string>, bs: seq<Block>, id: string)
    ensures Lost(known, bs, id) <==>
              exists j :: 0 <= j < |bs| && Takes(known + IdsUsed(bs[..j]), bs[j], id)
    decreases bs
  {
    if bs != [] {
      var b, rest, known' := bs[0], bs[1..], Knowing(known, bs[0]);
      LostExactly(known', rest, id);
      assert known + IdsUsed(bs[..0]) == known;
      forall j | 0 <= j < |rest|
        ensures Takes(known' + IdsUsed(rest[..j]), rest[j], id) <==>
                  Takes(known + IdsUsed(bs[..j + 1]), bs[j + 1], id)
      {
        IdsOfFirst(bs[..j + 1]);
        assert bs[..j + 1][1..] == rest[..j];
        assert known' + IdsUsed(rest[..j]) == known + IdsUsed(bs[..j + 1]);
      }
      if j :| 0 <= j < |rest| && Takes(known' + IdsUsed(rest[..j]), rest[j], id) {
        assert Takes(known + IdsUsed(bs[..j + 1]), bs[j + 1], id);
      }
      if j :| 0 < j < |bs| && Takes(known + IdsUsed(bs[..j]), bs[j], id) {
        assert Takes(known' + IdsUsed(rest[..j - 1]), rest[j - 1], id);
      }
    }
  }

  /** No server result for the id. */
  predicate NoServerResult(bs: seq<Block>, id: string) {
    forall b :: b in bs ==> !(b.ServerToolResult? && b.toolUseId == id)
  }

  /** A call of the message being read keeps its place, and keeps its
      ownership exactly if it is not lost in the rest of the message. */
  lemma {:induction false} OwnersRead(render: Render, known: set<string>, live: seq<Live>, bs: seq<Block>, t: nat)
    requires t < |live|
    ensures var r := LiveBlocks(render, known, live, bs);
            && t < |r| && r[t].owner == (live[t].owner && !Lost(known, bs, live[t].call.id))
            && r[t].call == live[t].call.(result := r[t].call.result)
            && (NoServerResult(bs, live[t].call.id) ==> r[t].call == live[t].call)
    decreases bs
  {
    if bs != [] {
      assert bs[0] in bs && forall b :: b in bs[1..] ==> b in bs;
      OwnersRead(render, Knowing(known, bs[0]), LiveBlock(render, known, live, bs[0]), bs[1..], t);
    }
  }

  // ---- results from the server ------------------------------------------

  predicate IsCall(b: Block) {
    b.ToolUse? || b.ServerToolUse?
  }

  /** The blocks before another call with the id, of either kind. */
  function BeforeCallAgain(id: string, bs: seq<Block>): seq<Block> {
    if bs == [] || (IsCall(bs[0]) && bs[0].id == id) then [] else [bs[0]] + BeforeCallAgain(id, bs[1..])
  }

  /** The text of a server result: its text member if it has one, else the
      whole value. */
  function ServerText(render: Render, payload: Json): string {
    if payload.Obj? && "text" in payload.fields && payload.fields["text"].Str? then payload.fields["text"].s
    else render(payload)
  }

  /** Text of the last server result for the id. */
  function LastServerText(render: Render, id: string, bs: seq<Block>): Option<string> {
    if bs == [] then None
    else
      var b := bs[|bs| - 1];
      if b.ServerToolResult? && b.toolUseId == id then Some(ServerText(render, b.payload))
      else LastServerText(render, id, bs[..|bs| - 1])
  }

  /** No later call has the id of call `t`. */
  predicate IsLast(calls: seq<ProjectedToolCall>, t: nat)
    requires t < |calls|
  {
    forall u :: t < u < |calls| ==> calls[u].id != calls[t].id
  }

  lemma {:induction false} AnsweredAt(calls: seq<ProjectedToolCall>, id: string, text: string, t: nat)
    requires t < |calls|
    ensures ServerAnswered(calls, id, text)[t] ==
              if calls[t].id == id && IsLast(calls, t) then calls[t].(result := Some(text)) else calls[t]
  {
    var before, last := calls[..|calls| - 1], calls[|calls| - 1];
    if t < |calls| - 1 {
      if last.id != id {
        AnsweredAt(before, id, text, t);
        assert calls[t].id == id ==> (IsLast(calls, t) <==> IsLast(before, t));
      }
    }
  }

  lemma {:induction false} LastServerTextFirst(render: Render, id: string, bs: seq<Block>)
    requires bs != []
    ensures LastServerText(render, id, bs) ==
              OrElse(LastServerText(render, id, bs[1..]), LastServerText(render, id, [bs[0]]))
  {
    if |bs| > 1 {
      var t := bs[..|bs| - 1];
      LastServerTextFirst(render, id, t);
      assert bs[1..][..|bs| - 2] == t[1..];
    } else {
      assert bs == [bs[0]];
    }
  }

  /** What one block does to the result of a call read before it. */
  lemma ResultStep(render: Render, live: seq<Live>, known: set<string>, b: Block, t: nat)
    requires t < |live|
    ensures var calls, next := Map(CallOf, live), Map(CallOf, LiveBlock(render, known, live, b));
            && t < |next|
            && next[t].result == (if IsLast(calls, t)
                                  then OrElse(LastServerText(render, calls[t].id, [b]), calls[t].result)
                                  else calls[t].result)
            && (IsLast(next, t) <==> IsLast(calls, t) && !(IsCall(b) && b.id == calls[t].id))
  {
    var calls := Map(CallOf, live);
    assert [b][..0] == [];
    if b.ServerToolResult? {
      AnsweredAt(calls, b.toolUseId, FormatServerToolContent(render, b.payload), t);
    }
    var next := Map(CallOf, LiveBlock(render, known, live, b));
    assert next == ReadCalls(render, calls, b);
    assert forall u :: 0 <= u < |calls| ==> next[u].id == calls[u].id;
    if IsCall(b) {
      assert next[|calls|].id == b.id;
    }
  }

  /** A call gets the text of the last server result for its id up to the next
      call with that id, if it is the last one with it. */
  lemma {:induction false} ServerResultRead(render: Render, known: set<string>, live: seq<Live>, bs: seq<Block>, t: nat)
    requires t < |live|
    ensures var c, r := live[t].call, LiveBlocks(render, known, live, bs);
            && t < |r|
            && r[t].call.result ==
                 if IsLast(Map(CallOf, live), t)
                 then OrElse(LastServerText(render, c.id, BeforeCallAgain(c.id, bs)), c.result) else c.result
    decreases bs
  {
    if bs != [] {
      var id, next := live[t].call.id, LiveBlock(render, known, live, bs[0]);
      ResultStep(render, live, known, bs[0], t);
      OwnersRead(render, known, live, [bs[0]], t);
      assert [bs[0]][1..] == [] && Map(CallOf, next)[t] == next[t].call && next[t].call.id == id;
      ServerResultRead(render, Knowing(known, bs[0]), next, bs[1..], t);
      if !(IsCall(bs[0]) && bs[0].id == id) {
        var p := BeforeCallAgain(id, bs);
        assert p[1..] == BeforeCallAgain(id, bs[1..]) && p[0] == bs[0];
        LastServerTextFirst(render, id, p);
      }
    }
  }

  /** Reading on from where some blocks of the message have led. */
  lemma {:induction false} LiveBlocksConcat(render: Render, known: set<string>, live: seq<Live>, a: seq<Block>,
                                            b: seq<Block>)
    ensures LiveBlocks(render, known, live, a + b)
         == LiveBlocks(render, known + IdsUsed(a), LiveBlocks(render, known, live, a), b)
    decreases a
  {
    if a == [] {
      assert a + b == b && known + IdsUsed(a) == known;
    } else {
      assert (a + b)[1..] == a[1..] + b;
      LiveBlocksConcat(render, Knowing(known, a[0]), LiveBlock(render, known, live, a[0]), a[1..], b);
      IdsOfFirst(a);
      assert Knowing(known, a[0]) + IdsUsed(a[1..]) == known + IdsUsed(a);
    }
  }

  function CallCount(bs: seq<Block>): nat {
    if bs == [] then 0 else (if IsCall(bs[0]) then 1 else 0) + CallCount(bs[1..])
  }

  lemma {:induction false} CallCountConcat(a: seq<Block>, b: seq<Block>)
    ensures CallCount(a + b) == CallCount(a) + CallCount(b)
  {
    if a == [] {
      assert a + b == b;
    } else {
      assert (a + b)[1..] == a[1..] + b;
      CallCountConcat(a[1..], b);
    }
  }

  lemma {:induction false} LiveCount(render: Render, known: set<string>, live: seq<Live>, bs: seq<Block>)
    ensures |LiveBlocks(render, known, live, bs)| == |live| + CallCount(bs)
    decreases bs
  {
    if bs != [] {
      LiveCount(render, Knowing(known, bs[0]), LiveBlock(render, known, live, bs[0]), bs[1..]);
    }
  }

  /** The call itself in brief: its name and the start of its input. */
  function Summary(render: Render, name: string, input: Json): string {
    var text := render(input);
    name + "(" + (if |text| > 60 then text[..57] + "..." else text) + ")"
  }

  /** How a call is shown. A client call has its results looked up in the later
      messages, unless it was lost in the rest of its own; the server's results
      are those in its own message. */
  function ShownCall(render: Render, known: set<string>, use: Block, rest: seq<Block>, later: seq<Block>)
    : ProjectedToolCall
    requires IsCall(use)
  {
    var c := ProjectedToolCall(use.id, use.name, Summary(render, use.name, use.input),
                               LastServerText(render, use.id, BeforeCallAgain(use.id, rest)), false, use.input);
    if use.ServerToolUse? || Lost(Knowing(known, use), rest, use.id) then c
    else Resolved(c, BeforeReuse(use.id, later))
  }

  /** The call made by a block of a message, among the calls of the message. */
  lemma OwnCallAt(render: Render, known: set<string>, bs: seq<Block>, j: nat, later: seq<Block>)
    requires j < |bs| && IsCall(bs[j])
    ensures var calls := Map(Settled(later), LiveBlocks(render, known, [], bs));
            var n := CallCount(bs[..j]);
            && n < |calls|
            && calls[n] == ShownCall(render, known + IdsUsed(bs[..j]), bs[j], bs[j + 1..], later)
  {
    var a, use, rest := bs[..j], bs[j], bs[j + 1..];
    assert bs == a + ([use] + rest);
    LiveBlocksConcat(render, known, [], a, [use] + rest);
    LiveCount(render, known, [], a);
    UseIsNext(render, known + IdsUsed(a), LiveBlocks(render, known, [], a), use, rest);
  }

  /** A call that is read comes after those before it, and owns its id as long
      as it is not lost. */
  lemma UseIsNext(render: Render, known: set<string>, before: seq<Live>, use: Block, rest: seq<Block>)
    requires IsCall(use)
    ensures var r, n := LiveBlocks(render, known, before, [use] + rest), |before|;
            && n < |r| && r[n].owner == (use.ToolUse? && !Lost(Knowing(known, use), rest, use.id))
            && r[n].call == ProjectedToolCall(use.id, use.name, Summary(render, use.name, use.input),
                                              LastServerText(render, use.id, BeforeCallAgain(use.id, rest)), false,
                                              use.input)
  {
    assert ([use] + rest)[1..] == rest;
    var next := LiveBlock(render, known, before, use);
    OwnersRead(render, Knowing(known, use), next, rest, |before|);
    ServerResultRead(render, Knowing(known, use), next, rest, |before|);
    assert IsLast(Map(CallOf, next), |before|);
  }

  lemma {:induction false} NoServerText(render: Render, id: string, bs: seq<Block>)
    requires NoServerResult(bs, id)
    ensures LastServerText(render, id, BeforeCallAgain(id, bs)) == None
  {
    var p := BeforeCallAgain(id, bs);
    BeforeCallAgainIn(id, bs);
    NoServerTextIn(render, id, p);
  }

  lemma {:induction false} BeforeCallAgainIn(id: string, bs: seq<Block>)
    ensures forall b :: b in BeforeCallAgain(id, bs) ==> b in bs
  {
    if bs != [] {
      BeforeCallAgainIn(id, bs[1..]);
    }
  }

  lemma {:induction false} NoServerTextIn(render: Render, id: string, bs: seq<Block>)
    requires NoServerResult(bs, id)
    ensures LastServerText(render, id, bs) == None
  {
    if bs != [] {
      NoServerTextIn(render, id, bs[..|bs| - 1]);
    }
  }

  /** All calls of a projection, message by message. */
  function CallsShown(m: ProjectedMessage): seq<ProjectedToolCall> {
    m.toolCalls
  }

  function AllCalls(out: seq<ProjectedMessage>): seq<ProjectedToolCall> {
    FlatMap(CallsShown, out)
  }

  lemma {:induction false} PromotionsShowNoCalls(bs: seq<Block>, known: set<string>)
    ensures AllCalls(Promotions(bs, known)) == []
  {
    if bs != [] {
      var p, q := Promotions(bs, known), Promotions(bs[1..], Knowing(known, bs[0]));
      PromotionsShowNoCalls(bs[1..], Knowing(known, bs[0]));
      if Promotes(known, bs[0]) {
        var m := PromotedMessage(bs[0].content);
        assert p == [m] + q;
        FlatMapConcat(CallsShown, [m], q);
        FlatMapOne(CallsShown, m);
      } else {
        assert p == q;
      }
    }
  }

  /** The owners' list and the plain one hold the same calls. */
  lemma {:induction false} LiveCallsAreRead(render: Render, known: set<string>, live: seq<Live>, c: Current,
                                            bs: seq<Block>)
    requires c.calls == Map(CallOf, live)
    ensures Map(CallOf, LiveBlocks(render, known, live, bs)) == ReadBlocks(render, c, bs).calls
    decreases bs
  {
    if bs != [] {
      var live', c' := LiveBlock(render, known, live, bs[0]), ReadBlock(render, c, bs[0]);
      assert Map(CallOf, live') == c'.calls;
      LiveCallsAreRead(render, Knowing(known, bs[0]), live', c', bs[1..]);
    }
  }

  lemma OwnCalls(render: Render, known: set<string>, m: Message, later: seq<Block>)
    ensures AllCalls(Own(render, known, m, later)) == Map(Settled(later), LiveBlocks(render, known, [], m.content))
  {
    var live := LiveBlocks(render, known, [], m.content);
    LiveCallsAreRead(render, known, [], Blank, m.content);
    var own := Own(render, known, m, later);
    if own == [] {
      assert |live| == 0;
    } else {
      FlatMapOne(CallsShown, own[0]);
    }
  }

  lemma FirstMessageCalls(render: Render, ms: seq<Message>, known: set<string>)
    requires ms != []
    ensures AllCalls(LookedUp(render, ms, known)) ==
              Map(Settled(BlocksOf(ms[1..])), LiveBlocks(render, known, [], ms[0].content))
              + AllCalls(LookedUp(render, ms[1..], known + IdsUsed(ms[0].content)))
  {
    var p, own := Promotions(ms[0].content, known), Own(render, known, ms[0], BlocksOf(ms[1..]));
    var rest := LookedUp(render, ms[1..], known + IdsUsed(ms[0].content));
    FlatMapConcat(CallsShown, p + own, rest);
    FlatMapConcat(CallsShown, p, own);
    PromotionsShowNoCalls(ms[0].content, known);
    OwnCalls(render, known, ms[0], BlocksOf(ms[1..]));
  }

  /** Block `j` of message `i` makes the call number `Number(ms, i, j)`. */
  function Number(ms: seq<Message>, i: nat, j: nat): nat
    requires i < |ms| && j <= |ms[i].content|
  {
    CallCount(BlocksOf(ms[..i])) + CallCount(ms[i].content[..j])
  }

  lemma NumberAfterFirst(ms: seq<Message>, i: nat, j: nat)
    requires 0 < i < |ms| && j <= |ms[i].content|
    ensures Number(ms, i, j) == CallCount(ms[0].content) + Number(ms[1..], i - 1, j)
    ensures IdsUsed(BlocksOf(ms[..i])) == IdsUsed(ms[0].content) + IdsUsed(BlocksOf(ms[1..][..i - 1]))
  {
    assert ms[..i][0] == ms[0] && ms[..i][1..] == ms[1..][..i - 1];
    CallCountConcat(ms[0].content, BlocksOf(ms[1..][..i - 1]));
  }

  predicate CallIsShown(render: Render, calls: seq<ProjectedToolCall>, ms: seq<Message>, known: set<string>,
                        i: nat, j: nat)
    requires i < |ms| && j < |ms[i].content| && IsCall(ms[i].content[j])
  {
    var n, bs := Number(ms, i, j), ms[i].content;
    && n < |calls|
    && calls[n] == ShownCall(render, known + IdsUsed(BlocksOf(ms[..i])) + IdsUsed(bs[..j]), bs[j], bs[j + 1..],
                             BlocksOf(ms[i + 1..]))
  }

  lemma ShownAfterFirst(render: Render, first: seq<ProjectedToolCall>, calls: seq<ProjectedToolCall>,
                        ms: seq<Message>, known: set<string>, i: nat, j: nat)
    requires 0 < i < |ms| && j < |ms[i].content| && IsCall(ms[i].content[j])
    requires |first| == CallCount(ms[0].content)
    requires CallIsShown(render, calls, ms[1..], known + IdsUsed(ms[0].content), i - 1, j)
    ensures CallIsShown(render, first + calls, ms, known, i, j)
  {
    NumberAfterFirst(ms, i, j);
    var n := Number(ms[1..], i - 1, j);
    assert (first + calls)[|first| + n] == calls[n];
    assert ms[1..][i..] == ms[i + 1..];
    assert known + IdsUsed(ms[0].content) + IdsUsed(BlocksOf(ms[1..][..i - 1])) == known + IdsUsed(BlocksOf(ms[..i]));
  }

  lemma ShownInFirst(render: Render, calls: seq<ProjectedToolCall>, ms: seq<Message>, known: set<string>, j: nat)
    requires ms != [] && j < |ms[0].content| && IsCall(ms[0].content[j])
    requires Map(Settled(BlocksOf(ms[1..])), LiveBlocks(render, known, [], ms[0].content)) <= calls
    ensures CallIsShown(render, calls, ms, known, 0, j)
  {
    var bs := ms[0].content;
    OwnCallAt(render, known, bs, j, BlocksOf(ms[1..]));
    var none := BlocksOf(ms[..0]);
    assert none == [] && Number(ms, 0, j) == CallCount(bs[..j]);
    assert known + IdsUsed(none) + IdsUsed(bs[..j]) == known + IdsUsed(bs[..j]);
  }

  lemma {:induction false} LookedUpCallAt(render: Render, ms: seq<Message>, known: set<string>, i: nat, j: nat)
    requires i < |ms| && j < |ms[i].content| && IsCall(ms[i].content[j])
    ensures CallIsShown(render, AllCalls(LookedUp(render, ms, known)), ms, known, i, j)
    decreases i
  {
    var bs, known' := ms[0].content, known + IdsUsed(ms[0].content);
    var first := Map(Settled(BlocksOf(ms[1..])), LiveBlocks(render, known, [], bs));
    var calls := AllCalls(LookedUp(render, ms[1..], known'));
    FirstMessageCalls(render, ms, known);
    if i == 0 {
      ShownInFirst(render, first + calls, ms, known, j);
    } else {
      LiveCount(render, known, [], bs);
      LookedUpCallAt(render, ms[1..], known', i - 1, j);
      ShownAfterFirst(render, first, calls, ms, known, i, j);
    }
  }

  lemma {:induction false} LookedUpCallCount(render: Render, ms: seq<Message>, known: set<string>)
    ensures |AllCalls(LookedUp(render, ms, known))| == CallCount(BlocksOf(ms))
  {
    if ms != [] {
      FirstMessageCalls(render, ms, known);
      LiveCount(render, known, [], ms[0].content);
      LookedUpCallCount(render, ms[1..], known + IdsUsed(ms[0].content));
      CallCountConcat(ms[0].content, BlocksOf(ms[1..]));
    }
  }

  /** The calls of the projection are those of the conversation, one for one
      and in order, with their name, summary and input; each client call shows
      its looked-up results, unless a later block of its own message took them
      from it, and each server call the server's. */
  lemma EveryCallIsShown(render: Render, ms: seq<Message>, i: nat, j: nat)
    requires i < |ms| && j < |ms[i].content| && IsCall(ms[i].content[j])
    ensures |AllCalls(Indexed(render, ms))| == CallCount(BlocksOf(ms))
    ensures CallIsShown(render, AllCalls(Indexed(render, ms)), ms, {}, i, j)
  {
    IndexAgreesWithLookup(render, ms);
    LookedUpCallCount(render, ms, {});
    LookedUpCallAt(render, ms, {}, i, j);
  }

  /** The ids used up to and with block `j` of message `i`. */
  function IdsBy(ms: seq<Message>, i: nat, j: nat): set<string>
    requires i < |ms| && j < |ms[i].content|
  {
    IdsUsed(BlocksOf(ms[..i])) + IdsUsed(ms[i].content[..j]) + IdsUsed([ms[i].content[j]])
  }

  /** A client call of the conversation shows the text of the last
      non-completion result for its id in a later message (up to the next use
      of the id), exactly if there is none or the call was not lost in its own
      message. So a completion promoted out of a message makes it drop the
      results of the calls before it. */
  lemma ResultExactly(render: Render, ms: seq<Message>, i: nat, j: nat)
    requires i < |ms| && j < |ms[i].content| && ms[i].content[j].ToolUse?
    requires NoServerResult(ms[i].content[j + 1..], ms[i].content[j].id)
    ensures var calls, n := AllCalls(Indexed(render, ms)), Number(ms, i, j);
            var id := ms[i].content[j].id;
            var text := LastText(id, BeforeReuse(id, BlocksOf(ms[i + 1..])));
            && n < |calls| && calls[n].id == id
            && (calls[n].result == text <==> text == None || !Lost(IdsBy(ms, i, j), ms[i].content[j + 1..], id))
  {
    EveryCallIsShown(render, ms, i, j);
    NoServerText(render, ms[i].content[j].id, ms[i].content[j + 1..]);
    var use := ms[i].content[j];
    var before := IdsUsed(BlocksOf(ms[..i])) + IdsUsed(ms[i].content[..j]);
    assert IdsUsed([use]) == {use.id};
    assert Knowing({} + IdsUsed(BlocksOf(ms[..i])) + IdsUsed(ms[i].content[..j]), use) == IdsBy(ms, i, j);
  }

  // ---- conversations with distinct ids ----------------------------------

  /** No two tool uses share an id, and no server result has one of theirs. */
  predicate DistinctIds(bs: seq<Block>) {
    && (forall i, j :: 0 <= i < j < |bs| && bs[i].ToolUse? && bs[j].ToolUse? ==> bs[i].id != bs[j].id)
    && (forall b :: b in bs && b.ServerToolResult? ==> b.toolUseId !in IdsUsed(bs))
  }

  /** No message holds both a tool use and a completion. */
  predicate Unmixed(m: Message) {
    forall b, c :: b in m.content && c in m.content && b.ToolUse? ==> !(c.ToolResult? && c.isCompletion)
  }

  lemma {:induction false} BlocksConcat(a: seq<Message>, b: seq<Message>)
    ensures BlocksOf(a + b) == BlocksOf(a) + BlocksOf(b)
  {
    if a == [] {
      assert a + b == b;
    } else {
      assert (a + b)[1..] == a[1..] + b;
      BlocksConcat(a[1..], b);
    }
  }

  lemma {:induction false} NeverReused(id: string, bs: seq<Block>)
    requires forall b :: b in bs ==> !(b.ToolUse? && b.id == id)
    ensures BeforeReuse(id, bs) == bs
  {
    if bs != [] {
      NeverReused(id, bs[1..]);
    }
  }

  /** Where a block stands in the conversation. */
  lemma BlockSplit(ms: seq<Message>, i: nat, j: nat)
    requires i < |ms| && j < |ms[i].content|
    ensures BlocksOf(ms) == BlocksOf(ms[..i]) + ms[i].content[..j] + [ms[i].content[j]]
                            + (ms[i].content[j + 1..] + BlocksOf(ms[i + 1..]))
  {
    assert ms == ms[..i] + ([ms[i]] + ms[i + 1..]);
    BlocksConcat(ms[..i], [ms[i]] + ms[i + 1..]);
    assert ([ms[i]] + ms[i + 1..])[1..] == ms[i + 1..];
    assert ms[i].content == ms[i].content[..j] + [ms[i].content[j]] + ms[i].content[j + 1..];
  }

  /** What follows a tool use neither uses its id again nor answers it from
      the server. */
  lemma DistinctAfter(pre: seq<Block>, use: Block, post: seq<Block>)
    requires use.ToolUse? && DistinctIds(pre + [use] + post)
    ensures forall b :: b in post ==> !(b.ToolUse? && b.id == use.id)
    ensures NoServerResult(post, use.id)
  {
    var bs := pre + [use] + post;
    assert bs[|pre|] == use && use in bs && use.id in IdsUsed(bs);
    forall b | b in post ensures b in bs && !(b.ToolUse? && b.id == use.id) {
      var k :| 0 <= k < |post| && post[k] == b;
      assert bs[|pre| + 1 + k] == b;
    }
  }

  /** With distinct ids and unmixed messages every client call shows the text
      of the last non-completion result for its id in a later message, or
      none, and is marked as failed iff the last result of any kind was. */
  lemma DistinctIdsShowResults(render: Render, ms: seq<Message>, i: nat, j: nat)
    requires DistinctIds(BlocksOf(ms)) && forall m :: m in ms ==> Unmixed(m)
    requires i < |ms| && j < |ms[i].content| && ms[i].content[j].ToolUse?
    ensures var calls, n := AllCalls(Indexed(render, ms)), Number(ms, i, j);
            var use, later := ms[i].content[j], BlocksOf(ms[i + 1..]);
            && n < |calls| && calls[n].id == use.id && calls[n].name == use.name && calls[n].input == use.input
            && calls[n].result == LastText(use.id, later)
            && (calls[n].isError <==> LastFlag(use.id, later) == Some(true))
  {
    var use, rest, later := ms[i].content[j], ms[i].content[j + 1..], BlocksOf(ms[i + 1..]);
    var pre := BlocksOf(ms[..i]) + ms[i].content[..j];
    BlockSplit(ms, i, j);
    DistinctAfter(pre, use, rest + later);
    assert forall b :: b in rest ==> b in rest + later;
    assert forall b :: b in later ==> b in rest + later;
    NeverReused(use.id, later);
    EveryCallIsShown(render, ms, i, j);
    assert ms[i] in ms && use in ms[i].content && forall b :: b in rest ==> b in ms[i].content;
    NoServerText(render, use.id, rest);
    NothingLost({} + IdsUsed(BlocksOf(ms[..i])) + IdsUsed(ms[i].content[..j]), use, rest);
  }

  lemma NothingLost(known: set<string>, use: Block, rest: seq<Block>)
    requires use.ToolUse?
    requires forall b :: b in rest ==> !(b.ToolUse? && b.id == use.id) && !(b.ToolResult? && b.isCompletion)
    ensures !Lost(Knowing(known, use), rest, use.id)
  {
    LostExactly(Knowing(known, use), rest, use.id);
    assert forall j :: 0 <= j < |rest| ==> rest[j] in rest;
  }

  lemma OneBlock(render: Render, w: Work, b: Block)
    ensures StepBlocks(render, w, [b]) == StepBlock(render, w, b)
  {
    assert [b][1..] == [];
  }

  lemma TwoBlocks(render: Render, w: Work, b: Block, c: Block)
    ensures StepBlocks(render, w, [b, c]) == StepBlock(render, StepBlock(render, w, b), c)
  {
    assert [b, c][1..] == [c];
    OneBlock(render, StepBlock(render, w, b), c);
  }

  lemma ThreeMessages(render: Render, w: Work, a: Message, b: Message, c: Message)
    ensures StepMessages(render, w, [a, b, c])
         == StepMessage(render, StepMessage(render, StepMessage(render, w, a), b), c)
  {
    var w1 := StepMessage(render, w, a);
    var w2 := StepMessage(render, w1, b);
    assert [a, b, c][1..] == [b, c] && [b, c][1..] == [c] && [c][1..] == [];
    assert StepMessages(render, w1, [b, c]) == StepMessages(render, w2, [c]);
    assert StepMessages(render, w2, [c]) == StepMessage(render, w2, c);
  }

  /** The smallest conversations that lose a result: a call stands before the
      completion of another in one message, and its own result comes after. */
  lemma ResultLost(render: Render, done: Block, call: Block, completion: Block, result: Block)
    requires done.ToolUse? && call.ToolUse? && call.id != done.id
    requires ResultFor(done.id, completion) && completion.isCompletion
    requires ResultFor(call.id, result) && !result.isCompletion
    ensures var ms := [Message(None, Assistant, [done]), Message(None, Assistant, [call, completion]),
                       Message(None, User, [result])];
            var out := Indexed(render, ms);
            |out| == 3 && out[2].toolCalls == [NewCall(render, call.id, call.name, call.input)]
  {
    var m0, m1, m2 := Message(None, Assistant, [done]), Message(None, Assistant, [call, completion]),
                      Message(None, User, [result]);
    var w1 := StepMessage(render, Start, m0);
    OneBlock(render, Start, done);
    var w2 := StepMessage(render, w1, m1);
    TwoBlocks(render, w1, call, completion);
    var w3 := StepMessage(render, w2, m2);
    OneBlock(render, w2, result);
    ThreeMessages(render, Start, m0, m1, m2);
  }
}
