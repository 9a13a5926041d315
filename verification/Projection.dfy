/** Projection of a conversation for display (loopal-protocol/src/projection.rs,
    projected.rs): tool results are written back into earlier messages through
    an index of positions. */
module Projection {
  import opened Prelude
  import opened JsonValues
  import opened Messages
  import Truncate

  datatype ProjectedToolCall = ProjectedToolCall(id: string, name: string, summary: string, result: Option<string>,
                                                 isError: bool, input: Json)

  datatype ProjectedMessage = ProjectedMessage(role: string, content: string, toolCalls: seq<ProjectedToolCall>,
                                               imageCount: nat)

  // ---- small texts ------------------------------------------------------

  /** `render` is the compact text of a JSON value. */
  type Render = Json -> string

  function SummarizeInput(render: Render, input: Json): string {
    var s := render(input);
    if |s| <= 60 then s else s[..57] + "..."
  }

  const MAX_LINES: nat := 200
  const MAX_BYTES: nat := 10_000

  /** Not in the middle of a UTF-8 sequence. */
  predicate IsCharBoundary(s: string, i: nat)
    requires i <= |s|
  {
    i == 0 || i == |s| || !(0x80 <= s[i] as int < 0xC0)
  }

  function BoundaryBelow(s: string, end: nat): (e: nat)
    requires end <= |s|
    ensures e <= end && IsCharBoundary(s, e)
    ensures forall k :: e < k <= end ==> !IsCharBoundary(s, k)
  {
    if IsCharBoundary(s, end) then end else BoundaryBelow(s, end - 1)
  }

  function FirstLines(s: string): string {
    var ls := Truncate.Lines(s);
    Truncate.Join(if |ls| > MAX_LINES then ls[..MAX_LINES] else ls)
  }

  function Shortened(s: string): string {
    var t := FirstLines(s);
    if |t| <= MAX_BYTES then t else t[..BoundaryBelow(t, MAX_BYTES)]
  }

  /** The first lines, cut to the longest prefix within the byte limit that
      ends between two characters. */
  method TruncateResult(s: string) returns (r: string)
    ensures r == Shortened(s)
    ensures FirstLines(s) == Truncate.Join(Truncate.Lines(s)[..Min(200, |Truncate.Lines(s)|)]) && MAX_BYTES == 10_000
    ensures r <= FirstLines(s) && |r| <= MAX_BYTES && IsCharBoundary(FirstLines(s), |r|)
    ensures forall k :: |r| < k <= |FirstLines(s)| && k <= MAX_BYTES ==> !IsCharBoundary(FirstLines(s), k)
  {
    assert Truncate.Lines(s)[..|Truncate.Lines(s)|] == Truncate.Lines(s);
    var lineLimited := FirstLines(s);
    if |lineLimited| <= MAX_BYTES {
      return lineLimited;
    }
    var end: nat := MAX_BYTES;
    while end > 0 && !IsCharBoundary(lineLimited, end)
      invariant 0 <= end <= |lineLimited|
      invariant BoundaryBelow(lineLimited, end) == BoundaryBelow(lineLimited, MAX_BYTES)
    {
      end := end - 1;
    }
    r := lineLimited[..end];
  }

  function FormatServerToolContent(render: Render, content: Json): string {
    if content.Obj? && "text" in content.fields && content.fields["text"].Str? then content.fields["text"].s
    else render(content)
  }

  function RoleStr(role: Role): string {
    match role
    case User => "user"
    case Assistant => "assistant"
    case System => "system"
  }

  function NewCall(render: Render, id: string, name: string, input: Json): ProjectedToolCall {
    ProjectedToolCall(id, name, name + "(" + SummarizeInput(render, input) + ")", None, false, input)
  }

  function PromotedMessage(text: string): ProjectedMessage {
    ProjectedMessage("assistant", text, [], 0)
  }

  /** What a result does to its call: the error flag always, the text unless
      it is a completion. */
  function Patched(c: ProjectedToolCall, b: Block): ProjectedToolCall
    requires b.ToolResult?
  {
    var c1 := c.(isError := b.isError);
    if b.isCompletion then c1 else c1.(result := Some(Shortened(b.content)))
  }

  // ---- the message being read -------------------------------------------

  datatype Current = Current(text: string, calls: seq<ProjectedToolCall>, images: nat)

  const Blank := Current("", [], 0)

  /** The last call with an id gets the server's result. */
  function ServerAnswered(calls: seq<ProjectedToolCall>, id: string, text: string): (r: seq<ProjectedToolCall>)
    ensures |r| == |calls|
    ensures forall t :: 0 <= t < |calls| ==> r[t] == calls[t].(result := r[t].result)
    ensures forall t :: 0 <= t < |calls| && calls[t].id != id ==> r[t] == calls[t]
  {
    if calls == [] then []
    else
      var last := calls[|calls| - 1];
      if last.id == id then calls[..|calls| - 1] + [last.(result := Some(text))]
      else ServerAnswered(calls[..|calls| - 1], id, text) + [last]
  }

  /** The calls of the message after one more block. */
  function ReadCalls(render: Render, calls: seq<ProjectedToolCall>, b: Block): seq<ProjectedToolCall> {
    match b
    case ToolUse(id, name, input) => calls + [NewCall(render, id, name, input)]
    case ServerToolUse(id, name, input) => calls + [NewCall(render, id, name, input)]
    case ServerToolResult(_, id, payload) => ServerAnswered(calls, id, FormatServerToolContent(render, payload))
    case _ => calls
  }

  function ReadBlock(render: Render, c: Current, b: Block): Current {
    var calls := ReadCalls(render, c.calls, b);
    match b
    case Text(t) => Current(c.text + t, calls, c.images)
    case Image(_) => Current(c.text + "[image]", calls, c.images + 1)
    case _ => c.(calls := calls)
  }

  function ReadBlocks(render: Render, c: Current, bs: seq<Block>): Current
    decreases bs
  {
    if bs == [] then c else ReadBlocks(render, ReadBlock(render, c, bs[0]), bs[1..])
  }

  // ---- projection by index ----------------------------------------------

  /** Position of a call: message in the output, call in the message. */
  datatype Spot = Spot(message: nat, call: nat)

  datatype Work = Work(output: seq<ProjectedMessage>, index: map<string, Spot>, current: Current)

  /** Write a result at its indexed position, if that position exists. */
  function BackPatched(output: seq<ProjectedMessage>, index: map<string, Spot>, b: Block): seq<ProjectedMessage>
    requires b.ToolResult?
  {
    if b.toolUseId !in index then output
    else
      var s := index[b.toolUseId];
      var patched :=
        if s.message < |output| && s.call < |output[s.message].toolCalls|
        then
          var m := output[s.message];
          output[s.message := m.(toolCalls := m.toolCalls[s.call := Patched(m.toolCalls[s.call], b)])]
        else output;
      if b.isCompletion then patched + [PromotedMessage(b.content)] else patched
  }

  function StepBlock(render: Render, w: Work, b: Block): Work {
    var index := if b.ToolUse? then w.index[b.id := Spot(|w.output|, |w.current.calls|)] else w.index;
    var output := if b.ToolResult? then BackPatched(w.output, w.index, b) else w.output;
    Work(output, index, ReadBlock(render, w.current, b))
  }

  function StepBlocks(render: Render, w: Work, bs: seq<Block>): Work
    decreases bs
  {
    if bs == [] then w else StepBlocks(render, StepBlock(render, w, bs[0]), bs[1..])
  }

  predicate Hidden(c: Current) {
    c.text == "" && c.calls == []
  }

  function Shown(role: Role, c: Current): ProjectedMessage {
    ProjectedMessage(RoleStr(role), c.text, c.calls, c.images)
  }

  function StepMessage(render: Render, w: Work, m: Message): Work {
    var w1 := StepBlocks(render, w.(current := Blank), m.content);
    if Hidden(w1.current) then w1.(current := Blank)
    else Work(w1.output + [Shown(m.role, w1.current)], w1.index, Blank)
  }

  function StepMessages(render: Render, w: Work, ms: seq<Message>): Work
    decreases ms
  {
    if ms == [] then w else StepMessages(render, StepMessage(render, w, ms[0]), ms[1..])
  }

  const Start := Work([], map[], Blank)

  function Indexed(render: Render, ms: seq<Message>): seq<ProjectedMessage> {
    StepMessages(render, Start, ms).output
  }

  method BackPatch(output: seq<ProjectedMessage>, index: map<string, Spot>, b: Block)
    returns (r: seq<ProjectedMessage>)
    requires b.ToolResult?
    ensures r == BackPatched(output, index, b)
  {
    r := output;
    if b.toolUseId !in index {
      return;
    }
    var spot := index[b.toolUseId];
    if spot.message < |r| {
      var msg := r[spot.message];
      if spot.call < |msg.toolCalls| {
        var tc := msg.toolCalls[spot.call].(isError := b.isError);
        if !b.isCompletion {
          var text := TruncateResult(b.content);
          tc := tc.(result := Some(text));
        }
        r := r[spot.message := msg.(toolCalls := msg.toolCalls[spot.call := tc])];
      }
    }
    if b.isCompletion {
      r := r + [PromotedMessage(b.content)];
    }
  }

  method ProjectBlock(render: Render, w: Work, block: Block) returns (r: Work)
    ensures r == StepBlock(render, w, block)
  {
    r := w;
    var c := w.current;
    match block {
      case Text(text) => r := r.(current := c.(text := c.text + text));
      case ToolUse(id, name, input) =>
        var tcIdx := |c.calls|;
        r := Work(r.output, r.index[id := Spot(|r.output|, tcIdx)],
                  c.(calls := c.calls + [NewCall(render, id, name, input)]));
      case ToolResult(_, _, _, _, _) =>
        var output := BackPatch(w.output, w.index, block);
        r := r.(output := output);
      case Image(_) => r := r.(current := c.(text := c.text + "[image]", images := c.images + 1));
      case Thinking(_, _) =>
      case ServerToolUse(id, name, input) =>
        r := r.(current := c.(calls := c.calls + [NewCall(render, id, name, input)]));
      case ServerToolResult(_, id, payload) =>
        r := r.(current := c.(calls := ServerAnswered(c.calls, id, FormatServerToolContent(render, payload))));
    }
  }

  method ProjectMessages(render: Render, messages: seq<Message>) returns (output: seq<ProjectedMessage>)
    ensures output == Indexed(render, messages)
  {
    var w := Start;
    for i := 0 to |messages|
      invariant w.current == Blank
      invariant StepMessages(render, w, messages[i..]) == StepMessages(render, Start, messages)
    {
      var msg := messages[i];
      assert messages[i..][1..] == messages[i + 1..];
      ghost var before := w;
      for j := 0 to |msg.content|
        invariant StepBlocks(render, w, msg.content[j..]) == StepBlocks(render, before, msg.content)
      {
        assert msg.content[j..][1..] == msg.content[j + 1..];
        w := ProjectBlock(render, w, msg.content[j]);
      }
      if w.current.text == "" && w.current.calls == [] {
        w := w.(current := Blank);
        continue;
      }
      w := Work(w.output + [Shown(msg.role, w.current)], w.index, Blank);
    }
    output := w.output;
  }

  // ---- projection by looking ahead --------------------------------------

  /** A call, and whether later results for its id are still meant for it. */
  datatype Live = Live(call: ProjectedToolCall, owner: bool)

  function CallOf(c: Live): ProjectedToolCall {
    c.call
  }

  /** A completion of a known call, which becomes a message of its own. */
  predicate Promotes(known: set<string>, b: Block) {
    b.ToolResult? && b.isCompletion && b.toolUseId in known
  }

  /** What ends a call's ownership while its message is read: another use of
      its id, or any completion promoted ahead of the message. */
  predicate Takes(known: set<string>, b: Block, id: string) {
    (b.ToolUse? && b.id == id) || Promotes(known, b)
  }

  function Knowing(known: set<string>, b: Block): set<string> {
    if b.ToolUse? then known + {b.id} else known
  }

  predicate OwnerAfter(known: set<string>, live: seq<Live>, b: Block, t: nat) {
    if t < |live| then live[t].owner && !Takes(known, b, live[t].call.id) else b.ToolUse?
  }

  /** The calls of the message being read, with their ownership. */
  function LiveBlock(render: Render, known: set<string>, live: seq<Live>, b: Block): seq<Live> {
    var calls := ReadCalls(render, Map(CallOf, live), b);
    seq(|calls|, t requires 0 <= t < |calls| => Live(calls[t], OwnerAfter(known, live, b, t)))
  }

  function LiveBlocks(render: Render, known: set<string>, live: seq<Live>, bs: seq<Block>): seq<Live>
    decreases bs
  {
    if bs == [] then live
    else LiveBlocks(render, Knowing(known, bs[0]), LiveBlock(render, known, live, bs[0]), bs[1..])
  }

  /** The blocks before the id is used again. */
  function BeforeReuse(id: string, bs: seq<Block>): seq<Block> {
    if bs == [] || (bs[0].ToolUse? && bs[0].id == id) then [] else [bs[0]] + BeforeReuse(id, bs[1..])
  }

  predicate ResultFor(id: string, b: Block) {
    b.ToolResult? && b.toolUseId == id
  }

  /** Text of the last result for the id that is not a completion. */
  function LastText(id: string, bs: seq<Block>): Option<string> {
    if bs == [] then None
    else
      var b := bs[|bs| - 1];
      if ResultFor(id, b) && !b.isCompletion then Some(Shortened(b.content)) else LastText(id, bs[..|bs| - 1])
  }

  /** Error flag of the last result for the id. */
  function LastFlag(id: string, bs: seq<Block>): Option<bool> {
    if bs == [] then None
    else
      var b := bs[|bs| - 1];
      if ResultFor(id, b) then Some(b.isError) else LastFlag(id, bs[..|bs| - 1])
  }

  function OrElse<T>(v: Option<T>, d: Option<T>): Option<T> {
    if v.Some? then v else d
  }

  /** The call with its results among `bs` looked up. */
  function Resolved(c: ProjectedToolCall, bs: seq<Block>): ProjectedToolCall {
    c.(result := OrElse(LastText(c.id, bs), c.result),
       isError := if LastFlag(c.id, bs).Some? then LastFlag(c.id, bs).value else c.isError)
  }

  /** How a call ends, given everything after its message. */
  function Settled(later: seq<Block>): Live -> ProjectedToolCall {
    (c: Live) => if c.owner then Resolved(c.call, BeforeReuse(c.call.id, later)) else c.call
  }

  function BlocksOf(ms: seq<Message>): seq<Block> {
    if ms == [] then [] else ms[0].content + BlocksOf(ms[1..])
  }

  /** The messages promoted from completions of known calls. */
  function Promotions(bs: seq<Block>, known: set<string>): seq<ProjectedMessage> {
    if bs == [] then []
    else
      (if Promotes(known, bs[0]) then [PromotedMessage(bs[0].content)] else [])
      + Promotions(bs[1..], Knowing(known, bs[0]))
  }

  function IdsUsed(bs: seq<Block>): set<string> {
    set b | b in bs && b.ToolUse? :: b.id
  }

  /** The message itself, each of its calls as the later blocks settle it. */
  function Own(render: Render, known: set<string>, m: Message, later: seq<Block>): seq<ProjectedMessage> {
    var c := ReadBlocks(render, Blank, m.content);
    if Hidden(c) then []
    else [Shown(m.role, c.(calls := Map(Settled(later), LiveBlocks(render, known, [], m.content))))]
  }

  /** Message by message: what its completions promote, then the message with
      its calls looked up in everything that follows. */
  function LookedUp(render: Render, ms: seq<Message>, known: set<string>): seq<ProjectedMessage> {
    if ms == [] then []
    else
      Promotions(ms[0].content, known)
      + Own(render, known, ms[0], BlocksOf(ms[1..]))
      + LookedUp(render, ms[1..], known + IdsUsed(ms[0].content))
  }

  // ---- the index refines the lookahead ----------------------------------

  function Disowned(c: Live, id: string): Live {
    if c.call.id == id then c.(owner := false) else c
  }

  function Disowner(id: string): Live -> Live {
    (c: Live) => Disowned(c, id)
  }

  /** What one later block does to a call of an emitted message. */
  function Advance(c: Live, b: Block): Live {
    match b
    case ToolUse(id, _, _) => Disowned(c, id)
    case ToolResult(id, _, _, _, _) =>
      if c.owner && c.call.id == id then c.(call := Patched(c.call, b)) else c
    case _ => c
  }

  function AdvanceAll(c: Live, bs: seq<Block>): Live
    decreases bs
  {
    if bs == [] then c else AdvanceAll(Advance(c, bs[0]), bs[1..])
  }

  function Advancer(bs: seq<Block>): Live -> Live {
    (c: Live) => AdvanceAll(c, bs)
  }

  /** An emitted message with its calls still alive. */
  datatype Item = Item(role: string, content: string, calls: seq<Live>, images: nat)

  function Erase(it: Item): ProjectedMessage {
    ProjectedMessage(it.role, it.content, Map(CallOf, it.calls), it.images)
  }

  function ItemAdvancer(bs: seq<Block>): Item -> Item {
    (it: Item) => it.(calls := Map(Advancer(bs), it.calls))
  }

  function RowOf(it: Item): seq<Live> {
    it.calls
  }

  /** All calls by position: the emitted messages, then the current one. */
  function Rows(items: seq<Item>, current: seq<Live>): seq<seq<Live>> {
    Map(RowOf, items) + [current]
  }

  predicate At(rows: seq<seq<Live>>, s: Spot) {
    s.message < |rows| && s.call < |rows[s.message]|
  }

  /** A position that no call has or will have: past the end of an emitted
      message. */
  predicate Stale(rows: seq<seq<Live>>, s: Spot) {
    s.message < |rows| - 1 && s.call >= |rows[s.message]|
  }

  predicate OwnerAt(rows: seq<seq<Live>>, s: Spot, id: string) {
    At(rows, s) && rows[s.message][s.call].owner && rows[s.message][s.call].call.id == id
  }

  /** Every indexed position is the owner's or stale, and every owner is
      indexed. */
  predicate IndexOk(index: map<string, Spot>, rows: seq<seq<Live>>) {
    && (forall id :: id in index ==> OwnerAt(rows, index[id], id) || Stale(rows, index[id]))
    && (forall d, t :: 0 <= d < |rows| && 0 <= t < |rows[d]| && rows[d][t].owner ==>
          rows[d][t].call.id in index && index[rows[d][t].call.id] == Spot(d, t))
  }

  predicate Refines(w: Work, items: seq<Item>, live: seq<Live>) {
    && w.output == Map(Erase, items) && w.current.calls == Map(CallOf, live)
    && IndexOk(w.index, Rows(items, live))
  }

  /** Rows that differ only in what the calls hold. */
  predicate SameOwners(a: seq<seq<Live>>, b: seq<seq<Live>>) {
    && |a| == |b| && (forall d :: 0 <= d < |a| ==> |a[d]| == |b[d]|)
    && (forall d, t :: 0 <= d < |a| && 0 <= t < |a[d]| ==>
          a[d][t].owner == b[d][t].owner && a[d][t].call.id == b[d][t].call.id)
  }

  lemma SameOwnersSameIndex(index: map<string, Spot>, a: seq<seq<Live>>, b: seq<seq<Live>>)
    requires IndexOk(index, a) && SameOwners(a, b)
    ensures IndexOk(index, b)
  {
  }

  function AdvanceItem(b: Block): Item -> Item {
    (it: Item) => it.(calls := Map((c: Live) => Advance(c, b), it.calls))
  }

  function Promotion(b: Block, known: set<string>): seq<Item> {
    if Promotes(known, b) then [Item("assistant", b.content, [], 0)] else []
  }

  /** Writing at the indexed position is advancing every emitted call. */
  lemma BackPatchAdvances(output: seq<ProjectedMessage>, index: map<string, Spot>, items: seq<Item>,
                          live: seq<Live>, b: Block)
    requires b.ToolResult? && output == Map(Erase, items) && IndexOk(index, Rows(items, live))
    ensures BackPatched(output, index, b)
         == Map(Erase, Map(AdvanceItem(b), items)) + Map(Erase, Promotion(b, index.Keys))
  {
    var rows := Rows(items, live);
    var next := Map(AdvanceItem(b), items);
    forall d | 0 <= d < |items|
      ensures Erase(next[d]) ==
                if b.toolUseId in index && index[b.toolUseId].message == d
                   && index[b.toolUseId].call < |output[d].toolCalls|
                then var t := index[b.toolUseId].call;
                     output[d].(toolCalls := output[d].toolCalls[t := Patched(output[d].toolCalls[t], b)])
                else output[d]
    {
      assert rows[d] == items[d].calls;
      RowAdvances(items[d].calls, index, rows, d, b);
    }
  }

  lemma RowAdvances(calls: seq<Live>, index: map<string, Spot>, rows: seq<seq<Live>>, d: nat, b: Block)
    requires b.ToolResult? && IndexOk(index, rows) && d < |rows| && rows[d] == calls
    ensures var before, after := Map(CallOf, calls), Map(CallOf, Map((c: Live) => Advance(c, b), calls));
            if b.toolUseId in index && index[b.toolUseId].message == d && index[b.toolUseId].call < |calls|
            then var t := index[b.toolUseId].call;
                 after == before[t := Patched(before[t], b)]
            else after == before
  {
    forall t | 0 <= t < |calls| && calls[t].owner && calls[t].call.id == b.toolUseId
      ensures b.toolUseId in index && index[b.toolUseId] == Spot(d, t)
    {
      assert rows[d][t].owner;
    }
    if b.toolUseId in index && index[b.toolUseId].message == d && index[b.toolUseId].call < |calls| {
      assert OwnerAt(rows, index[b.toolUseId], b.toolUseId);
    }
  }

  lemma AdvanceKeepsOwners(items: seq<Item>, live: seq<Live>, b: Block)
    requires !b.ToolUse?
    ensures SameOwners(Rows(items, live), Rows(Map(AdvanceItem(b), items), live))
  {
  }

  /** A promoted message takes the place where the current one was expected:
      positions indexed there become stale, and its calls own nothing. */
  lemma PromotedRow(index: map<string, Spot>, items: seq<Item>, live: seq<Live>, it: Item, live': seq<Live>)
    requires IndexOk(index, Rows(items, live)) && it.calls == []
    requires forall t :: 0 <= t < |live'| ==> !live'[t].owner
    ensures IndexOk(index, Rows(items + [it], live'))
  {
    var a: seq<seq<Live>>, b: seq<seq<Live>> := Rows(items, live), Rows(items + [it], live');
    assert forall d :: 0 <= d < |items| ==> b[d] == a[d];
    assert a[|items|] == live && b[|items|] == [] && b[|items| + 1] == live';
    forall id | id in index ensures OwnerAt(b, index[id], id) || Stale(b, index[id]) {
      assert OwnerAt(a, index[id], id) || Stale(a, index[id]);
    }
  }

  /** A tool result: patch, and promote if it completes a known call. */
  lemma ResultRefines(render: Render, w: Work, items: seq<Item>, live: seq<Live>, b: Block)
    requires Refines(w, items, live) && b.ToolResult?
    ensures Refines(StepBlock(render, w, b), Map(AdvanceItem(b), items) + Promotion(b, w.index.Keys),
                    LiveBlock(render, w.index.Keys, live, b))
  {
    var next, live' := Map(AdvanceItem(b), items), LiveBlock(render, w.index.Keys, live, b);
    BackPatchAdvances(w.output, w.index, items, live, b);
    AdvanceKeepsOwners(items, live, b);
    SameOwnersSameIndex(w.index, Rows(items, live), Rows(next, live));
    assert Map(CallOf, live') == Map(CallOf, live);
    if Promotes(w.index.Keys, b) {
      PromotedRow(w.index, next, live, Promotion(b, w.index.Keys)[0], live');
    } else {
      assert live' == live;
      assert next + [] == next;
    }
    assert Map(Erase, next + Promotion(b, w.index.Keys)) == Map(Erase, next) + Map(Erase, Promotion(b, w.index.Keys));
  }

  /** The rows after a tool use: earlier calls with the id are disowned and a
      new owner stands at the end of the last row. */
  lemma UseRows(index: map<string, Spot>, a: seq<seq<Live>>, r: seq<seq<Live>>, id: string)
    requires IndexOk(index, a) && a != [] && |r| == |a|
    requires forall d :: 0 <= d < |a| - 1 ==> r[d] == Map(Disowner(id), a[d])
    requires var n := |a| - 1;
             && |r[n]| == |a[n]| + 1 && r[n][..|a[n]|] == Map(Disowner(id), a[n])
             && r[n][|a[n]|].owner && r[n][|a[n]|].call.id == id
    ensures IndexOk(index[id := Spot(|a| - 1, |a[|a| - 1]|)], r)
  {
    var n := |a| - 1;
    forall d, t | 0 <= d < |a| && 0 <= t < |a[d]| ensures r[d][t] == Disowned(a[d][t], id) {
      if d == n {
        assert r[n][t] == r[n][..|a[n]|][t];
      }
    }
    var index' := index[id := Spot(n, |a[n]|)];
    forall i | i in index' ensures OwnerAt(r, index'[i], i) || Stale(r, index'[i]) {
      if i != id {
        assert OwnerAt(a, index[i], i) || Stale(a, index[i]);
      }
    }
  }

  /** A tool use: the new call takes the id over. */
  lemma UseRefines(render: Render, w: Work, items: seq<Item>, live: seq<Live>, b: Block)
    requires Refines(w, items, live) && b.ToolUse?
    ensures Refines(StepBlock(render, w, b), Map(AdvanceItem(b), items), LiveBlock(render, w.index.Keys, live, b))
  {
    var next, live' := Map(AdvanceItem(b), items), LiveBlock(render, w.index.Keys, live, b);
    var a, r := Rows(items, live), Rows(next, live');
    forall d | 0 <= d < |items|
      ensures Erase(next[d]) == Erase(items[d]) && r[d] == Map(Disowner(b.id), a[d])
    {
      assert a[d] == items[d].calls && r[d] == next[d].calls;
      assert Map(CallOf, next[d].calls) == Map(CallOf, items[d].calls);
    }
    assert Map(Erase, next) == w.output;
    assert live'[..|live|] == Map(Disowner(b.id), live);
    UseRows(w.index, a, r, b.id);
  }

  /** Any other block leaves owners and output alone. */
  lemma OtherRefines(render: Render, w: Work, items: seq<Item>, live: seq<Live>, b: Block)
    requires Refines(w, items, live) && !b.ToolUse? && !b.ToolResult?
    ensures Refines(StepBlock(render, w, b), Map(AdvanceItem(b), items), LiveBlock(render, w.index.Keys, live, b))
  {
    var next, live' := Map(AdvanceItem(b), items), LiveBlock(render, w.index.Keys, live, b);
    forall d | 0 <= d < |items| ensures next[d] == items[d] {
      assert Map((c: Live) => Advance(c, b), items[d].calls) == items[d].calls;
    }
    assert next == items;
    OtherRow(w.index, items, live, live');
  }

  /** More calls in the current row, none of them an owner. */
  lemma OtherRow(index: map<string, Spot>, items: seq<Item>, live: seq<Live>, live': seq<Live>)
    requires IndexOk(index, Rows(items, live)) && |live| <= |live'|
    requires forall t :: 0 <= t < |live| ==> live'[t].owner == live[t].owner && live'[t].call.id == live[t].call.id
    requires forall t :: |live| <= t < |live'| ==> !live'[t].owner
    ensures IndexOk(index, Rows(items, live'))
  {
    var a: seq<seq<Live>>, r: seq<seq<Live>> := Rows(items, live), Rows(items, live');
    assert forall d :: 0 <= d < |items| ==> r[d] == a[d];
    assert a[|items|] == live && r[|items|] == live';
    forall id | id in index ensures OwnerAt(r, index[id], id) || Stale(r, index[id]) {
      assert OwnerAt(a, index[id], id) || Stale(a, index[id]);
    }
    forall d: nat, t: nat | d < |r| && t < |r[d]| && r[d][t].owner
      ensures t < |a[d]| && a[d][t].owner && a[d][t].call.id == r[d][t].call.id
    {
    }
  }

  lemma BlockRefines(render: Render, w: Work, items: seq<Item>, live: seq<Live>, b: Block)
    requires Refines(w, items, live)
    ensures Refines(StepBlock(render, w, b), Map(AdvanceItem(b), items) + Promotion(b, w.index.Keys),
                    LiveBlock(render, w.index.Keys, live, b))
  {
    var next := Map(AdvanceItem(b), items);
    if b.ToolResult? {
      ResultRefines(render, w, items, live, b);
    } else if b.ToolUse? {
      UseRefines(render, w, items, live, b);
      assert next + [] == next;
    } else {
      OtherRefines(render, w, items, live, b);
      assert next + [] == next;
    }
  }

  // ---- whole messages ---------------------------------------------------

  function AsItem(m: ProjectedMessage): Item {
    Item(m.role, m.content, [], m.imageCount)
  }

  lemma AdvanceStep(bs: seq<Block>, items: seq<Item>)
    requires bs != []
    ensures Map(ItemAdvancer(bs[1..]), Map(AdvanceItem(bs[0]), items)) == Map(ItemAdvancer(bs), items)
  {
    forall d | 0 <= d < |items|
      ensures ItemAdvancer(bs[1..])(AdvanceItem(bs[0])(items[d])) == ItemAdvancer(bs)(items[d])
    {
      assert Map(Advancer(bs[1..]), Map((c: Live) => Advance(c, bs[0]), items[d].calls))
          == Map(Advancer(bs), items[d].calls);
    }
  }

  /** Items without calls stay as they are. */
  lemma EmptyItemsStay(bs: seq<Block>, items: seq<Item>)
    requires forall d :: 0 <= d < |items| ==> items[d].calls == []
    ensures Map(ItemAdvancer(bs), items) == items
  {
    forall d | 0 <= d < |items| ensures ItemAdvancer(bs)(items[d]) == items[d] {
      assert Map(Advancer(bs), items[d].calls) == [];
    }
  }

  lemma NothingAdvances(items: seq<Item>)
    ensures Map(ItemAdvancer([]), items) == items
  {
    forall d | 0 <= d < |items| ensures ItemAdvancer([])(items[d]) == items[d] {
      assert Map(Advancer([]), items[d].calls) == items[d].calls;
    }
  }

  /** The items after some blocks of a message that is still being read. */
  function AfterBlocks(items: seq<Item>, bs: seq<Block>, known: set<string>): seq<Item> {
    Map(ItemAdvancer(bs), items) + Map(AsItem, Promotions(bs, known))
  }

  lemma PromotionsOfFirst(bs: seq<Block>, known: set<string>)
    requires bs != []
    ensures Map(AsItem, Promotions(bs, known)) ==
              Promotion(bs[0], known) + Map(AsItem, Promotions(bs[1..], Knowing(known, bs[0])))
  {
    var q := Promotions(bs[1..], Knowing(known, bs[0]));
    if Promotes(known, bs[0]) {
      var first := [PromotedMessage(bs[0].content)];
      MapConcat(AsItem, first, q);
      assert Map(AsItem, first) == Promotion(bs[0], known);
      assert Promotions(bs, known) == first + q;
    } else {
      assert Promotions(bs, known) == q;
    }
  }

  lemma AdvancedFirst(items: seq<Item>, bs: seq<Block>, p: seq<Item>)
    requires bs != [] && forall d :: 0 <= d < |p| ==> p[d].calls == []
    ensures Map(ItemAdvancer(bs[1..]), Map(AdvanceItem(bs[0]), items) + p) == Map(ItemAdvancer(bs), items) + p
  {
    MapConcat(ItemAdvancer(bs[1..]), Map(AdvanceItem(bs[0]), items), p);
    EmptyItemsStay(bs[1..], p);
    AdvanceStep(bs, items);
  }

  lemma Associative<T>(a: seq<T>, b: seq<T>, c: seq<T>)
    ensures (a + b) + c == a + (b + c)
  {
  }

  lemma AfterFirstBlock(items: seq<Item>, bs: seq<Block>, known: set<string>)
    requires bs != []
    ensures AfterBlocks(Map(AdvanceItem(bs[0]), items) + Promotion(bs[0], known), bs[1..], Knowing(known, bs[0]))
         == AfterBlocks(items, bs, known)
  {
    var p := Promotion(bs[0], known);
    AdvancedFirst(items, bs, p);
    PromotionsOfFirst(bs, known);
    Associative(Map(ItemAdvancer(bs), items), p, Map(AsItem, Promotions(bs[1..], Knowing(known, bs[0]))));
  }

  /** Reading some blocks of a message: the emitted calls advance over them,
      completions are promoted, and the current calls are read with their
      ownership. */
  lemma {:induction false} BlocksRefine(render: Render, w: Work, items: seq<Item>, live: seq<Live>, bs: seq<Block>)
    requires Refines(w, items, live)
    ensures Refines(StepBlocks(render, w, bs), AfterBlocks(items, bs, w.index.Keys),
                    LiveBlocks(render, w.index.Keys, live, bs))
    decreases bs
  {
    if bs == [] {
      NothingAdvances(items);
      assert items + [] == items;
    } else {
      var w1, items1 := StepBlock(render, w, bs[0]), Map(AdvanceItem(bs[0]), items) + Promotion(bs[0], w.index.Keys);
      BlockRefines(render, w, items, live, bs[0]);
      BlocksRefine(render, w1, items1, LiveBlock(render, w.index.Keys, live, bs[0]), bs[1..]);
      AfterFirstBlock(items, bs, w.index.Keys);
      assert w1.index.Keys == Knowing(w.index.Keys, bs[0]);
    }
  }

  /** The message being read and the ids known do not depend on the output. */
  lemma {:induction false} BlocksRead(render: Render, w: Work, bs: seq<Block>)
    ensures StepBlocks(render, w, bs).current == ReadBlocks(render, w.current, bs)
    ensures StepBlocks(render, w, bs).index.Keys == w.index.Keys + IdsUsed(bs)
    decreases bs
  {
    if bs != [] {
      BlocksRead(render, StepBlock(render, w, bs[0]), bs[1..]);
      IdsOfFirst(bs);
    }
  }

  lemma IdsOfFirst(bs: seq<Block>)
    requires bs != []
    ensures IdsUsed(bs) == (if bs[0].ToolUse? then {bs[0].id} else {}) + IdsUsed(bs[1..])
  {
    assert bs == [bs[0]] + bs[1..];
  }

  /** The message itself as an item, if it shows anything. */
  function OwnItem(render: Render, known: set<string>, m: Message): seq<Item> {
    var c := ReadBlocks(render, Blank, m.content);
    if Hidden(c) then [] else [Item(RoleStr(m.role), c.text, LiveBlocks(render, known, [], m.content), c.images)]
  }

  function AfterMessage(render: Render, items: seq<Item>, m: Message, known: set<string>): seq<Item> {
    AfterBlocks(items, m.content, known) + OwnItem(render, known, m)
  }

  /** Ending the message turns its calls into a row of their own. */
  lemma MessageRefines(render: Render, w: Work, items: seq<Item>, m: Message)
    requires Refines(w, items, []) && w.current == Blank
    ensures var r := StepMessage(render, w, m);
            && Refines(r, AfterMessage(render, items, m, w.index.Keys), [])
            && r.current == Blank && r.index.Keys == w.index.Keys + IdsUsed(m.content)
  {
    BlocksRefine(render, w, items, [], m.content);
    BlocksRead(render, w, m.content);
    var w1, live := StepBlocks(render, w, m.content), LiveBlocks(render, w.index.Keys, [], m.content);
    var mid := AfterBlocks(items, m.content, w.index.Keys);
    if Hidden(w1.current) {
      assert mid + [] == mid && live == [];
    } else {
      var own := OwnItem(render, w.index.Keys, m)[0];
      assert Map(Erase, mid + [own]) == Map(Erase, mid) + [Erase(own)];
      EndedRow(w1.index, mid, live, own);
    }
  }

  lemma EndedRow(index: map<string, Spot>, items: seq<Item>, live: seq<Live>, own: Item)
    requires IndexOk(index, Rows(items, live)) && own.calls == live
    ensures IndexOk(index, Rows(items + [own], []))
  {
    var a: seq<seq<Live>>, b: seq<seq<Live>> := Rows(items, live), Rows(items + [own], []);
    assert forall d :: 0 <= d < |a| ==> b[d] == a[d];
    assert b[|a|] == [];
    forall id | id in index ensures OwnerAt(b, index[id], id) || Stale(b, index[id]) {
      assert OwnerAt(a, index[id], id) || Stale(a, index[id]);
    }
  }

  // ---- whole conversations ----------------------------------------------

  lemma {:induction false} AdvanceAllConcat(c: Live, a: seq<Block>, b: seq<Block>)
    ensures AdvanceAll(c, a + b) == AdvanceAll(AdvanceAll(c, a), b)
    decreases a
  {
    if a == [] {
      assert a + b == b;
    } else {
      assert (a + b)[0] == a[0] && (a + b)[1..] == a[1..] + b;
      AdvanceAllConcat(Advance(c, a[0]), a[1..], b);
    }
  }

  lemma AdvanceTwice(items: seq<Item>, a: seq<Block>, b: seq<Block>)
    ensures Map(ItemAdvancer(b), Map(ItemAdvancer(a), items)) == Map(ItemAdvancer(a + b), items)
  {
    forall d | 0 <= d < |items|
      ensures ItemAdvancer(b)(ItemAdvancer(a)(items[d])) == ItemAdvancer(a + b)(items[d])
    {
      var calls := items[d].calls;
      forall t | 0 <= t < |calls|
        ensures Map(Advancer(b), Map(Advancer(a), calls))[t] == Map(Advancer(a + b), calls)[t]
      {
        AdvanceAllConcat(calls[t], a, b);
      }
    }
  }

  function Erased(items: seq<Item>): seq<ProjectedMessage> {
    Map(Erase, items)
  }

  /** What is emitted for one message, seen from the end of the conversation. */
  lemma MessageLookedUp(render: Render, items: seq<Item>, m: Message, known: set<string>, later: seq<Block>)
    ensures Erased(Map(ItemAdvancer(later), AfterMessage(render, items, m, known)))
         == Erased(Map(ItemAdvancer(m.content + later), items)) + Promotions(m.content, known)
            + Own(render, known, m, later)
  {
    var p, own := Promotions(m.content, known), OwnItem(render, known, m);
    var promoted := Map(AsItem, p);
    var moved := Map(ItemAdvancer(m.content), items);
    MapConcat(ItemAdvancer(later), moved + promoted, own);
    MapConcat(ItemAdvancer(later), moved, promoted);
    AdvanceTwice(items, m.content, later);
    EmptyItemsStay(later, promoted);
    PromotionsErase(m.content, known);
    MapConcat(Erase, Map(ItemAdvancer(m.content + later), items), promoted);
    MapConcat(Erase, Map(ItemAdvancer(m.content + later), items) + promoted, Map(ItemAdvancer(later), own));
    OwnErases(render, known, m, later);
  }

  lemma {:induction false} PromotionsErase(bs: seq<Block>, known: set<string>)
    ensures Erased(Map(AsItem, Promotions(bs, known))) == Promotions(bs, known)
  {
    if bs != [] {
      PromotionsErase(bs[1..], Knowing(known, bs[0]));
      var p := Promotions(bs, known);
      forall i | 0 <= i < |p| ensures p[i].toolCalls == [] {
        PromotionsHaveNoCalls(bs, known, i);
      }
      forall i | 0 <= i < |p| ensures Erase(AsItem(p[i])) == p[i] {
        assert Map(CallOf, AsItem(p[i]).calls) == [];
      }
    }
  }

  lemma {:induction false} PromotionsHaveNoCalls(bs: seq<Block>, known: set<string>, i: nat)
    requires i < |Promotions(bs, known)|
    ensures Promotions(bs, known)[i].toolCalls == []
  {
    var first := |Promotions(bs, known)| - |Promotions(bs[1..], Knowing(known, bs[0]))|;
    if i >= first {
      PromotionsHaveNoCalls(bs[1..], Knowing(known, bs[0]), i - first);
    }
  }

  lemma OwnErases(render: Render, known: set<string>, m: Message, later: seq<Block>)
    ensures Erased(Map(ItemAdvancer(later), OwnItem(render, known, m))) == Own(render, known, m, later)
  {
    var live := LiveBlocks(render, known, [], m.content);
    forall t | 0 <= t < |live| ensures AdvanceAll(live[t], later).call == Settled(later)(live[t]) {
      AdvancingSettles(live[t], later);
    }
    assert Map(CallOf, Map(Advancer(later), live)) == Map(Settled(later), live);
  }

  /** The output of the index machine is what it has emitted, advanced over the
      rest, followed by the rest looked up. */
  lemma {:induction false} MessagesRefine(render: Render, w: Work, items: seq<Item>, ms: seq<Message>)
    requires Refines(w, items, []) && w.current == Blank
    ensures StepMessages(render, w, ms).output ==
              Erased(Map(ItemAdvancer(BlocksOf(ms)), items)) + LookedUp(render, ms, w.index.Keys)
    decreases ms
  {
    if ms == [] {
      NothingAdvances(items);
    } else {
      var m, rest, known := ms[0], ms[1..], w.index.Keys;
      MessageRefines(render, w, items, m);
      MessagesRefine(render, StepMessage(render, w, m), AfterMessage(render, items, m, known), rest);
      MessageLookedUp(render, items, m, known, BlocksOf(rest));
      Reassociate(Erased(Map(ItemAdvancer(BlocksOf(ms)), items)), Promotions(m.content, known),
                  Own(render, known, m, BlocksOf(rest)), LookedUp(render, rest, known + IdsUsed(m.content)));
    }
  }

  lemma Reassociate(a: seq<ProjectedMessage>, b: seq<ProjectedMessage>, c: seq<ProjectedMessage>,
                    d: seq<ProjectedMessage>)
    ensures a + b + c + d == a + (b + c + d)
  {
  }

  /** Writing results back through the index is looking each result up, for
      every conversation: ids may repeat and completions may stand anywhere. */
  lemma IndexAgreesWithLookup(render: Render, ms: seq<Message>)
    ensures Indexed(render, ms) == LookedUp(render, ms, {})
  {
    assert Start.index.Keys == {};
    assert Refines(Start, [], []);
    MessagesRefine(render, Start, [], ms);
    assert Erased(Map(ItemAdvancer(BlocksOf(ms)), [])) == [];
  }

  // ---- advancing block by block settles a call --------------------------

  lemma {:induction false} NotReusedAdvances(c: Live, bs: seq<Block>)
    requires c.owner && forall b :: b in bs ==> !(b.ToolUse? && b.id == c.call.id)
    ensures AdvanceAll(c, bs) == Live(Resolved(c.call, bs), true)
  {
    if bs != [] {
      var t, b := bs[..|bs| - 1], bs[|bs| - 1];
      assert b in bs && forall x :: x in t ==> x in bs;
      assert bs == t + [b];
      NotReusedAdvances(c, t);
      AdvanceAllConcat(c, t, [b]);
      AdvanceOne(AdvanceAll(c, t), b);
    }
  }

  lemma AdvanceOne(c: Live, b: Block)
    ensures AdvanceAll(c, [b]) == Advance(c, b)
  {
    assert [b][1..] == [];
  }

  lemma {:induction false} DisownedStays(c: Live, bs: seq<Block>)
    requires !c.owner
    ensures AdvanceAll(c, bs).call == c.call
    decreases bs
  {
    if bs != [] {
      DisownedStays(Advance(c, bs[0]), bs[1..]);
    }
  }

  lemma {:induction false} BeforeReuseSplits(id: string, bs: seq<Block>)
    ensures var p := BeforeReuse(id, bs);
            && p <= bs && (forall b :: b in p ==> !(b.ToolUse? && b.id == id))
            && (|p| < |bs| ==> bs[|p|].ToolUse? && bs[|p|].id == id)
  {
    if bs != [] && !(bs[0].ToolUse? && bs[0].id == id) {
      BeforeReuseSplits(id, bs[1..]);
    }
  }

  lemma AdvancingSettles(c: Live, later: seq<Block>)
    ensures AdvanceAll(c, later).call == Settled(later)(c)
  {
    if !c.owner {
      DisownedStays(c, later);
      return;
    }
    var seen := BeforeReuse(c.call.id, later);
    BeforeReuseSplits(c.call.id, later);
    NotReusedAdvances(c, seen);
    assert later == seen + later[|seen|..];
    AdvanceAllConcat(c, seen, later[|seen|..]);
    if |seen| < |later| {
      var rest := later[|seen|..];
      DisownedStays(Advance(AdvanceAll(c, seen), rest[0]), rest[1..]);
    }
  }
}
