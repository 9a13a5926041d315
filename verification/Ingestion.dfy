/** Capping and condensing content before it enters the store
    (loopal-context/src/ingestion.rs). */
module Ingestion {
  import opened Prelude
  import opened Messages
  import Truncate
  import Sanitize

  datatype Limits = Limits(lines: nat, bytes: nat)

  /** The limits in use: at ingestion, for old results, in an emergency. */
  const CAP := Limits(500, 20_000)
  const LAYER1 := Limits(200, 8_000)
  const EMERGENCY := Limits(30, 1_000)

  // ---- truncating a tool result -----------------------------------------

  function TruncationNote(kept: nat, bytes: nat, maxLines: nat, lines: nat): string {
    "\n[Truncated: kept " + Decimal(kept) + "/" + Decimal(bytes) + " bytes, approx "
    + Decimal(maxLines) + "/" + Decimal(lines) + " lines]"
  }

  /** Only a successful `ToolResult` over a limit is rewritten. */
  function SafeTruncated(b: Block, max: Limits): Block {
    if !b.ToolResult? || b.isError then b
    else if |b.content| <= max.bytes && |Truncate.Lines(b.content)| <= max.lines then b
    else
      var truncated := Truncate.Truncated(b.content, max.lines, max.bytes);
      var kept := Min(|truncated|, |b.content|);
      b.(content := truncated
                    + TruncationNote(kept, |b.content|, max.lines, |Truncate.Lines(b.content)|))
  }

  /** A successful result over one of the limits. */
  predicate IsOversized(b: Block, max: Limits) {
    b.ToolResult? && !b.isError && (|b.content| > max.bytes || |Truncate.Lines(b.content)| > max.lines)
  }

  /** An oversized result is cut to the lines that fit, with the notices; any
      other block stays. */
  lemma SafeTruncatedExactly(b: Block, max: Limits)
    ensures !IsOversized(b, max) ==> SafeTruncated(b, max) == b
    ensures IsOversized(b, max) ==>
              var cut, lines := Truncate.Truncated(b.content, max.lines, max.bytes), Truncate.Lines(b.content);
              SafeTruncated(b, max) == b.(content :=
                cut + "\n[Truncated: kept " + Decimal(if |cut| <= |b.content| then |cut| else |b.content|) + "/"
                + Decimal(|b.content|) + " bytes, approx " + Decimal(max.lines) + "/" + Decimal(|lines|) + " lines]")
  {
    if IsOversized(b, max) {
      var cut := Truncate.Truncated(b.content, max.lines, max.bytes);
      NoteFollows(cut, Min(|cut|, |b.content|), |b.content|, max.lines, |Truncate.Lines(b.content)|);
    }
  }

  lemma NoteFollows(cut: string, kept: nat, bytes: nat, maxLines: nat, lines: nat)
    ensures cut + TruncationNote(kept, bytes, maxLines, lines) ==
              cut + "\n[Truncated: kept " + Decimal(kept) + "/" + Decimal(bytes) + " bytes, approx "
              + Decimal(maxLines) + "/" + Decimal(lines) + " lines]"
  {
  }

  function CapBlock(count: Counter, maxTokens: nat, b: Block): Block {
    if b.ToolResult? && !b.isError && count(b) > maxTokens
    then SafeTruncated(b, CAP) else b
  }

  function Capper(count: Counter, maxTokens: nat): Block -> Block {
    (b: Block) => CapBlock(count, maxTokens, b)
  }

  function ResultsCapped(count: Counter, maxTokens: nat, msg: Message): Message {
    if msg.role != User then msg else msg.(content := Map(Capper(count, maxTokens), msg.content))
  }

  method CapToolResults(count: Counter, msg: Message, maxTokens: nat) returns (out: Message)
    ensures out == ResultsCapped(count, maxTokens, msg)
    ensures msg.role != User ==> out == msg
    ensures out.id == msg.id && out.role == msg.role && |out.content| == |msg.content|
    ensures msg.role == User ==> forall i :: 0 <= i < |out.content| ==>
              var b := msg.content[i];
              out.content[i] ==
                if b.ToolResult? && !b.isError && count(b) > maxTokens then SafeTruncated(b, Limits(500, 20_000)) else b
  {
    if msg.role != User {
      return msg;
    }
    var content := msg.content;
    for i := 0 to |content|
      invariant |content| == |msg.content|
      invariant forall j :: i <= j < |content| ==> content[j] == msg.content[j]
      invariant forall j :: 0 <= j < i ==> content[j] == CapBlock(count, maxTokens, msg.content[j])
    {
      var block := content[i];
      if block.ToolResult? {
        if block.isError {
          continue;
        }
        if count(block) > maxTokens {
          content := content[i := SafeTruncated(block, CAP)];
        }
      }
    }
    assert content == Map(Capper(count, maxTokens), msg.content);
    out := msg.(content := content);
  }

  // ---- server blocks ----------------------------------------------------

  function CondensedNote(name: string): Block {
    Text("[server tool '" + name + "' result condensed]")
  }

  /** Calls become a text, results disappear, everything else stays in order. */
  function Condensed(bs: seq<Block>): seq<Block> {
    if bs == [] then []
    else
      Condensed(bs[..|bs| - 1]) +
      match bs[|bs| - 1]
      case ServerToolUse(_, name, _) => [CondensedNote(name)]
      case ServerToolResult(_, _, _) => []
      case b => [b]
  }

  function Replaced(b: Block): Block {
    if b.ServerToolUse? then CondensedNote(b.name) else b
  }

  lemma {:induction false} CondensedByIndex(bs: seq<Block>, gone: set<int>)
    requires forall i :: 0 <= i < |bs| ==> (i in gone <==> bs[i].ServerToolResult?)
    ensures Without(Map(Replaced, bs), gone) == Condensed(bs)
  {
    if bs != [] {
      var t := bs[..|bs| - 1];
      CondensedByIndex(t, gone);
      assert Map(Replaced, bs)[..|t|] == Map(Replaced, t);
    }
  }

  /** A call becomes the note, a result nothing, any other block stays. */
  function WithoutServer(b: Block): seq<Block> {
    if b.ServerToolUse? then [Text("[server tool '" + b.name + "' result condensed]")]
    else if b.ServerToolResult? then []
    else [b]
  }

  lemma {:induction false} CondensedExactly(bs: seq<Block>)
    ensures Condensed(bs) == FlatMap(WithoutServer, bs)
  {
    if bs != [] {
      CondensedExactly(bs[..|bs| - 1]);
    }
  }

  /** Collect replacements and removals, then apply them by index. */
  method CondenseServerBlocks(msg: Message) returns (out: Message)
    ensures out == msg.(content := Condensed(msg.content))
    ensures out == msg.(content := FlatMap(WithoutServer, msg.content))
  {
    CondensedExactly(msg.content);
    var bs := msg.content;
    var replacements: seq<(int, Block)> := [];
    var removals: seq<int> := [];
    for bi := 0 to |bs|
      invariant forall r :: r in replacements ==>
                  0 <= r.0 < bi && bs[r.0].ServerToolUse? && r.1 == CondensedNote(bs[r.0].name)
      invariant forall j :: 0 <= j < bi && bs[j].ServerToolUse? ==> (j, CondensedNote(bs[j].name)) in replacements
      invariant Ascending(removals) && forall k :: 0 <= k < |removals| ==> removals[k] < bi
      invariant forall j :: j in removals <==> 0 <= j < bi && bs[j].ServerToolResult?
    {
      match bs[bi]
      case ServerToolUse(_, name, _) => replacements := replacements + [(bi, CondensedNote(name))];
      case ServerToolResult(_, _, _) => removals := removals + [bi];
      case _ =>
    }
    var content := bs;
    for k := 0 to |replacements|
      invariant |content| == |bs|
      invariant forall j :: 0 <= j < |bs| ==> content[j] == bs[j] || content[j] == Replaced(bs[j])
      invariant forall r :: r in replacements[..k] ==> content[r.0] == r.1
    {
      var (bi, replacement) := replacements[k];
      assert replacements[k] in replacements;
      assert replacements[..k + 1] == replacements[..k] + [replacements[k]];
      content := content[bi := replacement];
    }
    assert replacements[..|replacements|] == replacements;
    forall j | 0 <= j < |bs| ensures content[j] == Replaced(bs[j]) {
      if bs[j].ServerToolUse? {
        assert (j, CondensedNote(bs[j].name)) in replacements;
      }
    }
    assert content == Map(Replaced, bs);
    content := RemoveIndices(content, removals);
    CondensedByIndex(bs, set i | i in removals);
    out := msg.(content := content);
  }

  function ServerOrphansStripped(msg: Message): Message {
    msg.(content := Filter(Sanitize.ServerMatched(ServerUseIds(msg), ServerResultIds(msg)), msg.content))
  }

  method StripOrphanedServerToolBlocks(msg: Message) returns (out: Message)
    ensures out == ServerOrphansStripped(msg)
  {
    var resultIds := ServerResultIds(msg);
    var useIds := ServerUseIds(msg);
    if resultIds == {} && useIds == {} {
      assert forall b :: b in msg.content && b.ServerToolUse? ==> b.id in ServerUseIds(msg);
      assert forall b :: b in msg.content && b.ServerToolResult? ==> b.toolUseId in ServerResultIds(msg);
      FilterAll(Sanitize.ServerMatched(useIds, resultIds), msg.content);
      return msg;
    }
    out := msg.(content := Filter(Sanitize.ServerMatched(useIds, resultIds), msg.content));
  }

  /** `rough` is the four-characters-per-token heuristic of the message type. */
  function ServerCapped(rough: Counter, maxTokens: nat, msg: Message): Message {
    if msg.role != Assistant then msg
    else
      var m := ServerOrphansStripped(msg);
      if (exists b :: b in m.content && b.ServerToolResult?) && MessageTokens(rough, m) > maxTokens
      then m.(content := Condensed(m.content)) else m
  }

  /** A server call with its result in the same message, or a server result with
      its call. */
  predicate HasPartner(bs: seq<Block>, b: Block) {
    && (b.ServerToolUse? ==> exists r :: r in bs && r.ServerToolResult? && r.toolUseId == b.id)
    && (b.ServerToolResult? ==> exists u :: u in bs && u.ServerToolUse? && u.id == b.toolUseId)
  }

  /** An assistant message keeps what has its partner, or the notes for it if
      it has a server result and is over its share. */
  lemma ServerCappedExactly(rough: Counter, maxTokens: nat, m: Message)
    ensures m.role != Assistant ==> ServerCapped(rough, maxTokens, m) == m
    ensures m.role == Assistant ==>
              var kept := Filter((b: Block) => HasPartner(m.content, b), m.content);
              var over := (exists b :: b in kept && b.ServerToolResult?) && BlocksTokens(rough, kept) + 4 > maxTokens;
              ServerCapped(rough, maxTokens, m) ==
                m.(content := if over then FlatMap(WithoutServer, kept) else kept)
  {
    FilterAgree(Sanitize.ServerMatched(ServerUseIds(m), ServerResultIds(m)), (b: Block) => HasPartner(m.content, b),
                m.content);
    CondensedExactly(ServerOrphansStripped(m).content);
  }

  method CapAssistantServerBlocks(rough: Counter, msg: Message, maxTokens: nat) returns (out: Message)
    ensures out == ServerCapped(rough, maxTokens, msg)
  {
    out := msg;
    if msg.role != Assistant {
      return;
    }
    out := StripOrphanedServerToolBlocks(out);
    var hasServerBlocks := exists b :: b in out.content && b.ServerToolResult?;
    if !hasServerBlocks {
      return;
    }
    var msgTokens := MessageTokens(rough, out);
    if msgTokens <= maxTokens {
      return;
    }
    out := CondenseServerBlocks(out);
  }

  /** `rposition` of the last assistant message, -1 if there is none. */
  function LastAssistant(ms: seq<Message>): (i: int)
    ensures -1 <= i < |ms|
    ensures i >= 0 ==> ms[i].role == Assistant
    ensures forall j :: i < j < |ms| ==> ms[j].role != Assistant
  {
    if ms == [] then -1
    else if ms[|ms| - 1].role == Assistant then |ms| - 1
    else LastAssistant(ms[..|ms| - 1])
  }

  function OldCondensed(ms: seq<Message>, i: nat): Message
    requires i < |ms|
  {
    if ms[i].role != Assistant || i == LastAssistant(ms) then ms[i]
    else ms[i].(content := Condensed(ms[i].content))
  }

  method CondenseOldServerBlocks(ms: seq<Message>) returns (out: seq<Message>)
    ensures |out| == |ms| && forall i :: 0 <= i < |ms| ==> out[i] == OldCondensed(ms, i)
  {
    var last := LastAssistant(ms);
    out := ms;
    for i := 0 to |ms|
      invariant |out| == |ms|
      invariant forall j :: i <= j < |ms| ==> out[j] == ms[j]
      invariant forall j :: 0 <= j < i ==> out[j] == OldCondensed(ms, j)
    {
      if out[i].role != Assistant || i == last {
        continue;
      }
      var m := CondenseServerBlocks(out[i]);
      out := out[i := m];
    }
  }

  function Condenser(m: Message): Message {
    if m.role == Assistant then m.(content := Condensed(m.content)) else m
  }

  method CondenseAllServerBlocks(ms: seq<Message>) returns (out: seq<Message>)
    ensures out == Map(Condenser, ms)
  {
    out := ms;
    for i := 0 to |ms|
      invariant |out| == |ms|
      invariant forall j :: i <= j < |ms| ==> out[j] == ms[j]
      invariant forall j :: 0 <= j < i ==> out[j] == Condenser(ms[j])
    {
      if out[i].role == Assistant {
        var m := CondenseServerBlocks(out[i]);
        out := out[i := m];
      }
    }
  }

  // ---- what ingestion guarantees ----------------------------------------

  predicate IsLimit(l: Limits) {
    l == CAP || l == LAYER1 || l == EMERGENCY
  }

  /** Truncated by each pair of limits in turn. */
  function SafeTruncations(s: Block, ls: seq<Limits>): Block {
    if ls == [] then s
    else SafeTruncated(SafeTruncations(s, ls[..|ls| - 1]), ls[|ls| - 1])
  }

  /** `b` comes from `s` by truncations with limits in use. */
  ghost predicate TruncatedFrom(b: Block, s: Block) {
    exists ls: seq<Limits> :: (forall l :: l in ls ==> IsLimit(l)) && b == SafeTruncations(s, ls)
  }

  /** How a stored block may differ from the one that was supplied: a
      successful tool result may have been truncated, a server call may have
      become the note that it was condensed. Nothing else changes. */
  ghost predicate Derived(b: Block, s: Block) {
    TruncatedFrom(b, s) || (s.ServerToolUse? && b == CondensedNote(s.name))
  }

  lemma DerivedSelf()
    ensures forall b: Block :: Derived(b, b)
  {
    forall b: Block ensures Derived(b, b) {
      assert SafeTruncations(b, []) == b;
    }
  }

  lemma DerivedOnce(s: Block, l: Limits)
    requires IsLimit(l)
    ensures Derived(SafeTruncated(s, l), s)
  {
    assert [l][..0] == [];
    assert SafeTruncations(s, [l]) == SafeTruncated(s, l);
  }

  lemma {:induction false} TruncationsConcat(s: Block, a: seq<Limits>, b: seq<Limits>)
    ensures SafeTruncations(SafeTruncations(s, a), b) == SafeTruncations(s, a + b)
  {
    if b == [] {
      assert a + b == a;
    } else {
      assert (a + b)[..|a + b| - 1] == a + b[..|b| - 1];
      TruncationsConcat(s, a, b[..|b| - 1]);
    }
  }

  /** Only the text of a successful result changes. */
  lemma {:induction false} TruncationsShape(s: Block, ls: seq<Limits>)
    ensures var b := SafeTruncations(s, ls);
            if s.ToolResult? && !s.isError then b.ToolResult? && b == s.(content := b.content) else b == s
  {
    if ls != [] {
      TruncationsShape(s, ls[..|ls| - 1]);
    }
  }

  lemma TruncatedShape(b: Block, s: Block)
    requires TruncatedFrom(b, s)
    ensures if s.ToolResult? && !s.isError then b.ToolResult? && b == s.(content := b.content) else b == s
  {
    var ls: seq<Limits> :| (forall l :: l in ls ==> IsLimit(l)) && b == SafeTruncations(s, ls);
    TruncationsShape(s, ls);
  }

  lemma TruncatedTrans(x: Block, y: Block, z: Block)
    requires TruncatedFrom(x, y) && TruncatedFrom(y, z)
    ensures TruncatedFrom(x, z)
  {
    var b: seq<Limits> :| (forall l :: l in b ==> IsLimit(l)) && x == SafeTruncations(y, b);
    var a: seq<Limits> :| (forall l :: l in a ==> IsLimit(l)) && y == SafeTruncations(z, a);
    TruncationsConcat(z, a, b);
    assert forall l :: l in a + b ==> IsLimit(l);
  }

  lemma DerivedTrans(x: Block, y: Block, z: Block)
    requires Derived(x, y) && Derived(y, z)
    ensures Derived(x, z)
  {
    if TruncatedFrom(x, y) && TruncatedFrom(y, z) {
      TruncatedTrans(x, y, z);
    } else if TruncatedFrom(x, y) {
      TruncatedShape(x, y);
    } else if TruncatedFrom(y, z) {
      TruncatedShape(y, z);
    }
  }

  ghost predicate AllDerived(out: seq<Block>, supplied: seq<Block>) {
    forall b :: b in out ==> exists s :: s in supplied && Derived(b, s)
  }

  lemma {:induction false} CondensedBlocks(bs: seq<Block>)
    ensures AllDerived(Condensed(bs), bs)
    ensures forall b :: b in Condensed(bs) ==> !b.ServerToolUse? && !b.ServerToolResult?
  {
    DerivedSelf();
    if bs != [] {
      var t, last := bs[..|bs| - 1], bs[|bs| - 1];
      CondensedBlocks(t);
      assert bs == t + [last];
      forall b | b in Condensed(bs) ensures exists s :: s in bs && Derived(b, s) {
        if b in Condensed(t) {
          var s :| s in t && Derived(b, s);
          assert s in bs;
        } else {
          assert last in bs && Derived(b, last);
        }
      }
    }
  }

  lemma CondensedIsPaired(m: Message)
    ensures ServerPaired(m.(content := Condensed(m.content)))
  {
    CondensedBlocks(m.content);
    var c := m.(content := Condensed(m.content));
    assert ServerUseIds(c) == {} && ServerResultIds(c) == {};
  }

  lemma StrippedIsPaired(m: Message)
    ensures ServerUseIds(ServerOrphansStripped(m)) == ServerResultIds(ServerOrphansStripped(m))
    ensures AllDerived(ServerOrphansStripped(m).content, m.content)
  {
    FilterIn(Sanitize.ServerMatched(ServerUseIds(m), ServerResultIds(m)), m.content);
    var c := ServerOrphansStripped(m);
    forall id | id in ServerUseIds(c) ensures id in ServerResultIds(c) {
      var r :| r in m.content && r.ServerToolResult? && r.toolUseId == id;
      assert r in c.content;
    }
    forall id | id in ServerResultIds(c) ensures id in ServerUseIds(c) {
      var u :| u in m.content && u.ServerToolUse? && u.id == id;
      assert u in c.content;
    }
    DerivedSelf();
  }

  lemma DerivedTransitive(a: seq<Block>, b: seq<Block>, c: seq<Block>)
    requires AllDerived(a, b) && AllDerived(b, c)
    ensures AllDerived(a, c)
  {
    forall x | x in a ensures exists z :: z in c && Derived(x, z) {
      var y :| y in b && Derived(x, y);
      var z :| z in c && Derived(y, z);
      DerivedTrans(x, y, z);
    }
  }

  /** Whatever is pushed as an assistant message is paired when it enters. */
  lemma ServerCappedSound(rough: Counter, maxTokens: nat, m: Message)
    ensures ServerPaired(ServerCapped(rough, maxTokens, m))
    ensures AllDerived(ServerCapped(rough, maxTokens, m).content, m.content)
  {
    var s := ServerOrphansStripped(m);
    StrippedIsPaired(m);
    CondensedIsPaired(s);
    CondensedBlocks(s.content);
    DerivedTransitive(Condensed(s.content), s.content, m.content);
    DerivedSelf();
  }

  lemma MappedDerived(f: Block -> Block, bs: seq<Block>)
    requires forall b :: b in bs ==> Derived(f(b), b)
    ensures AllDerived(Map(f, bs), bs)
  {
    forall b | b in Map(f, bs) ensures exists s :: s in bs && Derived(b, s) {
      var i :| 0 <= i < |bs| && Map(f, bs)[i] == b;
      assert bs[i] in bs;
    }
  }

  lemma ResultsCappedPaired(count: Counter, maxTokens: nat, m: Message)
    ensures ServerPaired(m) ==> ServerPaired(ResultsCapped(count, maxTokens, m))
  {
  }

  lemma ResultsCappedDerived(count: Counter, maxTokens: nat, m: Message)
    ensures AllDerived(ResultsCapped(count, maxTokens, m).content, m.content)
  {
    DerivedSelf();
    forall b | b in m.content ensures Derived(Capper(count, maxTokens)(b), b) {
      DerivedOnce(b, CAP);
    }
    MappedDerived(Capper(count, maxTokens), m.content);
  }

  lemma ResultsCappedSound(count: Counter, maxTokens: nat, m: Message)
    ensures ServerPaired(m) ==> ServerPaired(ResultsCapped(count, maxTokens, m))
    ensures AllDerived(ResultsCapped(count, maxTokens, m).content, m.content)
  {
    ResultsCappedPaired(count, maxTokens, m);
    ResultsCappedDerived(count, maxTokens, m);
  }
}
